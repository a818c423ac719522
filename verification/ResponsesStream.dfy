/** The Responses emitter over a byte stream: its events depend on the bytes, not on how they were cut. */
module ResponsesStream {
  import opened Wrappers
  import opened Bytes
  import opened ChatStream
  import opened SentContent
  import opened ResponsesSpec
  import opened ResponsesClient
  import opened ResponsesLifecycle
  import opened ResponsesTheorems
  import opened ResponsesContent
  import opened ResponsesEndings
  import opened SseFraming
  import opened StreamChain
  import M = MessagesEmitter
  import S = MessagesStream

  /** WriteFrame for each chunk, then FinishFrames: the final state and all events. */
  function Emitted(st: State, buf: seq<byte>, chunks: seq<seq<byte>>, decode: seq<byte> -> FrameKind): Out
    decreases chunks
  {
    if chunks == [] then Translated(st, if M.IsBlank(buf) then [] else [buf], decode)
    else
      var s := Split(buf + chunks[0]);
      var r := Run(st, M.Payloads(s.frames), decode);
      var more := Emitted(r.st, s.rest, chunks[1..], decode);
      Out(more.st, r.evs + more.evs)
  }

  /** The same events from a list of frames. */
  function Translated(st: State, frames: seq<seq<byte>>, decode: seq<byte> -> FrameKind): Out {
    var r := Run(st, frames, decode);
    Out(Terminated(r.st).st, r.evs + Terminated(r.st).evs)
  }

  lemma {:induction false} TranslatedAppend(st: State, a: seq<seq<byte>>, b: seq<seq<byte>>, decode: seq<byte> -> FrameKind)
    ensures var r := Run(st, a, decode);
            var more := Translated(r.st, b, decode);
            Translated(st, a + b, decode) == Out(more.st, r.evs + more.evs)
  {
    hide Run, Terminated;
    RunAppend(st, a, b, decode);
    var r := Run(st, a, decode);
    var q := Run(r.st, b, decode);
    Assoc(r.evs, q.evs, Terminated(q.st).evs);
  }

  lemma {:induction false} EmittedIs(st: State, buf: seq<byte>, chunks: seq<seq<byte>>, decode: seq<byte> -> FrameKind)
    ensures Emitted(st, buf, chunks, decode) == Translated(st, S.HandledFrames(Feed(buf, chunks)), decode)
    decreases chunks
  {
    hide Split, Run, Terminated, Translated, M.IsBlank;
    if chunks == [] {
      assert S.HandledFrames(Framed([], buf)) == if M.IsBlank(buf) then [] else [buf];
    } else {
      var s := Split(buf + chunks[0]);
      var t := Feed(s.rest, chunks[1..]);
      var r := Run(st, M.Payloads(s.frames), decode);
      EmittedIs(r.st, s.rest, chunks[1..], decode);
      assert M.Payloads(s.frames + t.frames) == M.Payloads(s.frames) + M.Payloads(t.frames);
      assert S.HandledFrames(Feed(buf, chunks)) == M.Payloads(s.frames) + S.HandledFrames(t);
      TranslatedAppend(st, M.Payloads(s.frames), S.HandledFrames(t), decode);
    }
  }

  /** Whatever the segmentation, and with or without the relay in between. */
  lemma {:induction false} EmitterIndependent(invented: string, chunks: seq<seq<byte>>, decode: seq<byte> -> FrameKind,
                           artifact: seq<byte> -> bool)
    ensures var whole := Translated(Initial(invented), S.HandledFrames(Split(Concat(chunks))), decode);
            && Emitted(Initial(invented), [], chunks, decode) == whole
            && Emitted(Initial(invented), [], Relay([], chunks, false, artifact), decode) == whole
  {
    hide Split, Feed, Relay, Translated, Emitted, S.HandledFrames;
    assert [] + Concat(chunks) == Concat(chunks);
    EmittedIs(Initial(invented), [], chunks, decode);
    FeedIndependent([], chunks);
    EmittedIs(Initial(invented), [], Relay([], chunks, false, artifact), decode);
    RelayThenFeed(chunks, false, artifact);
    UnstrippedAll(Split(Concat(chunks)).frames, artifact);
  }

  /**
   Endings and content of the whole path, from bytes cut anywhere to the client's items: the end mark comes exactly when a
   response opened and did not fail, and the items hold the text, the reasoning and the calls of the decoded choices.
   */
  lemma StreamLifecycle(invented: string, chunks: seq<seq<byte>>, decode: seq<byte> -> FrameKind)
      returns (c: Client, calls: seq<RespCall>)
    requires var frames := S.HandledFrames(Split(Concat(chunks)));
             NeverReuses(Initial(invented), StreamItems(frames, decode))
             && QuietAfterFinish(Initial(invented), frames, decode)
    ensures var r, frames := Emitted(Initial(invented), [], chunks, decode), S.HandledFrames(Split(Concat(chunks)));
            var chs := Choices(Heard(frames, decode));
            && AcceptAll(Fresh, r.evs) == Some(c)
            && c.view.ended == (chs != [] || Fails(frames, decode)) && c.view.ok == c.view.marked
            && c.view.marked == (chs != [] && !Fails(frames, decode)) && (c.view.marked ==> AllDone(c.view.items))
            && Select(c.view.items, Messages) == TextItem(SentProse(chs, Text))
            && Select(c.view.items, Reasonings) == ThoughtItem(SentProse(chs, Thinking))
            && Select(c.view.items, Calls) == CallValues(calls) && CallsOf(calls, Deltas(chs))
  {
    hide Select, TextItem, ThoughtItem, SentProse, CallsOf, CallValues, Choices, Heard, Deltas, Fails, Reports, Terminated;
    hide Split, Emitted, S.HandledFrames, Run, AcceptAll, NeverReuses, QuietAfterFinish, StreamItems;
    var frames := S.HandledFrames(Split(Concat(chunks)));
    EmitterIndependent(invented, chunks, decode, _ => false);
    c := Ending(invented, frames, decode);
    var d, cs := ContentHeld(invented, frames, decode);
    calls := cs;
  }
}
