/** The Anthropic emitter over a byte stream: its events depend on the bytes, not on how they were cut. */
module MessagesStream {
  import opened Wrappers
  import opened Bytes
  import opened ChatStream
  import opened SentContent
  import opened MessagesSpec
  import opened MessagesClient
  import opened MessagesContent
  import opened MessagesTheorems
  import opened MessagesEndings
  import opened MessagesDiscipline
  import opened MessagesEmitter
  import opened SseFraming
  import opened StreamChain

  /** The frames an emitter handles for a whole stream: the closed ones, and a tail that is not blank. */
  function HandledFrames(s: Framed): seq<seq<byte>> {
    Payloads(s.frames) + if IsBlank(s.rest) then [] else [s.rest]
  }

  predicate SpaceByte(b: byte) { b in {9, 10, 11, 12, 13, 32} }

  /** Every closed frame is handled without its terminator, and the tail if some byte of it is not white space. */
  lemma HandledExactly(s: Framed)
    ensures var r, n := HandledFrames(s), |s.frames|;
            && (forall i :: 0 <= i < n ==> |r| >= n && r[i] == s.frames[i].payload)
            && (if forall i :: 0 <= i < |s.rest| ==> SpaceByte(s.rest[i]) then |r| == n else |r| == n + 1 && r[n] == s.rest)
  {
  }

  /** WriteFrame for each chunk, then FinishFrames: the final state and all events. */
  function Emitted(st: State, buf: seq<byte>, chunks: seq<seq<byte>>, decode: seq<byte> -> FrameKind): Out
    decreases chunks
  {
    if chunks == [] then
      var r := Run(st, StreamItems(if IsBlank(buf) then [] else [buf], decode));
      Out(Terminated(r.st).st, r.evs + Terminated(r.st).evs)
    else
      var s := Split(buf + chunks[0]);
      var r := Run(st, StreamItems(Payloads(s.frames), decode));
      var more := Emitted(r.st, s.rest, chunks[1..], decode);
      Out(more.st, r.evs + more.evs)
  }

  /** The same events from a list of frames. */
  function Translated(st: State, frames: seq<seq<byte>>, decode: seq<byte> -> FrameKind): Out {
    var r := Run(st, StreamItems(frames, decode));
    Out(Terminated(r.st).st, r.evs + Terminated(r.st).evs)
  }

  /** Handling some frames and then the rest is handling them all. */
  lemma {:induction false} TranslatedAppend(st: State, a: seq<seq<byte>>, b: seq<seq<byte>>, decode: seq<byte> -> FrameKind)
    ensures var r := Run(st, StreamItems(a, decode));
            var more := Translated(r.st, b, decode);
            Translated(st, a + b, decode) == Out(more.st, r.evs + more.evs)
  {
    hide Run, StreamItems, Terminated;
    StreamItemsAppend(a, b, decode);
    RunAppend(st, StreamItems(a, decode), StreamItems(b, decode));
    var r := Run(st, StreamItems(a, decode));
    var q := Run(r.st, StreamItems(b, decode));
    Assoc(r.evs, q.evs, Terminated(q.st).evs);
  }

  lemma {:induction false} EmittedIs(st: State, buf: seq<byte>, chunks: seq<seq<byte>>, decode: seq<byte> -> FrameKind)
    ensures Emitted(st, buf, chunks, decode) == Translated(st, HandledFrames(Feed(buf, chunks)), decode)
    decreases chunks
  {
    hide Split, Run, StreamItems, Terminated, IsBlank;
    if chunks == [] {
      assert HandledFrames(Framed([], buf)) == if IsBlank(buf) then [] else [buf];
    } else {
      var s := Split(buf + chunks[0]);
      var t := Feed(s.rest, chunks[1..]);
      var r := Run(st, StreamItems(Payloads(s.frames), decode));
      EmittedIs(r.st, s.rest, chunks[1..], decode);
      assert Payloads(s.frames + t.frames) == Payloads(s.frames) + Payloads(t.frames);
      assert HandledFrames(Feed(buf, chunks)) == Payloads(s.frames) + HandledFrames(t);
      TranslatedAppend(st, Payloads(s.frames), HandledFrames(t), decode);
    }
  }

  /**
   Whatever the segmentation, and with or without the relay in between, the emitter authors the
   translation of the frames of the whole byte stream.
   */
  lemma {:induction false} EmitterIndependent(invented: string, chunks: seq<seq<byte>>, decode: seq<byte> -> FrameKind,
                           artifact: seq<byte> -> bool)
    ensures var whole := Translated(Initial(invented), HandledFrames(Split(Concat(chunks))), decode);
            && Emitted(Initial(invented), [], chunks, decode) == whole
            && Emitted(Initial(invented), [], Relay([], chunks, false, artifact), decode) == whole
  {
    hide Split, Feed, Relay, Translated, Emitted, HandledFrames;
    assert [] + Concat(chunks) == Concat(chunks);
    EmittedIs(Initial(invented), [], chunks, decode);
    FeedIndependent([], chunks);
    EmittedIs(Initial(invented), [], Relay([], chunks, false, artifact), decode);
    RelayThenFeed(chunks, false, artifact);
    UnstrippedAll(Split(Concat(chunks)).frames, artifact);
  }

  /**
   Endings and content of the whole path, from bytes cut anywhere to the client's blocks: the client fails if and only if
   some frame breaks the stream, a message that did not fail is closed, and the blocks hold the text, the reasoning and
   the calls of the decoded choices.
   */
  lemma StreamFaithful(invented: string, chunks: seq<seq<byte>>, decode: seq<byte> -> FrameKind)
      returns (c: Client, owner: seq<int>)
    ensures var r, frames := Emitted(Initial(invented), [], chunks, decode), HandledFrames(Split(Concat(chunks)));
            var chs := Choices(SentChunks(frames, decode));
            && AcceptAll(Fresh, r.evs) == Some(c)
            && c.failed == Broken(frames, decode) && c.started == (chs != []) && c.stopped == (c.started && !c.failed)
            && (c.stopped ==> AllClosed(c.blocks))
            && |owner| == |c.blocks|
            && (forall k :: ReadProse(c.blocks, k) == SentProse(chs, k))
            && (forall i :: var cs := ReadCalls(c.blocks, owner, i); SentCalls(Marks(chs), i, CallIds(cs)).calls == cs)
  {
    hide Split, Emitted, HandledFrames, Run, StreamItems, AcceptAll, ReadProse, SentProse, ReadCalls, SentCalls, Marks,
         Choices, SentChunks, Broken, Terminated, BooksOf, Closes;
    var frames := HandledFrames(Split(Concat(chunks)));
    EmitterIndependent(invented, chunks, decode, _ => false);
    var d := Ending(invented, frames, decode);
    c, owner := ContentSimulation(invented, frames, decode);
  }
}
