/**
 The whole response path of proxy/proxy.go:1475-1492: upstream writes go through the model rewriter, the SSE relay and
 a dialect emitter to the client.
 */
module Pipeline {
  import opened Wrappers
  import opened Bytes
  import opened ChatStream
  import opened SentContent
  import opened JsonString
  import opened ModelStream
  import opened ModelSegmentation
  import opened SseFraming
  import opened StreamChain
  import MS = MessagesSpec
  import MC = MessagesClient
  import MN = MessagesContent
  import MT = MessagesTheorems
  import ME = MessagesEndings
  import M = MessagesStream
  import RS = ResponsesSpec
  import RC = ResponsesClient
  import RL = ResponsesLifecycle
  import RT = ResponsesContent
  import RE = ResponsesEndings
  import R = ResponsesStream

  /** What the emitter is written: the relay's deliveries of the rewriter's writes. */
  function Delivered(chunks: seq<seq<byte>>, oldModel: seq<byte>, newModel: seq<byte>,
                     strip: bool, artifact: seq<byte> -> bool): seq<seq<byte>> {
    Relay([], RewriterWrites([], chunks, oldModel, newModel), strip, artifact)
  }

  /** The frames of the rewritten stream, minus the stripped ones. */
  function FramesOf(stream: seq<byte>, strip: bool, artifact: seq<byte> -> bool): seq<seq<byte>> {
    var s := Split(stream);
    M.HandledFrames(Framed(Unstripped(s.frames, strip, artifact), s.rest))
  }

  /** Whatever the segmentation, the emitter is fed the frames of the rewritten stream. */
  lemma {:induction false} FedFrames(chunks: seq<seq<byte>>, oldModel: seq<byte>, newModel: seq<byte>,
                  strip: bool, artifact: seq<byte> -> bool)
    requires PlainName(newModel) && Separable(Concat(chunks), Quoted(oldModel))
    ensures M.HandledFrames(Feed([], Delivered(chunks, oldModel, newModel, strip, artifact)))
         == FramesOf(Rewritten(Concat(chunks), oldModel, newModel), strip, artifact)
  {
    hide Relay, RelayWhole, Feed, Split, Unstripped, Rewritten, RewriterWrites, Concat, PlainName, Separable;
    var whole := Rewritten(Concat(chunks), oldModel, newModel);
    ChainIndependent(chunks, oldModel, newModel, strip, artifact);
    assert Concat([whole]) == whole by { OneChunk(whole); }
    assert Relay([], [whole], strip, artifact) == RelayWhole(whole, strip, artifact) by {
      NoFrameInNothing();
      assert [] + whole == whole;
      RelayIndependent([], [whole], strip, artifact);
    }
    RelayThenFeed([whole], strip, artifact);
  }

  lemma OneChunk(b: seq<byte>)
    ensures Concat([b]) == b
  {
    assert [b][1..] == [];
  }

  lemma NoFrameInNothing()
    ensures FrameEnd([]) < 0
  {
  }

  /**
   Anthropic clients, from upstream bytes cut anywhere: the client accepts every authored event, fails if and only if some
   frame of the rewritten stream breaks it, has its message closed otherwise, and its blocks hold exactly the text, the
   reasoning and the calls of the decoded choices.
   */
  lemma MessagesPipeline(invented: string, chunks: seq<seq<byte>>, oldModel: seq<byte>, newModel: seq<byte>,
                         strip: bool, artifact: seq<byte> -> bool, decode: seq<byte> -> FrameKind)
      returns (c: MC.Client, owner: seq<int>)
    requires PlainName(newModel) && Separable(Concat(chunks), Quoted(oldModel))
    ensures var r := M.Emitted(MS.Initial(invented), [], Delivered(chunks, oldModel, newModel, strip, artifact), decode);
            var frames := FramesOf(Rewritten(Concat(chunks), oldModel, newModel), strip, artifact);
            var chs := Choices(SentChunks(frames, decode));
            && MC.AcceptAll(MC.Fresh, r.evs) == Some(c)
            && c.failed == Broken(frames, decode) && c.started == (chs != []) && c.stopped == (c.started && !c.failed)
            && (c.stopped ==> MC.AllClosed(c.blocks))
            && |owner| == |c.blocks|
            && (forall k :: MC.ReadProse(c.blocks, k) == SentProse(chs, k))
            && (forall i :: var cs := MC.ReadCalls(c.blocks, owner, i); MT.SentCalls(Marks(chs), i, MN.CallIds(cs)).calls == cs)
  {
    hide Delivered, FramesOf, Rewritten, Feed, Concat, PlainName, Separable, Choices, SentChunks, SentProse, Marks, Broken;
    hide M.HandledFrames, M.Emitted, MS.Run, MS.StreamItems, MS.Terminated, MC.AcceptAll, MC.ReadProse, MC.ReadCalls,
         MT.SentCalls, BooksOf, ME.Closes;
    var st := MS.Initial(invented);
    var fed := Delivered(chunks, oldModel, newModel, strip, artifact);
    var frames := FramesOf(Rewritten(Concat(chunks), oldModel, newModel), strip, artifact);
    FedFrames(chunks, oldModel, newModel, strip, artifact);
    M.EmittedIs(st, [], fed, decode);
    var d := ME.Ending(invented, frames, decode);
    c, owner := MT.ContentSimulation(invented, frames, decode);
  }

  /** Responses clients, likewise, when no tool index is reopened and nothing speaks behind a finish reason. */
  lemma ResponsesPipeline(invented: string, chunks: seq<seq<byte>>, oldModel: seq<byte>, newModel: seq<byte>,
                          strip: bool, artifact: seq<byte> -> bool, decode: seq<byte> -> FrameKind)
      returns (c: RC.Client, calls: seq<RS.RespCall>)
    requires PlainName(newModel) && Separable(Concat(chunks), Quoted(oldModel))
    requires var frames := FramesOf(Rewritten(Concat(chunks), oldModel, newModel), strip, artifact);
             RL.NeverReuses(RS.Initial(invented), RS.StreamItems(frames, decode))
             && RS.QuietAfterFinish(RS.Initial(invented), frames, decode)
    ensures var r := R.Emitted(RS.Initial(invented), [], Delivered(chunks, oldModel, newModel, strip, artifact), decode);
            var frames := FramesOf(Rewritten(Concat(chunks), oldModel, newModel), strip, artifact);
            var chs := Choices(Heard(frames, decode));
            && RC.AcceptAll(RC.Fresh, r.evs) == Some(c)
            && c.view.ended == (chs != [] || RE.Fails(frames, decode)) && c.view.ok == c.view.marked
            && c.view.marked == (chs != [] && !RE.Fails(frames, decode)) && (c.view.marked ==> RC.AllDone(c.view.items))
            && RC.Select(c.view.items, RC.Messages) == RT.TextItem(SentProse(chs, Text))
            && RC.Select(c.view.items, RC.Reasonings) == RT.ThoughtItem(SentProse(chs, Thinking))
            && RC.Select(c.view.items, RC.Calls) == RS.CallValues(calls) && RT.CallsOf(calls, Deltas(chs))
  {
    hide Delivered, FramesOf, Rewritten, Feed, Concat, PlainName, Separable, M.HandledFrames, Choices, Heard, SentProse, Deltas;
    hide R.Emitted, RS.Run, RS.StreamItems, RS.Terminated, RC.AcceptAll, RC.Select, RT.CallsOf, RS.CallValues, RT.TextItem,
         RT.ThoughtItem, RL.NeverReuses, RS.QuietAfterFinish, RE.Fails, RE.Reports;
    var st := RS.Initial(invented);
    var fed := Delivered(chunks, oldModel, newModel, strip, artifact);
    var frames := FramesOf(Rewritten(Concat(chunks), oldModel, newModel), strip, artifact);
    FedFrames(chunks, oldModel, newModel, strip, artifact);
    R.EmittedIs(st, [], fed, decode);
    c := RE.Ending(invented, frames, decode);
    var d, cs := RT.ContentHeld(invented, frames, decode);
    calls := cs;
  }
}
