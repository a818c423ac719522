/**
 The Anthropic emitter of convert/stream.go as a step function over decoded items: which events
 each item produces and how the emitter's fields move.
 */
module MessagesSpec {
  import opened Wrappers
  import opened Bytes
  import opened ChatStream

  /** A tool_use block that is open, keyed by the chat `tool_calls` index it streams. */
  datatype ToolBlock = ToolBlock(idx: int, blk: int, id: string)

  datatype State = State(
    id: string, model: string, invented: string,
    open: int, kind: Option<Kind>, tools: seq<ToolBlock>, next: int,
    stop: string, inputTok: int, outputToks: int,
    started: bool, failed: bool, notes: seq<string>)

  function Initial(invented: string): State {
    State("", "", invented, -1, None, [], 0, "end_turn", -1, 0, false, false, [])
  }

  datatype BlockKind = TextBlock | ThinkingBlock | ToolUse(id: string, name: string)
  datatype Delta = TextDelta(s: string) | ThinkingDelta(s: string) | InputJson(s: string)

  datatype Event =
    | MessageStart(id: string, model: string, inputTokens: int)
    | BlockStart(index: int, block: BlockKind)
    | BlockDelta(index: int, delta: Delta)
    | BlockStop(index: int)
    | MessageDelta(stopReason: string, outputTokens: int, reportedInput: Option<int>)
    | MessageStop
    | ErrorEvent(code: string, msg: string)
    | Forwarded(frame: seq<byte>)

  datatype Out = Out(st: State, evs: seq<Event>)

  function StartOf(k: Kind): BlockKind {
    match k case Text => TextBlock case Thinking => ThinkingBlock
  }

  function DeltaOf(k: Kind, s: string): Delta {
    match k case Text => TextDelta(s) case Thinking => ThinkingDelta(s)
  }

  function ReadUsage(st: State, u: Option<Usage>): State {
    match u
    case None => st
    case Some(u) => st.(inputTok := u.prompt - u.cached, outputToks := u.completion)
  }

  function CloseText(st: State): Out {
    if st.kind == None then Out(st, [])
    else Out(st.(kind := None), [BlockStop(st.open)])
  }

  /** The block the index owns: the last entry with that index. */
  function Lookup(tools: seq<ToolBlock>, idx: int): Option<ToolBlock> {
    if tools == [] then None
    else if tools[|tools| - 1].idx == idx then Some(tools[|tools| - 1])
    else Lookup(tools[..|tools| - 1], idx)
  }

  function Without(tools: seq<ToolBlock>, idx: int): seq<ToolBlock> {
    if tools == [] then []
    else Without(tools[..|tools| - 1], idx) + if tools[|tools| - 1].idx != idx then [tools[|tools| - 1]] else []
  }

  function Stops(tools: seq<ToolBlock>): seq<Event> {
    if tools == [] then [] else Stops(tools[..|tools| - 1]) + [BlockStop(tools[|tools| - 1].blk)]
  }

  function CloseAll(st: State): Out {
    var c := CloseText(st);
    Out(c.st.(tools := []), c.evs + Stops(c.st.tools))
  }

  function ArgsDelta(blk: int, args: string): seq<Event> {
    if args == "" then [] else [BlockDelta(blk, InputJson(args))]
  }

  function Prosed(st: State, k: Kind, s: string): Out {
    if s == "" then Out(st, [])
    else if st.kind != Some(k) then
      var c := CloseText(st);
      Out(c.st.(kind := Some(k), open := st.next, next := st.next + 1),
          c.evs + [BlockStart(st.next, StartOf(k)), BlockDelta(st.next, DeltaOf(k, s))])
    else Out(st, [BlockDelta(st.open, DeltaOf(k, s))])
  }

  /** The id a new block carries. */
  function NewId(st: State, d: ToolDelta): string {
    if d.id == "" then "toolu_" + Itoa(st.next) else d.id
  }

  function Called(st: State, d: ToolDelta): Out {
    var t := Lookup(st.tools, d.index);
    if t.Some? && (d.id == "" || d.id == t.value.id) then Out(st, ArgsDelta(t.value.blk, d.args))
    else
      var c := if t.Some? then Out(st.(tools := Without(st.tools, d.index)), [BlockStop(t.value.blk)])
               else CloseText(st);
      var id := NewId(st, d);
      Out(c.st.(tools := c.st.tools + [ToolBlock(d.index, st.next, id)], next := st.next + 1),
          c.evs + [BlockStart(st.next, ToolUse(id, d.name))] + ArgsDelta(st.next, d.args))
  }

  function DeltaEvent(st: State): Event {
    MessageDelta(st.stop, st.outputToks, if st.inputTok >= 0 then Some(st.inputTok) else None)
  }

  function Finished(st: State, reason: string): Out {
    var n := FinishNote(reason);
    var s := st.(stop := StopReason(reason), notes := if n != "" then Noted(st.notes, n) else st.notes);
    var c := CloseAll(s);
    Out(c.st, c.evs + [DeltaEvent(c.st)])
  }

  function Started(st: State): Out {
    if st.started then Out(st, [])
    else Out(st.(started := true),
             [MessageStart(if st.id == "" then st.invented else st.id, st.model, if st.inputTok < 0 then 0 else st.inputTok)])
  }

  /** One item of the stream. Nothing is authored after a failure. */
  function Step(st: State, it: Item): Out {
    if st.failed then Out(st, [])
    else match it
      case Head(id, model, usage) =>
        Out(ReadUsage(st.(id := if id != "" then id else st.id, model := if model != "" then model else st.model), usage), [])
      case Begin(usage, lost) =>
        Started(ReadUsage(st, usage).(notes := NotedAll(st.notes, lost)))
      case Prose(k, s) => Prosed(st, k, s)
      case Tool(d) => Called(st, d)
      case Finish(reason) => Finished(st, reason)
      case Forward(frame) => Out(st, [Forwarded(frame)])
      case Fail(code, msg, note) =>
        Out(st.(failed := true, notes := if note != "" then Noted(st.notes, note) else st.notes), [ErrorEvent(code, msg)])
  }

  function Run(st: State, items: seq<Item>): Out {
    if items == [] then Out(st, [])
    else
      var p := Run(st, items[..|items| - 1]);
      var q := Step(p.st, items[|items| - 1]);
      Out(q.st, p.evs + q.evs)
  }

  lemma {:induction false} RunAppend(st: State, a: seq<Item>, b: seq<Item>)
    ensures var p := Run(st, a);
            var q := Run(p.st, b);
            Run(st, a + b) == Out(q.st, p.evs + q.evs)
  {
    if b == [] {
      assert a + b == a;
    } else {
      var n := |b| - 1;
      assert (a + b)[..|a + b| - 1] == a + b[..n] && (a + b)[|a + b| - 1] == b[n];
      RunAppend(st, a, b[..n]);
      var p := Run(st, a);
      var q := Run(p.st, b[..n]);
      Assoc(p.evs, q.evs, Step(q.st, b[n]).evs);
    }
  }

  /** The closing events of a stream that was opened and did not fail. */
  function Terminated(st: State): Out {
    if !st.started || st.failed then Out(st, [])
    else
      var c := CloseAll(st);
      Out(c.st, c.evs + [DeltaEvent(c.st), MessageStop])
  }

  const UNTRANSLATED: Item :=
    Fail("api_error", "upstream sent a stream frame this proxy cannot translate", "frame=untranslated")

  function TrimLineEnds(b: seq<byte>): seq<byte> {
    if b != [] && (b[|b| - 1] == CR || b[|b| - 1] == LF) then TrimLineEnds(b[..|b| - 1]) else b
  }

  /** A forwarded frame with one normal terminator. */
  function Reframe(b: seq<byte>): seq<byte> {
    TrimLineEnds(b) + [LF, LF]
  }

  function FrameItems(frame: seq<byte>, decode: seq<byte> -> FrameKind): seq<Item> {
    match decode(frame)
    case Inert => []
    case Native => [Forward(Reframe(frame))]
    case UpstreamError(code, msg) => [Fail(code, msg, "")]
    case Foreign => [UNTRANSLATED]
    case ChatChunk(c) => ChunkItems(c)
  }

  /** The items of the frames of a stream, in order. */
  function StreamItems(frames: seq<seq<byte>>, decode: seq<byte> -> FrameKind): seq<Item> {
    if frames == [] then []
    else StreamItems(frames[..|frames| - 1], decode) + FrameItems(frames[|frames| - 1], decode)
  }
}
