/**
 The Responses emitter of convert/stream_responses.go as a step function over decoded items.
 Item ids, which are hashes, and timestamps are left out of the events.
 */
module ResponsesSpec {
  import opened Wrappers
  import opened Bytes
  import opened ChatStream

  /** One streamed function call. Calls are never removed from the emitter's list. */
  datatype RespCall = RespCall(idx: int, item: int, id: string, name: string, args: string)

  datatype State = State(
    id: string, model: string, invented: string, seqNo: int,
    started: bool, finished: bool, failed: bool,
    inputTok: int, outputToks: int, cachedTok: int, stop: string,
    text: string, reasoning: string, msgItem: int, rsItem: int,
    calls: seq<RespCall>, next: int, notes: seq<string>)

  function Initial(invented: string): State {
    State("", "", invented, 0, false, false, false, -1, 0, 0, "", "", "", -1, -1, [], 0, [])
  }

  datatype ItemValue = MessageItem(text: string) | ReasoningItem(text: string) | CallItem(callId: string, name: string, args: string)

  datatype Status = Completed | Incomplete(reason: string) | Failed

  datatype Body =
    | Created(id: string, model: string)
    | InProgress(id: string, model: string)
    | ItemAdded(oi: int, item: ItemValue)
    | PartAdded(oi: int)
    | TextDelta(oi: int, s: string)
    | TextDone(oi: int, s: string)
    | PartDone(oi: int, s: string)
    | ReasoningDelta(oi: int, s: string)
    | ReasoningDone(oi: int, s: string)
    | ArgsDelta(oi: int, callId: string, s: string)
    | ArgsDone(oi: int, callId: string, s: string)
    | ItemDone(oi: int, item: ItemValue)
    | Terminal(status: Status, output: seq<ItemValue>, inputTokens: int, outputTokens: int, cachedTokens: int)
    | ErrorBody(code: string, msg: string)

  /** Authored events carry a sequence number; forwarded frames and the end mark do not. */
  datatype Event = Ev(n: int, body: Body) | Forwarded(frame: seq<byte>) | DoneMark

  datatype Out = Out(st: State, evs: seq<Event>)

  /** A state change and the event bodies it says, before they are numbered. */
  datatype Said = Said(st: State, bodies: seq<Body>)

  function Numbered(from: int, bodies: seq<Body>): (r: seq<Event>)
    ensures |r| == |bodies| && forall i :: 0 <= i < |r| ==> r[i] == Ev(from + 1 + i, bodies[i])
  {
    seq(|bodies|, i requires 0 <= i < |bodies| => Ev(from + 1 + i, bodies[i]))
  }

  function Emit(s: Said): Out {
    Out(s.st.(seqNo := s.st.seqNo + |s.bodies|), Numbered(s.st.seqNo, s.bodies))
  }

  function ReadUsage(st: State, u: Option<Usage>): State {
    match u
    case None => st
    case Some(u) => st.(inputTok := u.prompt - u.cached, outputToks := u.completion, cachedTok := u.cached)
  }

  function Started(st: State): Said {
    if st.started then Said(st, [])
    else
      var s := st.(started := true, id := if st.id == "" then st.invented else st.id);
      Said(s, [Created(s.id, s.model), InProgress(s.id, s.model)])
  }

  function Texted(st: State, s: string): Said {
    if s == "" then Said(st, [])
    else
      var i := if st.msgItem < 0 then st.next else st.msgItem;
      var head := if st.msgItem < 0 then [ItemAdded(i, MessageItem("")), PartAdded(i)] else [];
      Said(st.(msgItem := i, next := if st.msgItem < 0 then st.next + 1 else st.next, text := st.text + s),
           head + [TextDelta(i, s)])
  }

  function Reasoned(st: State, s: string): Said {
    if s == "" then Said(st, [])
    else
      var i := if st.rsItem < 0 then st.next else st.rsItem;
      var head := if st.rsItem < 0 then [ItemAdded(i, ReasoningItem(""))] else [];
      Said(st.(rsItem := i, next := if st.rsItem < 0 then st.next + 1 else st.next, reasoning := st.reasoning + s),
           head + [ReasoningDelta(i, s)])
  }

  /** Position of the first call with that index, |calls| when there is none. */
  function FirstCall(calls: seq<RespCall>, idx: int): (r: nat)
    ensures r <= |calls| && (r < |calls| ==> calls[r].idx == idx)
    ensures forall i :: 0 <= i < r ==> calls[i].idx != idx
  {
    if calls == [] then 0 else if calls[0].idx == idx then 0 else 1 + FirstCall(calls[1..], idx)
  }

  function CallDone(c: RespCall): seq<Body> {
    [ArgsDone(c.item, c.id, c.args), ItemDone(c.item, CallItem(c.id, c.name, c.args))]
  }

  function ArgsBody(c: RespCall, s: string): seq<Body> {
    if s == "" then [] else [ArgsDelta(c.item, c.id, s)]
  }

  /** The guard of the branch that treats an index as a new call because its id changed. */
  predicate Reuses(st: State, d: ToolDelta) {
    var a := FirstCall(st.calls, d.index);
    a < |st.calls| && d.id != "" && d.id != st.calls[a].id
  }

  function NewCall(st: State, d: ToolDelta): RespCall {
    RespCall(d.index, st.next, if d.id == "" then "call_" + Itoa(st.next) else d.id, d.name, "")
  }

  function Called(st: State, d: ToolDelta): Said {
    var a := FirstCall(st.calls, d.index);
    if a < |st.calls| && !Reuses(st, d) then
      var c := st.calls[a];
      Said(st.(calls := st.calls[a := c.(args := c.args + d.args)]), ArgsBody(c, d.args))
    else
      var closing := if a < |st.calls| then CallDone(st.calls[a]) else [];
      var c := NewCall(st, d);
      Said(st.(calls := st.calls + [c.(args := d.args)], next := st.next + 1),
           closing + [ItemAdded(c.item, CallItem(c.id, c.name, ""))] + ArgsBody(c, d.args))
  }

  function CallsDone(calls: seq<RespCall>): seq<Body> {
    if calls == [] then [] else CallsDone(calls[..|calls| - 1]) + CallDone(calls[|calls| - 1])
  }

  function ItemsDone(st: State): seq<Body> {
    (if st.msgItem >= 0
     then [TextDone(st.msgItem, st.text), PartDone(st.msgItem, st.text), ItemDone(st.msgItem, MessageItem(st.text))] else [])
    + (if st.rsItem >= 0
       then [ReasoningDone(st.rsItem, st.reasoning), ItemDone(st.rsItem, ReasoningItem(st.reasoning))] else [])
    + CallsDone(st.calls)
  }

  function CallValues(calls: seq<RespCall>): seq<ItemValue> {
    if calls == [] then []
    else CallValues(calls[..|calls| - 1])
         + [CallItem(calls[|calls| - 1].id, calls[|calls| - 1].name, calls[|calls| - 1].args)]
  }

  function Items(st: State): seq<ItemValue> {
    (if st.rsItem >= 0 then [ReasoningItem(st.reasoning)] else [])
    + (if st.msgItem >= 0 then [MessageItem(st.text)] else [])
    + CallValues(st.calls)
  }

  /** responsesStatus, with the failure case of `terminal`. */
  function StatusOf(st: State): Status {
    if st.failed then Failed
    else if st.stop == "length" then Incomplete("max_output_tokens")
    else if st.stop == "content_filter" || st.stop == "refusal" then Incomplete("content_filter")
    else Completed
  }

  function TerminalOf(st: State): Body {
    Terminal(StatusOf(st), Items(st), if st.inputTok < 0 then 0 else st.inputTok, st.outputToks, st.cachedTok)
  }

  function Finished(st: State, reason: string): Said {
    var n := FinishNote(reason);
    var s := st.(notes := if n != "" then Noted(st.notes, n) else st.notes);
    if reason == "error" then
      var f := s.(notes := Noted(s.notes, "finish_reason=error"), failed := true, finished := true);
      Said(f, [TerminalOf(f)])
    else
      var f := s.(stop := reason, finished := true);
      Said(f, ItemsDone(f) + [TerminalOf(f)])
  }

  /** What one item says. It does not look at `finished`: only a new frame does. */
  function Says(st: State, it: Item): Said {
    match it
    case Head(id, model, usage) =>
      Said(ReadUsage(st.(id := if id != "" then id else st.id, model := if model != "" then model else st.model), usage), [])
    case Begin(usage, lost) =>
      Started(ReadUsage(st, usage).(notes := NotedAll(st.notes, lost)))
    case Prose(k, s) => if k == Thinking then Reasoned(st, s) else Texted(st, s)
    case Tool(d) => Called(st, d)
    case Finish(reason) => Finished(st, reason)
    case Forward(_) => Said(st, [])
    case Fail(code, msg, note) =>
      Said(st.(failed := true, notes := Noted(st.notes, note)), [ErrorBody(code, msg)])
  }

  function Step(st: State, it: Item): Out {
    if it.Forward? then Out(st, [Forwarded(it.frame)]) else Emit(Says(st, it))
  }

  predicate Over(st: State) { st.failed || st.finished }

  function Steps(st: State, items: seq<Item>): Out {
    if items == [] then Out(st, [])
    else
      var p := Steps(st, items[..|items| - 1]);
      var q := Step(p.st, items[|items| - 1]);
      Out(q.st, p.evs + q.evs)
  }

  const UNTRANSLATED: Item :=
    Fail("server_error", "upstream sent a stream frame this proxy cannot translate", "frame=untranslated")

  predicate IsSpace(b: byte) { 9 <= b <= 13 || b == SPACE }

  /** bytes.TrimSpace on ASCII white space. */
  function TrimSpace(b: seq<byte>): seq<byte> {
    if b == [] then [] else if IsSpace(b[0]) then TrimSpace(b[1..])
    else if IsSpace(b[|b| - 1]) then TrimSpace(b[..|b| - 1]) else b
  }

  /** `event:` and `data:`. */
  const EVENT: seq<byte> := [101, 118, 101, 110, 116, 58]
  const DATA: seq<byte> := [100, 97, 116, 97, 58]

  predicate HasPrefix(b: seq<byte>, p: seq<byte>) { |p| <= |b| && b[..|p|] == p }

  /** A native event with one normal terminator; only one named by an `event:` line keeps its field names. */
  function Reframed(frame: seq<byte>): seq<byte> {
    var data := TrimSpace(frame);
    if HasPrefix(data, EVENT) then data + [LF, LF]
    else TrimSpace(if HasPrefix(data, DATA) then data[|DATA|..] else data) + [LF, LF]
  }

  function FrameItems(frame: seq<byte>, decode: seq<byte> -> FrameKind): seq<Item> {
    match decode(frame)
    case Inert => []
    case Native => [Forward(Reframed(frame))]
    case UpstreamError(code, msg) => [Fail(code, msg, "finish_reason=error")]
    case Foreign => [UNTRANSLATED]
    case ChatChunk(c) => ChunkItems(c)
  }

  /** One frame: nothing once the stream is over, otherwise all of its items. */
  function FrameStep(st: State, frame: seq<byte>, decode: seq<byte> -> FrameKind): Out {
    if Over(st) then Out(st, []) else Steps(st, FrameItems(frame, decode))
  }

  function Run(st: State, frames: seq<seq<byte>>, decode: seq<byte> -> FrameKind): Out {
    if frames == [] then Out(st, [])
    else
      var p := Run(st, frames[..|frames| - 1], decode);
      var q := FrameStep(p.st, frames[|frames| - 1], decode);
      Out(q.st, p.evs + q.evs)
  }

  /** The end of the stream: what is still owed, then the end mark. */
  function Terminated(st: State): Out {
    if !st.started || st.failed then Out(st, [])
    else
      var o := if st.finished then Out(st, [])
               else
                 var e := Emit(Said(st, ItemsDone(st) + [TerminalOf(st)]));
                 Out(e.st.(finished := true), e.evs);
      Out(o.st, o.evs + [DoneMark])
  }

  // ---- What forwarding keeps of a native event

  lemma {:induction false} TrimSpaceShrinks(b: seq<byte>)
    ensures |TrimSpace(b)| <= |b|
    ensures TrimSpace(b) == [] || (!IsSpace(TrimSpace(b)[0]) && !IsSpace(TrimSpace(b)[|TrimSpace(b)| - 1]))
    decreases |b|
  {
    if b != [] {
      if IsSpace(b[0]) {
        TrimSpaceShrinks(b[1..]);
      } else if IsSpace(b[|b| - 1]) {
        TrimSpaceShrinks(b[..|b| - 1]);
      }
    }
  }

  lemma {:induction false} TrimSpaceTwice(b: seq<byte>)
    ensures TrimSpace(TrimSpace(b)) == TrimSpace(b)
  {
    TrimSpaceShrinks(b);
  }

  lemma NoEventLine(b: seq<byte>)
    requires b != [] && b[0] == 100
    ensures !HasPrefix(b, EVENT)
  {
    assert |b| >= |EVENT| ==> b[..|EVENT|][0] == b[0];
  }

  lemma {:induction false} ReframedExactly(frame: seq<byte>)
    ensures Reframed(frame) == TrimSpace(frame) + [LF, LF] <==> !HasPrefix(TrimSpace(frame), DATA)
  {
    hide TrimSpace;
    var data := TrimSpace(frame);
    TrimSpaceTwice(frame);
    if HasPrefix(data, DATA) {
      TrimSpaceShrinks(data[|DATA|..]);
      assert data[0] == data[..|DATA|][0] == 100;
      NoEventLine(data);
      assert |Reframed(frame)| < |data + [LF, LF]|;
    }
  }

  /** Tab, line feed, vertical tab, form feed, return, space. */
  predicate WhiteByte(b: byte) { b == 9 || b == 10 || b == 11 || b == 12 || b == 13 || b == 32 }

  /** What is left of `b` once `front` bytes and then all but `length` are cut: only white space goes, none is left at the ends. */
  predicate TrimmedTo(b: seq<byte>, front: nat, length: nat) {
    && front + length <= |b|
    && (forall k :: 0 <= k < |b| && (k < front || front + length <= k) ==> WhiteByte(b[k]))
    && (length > 0 ==> !WhiteByte(b[front]) && !WhiteByte(b[front + length - 1]))
  }

  lemma FrontCut(b: seq<byte>, front: nat, length: nat)
    requires b != [] && WhiteByte(b[0]) && TrimmedTo(b[1..], front, length)
    ensures TrimmedTo(b, front + 1, length) && b[front + 1..front + 1 + length] == b[1..][front..front + length]
  {
    hide WhiteByte;
    assert forall k :: 0 <= k < |b| - 1 ==> b[1..][k] == b[k + 1];
    forall k | 0 <= k < |b| && (k < front + 1 || front + 1 + length <= k) ensures WhiteByte(b[k]) {
      if k > 0 { assert WhiteByte(b[1..][k - 1]); }
    }
  }

  lemma BackCut(b: seq<byte>, front: nat, length: nat)
    requires b != [] && WhiteByte(b[|b| - 1]) && TrimmedTo(b[..|b| - 1], front, length)
    ensures TrimmedTo(b, front, length) && b[front..front + length] == b[..|b| - 1][front..front + length]
  {
    hide WhiteByte;
    forall k | 0 <= k < |b| && (k < front || front + length <= k) ensures WhiteByte(b[k]) {
      if k < |b| - 1 { assert WhiteByte(b[..|b| - 1][k]); }
    }
  }

  /** Trimming cuts white space off both ends and nothing else. */
  lemma {:induction false} TrimSpaceIs(b: seq<byte>) returns (front: nat, length: nat)
    ensures TrimmedTo(b, front, length) && TrimSpace(b) == b[front..front + length]
    decreases |b|
  {
    if b == [] {
      front, length := 0, 0;
    } else {
      assert IsSpace(b[0]) == WhiteByte(b[0]) && IsSpace(b[|b| - 1]) == WhiteByte(b[|b| - 1]);
      hide IsSpace, WhiteByte, TrimmedTo;
      if IsSpace(b[0]) {
        front, length := TrimSpaceIs(b[1..]);
        FrontCut(b, front, length);
        front := front + 1;
      } else if IsSpace(b[|b| - 1]) {
        front, length := TrimSpaceIs(b[..|b| - 1]);
        BackCut(b, front, length);
      } else {
        front, length := 0, |b|;
        NothingCut(b);
      }
    }
  }

  lemma NothingCut(b: seq<byte>)
    requires b != [] && !WhiteByte(b[0]) && !WhiteByte(b[|b| - 1])
    ensures TrimmedTo(b, 0, |b|) && b[0..|b|] == b
  {
  }

  /** What is forwarded: the trimmed frame, or what follows its `data:`, with one normal terminator. */
  lemma {:induction false} ReframedIs(frame: seq<byte>)
    ensures var data := TrimSpace(frame);
            Reframed(frame) == (if HasPrefix(data, [100, 97, 116, 97, 58]) then TrimSpace(data[5..]) else data) + [10, 10]
  {
    hide TrimSpace;
    var data := TrimSpace(frame);
    TrimSpaceTwice(frame);
    if HasPrefix(data, DATA) {
      assert data[0] == data[..|DATA|][0] == 100;
      NoEventLine(data);
    }
  }

  /** A native frame that meets a stream still going is forwarded, and nothing else happens. */
  lemma NativeStep(st: State, frame: seq<byte>, decode: seq<byte> -> FrameKind)
    requires decode(frame) == Native && !Over(st)
    ensures FrameStep(st, frame, decode) == Out(st, [Forwarded(Reframed(frame))])
  {
    hide Reframed;
    var it := Forward(Reframed(frame));
    assert [it][..0] == [];
    assert Steps(st, [it]) == Out(st, [] + [Forwarded(Reframed(frame))]);
  }

  /** The emitter forwards a native event untouched if and only if it does not come as a bare `data:` line. */
  lemma {:induction false} ForwardedUntouchedExactly(st: State, frame: seq<byte>, decode: seq<byte> -> FrameKind)
    requires decode(frame) == Native && !Over(st)
    ensures FrameStep(st, frame, decode).evs == [Forwarded(TrimSpace(frame) + [LF, LF])]
       <==> !HasPrefix(TrimSpace(frame), DATA)
  {
    hide FrameStep, Reframed, TrimSpace;
    NativeStep(st, frame, decode);
    ReframedExactly(frame);
  }

  /** `{"type":"response.created"}`. */
  const CREATED: seq<byte> := [
    123, 34, 116, 121, 112, 101, 34, 58, 34, 114, 101, 115, 112, 111, 110, 115, 101, 46, 99, 114,
    101, 97, 116, 101, 100, 34, 125
  ]

  /** An event sent as `data: {"type":"response.created"}` is forwarded as its JSON alone, a line no event parser reads. */
  lemma DataFieldLost(st: State, decode: seq<byte> -> FrameKind)
    requires decode(DATA + [SPACE] + CREATED) == Native && !Over(st)
    ensures FrameStep(st, DATA + [SPACE] + CREATED, decode).evs == [Forwarded(CREATED + [LF, LF])]
  {
    var frame := DATA + [SPACE] + CREATED;
    assert CREATED[0] == 123 && CREATED[|CREATED| - 1] == 125;
    Untrimmed(frame);
    Untrimmed(CREATED);
    hide TrimSpace, FrameStep;
    NativeStep(st, frame, decode);
    assert frame[..|DATA|] == DATA && frame[|DATA|..] == [SPACE] + CREATED;
    NoEventLine(frame);
    SpaceTrimmed(CREATED);
  }

  /** Nothing to trim. */
  lemma {:induction false} Untrimmed(b: seq<byte>)
    requires b != [] && !IsSpace(b[0]) && !IsSpace(b[|b| - 1])
    ensures TrimSpace(b) == b
  {
  }

  lemma {:induction false} SpaceTrimmed(b: seq<byte>)
    ensures TrimSpace([SPACE] + b) == TrimSpace(b)
  {
    assert ([SPACE] + b)[1..] == b;
  }

  // ---- Streams whose chunks end at a finish reason

  /** Item by item, stopping when the stream is over. */
  function Gated(st: State, items: seq<Item>): Out {
    if items == [] then Out(st, [])
    else
      var p := Gated(st, items[..|items| - 1]);
      var q := if Over(p.st) then Out(p.st, []) else Step(p.st, items[|items| - 1]);
      Out(q.st, p.evs + q.evs)
  }

  function StreamItems(frames: seq<seq<byte>>, decode: seq<byte> -> FrameKind): seq<Item> {
    if frames == [] then []
    else StreamItems(frames[..|frames| - 1], decode) + FrameItems(frames[|frames| - 1], decode)
  }

  /** Only the last choice of a chunk carries a finish reason. */
  predicate FinishLast(c: Chunk) {
    forall i :: 0 <= i < |c.choices| - 1 ==> c.choices[i].finish == ""
  }

  predicate FinishesLast(frames: seq<seq<byte>>, decode: seq<byte> -> FrameKind) {
    forall i :: 0 <= i < |frames| && decode(frames[i]).ChatChunk? ==> FinishLast(decode(frames[i]).chunk)
  }

  /** No item but the last ends the stream. */
  predicate EndsLast(items: seq<Item>) {
    forall i :: 0 <= i < |items| - 1 ==> !items[i].Finish? && !items[i].Fail?
  }

  /** Whether the item authors an event, or forwards a frame. */
  predicate Speaks(st: State, it: Item) {
    match it
    case Head(_, _, _) => false
    case Begin(_, _) => !st.started
    case Prose(_, s) => s != ""
    case Tool(d) => FirstCall(st.calls, d.index) == |st.calls| || Reuses(st, d) || d.args != ""
    case Finish(_) => true
    case Forward(_) => true
    case Fail(_, _, _) => true
  }

  lemma SpeaksExactly(st: State, it: Item)
    ensures Step(st, it).evs != [] <==> Speaks(st, it)
  {
    hide CallsDone, Items, Numbered;
    assert |Step(st, it).evs| == if it.Forward? then 1 else |Says(st, it).bodies|;
  }

  /** Equal in what the end of the stream and the client's items depend on. */
  predicate SameItems(a: State, b: State) {
    && (a.seqNo, a.started, a.finished, a.failed) == (b.seqNo, b.started, b.finished, b.failed)
    && (a.text, a.reasoning, a.msgItem, a.rsItem) == (b.text, b.reasoning, b.msgItem, b.rsItem)
    && (a.calls, a.next) == (b.calls, b.next)
  }

  lemma QuietDelta(st: State, d: ToolDelta)
    requires !Speaks(st, Tool(d))
    ensures !Reuses(st, d) && Called(st, d) == Said(st, [])
  {
    var a := FirstCall(st.calls, d.index);
    assert st.calls[a].args + "" == st.calls[a].args;
    assert st.calls[a := st.calls[a]] == st.calls;
  }

  /** An item that says nothing changes usage, names and notes at most. */
  lemma QuietKeeps(st: State, it: Item)
    requires !Speaks(st, it)
    ensures SameItems(Step(st, it).st, st)
  {
    if it.Tool? {
      hide Called, Speaks;
      QuietDelta(st, it.d);
    } else {
      hide Numbered, NotedAll, Called;
    }
  }

  lemma OverStays(st: State, it: Item)
    requires Over(st)
    ensures Over(Step(st, it).st)
  {
    hide ItemsDone, TerminalOf;
  }

  /** The events a list of items authors after the stream is over. */
  function LateIn(st: State, items: seq<Item>): seq<Event> {
    if items == [] then []
    else
      var p := Steps(st, items[..|items| - 1]).st;
      LateIn(st, items[..|items| - 1]) + if Over(p) then Step(p, items[|items| - 1]).evs else []
  }

  /** No item speaks after the stream is over. */
  predicate QuietIn(st: State, items: seq<Item>) {
    forall i :: 0 <= i < |items| ==> QuietAt(st, items, i)
  }

  predicate QuietAt(st: State, items: seq<Item>, i: nat)
    requires i < |items|
  {
    var p := Steps(st, items[..i]).st; Over(p) ==> !Speaks(p, items[i])
  }

  lemma {:induction false} QuietInInit(st: State, items: seq<Item>)
    requires items != []
    ensures var n := |items| - 1;
            var p := Steps(st, items[..n]).st;
            QuietIn(st, items) <==> QuietIn(st, items[..n]) && (Over(p) ==> !Speaks(p, items[n]))
  {
    var n := |items| - 1;
    forall i | 0 <= i < n ensures QuietAt(st, items[..n], i) <==> QuietAt(st, items, i) {
      QuietAtInit(st, items, i);
    }
    assert QuietAt(st, items, n) <==> (var p := Steps(st, items[..n]).st; Over(p) ==> !Speaks(p, items[n]));
    hide QuietAt, Steps;
    if QuietIn(st, items[..n]) && QuietAt(st, items, n) {
      forall i | 0 <= i < |items| ensures QuietAt(st, items, i) {
        assert i < n ==> QuietAt(st, items[..n], i);
      }
    }
  }

  lemma QuietAtInit(st: State, items: seq<Item>, i: nat)
    requires i < |items| - 1
    ensures QuietAt(st, items[..|items| - 1], i) <==> QuietAt(st, items, i)
  {
    hide Steps, Speaks, Over;
    assert items[..|items| - 1][..i] == items[..i];
  }

  lemma {:induction false} Unfolded(st: State, items: seq<Item>)
    requires items != []
    ensures var n := |items| - 1;
            var p, g := Steps(st, items[..n]), Gated(st, items[..n]);
            && Steps(st, items) == Out(Step(p.st, items[n]).st, p.evs + Step(p.st, items[n]).evs)
            && (Over(g.st) ==> Gated(st, items) == g)
            && (!Over(g.st) ==> Gated(st, items) == Out(Step(g.st, items[n]).st, g.evs + Step(g.st, items[n]).evs))
            && (Over(p.st) ==> LateIn(st, items) == LateIn(st, items[..n]) + Step(p.st, items[n]).evs)
            && (!Over(p.st) ==> LateIn(st, items) == LateIn(st, items[..n]))
  {
    hide Step, Over;
    var n := |items| - 1;
    var g := Gated(st, items[..n]);
    assert g.evs + [] == g.evs && LateIn(st, items[..n]) + [] == LateIn(st, items[..n]);
  }

  /** An ungated run against a gated one: the same events, then what comes late; nothing late if and only if quiet. */
  predicate Splits(r: Out, g: Out, late: seq<Event>, quiet: bool) {
    && r.evs == g.evs + late
    && Over(r.st) == Over(g.st) && (!Over(r.st) ==> r == g && late == [])
    && (late == [] <==> quiet)
    && (quiet ==> SameItems(r.st, g.st))
  }

  /** Stepping through all items is stopping at the end, then what comes late. */
  lemma {:induction false} StepsSplit(st: State, items: seq<Item>)
    requires !Over(st)
    ensures Splits(Steps(st, items), Gated(st, items), LateIn(st, items), QuietIn(st, items))
  {
    if items != [] {
      hide Step, Over, Speaks, SameItems, QuietIn, Steps, Gated, LateIn;
      var n := |items| - 1;
      StepsSplit(st, items[..n]);
      QuietInInit(st, items);
      Unfolded(st, items);
      var p, g, late := Steps(st, items[..n]), Gated(st, items[..n]), LateIn(st, items[..n]);
      var q := Step(p.st, items[n]);
      if Over(p.st) {
        OverStays(p.st, items[n]);
        SpeaksExactly(p.st, items[n]);
        Assoc(g.evs, late, q.evs);
        assert late + q.evs == [] <==> late == [] && q.evs == [] by { NothingJoined(late, q.evs); }
        if QuietIn(st, items) {
          QuietKeeps(p.st, items[n]);
          SameTwice(q.st, p.st, g.st);
        }
      } else {
        SameItemsRefl(q.st);
        NothingJoined(Steps(st, items).evs, []);
      }
    } else {
      SameItemsRefl(st);
    }
  }

  /** The same behind events that were there before. */
  lemma SplitsBehind(evs: seq<Event>, r: Out, g: Out, late: seq<Event>, quiet: bool)
    requires Splits(r, g, late, quiet)
    ensures Splits(Out(r.st, evs + r.evs), Out(g.st, evs + g.evs), late, quiet)
  {
    hide Over, SameItems;
    Assoc(evs, g.evs, late);
  }

  lemma NothingJoined(a: seq<Event>, b: seq<Event>)
    ensures a + b == [] <==> a == [] && b == []
    ensures b == [] ==> a + b == a
  {
    assert |a + b| == |a| + |b|;
  }

  lemma SameItemsRefl(st: State)
    ensures SameItems(st, st)
  {
  }

  lemma SameTwice(a: State, b: State, c: State)
    requires SameItems(a, b) && SameItems(b, c)
    ensures SameItems(a, c)
  {
  }

  lemma {:induction false} GatedOver(st: State, items: seq<Item>)
    requires Over(st)
    ensures Gated(st, items) == Out(st, [])
  {
    if items != [] { GatedOver(st, items[..|items| - 1]); }
  }

  lemma {:induction false} GatedAppend(st: State, a: seq<Item>, b: seq<Item>)
    ensures var p := Gated(st, a);
            var q := Gated(p.st, b);
            Gated(st, a + b) == Out(q.st, p.evs + q.evs)
  {
    hide Step, Over;
    if b == [] {
      assert a + b == a;
    } else {
      var n := |b| - 1;
      assert (a + b)[..|a + b| - 1] == a + b[..n] && (a + b)[|a + b| - 1] == b[n];
      GatedAppend(st, a, b[..n]);
      var p := Gated(st, a);
      var q := Gated(p.st, b[..n]);
      Assoc(p.evs, q.evs, if Over(q.st) then [] else Step(q.st, b[n]).evs);
    }
  }

  lemma ChoiceEndsLast(ch: Choice)
    ensures EndsLast(ChoiceItems(ch))
    ensures ch.finish == "" ==> forall it :: it in ChoiceItems(ch) ==> !it.Finish? && !it.Fail?
  {
    var s := ChoiceItems(ch);
    forall i | 0 <= i < |s| - 1 ensures !s[i].Finish? && !s[i].Fail? {
      assert i < 3 + |ch.tools|;
      assert 3 <= i ==> s[i] == ToolItems(ch.tools)[i - 3];
    }
    if ch.finish == "" {
      forall it | it in s ensures !it.Finish? && !it.Fail? {
        var i :| 0 <= i < |s| && s[i] == it;
        assert 3 <= i ==> s[i] == ToolItems(ch.tools)[i - 3];
      }
    }
  }

  lemma {:induction false} ChoicesEndLast(chs: seq<Choice>)
    requires forall i :: 0 <= i < |chs| - 1 ==> chs[i].finish == ""
    ensures EndsLast(ChoicesItems(chs))
    ensures (forall i :: 0 <= i < |chs| ==> chs[i].finish == "") ==>
              forall it :: it in ChoicesItems(chs) ==> !it.Finish? && !it.Fail?
  {
    hide ChoiceItems;
    if chs != [] {
      var n := |chs| - 1;
      ChoicesEndLast(chs[..n]);
      ChoiceEndsLast(chs[n]);
      var a, b := ChoicesItems(chs[..n]), ChoiceItems(chs[n]);
      var s: seq<Item> := a + b;
      forall i | 0 <= i < |s| - 1 ensures !s[i].Finish? && !s[i].Fail? {
        if i < |a| { assert a[i] in a; } else { assert s[i] == b[i - |a|]; }
      }
    }
  }

  lemma FrameEndsLast(frame: seq<byte>, decode: seq<byte> -> FrameKind)
    requires decode(frame).ChatChunk? ==> FinishLast(decode(frame).chunk)
    ensures EndsLast(FrameItems(frame, decode))
  {
    if decode(frame).ChatChunk? {
      var c := decode(frame).chunk;
      ChoicesEndLast(c.choices);
      var r := ChoicesItems(c.choices);
      assert forall i :: 0 < i < |r| + 1 ==> ([Head(c.id, c.model, c.usage)] + r)[i] == r[i - 1];
    }
  }

  /** The events a stream authors after it is over: behind a finish reason, in the same chunk. */
  function Late(st: State, frames: seq<seq<byte>>, decode: seq<byte> -> FrameKind): seq<Event> {
    if frames == [] then []
    else
      var n := |frames| - 1;
      var p := Run(st, frames[..n], decode).st;
      if Over(p) then Late(st, frames[..n], decode) else LateIn(p, FrameItems(frames[n], decode))
  }

  /** In the chunk that finishes the stream, nothing behind the finish reason speaks. */
  predicate QuietAfterFinish(st: State, frames: seq<seq<byte>>, decode: seq<byte> -> FrameKind) {
    forall i :: 0 <= i < |frames| ==> QuietFrame(st, frames, decode, i)
  }

  predicate QuietFrame(st: State, frames: seq<seq<byte>>, decode: seq<byte> -> FrameKind, i: nat)
    requires i < |frames|
  {
    var p := Run(st, frames[..i], decode).st; !Over(p) ==> QuietIn(p, FrameItems(frames[i], decode))
  }

  lemma QuietFrameInit(st: State, frames: seq<seq<byte>>, decode: seq<byte> -> FrameKind, i: nat)
    requires i < |frames| - 1
    ensures QuietFrame(st, frames[..|frames| - 1], decode, i) <==> QuietFrame(st, frames, decode, i)
  {
    hide Run, Over, QuietIn, FrameItems;
    assert frames[..|frames| - 1][..i] == frames[..i];
  }

  lemma {:induction false} QuietInitially(st: State, frames: seq<seq<byte>>, decode: seq<byte> -> FrameKind)
    requires frames != []
    ensures var n := |frames| - 1;
            var p := Run(st, frames[..n], decode).st;
            QuietAfterFinish(st, frames, decode) <==>
              QuietAfterFinish(st, frames[..n], decode) && (!Over(p) ==> QuietIn(p, FrameItems(frames[n], decode)))
  {
    hide Over, QuietIn, FrameItems, Run;
    var n := |frames| - 1;
    forall i | 0 <= i < n ensures QuietFrame(st, frames[..n], decode, i) <==> QuietFrame(st, frames, decode, i) {
      QuietFrameInit(st, frames, decode, i);
    }
    var p := Run(st, frames[..n], decode).st;
    assert QuietFrame(st, frames, decode, n) <==> (!Over(p) ==> QuietIn(p, FrameItems(frames[n], decode)));
    hide QuietFrame;
    if QuietAfterFinish(st, frames[..n], decode) && QuietFrame(st, frames, decode, n) {
      forall i | 0 <= i < |frames| ensures QuietFrame(st, frames, decode, i) {
        assert i < n ==> QuietFrame(st, frames[..n], decode, i);
      }
    }
  }

  lemma {:induction false} RunLast(st: State, frames: seq<seq<byte>>, decode: seq<byte> -> FrameKind)
    requires frames != []
    ensures var n := |frames| - 1;
            var p, items := Run(st, frames[..n], decode), FrameItems(frames[n], decode);
            && StreamItems(frames, decode) == StreamItems(frames[..n], decode) + items
            && (Over(p.st) ==> Run(st, frames, decode) == p && Late(st, frames, decode) == Late(st, frames[..n], decode))
            && (!Over(p.st) ==>
                  && Run(st, frames, decode) == Out(Steps(p.st, items).st, p.evs + Steps(p.st, items).evs)
                  && Late(st, frames, decode) == LateIn(p.st, items))
  {
    hide FrameItems, Over, Steps, LateIn;
    var p := Run(st, frames[..|frames| - 1], decode);
    assert p.evs + [] == p.evs;
  }

  /** The frame-gated run is the item-gated one, then what comes late; it says nothing late if and only if it is quiet. */
  lemma {:induction false} RunSplit(st: State, frames: seq<seq<byte>>, decode: seq<byte> -> FrameKind)
    requires !Over(st)
    ensures Splits(Run(st, frames, decode), Gated(st, StreamItems(frames, decode)), Late(st, frames, decode),
                   QuietAfterFinish(st, frames, decode))
  {
    hide QuietAfterFinish, Gated, Run, Late, StreamItems, Splits, Over;
    if frames == [] {
      RunSplitNone(st, decode);
    } else {
      RunSplit(st, frames[..|frames| - 1], decode);
      RunSplitNext(st, frames, decode);
    }
  }

  lemma {:induction false} RunSplitNone(st: State, decode: seq<byte> -> FrameKind)
    ensures Splits(Run(st, [], decode), Gated(st, StreamItems([], decode)), Late(st, [], decode),
                   QuietAfterFinish(st, [], decode))
  {
  }

  lemma {:induction false} RunSplitNext(st: State, frames: seq<seq<byte>>, decode: seq<byte> -> FrameKind)
    requires frames != []
    requires var init := frames[..|frames| - 1];
             Splits(Run(st, init, decode), Gated(st, StreamItems(init, decode)), Late(st, init, decode),
                    QuietAfterFinish(st, init, decode))
    ensures Splits(Run(st, frames, decode), Gated(st, StreamItems(frames, decode)), Late(st, frames, decode),
                   QuietAfterFinish(st, frames, decode))
  {
    hide FrameItems, Over, SameItems, QuietIn, QuietAfterFinish, Steps, Gated, LateIn, Run, Late, StreamItems, Splits;
    var init := frames[..|frames| - 1];
    RunLast(st, frames, decode);
    QuietInitially(st, frames, decode);
    var p, items := Run(st, init, decode), FrameItems(frames[|frames| - 1], decode);
    GatedAppend(st, StreamItems(init, decode), items);
    var g := Gated(st, StreamItems(init, decode));
    SplitsMeans(p, g, Late(st, init, decode), QuietAfterFinish(st, init, decode));
    if Over(p.st) {
      GatedOver(g.st, items);
      NothingJoined(g.evs, []);
    } else {
      StepsSplit(p.st, items);
      SplitsBehind(p.evs, Steps(p.st, items), Gated(p.st, items), LateIn(p.st, items), QuietIn(p.st, items));
    }
  }

  lemma SplitsMeans(r: Out, g: Out, late: seq<Event>, quiet: bool)
    requires Splits(r, g, late, quiet)
    ensures Over(r.st) == Over(g.st) && (!Over(r.st) ==> r == g && quiet)
  {
  }

  /** When only the last choice of a chunk carries a finish reason, nothing comes late. */
  lemma FinishesLastIsQuiet(st: State, frames: seq<seq<byte>>, decode: seq<byte> -> FrameKind)
    requires FinishesLast(frames, decode)
    ensures QuietAfterFinish(st, frames, decode)
  {
    hide Over, FrameItems, Steps, Run, FinishLast, QuietIn;
    forall i | 0 <= i < |frames| ensures QuietFrame(st, frames, decode, i) {
      FrameEndsLast(frames[i], decode);
      var p := Run(st, frames[..i], decode).st;
      if !Over(p) {
        EndsLastIsQuiet(p, FrameItems(frames[i], decode));
      }
    }
  }

  lemma EndsLastIsQuiet(st: State, items: seq<Item>)
    requires !Over(st) && EndsLast(items)
    ensures QuietIn(st, items)
  {
    hide Over, Steps;
    forall i | 0 <= i < |items| ensures QuietAt(st, items, i) {
      GoesOn(st, items[..i]);
    }
  }

  lemma {:induction false} GoesOn(st: State, items: seq<Item>)
    requires !Over(st) && forall i :: 0 <= i < |items| ==> !items[i].Finish? && !items[i].Fail?
    ensures !Over(Steps(st, items).st)
  {
    if items != [] {
      hide Step, Over;
      GoesOn(st, items[..|items| - 1]);
      KeepsGoing(Steps(st, items[..|items| - 1]).st, items[|items| - 1]);
    }
  }

  lemma KeepsGoing(st: State, it: Item)
    requires !it.Finish? && !it.Fail?
    ensures Over(Step(st, it).st) == Over(st)
  {
  }

  /** What comes late is authored, never forwarded. */
  lemma {:induction false} LateIsAuthored(st: State, frames: seq<seq<byte>>, decode: seq<byte> -> FrameKind)
    requires !Over(st)
    ensures forall e :: e in Late(st, frames, decode) ==> e.Ev?
  {
    if frames != [] {
      hide Over, FrameItems, Steps;
      var n := |frames| - 1;
      LateIsAuthored(st, frames[..n], decode);
      var p := Run(st, frames[..n], decode).st;
      if !Over(p) {
        FrameAuthors(frames[n], decode);
        LateInAuthored(p, FrameItems(frames[n], decode));
      }
    }
  }

  /** Only a frame of its own is forwarded. */
  predicate ForwardsAlone(items: seq<Item>) {
    |items| > 1 ==> forall i :: 0 <= i < |items| ==> !items[i].Forward?
  }

  lemma {:induction false} LateInAuthored(st: State, items: seq<Item>)
    requires !Over(st) && ForwardsAlone(items)
    ensures forall e :: e in LateIn(st, items) ==> e.Ev?
  {
    if items != [] {
      hide Over, Says;
      var n := |items| - 1;
      assert items[..n] == [] ==> Steps(st, items[..n]).st == st;
      LateInAuthored(st, items[..n]);
    }
  }

  lemma FrameAuthors(frame: seq<byte>, decode: seq<byte> -> FrameKind)
    ensures ForwardsAlone(FrameItems(frame, decode))
  {
    if decode(frame).ChatChunk? {
      var c := decode(frame).chunk;
      ChoicesAuthor(c.choices);
      var r := ChoicesItems(c.choices);
      forall i | 0 <= i < |r| + 1 ensures !([Head(c.id, c.model, c.usage)] + r)[i].Forward? {
        assert i > 0 ==> ([Head(c.id, c.model, c.usage)] + r)[i] == r[i - 1];
      }
    }
  }

  lemma {:induction false} ChoicesAuthor(chs: seq<Choice>)
    ensures forall it :: it in ChoicesItems(chs) ==> !it.Forward?
  {
    if chs != [] {
      var n := |chs| - 1;
      ChoicesAuthor(chs[..n]);
      forall it | it in ChoiceItems(chs[n]) ensures !it.Forward? {
        assert it in ToolItems(chs[n].tools) ==> it.Tool?;
      }
    }
  }
}
