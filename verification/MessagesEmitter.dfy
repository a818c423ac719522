/** `chatToMessages` of convert/stream.go: the emitter object, proved against `MessagesSpec`. */
module MessagesEmitter {
  import opened Wrappers
  import opened Bytes
  import opened ChatStream
  import opened MessagesSpec
  import opened SseFraming

  /** bytes.TrimSpace leaves nothing (ASCII white space). */
  predicate IsBlank(b: seq<byte>) {
    forall i :: 0 <= i < |b| ==> 9 <= b[i] <= 13 || b[i] == SPACE
  }

  function Payloads(frames: seq<Frame>): (r: seq<seq<byte>>)
    ensures |r| == |frames| && forall i :: 0 <= i < |r| ==> r[i] == frames[i].payload
  {
    seq(|frames|, i requires 0 <= i < |frames| => frames[i].payload)
  }

  class ChatToMessages {
    const decode: seq<byte> -> FrameKind
    const invented: string  // the id used when the backend sends none
    var id: string
    var model: string
    var open: int
    var kind: Option<Kind>
    var tools: seq<ToolBlock>
    var next: int
    var stop: string
    var buf: seq<byte>
    var inputTok: int
    var outputToks: int
    var started: bool
    var failed: bool
    var notes: seq<string>

    ghost function Abs(): State
      reads this
    {
      State(id, model, invented, open, kind, tools, next, stop, inputTok, outputToks, started, failed, notes)
    }

    constructor (decode: seq<byte> -> FrameKind, invented: string)
      ensures this.decode == decode && this.invented == invented
      ensures Abs() == Initial(invented) && buf == []
    {
      this.decode, this.invented := decode, invented;
      id, model, open, kind, tools, next := "", "", -1, None, [], 0;
      stop, buf, inputTok, outputToks := "end_turn", [], -1, 0;
      started, failed, notes := false, false, [];
    }

    method Note(s: string)
      modifies this`notes
      ensures notes == Noted(old(notes), s)
    {
      if s !in notes {
        notes := notes + [s];
      }
    }

    method Usage(u: Option<Usage>)
      modifies this`inputTok, this`outputToks
      ensures Abs() == ReadUsage(old(Abs()), u)
    {
      if u.Some? {
        inputTok := u.value.prompt - u.value.cached;
        outputToks := u.value.completion;
      }
    }

    method Start() returns (e: Event)
      requires !started
      modifies this`started
      ensures Out(Abs(), [e]) == Started(old(Abs()))
    {
      started := true;
      var mid := id;
      if mid == "" {
        mid := invented;
      }
      var input := inputTok;
      if input < 0 {
        input := 0;
      }
      e := MessageStart(mid, model, input);
    }

    method CloseOpenText() returns (out: seq<Event>)
      modifies this`kind
      ensures Out(Abs(), out) == CloseText(old(Abs()))
    {
      if kind == None {
        return [];
      }
      kind := None;
      out := [BlockStop(open)];
    }

    method EmitText(s: string, k: Kind) returns (out: seq<Event>)
      modifies this`kind, this`open, this`next
      ensures Out(Abs(), out) == Prosed(old(Abs()), k, s)
    {
      if s == "" {
        return [];
      }
      out := [];
      if kind != Some(k) {
        out := CloseOpenText();
        kind, open := Some(k), next;
        next := next + 1;
        out := out + [BlockStart(open, StartOf(k))];
      }
      out := out + [BlockDelta(open, DeltaOf(k, s))];
    }

    method ToolArgs(blk: int, args: string) returns (out: seq<Event>)
      ensures out == ArgsDelta(blk, args)
    {
      if args == "" {
        return [];
      }
      out := [BlockDelta(blk, InputJson(args))];
    }

    method DropTool(idx: int)
      modifies this`tools
      ensures tools == Without(old(tools), idx)
    {
      var kept: seq<ToolBlock> := [];
      var i := 0;
      while i < |tools|
        invariant 0 <= i <= |tools|
        invariant kept == Without(tools[..i], idx)
      {
        assert tools[..i + 1][..i] == tools[..i];
        if tools[i].idx != idx {
          kept := kept + [tools[i]];
        }
        i := i + 1;
      }
      assert tools[..i] == tools;
      tools := kept;
    }

    method FindTool(idx: int) returns (t: Option<ToolBlock>)
      ensures t == Lookup(tools, idx)
    {
      t := None;
      var i := 0;
      while i < |tools|
        invariant 0 <= i <= |tools|
        invariant t == Lookup(tools[..i], idx)
      {
        assert tools[..i + 1][..i] == tools[..i];
        if tools[i].idx == idx {
          t := Some(tools[i]);
        }
        i := i + 1;
      }
      assert tools[..i] == tools;
    }

    method EmitTool(d: ToolDelta) returns (out: seq<Event>)
      modifies this`tools, this`next, this`kind
      ensures Out(Abs(), out) == Called(old(Abs()), d)
    {
      out := [];
      var t := FindTool(d.index);
      if t.Some? && (d.id == "" || d.id == t.value.id) {
        out := ToolArgs(t.value.blk, d.args);
        return;
      }
      if t.Some? {
        out := [BlockStop(t.value.blk)];
        DropTool(d.index);
      } else {
        out := CloseOpenText();
      }
      var blk := next;
      next := next + 1;
      var callId := d.id;
      if callId == "" {
        callId := "toolu_" + Itoa(blk);
      }
      tools := tools + [ToolBlock(d.index, blk, callId)];
      out := out + [BlockStart(blk, ToolUse(callId, d.name))];
      var rest := ToolArgs(blk, d.args);
      out := out + rest;
    }

    method Close() returns (out: seq<Event>)
      modifies this`kind, this`tools
      ensures Out(Abs(), out) == CloseAll(old(Abs()))
    {
      ghost var c := CloseText(Abs());
      out := CloseOpenText();
      ghost var head := out;
      assert Abs() == c.st && head + [] == head;
      var i := 0;
      while i < |tools|
        invariant 0 <= i <= |tools|
        invariant Abs() == c.st
        invariant out == head + Stops(tools[..i])
      {
        assert tools[..i + 1][..i] == tools[..i];
        Assoc(head, Stops(tools[..i]), [BlockStop(tools[i].blk)]);
        out := out + [BlockStop(tools[i].blk)];
        i := i + 1;
      }
      assert tools[..i] == tools;
      tools := [];
      assert Abs() == c.st.(tools := []);
    }

    method EmitFinish(reason: string) returns (out: seq<Event>)
      modifies this`kind, this`tools, this`stop, this`notes
      ensures Out(Abs(), out) == Finished(old(Abs()), reason)
    {
      stop := StopReason(reason);
      var n := FinishNote(reason);
      if n != "" {
        Note(n);
      }
      out := Close();
      out := out + [MessageDelta(stop, outputToks, if inputTok >= 0 then Some(inputTok) else None)];
    }

    method FailOpen() returns (out: seq<Event>)
      requires !failed
      modifies this`failed, this`notes
      ensures Out(Abs(), out) == Step(old(Abs()), UNTRANSLATED)
    {
      failed := true;
      Note("frame=untranslated");
      out := [ErrorEvent("api_error", "upstream sent a stream frame this proxy cannot translate")];
    }

    method NoteAll(ns: seq<string>)
      modifies this`notes
      ensures notes == NotedAll(old(notes), ns)
    {
      var i := 0;
      while i < |ns|
        invariant 0 <= i <= |ns|
        invariant notes == NotedAll(old(notes), ns[..i])
      {
        assert ns[..i + 1][..i] == ns[..i];
        Note(ns[i]);
        i := i + 1;
      }
      assert ns[..i] == ns;
    }

    /** The head of a choice: its usage and notes, and the message start when none was sent. */
    method BeginChoice(ch: Choice) returns (out: seq<Event>)
      requires !failed
      modifies this`inputTok, this`outputToks, this`notes, this`started
      ensures Out(Abs(), out) == Step(old(Abs()), Begin(ch.usage, Lost(ch.content) + Lost(ch.reasoning)))
    {
      hide NotedAll, Lost;
      Usage(ch.usage);
      NoteAll(Lost(ch.content) + Lost(ch.reasoning));
      out := [];
      if !started {
        var e := Start();
        out := [e];
      }
    }

    method EmitTools(deltas: seq<ToolDelta>) returns (out: seq<Event>)
      requires !failed
      modifies this`tools, this`next, this`kind
      ensures Out(Abs(), out) == Run(old(Abs()), ToolItems(deltas))
    {
      hide Called, Run;
      ghost var s0 := Abs();
      out := [];
      RunNothing(s0);
      var i := 0;
      while i < |deltas|
        invariant 0 <= i <= |deltas|
        invariant Out(Abs(), out) == Run(s0, ToolItems(deltas[..i]))
      {
        var t := EmitTool(deltas[i]);
        RunNext(s0, ToolItems(deltas[..i]), Tool(deltas[i]));
        assert ToolItems(deltas[..i]) + [Tool(deltas[i])] == ToolItems(deltas[..i + 1]);
        out := out + t;
        i := i + 1;
      }
      assert deltas[..i] == deltas;
    }

    /** One choice of a chunk. */
    method HandleChoice(ch: Choice) returns (out: seq<Event>)
      requires !failed
      modifies this
      ensures buf == old(buf) && !failed
      ensures Out(Abs(), out) == Run(old(Abs()), ChoiceItems(ch))
    {
      hide Prosed, Called, Finished, Step, Run;
      ghost var s0 := Abs();
      ghost var begin := Begin(ch.usage, Lost(ch.content) + Lost(ch.reasoning));
      ghost var think, text := Prose(Thinking, Texts(ch.reasoning)), Prose(Text, Texts(ch.content));

      out := BeginChoice(ch);
      RunOne(s0, begin);

      StepIsProsed(Abs(), Thinking, Texts(ch.reasoning));
      var r := EmitText(Texts(ch.reasoning), Thinking);
      RunNext(s0, [begin], think);
      out := out + r;

      StepIsProsed(Abs(), Text, Texts(ch.content));
      var x := EmitText(Texts(ch.content), Text);
      RunNext(s0, [begin] + [think], text);
      out := out + x;

      ghost var done := [begin] + [think] + [text];
      var t := EmitTools(ch.tools);
      RunAppend(s0, done, ToolItems(ch.tools));
      out := out + t;
      done := done + ToolItems(ch.tools);

      if ch.finish != "" {
        StepIsFinished(Abs(), ch.finish);
        var f := EmitFinish(ch.finish);
        RunNext(s0, done, Finish(ch.finish));
        out := out + f;
      }
      assert ChoiceItems(ch) == done + if ch.finish != "" then [Finish(ch.finish)] else [];
      assert done + [] == done;
    }

    method Handle(frame: seq<byte>) returns (out: seq<Event>)
      modifies this
      ensures buf == old(buf)
      ensures Out(Abs(), out) == Run(old(Abs()), FrameItems(frame, decode))
    {
      if failed {
        RunFailed(Abs(), FrameItems(frame, decode));
        return [];
      }
      ghost var s0 := Abs();
      match decode(frame) {
        case Inert =>
          out := [];
        case Native =>
          RunOne(s0, Forward(Reframe(frame)));
          out := [Forwarded(Reframe(frame))];
        case UpstreamError(code, msg) =>
          RunOne(s0, Fail(code, msg, ""));
          failed := true;
          out := [ErrorEvent(code, msg)];
        case Foreign =>
          RunOne(s0, UNTRANSLATED);
          out := FailOpen();
        case ChatChunk(c) =>
          out := HandleChunk(c);
      }
    }

    /** The id, the model and the usage of a chunk. */
    method ReadHead(c: Chunk)
      requires !failed
      modifies this`id, this`model, this`inputTok, this`outputToks
      ensures Out(Abs(), []) == Step(old(Abs()), Head(c.id, c.model, c.usage))
    {
      if c.id != "" {
        id := c.id;
      }
      if c.model != "" {
        model := c.model;
      }
      Usage(c.usage);
    }

    method HandleChunk(c: Chunk) returns (out: seq<Event>)
      requires !failed
      modifies this
      ensures buf == old(buf)
      ensures Out(Abs(), out) == Run(old(Abs()), ChunkItems(c))
    {
      hide ChoiceItems, Run, Step;
      ghost var s0, head := Abs(), Head(c.id, c.model, c.usage);
      ReadHead(c);
      RunOne(s0, head);
      out := [];
      assert c.choices[..0] == [] && [head] + [] == [head];
      var i := 0;
      while i < |c.choices|
        invariant 0 <= i <= |c.choices|
        invariant !failed && buf == old(buf)
        invariant Out(Abs(), out) == Run(s0, [head] + ChoicesItems(c.choices[..i]))
      {
        ghost var done := [head] + ChoicesItems(c.choices[..i]);
        var more := HandleChoice(c.choices[i]);
        RunAppend(s0, done, ChoiceItems(c.choices[i]));
        assert c.choices[..i + 1][..i] == c.choices[..i];
        Assoc([head], ChoicesItems(c.choices[..i]), ChoiceItems(c.choices[i]));
        out := out + more;
        i := i + 1;
      }
      assert c.choices[..i] == c.choices;
    }

    /** Complete frames are handled as they close; the tail of a split frame is kept. */
    method WriteFrame(frame: seq<byte>) returns (out: seq<Event>)
      modifies this
      ensures var s := Split(old(buf) + frame);
              && buf == s.rest
              && Out(Abs(), out) == Run(old(Abs()), StreamItems(Payloads(s.frames), decode))
    {
      hide FrameEnd, TermLen, Split, Run, FrameItems;
      ghost var s0 := Abs();
      buf := buf + frame;
      ghost var whole := Split(buf);
      ghost var done: seq<Frame> := [];
      out := [];
      RunNone(s0, decode);
      while true
        invariant whole == Framed(done + Split(buf).frames, Split(buf).rest)
        invariant Out(Abs(), out) == Run(s0, StreamItems(Payloads(done), decode))
        decreases |buf|
      {
        var i, n := FindFrameEnd(buf);
        NextFrame(done, buf);
        if i < 0 {
          break;
        }
        var more := Handle(buf[..i]);
        FrameHandled(s0, done, Frame(buf[..i], buf[i..i + n]), decode);
        out := out + more;
        done := done + [Frame(buf[..i], buf[i..i + n])];
        buf := buf[i + n..];
      }
    }

    method FinishFrames() returns (out: seq<Event>)
      modifies this
      ensures var tail := if IsBlank(old(buf)) then [] else [old(buf)];
              var r := Run(old(Abs()), StreamItems(tail, decode));
              Out(Abs(), out) == Out(Terminated(r.st).st, r.evs + Terminated(r.st).evs)
    {
      hide FrameItems, StreamItems, Run, CloseAll, IsBlank, DeltaEvent;
      ghost var s0 := Abs();
      out := [];
      RunNothing(s0);
      NoFrames(decode);
      ghost var tail: seq<seq<byte>> := [];
      if !IsBlank(buf) {
        tail := [buf];
        OneFrame(buf, decode);
        out := Handle(buf);
        buf := [];
      }
      assert Out(Abs(), out) == Run(s0, StreamItems(tail, decode));
      if !started || failed {
        assert out + [] == out;
        return;
      }
      ghost var s1, head := Abs(), out;
      var c := Close();
      out := out + c;
      var d := MessageDelta(stop, outputToks, if inputTok >= 0 then Some(inputTok) else None);
      DeltaIs(Abs());
      out := out + [d];
      out := out + [MessageStop];
      assert out == head + (c + [d, MessageStop]);
    }
  }

  lemma StepIsProsed(st: State, k: Kind, s: string)
    requires !st.failed
    ensures Step(st, Prose(k, s)) == Prosed(st, k, s)
  {
  }

  lemma StepIsFinished(st: State, reason: string)
    requires !st.failed
    ensures Step(st, Finish(reason)) == Finished(st, reason)
  {
  }

  lemma {:induction false} RunOne(st: State, it: Item)
    ensures Run(st, [it]) == Step(st, it)
  {
    assert [it][..0] == [];
    assert [] + Step(st, it).evs == Step(st, it).evs;
  }

  lemma {:induction false} RunNext(st: State, done: seq<Item>, it: Item)
    ensures var p := Run(st, done);
            var q := Step(p.st, it);
            Run(st, done + [it]) == Out(q.st, p.evs + q.evs)
  {
    assert (done + [it])[..|done|] == done;
  }

  lemma {:induction false} RunFailed(st: State, items: seq<Item>)
    requires st.failed
    ensures Run(st, items) == Out(st, [])
  {
    if items != [] { RunFailed(st, items[..|items| - 1]); }
  }

  lemma {:induction false} RunNone(st: State, decode: seq<byte> -> FrameKind)
    ensures Run(st, StreamItems(Payloads([]), decode)) == Out(st, [])
  {
  }

  lemma {:induction false} RunNothing(st: State)
    ensures Run(st, []) == Out(st, [])
  {
  }

  lemma NoFrames(decode: seq<byte> -> FrameKind)
    ensures StreamItems([], decode) == []
  {
  }

  lemma DeltaIs(st: State)
    ensures DeltaEvent(st) == MessageDelta(st.stop, st.outputToks, if st.inputTok >= 0 then Some(st.inputTok) else None)
  {
  }

  lemma OneFrame(b: seq<byte>, decode: seq<byte> -> FrameKind)
    ensures StreamItems([b], decode) == FrameItems(b, decode)
  {
    assert [b][..0] == [];
  }

  lemma {:induction false} FrameHandled(st: State, done: seq<Frame>, f: Frame, decode: seq<byte> -> FrameKind)
    ensures var p := Run(st, StreamItems(Payloads(done), decode));
            var q := Run(p.st, FrameItems(f.payload, decode));
            Run(st, StreamItems(Payloads(done + [f]), decode)) == Out(q.st, p.evs + q.evs)
  {
    hide FrameItems;
    var ps := Payloads(done + [f]);
    assert ps[..|done|] == Payloads(done) && ps[|done|] == f.payload;
    RunAppend(st, StreamItems(Payloads(done), decode), FrameItems(f.payload, decode));
  }
}
