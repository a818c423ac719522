/** `chatToResponses` of convert/stream_responses.go: the emitter object, proved against `ResponsesSpec`. */
module ResponsesEmitter {
  import opened Wrappers
  import opened Bytes
  import opened ChatStream
  import opened ResponsesSpec
  import opened SseFraming
  import M = MessagesEmitter

  class ChatToResponses {
    const decode: seq<byte> -> FrameKind
    const invented: string
    var id: string
    var model: string
    var seqNo: int
    var buf: seq<byte>
    var notes: seq<string>
    var started: bool
    var finished: bool
    var failed: bool
    var inputTok: int
    var outputToks: int
    var cachedTok: int
    var stop: string
    var text: string
    var reasoning: string
    var msgItem: int
    var rsItem: int
    var calls: seq<RespCall>
    var next: int

    ghost function Abs(): State
      reads this
    {
      State(id, model, invented, seqNo, started, finished, failed, inputTok, outputToks, cachedTok, stop,
            text, reasoning, msgItem, rsItem, calls, next, notes)
    }

    constructor (decode: seq<byte> -> FrameKind, invented: string)
      ensures this.decode == decode && this.invented == invented
      ensures Abs() == Initial(invented) && buf == []
    {
      this.decode, this.invented := decode, invented;
      id, model, seqNo, buf, notes := "", "", 0, [], [];
      started, finished, failed := false, false, false;
      inputTok, outputToks, cachedTok, stop := -1, 0, 0, "";
      text, reasoning, msgItem, rsItem, calls, next := "", "", -1, -1, [], 0;
    }

    /** `ev`: number and author one event. */
    method Say(body: Body) returns (e: Event)
      modifies this`seqNo
      ensures seqNo == old(seqNo) + 1 && e == Ev(seqNo, body)
    {
      seqNo := seqNo + 1;
      e := Ev(seqNo, body);
    }

    method Note(s: string)
      modifies this`notes
      ensures notes == Noted(old(notes), s)
    {
      if s !in notes {
        notes := notes + [s];
      }
    }

    method NoteAll(ns: seq<string>)
      modifies this`notes
      ensures notes == NotedAll(old(notes), ns)
    {
      var i := 0;
      while i < |ns|
        invariant 0 <= i <= |ns|
        invariant notes == NotedAll(old(notes), ns[..i])
      {
        assert ns[..i + 1][..i] == ns[..i];
        Note(ns[i]);
        i := i + 1;
      }
      assert ns[..i] == ns;
    }

    method Usage(u: Option<Usage>)
      modifies this`inputTok, this`outputToks, this`cachedTok
      ensures u.None? ==> inputTok == old(inputTok) && outputToks == old(outputToks) && cachedTok == old(cachedTok)
      ensures u.Some? ==>
                var x := u.value;
                inputTok == x.prompt - x.cached && outputToks == x.completion && cachedTok == x.cached
    {
      if u.Some? {
        inputTok := u.value.prompt - u.value.cached;
        outputToks := u.value.completion;
        cachedTok := u.value.cached;
      }
    }

    method Start() returns (out: seq<Event>)
      requires !started
      modifies this`started, this`id, this`seqNo
      ensures Out(Abs(), out) == Emit(Started(old(Abs())))
    {
      hide Emit, Started;
      StartedIs(Abs());
      started := true;
      if id == "" {
        id := invented;
      }
      var a := Say(Created(id, model));
      var b := Say(InProgress(id, model));
      out := [a, b];
    }

    method EmitText(s: string) returns (out: seq<Event>)
      modifies this`msgItem, this`next, this`text, this`seqNo
      ensures Out(Abs(), out) == Emit(Texted(old(Abs()), s))
    {
      hide Emit, Texted, Numbered;
      ghost var s0 := Abs();
      TextedIs(s0, s);
      if s == "" {
        return [];
      }
      out := [];
      if msgItem < 0 {
        out := AddMessage();
      }
      text := text + s;
      var e := Say(TextDelta(msgItem, s));
      out := out + [e];
    }

    /** The message item and its one part are added. */
    method AddMessage() returns (out: seq<Event>)
      modifies this`msgItem, this`next, this`seqNo
      ensures msgItem == old(next) && next == old(next) + 1 && seqNo == old(seqNo) + 2
      ensures out == [Ev(seqNo - 1, ItemAdded(msgItem, MessageItem(""))), Ev(seqNo, PartAdded(msgItem))]
    {
      msgItem := next;
      next := next + 1;
      var a := Say(ItemAdded(msgItem, MessageItem("")));
      var b := Say(PartAdded(msgItem));
      out := [a, b];
    }

    method EmitReasoning(s: string) returns (out: seq<Event>)
      modifies this`rsItem, this`next, this`reasoning, this`seqNo
      ensures Out(Abs(), out) == Emit(Reasoned(old(Abs()), s))
    {
      hide Emit, Reasoned, Numbered;
      ghost var s0 := Abs();
      ReasonedIs(s0, s);
      if s == "" {
        return [];
      }
      out := [];
      if rsItem < 0 {
        out := AddReasoning();
      }
      reasoning := reasoning + s;
      var e := Say(ReasoningDelta(rsItem, s));
      out := out + [e];
    }

    method AddReasoning() returns (out: seq<Event>)
      modifies this`rsItem, this`next, this`seqNo
      ensures rsItem == old(next) && next == old(next) + 1 && seqNo == old(seqNo) + 1
      ensures out == [Ev(seqNo, ItemAdded(rsItem, ReasoningItem("")))]
    {
      rsItem := next;
      next := next + 1;
      var a := Say(ItemAdded(rsItem, ReasoningItem("")));
      out := [a];
    }

    method FindCall(idx: int) returns (a: nat)
      ensures a == FirstCall(calls, idx)
    {
      a := 0;
      while a < |calls| && calls[a].idx != idx
        invariant 0 <= a <= |calls|
        invariant forall i :: 0 <= i < a ==> calls[i].idx != idx
      {
        a := a + 1;
      }
    }

    method CloseCall(i: nat) returns (out: seq<Event>)
      requires i < |calls|
      modifies this`seqNo
      ensures seqNo == old(seqNo) + 2 && out == Numbered(old(seqNo), CallDone(calls[i]))
    {
      var c := calls[i];
      var a := Say(ArgsDone(c.item, c.id, c.args));
      var b := Say(ItemDone(c.item, CallItem(c.id, c.name, c.args)));
      out := [a, b];
    }

    /** A new item for a call, with its first fragment. */
    method OpenCall(d: ToolDelta) returns (out: seq<Event>)
      modifies this`calls, this`next, this`seqNo
      ensures var c := NewCall(old(Abs()), d);
              var bodies := [ItemAdded(c.item, CallItem(c.id, c.name, ""))] + ArgsBody(c, d.args);
              && calls == old(calls) + [c.(args := d.args)] && next == old(next) + 1
              && seqNo == old(seqNo) + |bodies| && out == Numbered(old(seqNo), bodies)
    {
      var item := next;
      next := next + 1;
      var callId := d.id;
      if callId == "" {
        callId := "call_" + Itoa(item);
      }
      calls := calls + [RespCall(d.index, item, callId, d.name, d.args)];
      var e := Say(ItemAdded(item, CallItem(callId, d.name, "")));
      out := [e];
      if d.args == "" {
        return;
      }
      var f := Say(ArgsDelta(item, callId, d.args));
      out := out + [f];
    }

    method ContinueCall(a: nat, args: string) returns (out: seq<Event>)
      requires a < |calls|
      modifies this`calls, this`seqNo
      ensures var c := old(calls)[a];
              && calls == old(calls)[a := c.(args := c.args + args)]
              && seqNo == old(seqNo) + |ArgsBody(c, args)| && out == Numbered(old(seqNo), ArgsBody(c, args))
    {
      var c := calls[a];
      calls := calls[a := c.(args := c.args + args)];
      if args == "" {
        return [];
      }
      var e := Say(ArgsDelta(c.item, c.id, args));
      out := [e];
    }

    method EmitCall(d: ToolDelta) returns (out: seq<Event>)
      modifies this`calls, this`next, this`seqNo
      ensures Out(Abs(), out) == Emit(Called(old(Abs()), d))
    {
      hide FirstCall, ArgsBody, Numbered, Emit, Called, CallDone, Reuses;
      ghost var s0 := Abs();
      CalledIs(s0, d);
      var a := FindCall(d.index);
      if a < |calls| && !(d.id != "" && d.id != calls[a].id) {
        out := ContinueCall(a, d.args);
        return;
      }
      out := [];
      if a < |calls| {
        out := CloseCall(a);
      }
      NewCallCountless(s0, Abs(), d);
      hide NewCall;
      var more := OpenCall(d);
      out := out + more;
    }

    method CloseItems() returns (out: seq<Event>)
      modifies this`seqNo
      ensures seqNo == old(seqNo) + |ItemsDone(Abs())| && out == Numbered(old(seqNo), ItemsDone(Abs()))
    {
      hide Numbered;
      ghost var n0 := seqNo;
      NumberedNone(n0);
      ghost var done: seq<Body> := [];
      out := [];
      if msgItem >= 0 {
        var a := Say(TextDone(msgItem, text));
        var b := Say(PartDone(msgItem, text));
        var c := Say(ItemDone(msgItem, MessageItem(text)));
        out := [a, b, c];
        done := [TextDone(msgItem, text), PartDone(msgItem, text), ItemDone(msgItem, MessageItem(text))];
        NumberedThree(n0, done[0], done[1], done[2]);
      }
      assert out == Numbered(n0, done);
      ghost var msg := done;
      if rsItem >= 0 {
        var a := Say(ReasoningDone(rsItem, reasoning));
        var b := Say(ItemDone(rsItem, ReasoningItem(reasoning)));
        ghost var more := [ReasoningDone(rsItem, reasoning), ItemDone(rsItem, ReasoningItem(reasoning))];
        NumberedAppend(n0, done, more);
        NumberedTwo(n0 + |done|, more[0], more[1]);
        out := out + [a, b];
        done := done + more;
      }
      ghost var head := done;
      var i := 0;
      while i < |calls|
        invariant 0 <= i <= |calls|
        invariant done == head + CallsDone(calls[..i])
        invariant seqNo == n0 + |done| && out == Numbered(n0, done)
      {
        var more := CloseCall(i);
        NumberedAppend(n0, done, CallDone(calls[i]));
        assert calls[..i + 1][..i] == calls[..i];
        Assoc(head, CallsDone(calls[..i]), CallDone(calls[i]));
        out := out + more;
        done := done + CallDone(calls[i]);
        i := i + 1;
      }
      assert calls[..i] == calls;
      assert msg + [] == msg;
    }

    method OutputItems() returns (r: seq<ItemValue>)
      ensures r == Items(Abs())
    {
      r := [];
      if rsItem >= 0 {
        r := r + [ReasoningItem(reasoning)];
      }
      if msgItem >= 0 {
        r := r + [MessageItem(text)];
      }
      ghost var head := r;
      var i := 0;
      while i < |calls|
        invariant 0 <= i <= |calls|
        invariant r == head + CallValues(calls[..i])
      {
        assert calls[..i + 1][..i] == calls[..i];
        r := r + [CallItem(calls[i].id, calls[i].name, calls[i].args)];
        i := i + 1;
      }
      assert calls[..i] == calls;
    }

    method EmitTerminal() returns (e: Event)
      modifies this`seqNo
      ensures seqNo == old(seqNo) + 1 && e == Ev(seqNo, TerminalOf(old(Abs())))
    {
      hide Items;
      var input := inputTok;
      if input < 0 {
        input := 0;
      }
      var items := OutputItems();
      var status := if failed then Failed
                    else if stop == "length" then Incomplete("max_output_tokens")
                    else if stop == "content_filter" || stop == "refusal" then Incomplete("content_filter")
                    else Completed;
      e := Say(Terminal(status, items, input, outputToks, cachedTok));
    }

    /** What a finish reason is noted as. */
    method NoteFinish(reason: string)
      modifies this`notes
      ensures var n := FinishNote(reason);
              var ns := if n != "" then Noted(old(notes), n) else old(notes);
              notes == if reason == "error" then Noted(ns, "finish_reason=error") else ns
    {
      hide Noted, FinishNote;
      var n := FinishNote(reason);
      if n != "" {
        Note(n);
      }
      if reason == "error" {
        Note("finish_reason=error");
      }
    }

    method EmitFinish(reason: string) returns (out: seq<Event>)
      modifies this`seqNo, this`notes, this`failed, this`finished, this`stop
      ensures Out(Abs(), out) == Emit(Finished(old(Abs()), reason))
    {
      hide ItemsDone, TerminalOf, Noted, Numbered, FinishNote, Emit, Finished;
      FinishedIs(Abs(), reason);
      NoteFinish(reason);
      if reason == "error" {
        failed := true;
        finished := true;
        var e := EmitTerminal();
        return [e];
      }
      stop := reason;
      finished := true;
      out := Complete();
    }

    /** The items closed, then the terminal event. */
    method Complete() returns (out: seq<Event>)
      modifies this`seqNo
      ensures var bodies := ItemsDone(old(Abs())) + [TerminalOf(old(Abs()))];
              seqNo == old(seqNo) + |bodies| && out == Numbered(old(seqNo), bodies)
    {
      hide ItemsDone, TerminalOf;
      ghost var s := Abs();
      out := CloseItems();
      SameTerminal(s, Abs());
      var e := EmitTerminal();
      NumberedAppend(s.seqNo, ItemsDone(s), [TerminalOf(s)]);
      out := out + [e];
    }

    /** The start, the reasoning and the text of a choice. */
    method SayProse(ch: Choice) returns (out: seq<Event>)
      modifies this
      ensures buf == old(buf)
      ensures Out(Abs(), out) == Steps(old(Abs()), [Begin(ch.usage, Lost(ch.content) + Lost(ch.reasoning))]
                                       + [Prose(Thinking, Texts(ch.reasoning))] + [Prose(Text, Texts(ch.content))])
    {
      hide Step, Steps, Emit, Texted, Reasoned, Texts, Lost;
      ghost var s0 := Abs();
      ghost var begin := Begin(ch.usage, Lost(ch.content) + Lost(ch.reasoning));
      ghost var think, prose := Prose(Thinking, Texts(ch.reasoning)), Prose(Text, Texts(ch.content));

      out := BeginChoice(ch);
      StepsNext(s0, [], begin);

      StepIs(Abs(), think);
      var r := EmitReasoning(Texts(ch.reasoning));
      StepsNext(s0, [begin], think);
      out := out + r;

      StepIs(Abs(), prose);
      var x := EmitText(Texts(ch.content));
      StepsNext(s0, [begin] + [think], prose);
      out := out + x;
    }

    /** One choice of a chunk. */
    method HandleChoice(ch: Choice) returns (out: seq<Event>)
      modifies this
      ensures buf == old(buf)
      ensures Out(Abs(), out) == Steps(old(Abs()), ChoiceItems(ch))
    {
      hide Step, Steps, Emit, Finished, Texts, Lost, ToolItems;
      ghost var s0 := Abs();
      ghost var done := [Begin(ch.usage, Lost(ch.content) + Lost(ch.reasoning))]
                        + [Prose(Thinking, Texts(ch.reasoning))] + [Prose(Text, Texts(ch.content))];
      out := SayProse(ch);
      var t := EmitCalls(ch.tools);
      StepsAppend(s0, done, ToolItems(ch.tools));
      out := out + t;
      done := done + ToolItems(ch.tools);

      if ch.finish != "" {
        StepIs(Abs(), Finish(ch.finish));
        var f := EmitFinish(ch.finish);
        StepsNext(s0, done, Finish(ch.finish));
        out := out + f;
      }
      assert ChoiceItems(ch) == done + if ch.finish != "" then [Finish(ch.finish)] else [];
      assert done + [] == done;
    }

    method BeginChoice(ch: Choice) returns (out: seq<Event>)
      modifies this`inputTok, this`outputToks, this`cachedTok, this`notes, this`started, this`id, this`seqNo
      ensures Out(Abs(), out) == Step(old(Abs()), Begin(ch.usage, Lost(ch.content) + Lost(ch.reasoning)))
    {
      hide NotedAll, Lost, Step, Emit;
      ghost var s0, lost := Abs(), Lost(ch.content) + Lost(ch.reasoning);
      Usage(ch.usage);
      ghost var s1 := Abs();
      UsageRead(s0, s1, ch.usage);
      StartedIs(s1);
      StartedIs(s1.(notes := NotedAll(notes, lost)));
      BeginIs(s0, ch.usage, lost);
      out := [];
      if !started {
        out := Start();
      }
      NoteAll(Lost(ch.content) + Lost(ch.reasoning));
    }

    method EmitCalls(deltas: seq<ToolDelta>) returns (out: seq<Event>)
      modifies this`calls, this`next, this`seqNo
      ensures Out(Abs(), out) == Steps(old(Abs()), ToolItems(deltas))
    {
      hide Step, Emit, Called;
      ghost var s0 := Abs();
      out := [];
      var i := 0;
      while i < |deltas|
        invariant 0 <= i <= |deltas|
        invariant Out(Abs(), out) == Steps(s0, ToolItems(deltas[..i]))
      {
        StepIs(Abs(), Tool(deltas[i]));
        var t := EmitCall(deltas[i]);
        StepsNext(s0, ToolItems(deltas[..i]), Tool(deltas[i]));
        assert ToolItems(deltas[..i]) + [Tool(deltas[i])] == ToolItems(deltas[..i + 1]);
        out := out + t;
        i := i + 1;
      }
      assert deltas[..i] == deltas;
    }

    method ReadHead(c: Chunk)
      modifies this`id, this`model, this`inputTok, this`outputToks, this`cachedTok
      ensures Out(Abs(), []) == Step(old(Abs()), Head(c.id, c.model, c.usage))
    {
      hide Step;
      HeadIs(Abs(), c.id, c.model, c.usage);
      if c.id != "" {
        id := c.id;
      }
      if c.model != "" {
        model := c.model;
      }
      Usage(c.usage);
    }

    method HandleChunk(c: Chunk) returns (out: seq<Event>)
      modifies this
      ensures buf == old(buf)
      ensures Out(Abs(), out) == Steps(old(Abs()), ChunkItems(c))
    {
      hide ChoiceItems, Step;
      ghost var s0, head := Abs(), Head(c.id, c.model, c.usage);
      ReadHead(c);
      StepsNext(s0, [], head);
      out := [];
      var i := 0;
      while i < |c.choices|
        invariant 0 <= i <= |c.choices|
        invariant buf == old(buf)
        invariant Out(Abs(), out) == Steps(s0, [head] + ChoicesItems(c.choices[..i]))
      {
        ghost var done := [head] + ChoicesItems(c.choices[..i]);
        var more := HandleChoice(c.choices[i]);
        StepsAppend(s0, done, ChoiceItems(c.choices[i]));
        assert c.choices[..i + 1][..i] == c.choices[..i];
        Assoc([head], ChoicesItems(c.choices[..i]), ChoiceItems(c.choices[i]));
        out := out + more;
        i := i + 1;
      }
      assert c.choices[..i] == c.choices;
    }

    method Fails(code: string, msg: string, note: string) returns (out: seq<Event>)
      modifies this`notes, this`failed, this`seqNo
      ensures Out(Abs(), out) == Step(old(Abs()), Fail(code, msg, note))
    {
      hide Step, Noted;
      FailIs(Abs(), code, msg, note);
      failed := true;
      Note(note);
      var e := Say(ErrorBody(code, msg));
      out := [e];
    }

    method Handle(frame: seq<byte>) returns (out: seq<Event>)
      modifies this
      ensures buf == old(buf)
      ensures Out(Abs(), out) == FrameStep(old(Abs()), frame, decode)
    {
      hide Step, Steps, ChunkItems, Reframed;
      if failed || finished {
        return [];
      }
      ghost var s0 := Abs();
      match decode(frame) {
        case Inert =>
          out := [];
          StepsNone(s0);
        case Native =>
          out := [Forwarded(Reframed(frame))];
          ForwardIs(s0, Reframed(frame));
          StepsOne(s0, Forward(Reframed(frame)));
        case UpstreamError(code, msg) =>
          out := Fails(code, msg, "finish_reason=error");
          StepsOne(s0, Fail(code, msg, "finish_reason=error"));
        case Foreign =>
          out := Fails("server_error", "upstream sent a stream frame this proxy cannot translate", "frame=untranslated");
          StepsOne(s0, UNTRANSLATED);
        case ChatChunk(c) =>
          out := HandleChunk(c);
      }
    }

    /** Complete frames are handled as they close; the tail of a split frame is kept. */
    method WriteFrame(frame: seq<byte>) returns (out: seq<Event>)
      modifies this
      ensures var s := Split(old(buf) + frame);
              && buf == s.rest
              && Out(Abs(), out) == Run(old(Abs()), M.Payloads(s.frames), decode)
    {
      hide FrameEnd, TermLen, Split, Run, FrameStep;
      ghost var s0 := Abs();
      buf := buf + frame;
      ghost var whole := Split(buf);
      ghost var done: seq<Frame> := [];
      out := [];
      RunNone(s0, decode);
      while true
        invariant whole == Framed(done + Split(buf).frames, Split(buf).rest)
        invariant Out(Abs(), out) == Run(s0, M.Payloads(done), decode)
        decreases |buf|
      {
        var i, n := FindFrameEnd(buf);
        NextFrame(done, buf);
        if i < 0 {
          break;
        }
        var more := Handle(buf[..i]);
        FrameHandled(s0, done, Frame(buf[..i], buf[i..i + n]), decode);
        out := out + more;
        done := done + [Frame(buf[..i], buf[i..i + n])];
        buf := buf[i + n..];
      }
    }

    method FinishFrames() returns (out: seq<Event>)
      modifies this
      ensures var tail := if M.IsBlank(old(buf)) then [] else [old(buf)];
              var r := Run(old(Abs()), tail, decode);
              Out(Abs(), out) == Out(Terminated(r.st).st, r.evs + Terminated(r.st).evs)
    {
      hide FrameStep, ItemsDone, TerminalOf, Run;
      ghost var s0 := Abs();
      RunNone(s0, decode);
      out := [];
      ghost var tail: seq<seq<byte>> := [];
      if !M.IsBlank(buf) {
        tail := [buf];
        OneFrame(s0, buf, decode);
        out := Handle(buf);
        buf := [];
      }
      ghost var r := Run(s0, tail, decode);
      assert Out(Abs(), out) == r;
      if !started || failed {
        assert out + [] == out;
        return;
      }
      ghost var s1, head := Abs(), out;
      if !finished {
        var c := Complete();
        out := out + c;
        finished := true;
      }
      out := out + [DoneMark];
      assert out == head + Terminated(s1).evs;
    }
  }

  /** What a text delta leaves and says, case by case. */
  lemma TextedIs(st: State, s: string)
    ensures Emit(Texted(st, s)) ==
      var n := st.seqNo;
      if s == "" then Out(st, [])
      else if st.msgItem < 0 then
        Out(st.(msgItem := st.next, next := st.next + 1, text := st.text + s, seqNo := n + 3),
            [Ev(n + 1, ItemAdded(st.next, MessageItem(""))), Ev(n + 2, PartAdded(st.next))]
            + [Ev(n + 3, TextDelta(st.next, s))])
      else Out(st.(text := st.text + s, seqNo := n + 1), [] + [Ev(n + 1, TextDelta(st.msgItem, s))])
  {
  }

  /** What a tool delta leaves and says, case by case. */
  lemma CalledIs(st: State, d: ToolDelta)
    ensures var a := FirstCall(st.calls, d.index);
            Emit(Called(st, d)) ==
              if a < |st.calls| && !(d.id != "" && d.id != st.calls[a].id) then
                var c := st.calls[a];
                Out(st.(calls := st.calls[a := c.(args := c.args + d.args)], seqNo := st.seqNo + |ArgsBody(c, d.args)|),
                    Numbered(st.seqNo, ArgsBody(c, d.args)))
              else
                var c, n := NewCall(st, d), st.seqNo + if a < |st.calls| then 2 else 0;
                var rest := [ItemAdded(c.item, CallItem(c.id, c.name, ""))] + ArgsBody(c, d.args);
                Out(st.(calls := st.calls + [c.(args := d.args)], next := st.next + 1, seqNo := n + |rest|),
                    (if a < |st.calls| then Numbered(st.seqNo, CallDone(st.calls[a])) else []) + Numbered(n, rest))
  {
    hide FirstCall, ArgsBody, Numbered, NewCall;
    var a, c := FirstCall(st.calls, d.index), NewCall(st, d);
    var head := [ItemAdded(c.item, CallItem(c.id, c.name, ""))];
    var closing := if a < |st.calls| then CallDone(st.calls[a]) else [];
    Assoc(closing, head, ArgsBody(c, d.args));
    NumberedAppend(st.seqNo, closing, head + ArgsBody(c, d.args));
    NumberedNone(st.seqNo);
  }

  lemma FailIs(st: State, code: string, msg: string, note: string)
    ensures Step(st, Fail(code, msg, note)) ==
              Out(st.(failed := true, notes := Noted(st.notes, note), seqNo := st.seqNo + 1),
                  [Ev(st.seqNo + 1, ErrorBody(code, msg))])
  {
  }

  lemma StartedIs(st: State)
    ensures var id := if st.id == "" then st.invented else st.id;
            Emit(Started(st)) ==
              if st.started then Out(st, [])
              else Out(st.(started := true, id := id, seqNo := st.seqNo + 2),
                       [Ev(st.seqNo + 1, Created(id, st.model)), Ev(st.seqNo + 2, InProgress(id, st.model))])
  {
  }

  lemma UsageRead(st: State, r: State, u: Option<Usage>)
    requires r == match u
                  case None => st
                  case Some(x) => st.(inputTok := x.prompt - x.cached, outputToks := x.completion, cachedTok := x.cached)
    ensures r == ReadUsage(st, u)
  {
  }

  lemma {:induction false} BeginIs(st: State, u: Option<Usage>, lost: seq<string>)
    ensures Step(st, Begin(u, lost)) == Emit(Started(ReadUsage(st, u).(notes := NotedAll(st.notes, lost))))
  {
  }

  lemma HeadIs(st: State, id: string, model: string, usage: Option<Usage>)
    ensures var i := if id != "" then id else st.id;
            var m := if model != "" then model else st.model;
            Step(st, Head(id, model, usage)) ==
              match usage
              case None => Out(st.(id := i, model := m), [])
              case Some(u) =>
                Out(st.(id := i, model := m, inputTok := u.prompt - u.cached, outputToks := u.completion,
                        cachedTok := u.cached), [])
  {
  }

  lemma FinishedIs(st: State, reason: string)
    ensures var n := FinishNote(reason);
            var notes := if n != "" then Noted(st.notes, n) else st.notes;
            Emit(Finished(st, reason)) ==
              if reason == "error" then
                var f := st.(notes := Noted(notes, "finish_reason=error"), failed := true, finished := true);
                Out(f.(seqNo := st.seqNo + 1), [Ev(st.seqNo + 1, TerminalOf(f))])
              else
                var f := st.(notes := notes, stop := reason, finished := true);
                var bodies := ItemsDone(f) + [TerminalOf(f)];
                Out(f.(seqNo := st.seqNo + |bodies|), Numbered(st.seqNo, bodies))
  {
    hide ItemsDone, TerminalOf, Noted, FinishNote;
  }

  lemma ReasonedIs(st: State, s: string)
    ensures Emit(Reasoned(st, s)) ==
      var n := st.seqNo;
      if s == "" then Out(st, [])
      else if st.rsItem < 0 then
        Out(st.(rsItem := st.next, next := st.next + 1, reasoning := st.reasoning + s, seqNo := n + 2),
            [Ev(n + 1, ItemAdded(st.next, ReasoningItem("")))] + [Ev(n + 2, ReasoningDelta(st.next, s))])
      else Out(st.(reasoning := st.reasoning + s, seqNo := n + 1), [] + [Ev(n + 1, ReasoningDelta(st.rsItem, s))])
  {
  }

  lemma NumberedNone(n: int)
    ensures Numbered(n, []) == []
  {
  }

  lemma NumberedTwo(n: int, a: Body, b: Body)
    ensures Numbered(n, [a, b]) == [Ev(n + 1, a), Ev(n + 2, b)]
  {
  }

  lemma NumberedThree(n: int, a: Body, b: Body, c: Body)
    ensures Numbered(n, [a, b, c]) == [Ev(n + 1, a), Ev(n + 2, b), Ev(n + 3, c)]
  {
  }

  lemma NumberedAppend(n: int, a: seq<Body>, b: seq<Body>)
    ensures Numbered(n, a + b) == Numbered(n, a) + Numbered(n + |a|, b)
  {
  }

  /** The terminal event does not depend on the count or the finished flag. */
  lemma SameTerminal(a: State, b: State)
    requires a.(seqNo := 0, finished := true) == b.(seqNo := 0, finished := true)
    ensures TerminalOf(a) == TerminalOf(b) && ItemsDone(a) == ItemsDone(b)
  {
  }

  lemma StepIs(st: State, it: Item)
    ensures it.Prose? ==> Step(st, it) == Emit(if it.kind == Thinking then Reasoned(st, it.s) else Texted(st, it.s))
    ensures it.Tool? ==> Step(st, it) == Emit(Called(st, it.d))
    ensures it.Finish? ==> Step(st, it) == Emit(Finished(st, it.reason))
  {
  }

  lemma NewCallCountless(a: State, b: State, d: ToolDelta)
    requires a.next == b.next
    ensures NewCall(a, d) == NewCall(b, d)
  {
  }

  lemma ForwardIs(st: State, frame: seq<byte>)
    ensures Step(st, Forward(frame)) == Out(st, [Forwarded(frame)])
  {
  }

  lemma {:induction false} StepsNone(st: State)
    ensures Steps(st, []) == Out(st, [])
  {
  }

  lemma {:induction false} StepsOne(st: State, it: Item)
    ensures Steps(st, [it]) == Step(st, it)
  {
    hide Step;
    StepsNext(st, [], it);
    assert [] + [it] == [it];
  }

  lemma {:induction false} StepsNext(st: State, done: seq<Item>, it: Item)
    ensures var p := Steps(st, done);
            var q := Step(p.st, it);
            Steps(st, done + [it]) == Out(q.st, p.evs + q.evs)
    ensures done == [] ==> Steps(st, [it]) == Step(st, it)
  {
    hide Step;
    assert (done + [it])[..|done|] == done;
    assert done == [] ==> done + [it] == [it];
    assert [] + Step(st, it).evs == Step(st, it).evs;
  }

  lemma {:induction false} StepsAppend(st: State, a: seq<Item>, b: seq<Item>)
    ensures var p := Steps(st, a);
            var q := Steps(p.st, b);
            Steps(st, a + b) == Out(q.st, p.evs + q.evs)
  {
    hide Step;
    if b == [] {
      assert a + b == a;
    } else {
      var n := |b| - 1;
      assert (a + b)[..|a + b| - 1] == a + b[..n] && (a + b)[|a + b| - 1] == b[n];
      StepsAppend(st, a, b[..n]);
      var p := Steps(st, a);
      var q := Steps(p.st, b[..n]);
      Assoc(p.evs, q.evs, Step(q.st, b[n]).evs);
    }
  }

  lemma {:induction false} RunNone(st: State, decode: seq<byte> -> FrameKind)
    ensures Run(st, M.Payloads([]), decode) == Run(st, [], decode) == Out(st, [])
  {
  }

  lemma {:induction false} OneFrame(st: State, b: seq<byte>, decode: seq<byte> -> FrameKind)
    ensures Run(st, [b], decode) == FrameStep(st, b, decode)
  {
    hide FrameStep;
    assert [b][..0] == [];
    assert [] + FrameStep(st, b, decode).evs == FrameStep(st, b, decode).evs;
  }

  lemma {:induction false} FrameHandled(st: State, done: seq<Frame>, f: Frame, decode: seq<byte> -> FrameKind)
    ensures var p := Run(st, M.Payloads(done), decode);
            var q := FrameStep(p.st, f.payload, decode);
            Run(st, M.Payloads(done + [f]), decode) == Out(q.st, p.evs + q.evs)
  {
    hide FrameStep;
    var ps := M.Payloads(done + [f]);
    assert ps[..|done|] == M.Payloads(done) && ps[|done|] == f.payload;
  }
}
