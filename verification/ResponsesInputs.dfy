/** Streams of one chunk that a strict client of the Responses dialect rejects. */
module ResponsesInputs {
  import opened Wrappers
  import opened Bytes
  import opened ChatStream
  import opened ResponsesSpec
  import opened ResponsesClient
  import opened ResponsesLifecycle
  import opened ResponsesTheorems
  import opened ResponsesContent

  /** The frame is a chunk with these choices, whatever its bytes, id, model and usage. */
  predicate HasChoices(decode: seq<byte> -> FrameKind, frame: seq<byte>, choices: seq<Choice>) {
    decode(frame).ChatChunk? && decode(frame).chunk.choices == choices
  }

  predicate Fails(it: Item) {
    it.Fail? || (it.Finish? && it.reason == "error")
  }

  lemma {:induction false} Flags(st: State, items: seq<Item>)
    requires !st.failed && forall i :: 0 <= i < |items| ==> !Fails(items[i])
    ensures var r := Steps(st, items).st; !r.failed && (st.started || Begun(items) ==> r.started)
  {
    if items != [] {
      hide Step, Fails, Begun;
      var n := |items| - 1;
      Flags(st, items[..n]);
      FlagsStep(Steps(st, items[..n]).st, items[n]);
      BegunLast(items);
    } else {
      hide Step, Fails;
    }
  }

  lemma BegunLast(items: seq<Item>)
    requires items != []
    ensures Begun(items) ==> Begun(items[..|items| - 1]) || items[|items| - 1].Begin?
  {
    if Begun(items) {
      var i :| 0 <= i < |items| && items[i].Begin?;
      assert i < |items| - 1 ==> items[..|items| - 1][i].Begin?;
    }
  }

  lemma FlagsStep(st: State, it: Item)
    requires !st.failed && !Fails(it)
    ensures var r := Step(st, it).st; !r.failed && (st.started || it.Begin? ==> r.started)
  {
    hide ItemsDone, TerminalOf, CallsDone, Numbered, Noted, NotedAll;
  }

  /** The run of one chunk is the steps of its items. */
  lemma OneFrameRun(invented: string, frame: seq<byte>, decode: seq<byte> -> FrameKind)
    requires decode(frame).ChatChunk?
    ensures var items := ChunkItems(decode(frame).chunk);
            && Run(Initial(invented), [frame], decode) == Steps(Initial(invented), items)
            && StreamItems([frame], decode) == items
  {
    hide Steps;
    var items := ChunkItems(decode(frame).chunk);
    assert [frame][..0] == [];
    assert Run(Initial(invented), [frame][..0], decode) == Out(Initial(invented), []);
    var q := Steps(Initial(invented), items);
    assert [] + q.evs == q.evs;
    assert StreamItems([frame], decode) == [] + items == items;
  }

  const SILENT: Choice := Choice(Absent, Absent, [], "", None)

  /** One tool index under two ids. */
  const REUSE: seq<Choice> := [SILENT.(tools := [ToolDelta(0, "a", "f", ""), ToolDelta(0, "b", "f", "")])]

  /** A choice with a finish reason, and behind it one with text. */
  const LATE: seq<Choice> := [SILENT.(finish := "stop"), SILENT.(content := Plain("x"))]

  lemma ChoiceItemsAre(ch: Choice)
    requires ch.reasoning == Absent && ch.usage == None && !ch.content.Parts? && !ch.content.Opaque?
    ensures ChoiceItems(ch) == [Begin(None, []), Prose(Thinking, ""), Prose(Text, Texts(ch.content))]
                               + ToolItems(ch.tools) + if ch.finish != "" then [Finish(ch.finish)] else []
  {
    assert Lost(ch.content) + Lost(ch.reasoning) == [];
  }

  lemma ReuseItems(c: Chunk)
    requires c.choices == REUSE
    ensures ChunkItems(c) == [Head(c.id, c.model, c.usage), Begin(None, []), Prose(Thinking, ""), Prose(Text, ""),
                             Tool(ToolDelta(0, "a", "f", "")), Tool(ToolDelta(0, "b", "f", ""))]
  {
    assert REUSE[..0] == [];
    var ch := REUSE[0];
    assert ToolItems(ch.tools) == [Tool(ch.tools[0]), Tool(ch.tools[1])];
    ChoiceItemsAre(ch);
    assert ChoicesItems(REUSE) == [] + ChoiceItems(ch);
  }

  lemma LateItems(c: Chunk)
    requires c.choices == LATE
    ensures ChunkItems(c) == [Head(c.id, c.model, c.usage), Begin(None, []), Prose(Thinking, ""), Prose(Text, ""), Finish("stop"),
                            Begin(None, []), Prose(Thinking, ""), Prose(Text, "x")]
  {
    assert LATE[..1] == [LATE[0]] && [LATE[0]][..0] == [];
    ChoiceItemsAre(LATE[0]);
    ChoiceItemsAre(LATE[1]);
    assert ToolItems([]) == [];
    assert ChoicesItems([LATE[0]]) == [] + ChoiceItems(LATE[0]);
    assert ChoicesItems(LATE) == ChoicesItems([LATE[0]]) + ChoiceItems(LATE[1]);
  }

  lemma {:induction false} NoCallsYet(st: State, items: seq<Item>)
    requires st.calls == [] && !Over(st) && forall i :: 0 <= i < |items| ==> !items[i].Tool? && !items[i].Finish? && !items[i].Fail?
    ensures Gated(st, items).st.calls == [] && !Over(Gated(st, items).st)
  {
    if items != [] {
      hide Step, Over;
      var n := |items| - 1;
      NoCallsYet(st, items[..n]);
      SameCalls(Gated(st, items[..n]).st, items[n]);
      KeepsGoing(Gated(st, items[..n]).st, items[n]);
    }
  }

  lemma OpensCall(st: State)
    requires st.calls == []
    ensures var r := Step(st, Tool(ToolDelta(0, "a", "f", ""))).st; |r.calls| == 1 && r.calls[0].idx == 0 && r.calls[0].id == "a"
  {
    hide Numbered;
    assert FirstCall([], 0) == 0;
  }

  lemma ReuseMeetsGuard(invented: string, c: Chunk)
    requires c.choices == REUSE
    ensures !NeverReuses(Initial(invented), ChunkItems(c))
  {
    hide Step;
    ReuseItems(c);
    var items, s0 := ChunkItems(c), Initial(invented);
    var a := Tool(ToolDelta(0, "a", "f", ""));
    assert items[..5][..4] == items[..4] && items[..5][4] == a;
    NoCallsYet(s0, items[..4]);
    var p := Gated(s0, items[..4]).st;
    OpensCall(p);
    KeepsGoing(p, a);
    var s := Gated(s0, items[..5]).st;
    assert s == Step(p, a).st;
    assert Reuses(s, items[5].d);
    assert items[5].Tool?;
  }

  /** One index under two ids: the run completes, and the client rejects it. */
  lemma ReusedIndexRejected(invented: string, frame: seq<byte>, decode: seq<byte> -> FrameKind)
    requires HasChoices(decode, frame, REUSE)
    ensures var r := Run(Initial(invented), [frame], decode);
            r.st.started && !r.st.failed && AcceptAll(Fresh, r.evs + Terminated(r.st).evs).None?
  {
    hide Run, Steps, AcceptAll, Terminated, NeverReuses, QuietAfterFinish, StreamItems;
    var c := decode(frame).chunk;
    ReuseItems(c);
    OneFrameRun(invented, frame, decode);
    assert ChunkItems(c)[1].Begin?;
    Flags(Initial(invented), ChunkItems(c));
    ReuseMeetsGuard(invented, c);
    LifecycleExactly(invented, [frame], decode);
  }

  lemma {:induction false} OverFrom(st: State, items: seq<Item>, i: nat)
    requires i < |items| && items[i].Finish?
    ensures Over(Steps(st, items).st)
  {
    hide Step, Over;
    var n := |items| - 1;
    var p := Steps(st, items[..n]).st;
    if i < n {
      OverFrom(st, items[..n], i);
      OverStays(p, items[n]);
    } else {
      FinishEnds(p, items[n]);
    }
  }

  lemma FinishEnds(st: State, it: Item)
    requires it.Finish?
    ensures Over(Step(st, it).st)
  {
    hide ItemsDone, TerminalOf;
  }

  lemma LateSpeaks(invented: string, frame: seq<byte>, decode: seq<byte> -> FrameKind)
    requires HasChoices(decode, frame, LATE)
    ensures !QuietAfterFinish(Initial(invented), [frame], decode)
  {
    hide Steps, Over;
    LateItems(decode(frame).chunk);
    var items, s0 := ChunkItems(decode(frame).chunk), Initial(invented);
    OverFrom(s0, items[..7], 4);
    assert items[7] == Prose(Text, "x") && "x" != "";
    assert !QuietAt(s0, items, 7);
    assert !QuietIn(s0, items);
    assert [frame][..0] == [];
    assert Run(s0, [frame][..0], decode).st == s0 && FrameItems([frame][0], decode) == items;
    assert !Over(s0) by { NotOver(invented); }
    assert !QuietFrame(s0, [frame], decode, 0);
  }

  lemma NotOver(invented: string)
    ensures !Over(Initial(invented))
  {
  }

  /** Text behind a finish reason in one chunk: it is written after the terminal event, and the client rejects it. */
  lemma LateChoiceRejected(invented: string, frame: seq<byte>, decode: seq<byte> -> FrameKind)
    requires HasChoices(decode, frame, LATE)
    ensures var r := Run(Initial(invented), [frame], decode);
            r.st.started && !r.st.failed && AcceptAll(Fresh, r.evs + Terminated(r.st).evs).None?
  {
    hide Run, Steps, AcceptAll, Terminated, NeverReuses, QuietAfterFinish, StreamItems;
    var c := decode(frame).chunk;
    LateItems(c);
    OneFrameRun(invented, frame, decode);
    assert ChunkItems(c)[1].Begin?;
    Flags(Initial(invented), ChunkItems(c));
    LateSpeaks(invented, frame, decode);
    LifecycleExactly(invented, [frame], decode);
  }
}
