/** In which order the Anthropic emitter stops its open blocks: what is left of "lowest index first". */
module MessagesOrder {
  import opened Wrappers
  import opened ChatStream
  import opened MessagesSpec

  predicate InOrder(tools: seq<ToolBlock>) {
    forall i, j :: 0 <= i < j < |tools| ==> tools[i].blk < tools[j].blk
  }

  /** The tool blocks stand in the order of their numbers, and every block number is taken. */
  predicate Rising(st: State) {
    && InOrder(st.tools)
    && (forall t :: t in st.tools ==> t.blk < st.next && (st.kind.Some? ==> t.blk != st.open))
    && (st.kind.Some? ==> st.open < st.next)
  }

  lemma InOrderSnoc(tools: seq<ToolBlock>, t: ToolBlock)
    requires InOrder(tools) && forall x :: x in tools ==> x.blk < t.blk
    ensures InOrder(tools + [t])
  {
    var r := tools + [t];
    forall i, j | 0 <= i < j < |r| ensures r[i].blk < r[j].blk {
      assert r[i] == tools[i];
      assert j < |tools| ==> r[j] == tools[j];
    }
  }

  /** Every tool block left is one that was there, and in the same order. */
  lemma {:induction false} WithoutRises(tools: seq<ToolBlock>, idx: int)
    requires InOrder(tools)
    ensures InOrder(Without(tools, idx)) && forall t :: t in Without(tools, idx) ==> t in tools
  {
    if tools != [] {
      var init, last := tools[..|tools| - 1], tools[|tools| - 1];
      WithoutRises(init, idx);
      forall t | t in Without(init, idx) ensures t.blk < last.blk && t in tools {
        assert t in init;
        var i :| 0 <= i < |init| && init[i] == t;
        assert tools[i] == t;
      }
      InOrderSnoc(Without(init, idx), last);
      assert Without(init, idx) + [] == Without(init, idx);
    }
  }

  lemma CalledRises(st: State, d: ToolDelta)
    requires Rising(st)
    ensures Rising(Called(st, d).st)
  {
    hide InOrder, Without, Lookup, Itoa;
    WithoutRises(st.tools, d.index);
    var t := ToolBlock(d.index, st.next, NewId(st, d));
    InOrderSnoc(st.tools, t);
    InOrderSnoc(Without(st.tools, d.index), t);
  }

  lemma StepRises(st: State, it: Item)
    requires Rising(st)
    ensures Rising(Step(st, it).st)
  {
    hide Called, NotedAll, FinishNote, StopReason, Stops;
    if it.Tool? {
      CalledRises(st, it.d);
    }
  }

  lemma {:induction false} RunRises(invented: string, items: seq<Item>)
    ensures Rising(Run(Initial(invented), items).st)
  {
    if items != [] {
      hide Step, Rising;
      RunRises(invented, items[..|items| - 1]);
      StepRises(Run(Initial(invented), items[..|items| - 1]).st, items[|items| - 1]);
    } else {
      assert Rising(Initial(invented));
    }
  }

  /** The stops come lowest index first. */
  predicate Ascends(evs: seq<Event>) {
    forall i, j :: 0 <= i < j < |evs| && evs[i].BlockStop? && evs[j].BlockStop? ==> evs[i].index < evs[j].index
  }

  lemma {:induction false} StopsAre(tools: seq<ToolBlock>)
    ensures |Stops(tools)| == |tools| && forall i :: 0 <= i < |tools| ==> Stops(tools)[i] == BlockStop(tools[i].blk)
  {
    if tools != [] {
      StopsAre(tools[..|tools| - 1]);
    }
  }

  /** An open prose block is stopped before every tool block, so the order is kept only if it is older than them all. */
  predicate ProseIsOldest(st: State) {
    st.kind.None? || st.tools == [] || st.open < st.tools[0].blk
  }

  lemma {:induction false} StopsAscend(tools: seq<ToolBlock>)
    requires InOrder(tools)
    ensures Ascends(Stops(tools))
  {
    hide Stops;
    StopsAre(tools);
  }

  lemma {:induction false} StopBehind(x: int, tools: seq<ToolBlock>, j: int)
    requires InOrder(tools) && 0 < j <= |tools|
    ensures |Stops(tools)| == |tools|
    ensures ([BlockStop(x)] + Stops(tools))[j] == BlockStop(tools[j - 1].blk) && tools[0].blk <= tools[j - 1].blk
  {
    hide Stops;
    StopsAre(tools);
    assert ([BlockStop(x)] + Stops(tools))[j] == Stops(tools)[j - 1];
  }

  /** One more stop in front. */
  lemma {:induction false} AscendsCons(x: int, tools: seq<ToolBlock>)
    requires InOrder(tools)
    ensures Ascends([BlockStop(x)] + Stops(tools)) <==> tools == [] || x < tools[0].blk
  {
    hide Stops;
    StopsAre(tools);
    StopsAscend(tools);
    var s := Stops(tools);
    var evs := [BlockStop(x)] + s;
    assert evs[1..] == s && evs[0] == BlockStop(x);
    if tools != [] {
      StopBehind(x, tools, 1);
      if x < tools[0].blk {
        forall i, j | 0 <= i < j < |evs| && evs[i].BlockStop? && evs[j].BlockStop? ensures evs[i].index < evs[j].index {
          StopBehind(x, tools, j);
          if i > 0 {
            StopBehind(x, tools, i);
          }
        }
      }
    }
  }

  lemma {:induction false} ClosesAscending(st: State)
    requires Rising(st)
    ensures Ascends(CloseAll(st).evs) <==> ProseIsOldest(st)
  {
    hide Stops, Ascends, InOrder;
    StopsAscend(st.tools);
    if st.kind.None? {
      assert CloseAll(st).evs == Stops(st.tools);
    } else {
      AscendsCons(st.open, st.tools);
    }
  }

  /** In every run: closing is lowest index first if and only if no open prose is younger than an open tool block. */
  lemma {:induction false} CloseOrderExactly(invented: string, items: seq<Item>)
    ensures var st := Run(Initial(invented), items).st;
            Ascends(CloseAll(st).evs) <==> ProseIsOldest(st)
  {
    hide Run, CloseAll, Rising;
    RunRises(invented, items);
    ClosesAscending(Run(Initial(invented), items).st);
  }

  /** A call, then text: the text block 1 is stopped before the tool block 0. */
  lemma YoungProseClosesFirst(invented: string)
    ensures var items := [Begin(None, []), Tool(ToolDelta(0, "a", "f", "")), Prose(Text, "x")];
            CloseAll(Run(Initial(invented), items).st).evs == [BlockStop(1), BlockStop(0)]
  {
    var b, t, p := Begin(None, []), Tool(ToolDelta(0, "a", "f", "")), Prose(Text, "x");
    RunOfThree(Initial(invented), b, t, p);
    StartsFresh(Initial(invented));
    var s1 := Step(Initial(invented), b).st;
    CallOpens(s1);
    var s2 := Step(s1, t).st;
    var s3 := Step(s2, p).st;
    assert s3 == s2.(kind := Some(Text), open := 1, next := 2);
    StopsAre(s3.tools);
    assert CloseAll(s3).evs == [BlockStop(1)] + Stops(s3.tools);
  }

  lemma {:induction false} RunOfThree(st: State, a: Item, b: Item, c: Item)
    ensures Run(st, [a, b, c]).st == Step(Step(Step(st, a).st, b).st, c).st
  {
    hide Step;
    assert [a, b, c][..2] == [a, b] && [a, b][..1] == [a] && [a][..0] == [];
    assert Run(st, [a]).st == Step(st, a).st;
    assert Run(st, [a, b]).st == Step(Run(st, [a]).st, b).st;
  }

  lemma StartsFresh(st: State)
    requires st == Initial(st.invented)
    ensures Step(st, Begin(None, [])).st == st.(started := true)
  {
    assert NotedAll([], []) == [];
  }

  lemma CallOpens(st: State)
    requires st.tools == [] && st.kind.None? && st.next == 0 && !st.failed
    ensures Step(st, Tool(ToolDelta(0, "a", "f", ""))).st == st.(tools := [ToolBlock(0, 0, "a")], next := 1)
  {
  }
}
