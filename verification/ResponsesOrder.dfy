/** In which order the terminal object lists the items: what is left of "in the order they appeared". */
module ResponsesOrder {
  import opened Wrappers
  import opened Bytes
  import opened ChatStream
  import opened ResponsesSpec
  import opened ResponsesClient
  import opened ResponsesLifecycle
  import opened ResponsesTheorems

  function CallPositions(calls: seq<RespCall>): (r: seq<int>)
    ensures |r| == |calls| && forall a :: 0 <= a < |calls| ==> r[a] == calls[a].item
  {
    seq(|calls|, a requires 0 <= a < |calls| => calls[a].item)
  }

  /** The output_index of each listed item. */
  function Positions(st: State): seq<int> {
    (if st.rsItem >= 0 then [st.rsItem] else []) + (if st.msgItem >= 0 then [st.msgItem] else [])
    + CallPositions(st.calls)
  }

  predicate Ascending(ps: seq<int>) {
    forall i, j :: 0 <= i < j < |ps| ==> ps[i] < ps[j]
  }

  /** Reasoning stands before the message, and both stand before every call. */
  predicate InAppearance(st: State) {
    && (st.msgItem >= 0 ==> st.rsItem < st.msgItem)
    && (forall a :: 0 <= a < |st.calls| ==> st.rsItem < st.calls[a].item && st.msgItem < st.calls[a].item)
  }

  /** The items in the order they appeared. */
  function Values(items: seq<RItem>): (r: seq<ItemValue>)
    ensures |r| == |items| && forall i :: 0 <= i < |items| ==> r[i] == items[i].value
  {
    seq(|items|, i requires 0 <= i < |items| => items[i].value)
  }

  lemma {:induction false} CallValuesAre(calls: seq<RespCall>)
    ensures |CallValues(calls)| == |calls|
    ensures forall a :: 0 <= a < |calls| ==> CallValues(calls)[a] == CallItem(calls[a].id, calls[a].name, calls[a].args)
  {
    if calls != [] {
      CallValuesAre(calls[..|calls| - 1]);
    }
  }

  /** Every listed value is the item at its position, and every item has a position. */
  lemma ListedAtPositions(st: State, items: seq<RItem>)
    requires Holds(st, items)
    ensures |Items(st)| == |Positions(st)|
    ensures forall i :: 0 <= i < |Positions(st)| ==>
              0 <= Positions(st)[i] < |items| && Items(st)[i] == items[Positions(st)[i]].value
    ensures forall k :: 0 <= k < |items| ==> k in Positions(st)
  {
    hide CallValues;
    CallValuesAre(st.calls);
    var r := if st.rsItem >= 0 then [st.rsItem] else [];
    var m := if st.msgItem >= 0 then [st.msgItem] else [];
    var cs, ps := CallPositions(st.calls), Positions(st);
    assert ps == r + m + cs;
    forall k | 0 <= k < |items| ensures k in ps {
      if IsCallItem(st.calls, k) {
        var a :| 0 <= a < |st.calls| && st.calls[a].item == k;
        assert cs[a] == k && k in cs;
      } else if k == st.msgItem {
        assert k in m;
      } else {
        assert k in r;
      }
    }
  }

  lemma {:induction false} AscendingIsIdentity(ps: seq<int>, n: nat)
    requires Ascending(ps) && forall i :: 0 <= i < |ps| ==> 0 <= ps[i] < n
    requires forall k :: 0 <= k < n ==> k in ps
    ensures |ps| == n && forall i :: 0 <= i < n ==> ps[i] == i
  {
    if ps == [] {
      assert n > 0 ==> 0 in ps;
    } else {
      var m := |ps| - 1;
      assert 0 <= ps[m] < n;
      assert n - 1 in ps;
      assert ps[m] == n - 1;
      forall k | 0 <= k < n - 1 ensures k in ps[..m] {
        assert k in ps;
      }
      AscendingIsIdentity(ps[..m], n - 1);
      forall i | 0 <= i < n ensures ps[i] == i {
        assert i < m ==> ps[..m][i] == i;
      }
    }
  }

  lemma AppearanceAscends(st: State)
    requires forall a, b :: 0 <= a < b < |st.calls| ==> st.calls[a].item < st.calls[b].item
    ensures InAppearance(st) ==> Ascending(Positions(st))
  {
  }

  /** For a client whose items hold the emitter's fields: the listed order is the order of appearance exactly then. */
  lemma ListedInOrderExactly(st: State, items: seq<RItem>)
    requires Holds(st, items)
    ensures Items(st) == Values(items) <==> InAppearance(st)
  {
    ListedAtPositions(st, items);
    if InAppearance(st) {
      hide Holds, Items;
      assert forall a, b :: 0 <= a < b < |st.calls| ==> st.calls[a].item < st.calls[b].item by { CallsRise(st, items); }
      AppearanceAscends(st);
      AscendingIsIdentity(Positions(st), |items|);
    } else if Items(st) == Values(items) {
      InOrderAppears(st, items);
    }
  }

  lemma CallsRise(st: State, items: seq<RItem>)
    requires Holds(st, items)
    ensures forall a, b :: 0 <= a < b < |st.calls| ==> st.calls[a].item < st.calls[b].item
  {
  }

  lemma InOrderAppears(st: State, items: seq<RItem>)
    requires Holds(st, items) && Items(st) == Values(items)
    ensures InAppearance(st)
  {
    hide CallValues;
    CallValuesAre(st.calls);
    var vs := Values(items);
    if st.rsItem >= 0 {
      assert vs[0] == ReasoningItem(st.reasoning);
      KindsFixed(st, items, 0);
    }
    if st.msgItem >= 0 {
      var k := if st.rsItem >= 0 then 1 else 0;
      assert Items(st)[k] == MessageItem(st.text);
      KindsFixed(st, items, k);
    }
    forall a | 0 <= a < |st.calls| ensures st.rsItem < st.calls[a].item && st.msgItem < st.calls[a].item {
      KindsFixed(st, items, st.calls[a].item);
    }
  }

  /**
   Over every accepted run: the terminal object lists the items in the order they appeared if and only if the
   reasoning came before the message and both before every call.
   */
  lemma TerminalOrderExactly(invented: string, frames: seq<seq<byte>>, decode: seq<byte> -> FrameKind)
      returns (c: Client)
    requires NeverReuses(Initial(invented), StreamItems(frames, decode))
    requires QuietAfterFinish(Initial(invented), frames, decode)
    ensures var r := Run(Initial(invented), frames, decode);
            && AcceptAll(Fresh, r.evs + Terminated(r.st).evs) == Some(c)
            && Output(c.view.items) == Items(r.st)
            && (Items(r.st) == Values(c.view.items) <==> InAppearance(r.st))
  {
    hide Run, NeverReuses, QuietAfterFinish, StreamItems, Terminated, AcceptAll, Holds, Output, Items, Values,
         InAppearance;
    c := Lifecycle(invented, frames, decode);
    var st := Run(Initial(invented), frames, decode).st;
    OutputIsItems(st, c.view.items);
    ListedInOrderExactly(st, c.view.items);
  }

  /** Text, then reasoning: the reasoning is item 1 and is listed first. */
  lemma LateReasoningListedFirst(invented: string)
    ensures var st := Gated(Initial(invented), [Begin(None, []), Prose(Text, "x"), Prose(Thinking, "y")]).st;
            Items(st) == [ReasoningItem("y"), MessageItem("x")] && Positions(st) == [1, 0]
  {
    var b, p, q := Begin(None, []), Prose(Text, "x"), Prose(Thinking, "y");
    var s0 := Initial(invented);
    GatedOfThree(s0, b, p, q);
    assert NotedAll([], []) == [];
    var s1 := Step(s0, b).st;
    assert s1.next == 0 && s1.msgItem < 0 && s1.rsItem < 0 && s1.calls == [] && s1.text == "" && s1.reasoning == "";
    assert "" + "x" == "x" && "" + "y" == "y";
    var s2 := Step(s1, p).st;
    assert s2.msgItem == 0 && s2.text == "x" && s2.next == 1;
    var s3 := Step(s2, q).st;
    assert s3.rsItem == 1 && s3.reasoning == "y" && s3.msgItem == 0 && s3.text == "x" && s3.calls == [];
    assert CallValues([]) == [];
  }

  lemma {:induction false} GatedOfThree(st: State, a: Item, b: Item, c: Item)
    requires !Over(st) && forall it :: it in [a, b, c] ==> !it.Finish? && !it.Fail?
    ensures Gated(st, [a, b, c]).st == Step(Step(Step(st, a).st, b).st, c).st
  {
    hide Step;
    assert [a, b, c][..2] == [a, b] && [a, b][..1] == [a] && [a][..0] == [];
    assert a in [a, b, c] && b in [a, b, c];
    KeepsGoing(st, a);
    KeepsGoing(Step(st, a).st, b);
    assert Gated(st, [a]).st == Step(st, a).st;
    assert Gated(st, [a, b]).st == Step(Gated(st, [a]).st, b).st;
  }
}
