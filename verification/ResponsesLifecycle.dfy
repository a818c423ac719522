/** Item lifecycle of the Responses emitter: when the client accepts the whole run. */
module ResponsesLifecycle {
  import opened Wrappers
  import opened ChatStream
  import opened ResponsesSpec
  import opened ResponsesClient

  predicate IsCallItem(calls: seq<RespCall>, i: int) {
    exists a :: 0 <= a < |calls| && calls[a].item == i
  }

  /** The call list names open call items, in output_index order, one per tool index. */
  predicate CallsLinked(calls: seq<RespCall>, items: seq<RItem>) {
    && (forall a :: 0 <= a < |calls| ==>
          0 <= calls[a].item < |items|
          && items[calls[a].item] == RItem(CallItem(calls[a].id, calls[a].name, calls[a].args), Added))
    && (forall a, b :: 0 <= a < b < |calls| ==> calls[a].item < calls[b].item && calls[a].idx != calls[b].idx)
  }

  predicate TextLinked(st: State, items: seq<RItem>) {
    if st.msgItem < 0 then st.text == ""
    else st.msgItem < |items| && items[st.msgItem] == RItem(MessageItem(st.text), Streaming)
  }

  predicate ReasoningLinked(st: State, items: seq<RItem>) {
    if st.rsItem < 0 then st.reasoning == ""
    else st.rsItem < |items| && items[st.rsItem] == RItem(ReasoningItem(st.reasoning), Added)
  }

  predicate Covered(st: State, items: seq<RItem>) {
    forall i :: 0 <= i < |items| ==> i == st.msgItem || i == st.rsItem || IsCallItem(st.calls, i)
  }

  /** A stream still going: the emitter's fields and the client's items agree. */
  predicate Linked(st: State, v: View) {
    && v.stage == (if st.started then 2 else 0) && !v.ended && !v.ok && !v.marked
    && |v.items| == st.next
    && (!st.started ==> st.next == 0)
    && TextLinked(st, v.items) && ReasoningLinked(st, v.items)
    && CallsLinked(st.calls, v.items) && Covered(st, v.items)
  }

  /** The call list is what the call items hold, in output_index order, one per tool index. */
  predicate CallsHeld(calls: seq<RespCall>, items: seq<RItem>) {
    && (forall a :: 0 <= a < |calls| ==>
          0 <= calls[a].item < |items|
          && items[calls[a].item].value == CallItem(calls[a].id, calls[a].name, calls[a].args))
    && (forall a, b :: 0 <= a < b < |calls| ==> calls[a].item < calls[b].item && calls[a].idx != calls[b].idx)
  }

  /** The client's items hold what the emitter's fields hold, whatever their phases. */
  predicate Holds(st: State, items: seq<RItem>) {
    && |items| == st.next
    && (if st.msgItem < 0 then st.text == ""
        else st.msgItem < |items| && items[st.msgItem].value == MessageItem(st.text))
    && (if st.rsItem < 0 then st.reasoning == ""
        else st.rsItem < |items| && items[st.rsItem].value == ReasoningItem(st.reasoning))
    && CallsHeld(st.calls, items) && Covered(st, items)
  }

  lemma LinkedHolds(st: State, v: View)
    requires Linked(st, v)
    ensures Holds(st, v.items)
  {
  }

  /** Holding looks at the values and at the fields that name them. */
  lemma HoldsSame(st: State, r: State, a: seq<RItem>, b: seq<RItem>)
    requires Holds(st, a) && SameValues(a, b) && r.next == st.next && r.calls == st.calls
    requires (r.msgItem, r.text, r.rsItem, r.reasoning) == (st.msgItem, st.text, st.rsItem, st.reasoning)
    ensures Holds(r, b)
  {
  }

  // ---- The terminal object lists what was streamed

  /** The call list is the list of call items, with their values. */
  predicate Listed(items: seq<RItem>, calls: seq<RespCall>) {
    && (forall a :: 0 <= a < |calls| ==>
          0 <= calls[a].item < |items|
          && items[calls[a].item].value == CallItem(calls[a].id, calls[a].name, calls[a].args))
    && (forall a, b :: 0 <= a < b < |calls| ==> calls[a].item < calls[b].item)
    && (forall i :: 0 <= i < |items| && items[i].value.CallItem? ==> IsCallItem(calls, i))
  }

  lemma {:induction false} SelectCalls(items: seq<RItem>, calls: seq<RespCall>)
    requires Listed(items, calls)
    ensures Select(items, Calls) == CallValues(calls)
    decreases |items|
  {
    if items == [] {
      assert calls == [];
    } else {
      hide Listed;
      var n := |items| - 1;
      if items[n].value.CallItem? {
        ListedLast(items, calls);
        SelectCalls(items[..n], calls[..|calls| - 1]);
      } else {
        ListedInit(items, calls);
        SelectCalls(items[..n], calls);
      }
    }
  }

  lemma ListedInit(items: seq<RItem>, calls: seq<RespCall>)
    requires Listed(items, calls) && items != [] && !items[|items| - 1].value.CallItem?
    ensures Listed(items[..|items| - 1], calls)
  {
  }

  lemma ListedLast(items: seq<RItem>, calls: seq<RespCall>)
    requires Listed(items, calls) && items != [] && items[|items| - 1].value.CallItem?
    ensures calls != [] && Listed(items[..|items| - 1], calls[..|calls| - 1])
    ensures var c := calls[|calls| - 1]; items[|items| - 1].value == CallItem(c.id, c.name, c.args)
  {
    hide IsCallItem;
    LastIsCall(items, calls);
  }

  /** A last item that is a call is the last call, and the earlier calls cover the earlier items. */
  lemma LastIsCall(items: seq<RItem>, calls: seq<RespCall>)
    requires forall a :: 0 <= a < |calls| ==> 0 <= calls[a].item < |items|
    requires forall a, b :: 0 <= a < b < |calls| ==> calls[a].item < calls[b].item
    requires forall i :: 0 <= i < |items| && items[i].value.CallItem? ==> IsCallItem(calls, i)
    requires items != [] && items[|items| - 1].value.CallItem?
    ensures calls != [] && calls[|calls| - 1].item == |items| - 1
    ensures forall i :: 0 <= i < |items| - 1 && items[i].value.CallItem? ==> IsCallItem(calls[..|calls| - 1], i)
  {
    var n, m := |items| - 1, |calls| - 1;
    var a :| 0 <= a < |calls| && calls[a].item == n;
    assert a == m;
    forall i | 0 <= i < n && items[i].value.CallItem? ensures IsCallItem(calls[..m], i) {
      var z :| 0 <= z < |calls| && calls[z].item == i;
      assert calls[..m][z].item == i;
    }
  }

  lemma KindsFixed(st: State, items: seq<RItem>, i: nat)
    requires Holds(st, items) && i < |items|
    ensures KindOf(items[i].value) == Messages <==> i == st.msgItem
    ensures KindOf(items[i].value) == Reasonings <==> i == st.rsItem
    ensures items[i].value.CallItem? ==> IsCallItem(st.calls, i)
  {
    if IsCallItem(st.calls, i) {
      var a :| 0 <= a < |st.calls| && st.calls[a].item == i;
      assert items[i].value.CallItem?;
    }
  }

  /** `items()` is exactly the client's accumulated items: reasoning, message, calls. */
  lemma {:induction false} OutputIsItems(st: State, items: seq<RItem>)
    requires Holds(st, items)
    ensures Output(items) == Items(st)
    ensures Select(items, Reasonings) == if st.rsItem >= 0 then [ReasoningItem(st.reasoning)] else []
    ensures Select(items, Messages) == if st.msgItem >= 0 then [MessageItem(st.text)] else []
    ensures Select(items, Calls) == CallValues(st.calls)
  {
    forall i | 0 <= i < |items|
      ensures (KindOf(items[i].value) == Messages <==> i == st.msgItem)
           && (KindOf(items[i].value) == Reasonings <==> i == st.rsItem)
           && (items[i].value.CallItem? ==> IsCallItem(st.calls, i))
    {
      KindsFixed(st, items, i);
    }
    if st.rsItem >= 0 { SelectOnly(items, Reasonings, st.rsItem); } else { SelectNone(items, Reasonings); }
    if st.msgItem >= 0 { SelectOnly(items, Messages, st.msgItem); } else { SelectNone(items, Messages); }
    SelectCalls(items, st.calls);
  }

  // ---- Items that add to the stream

  lemma {:induction false} StartedAccepted(st: State, v: View)
    requires Linked(st, v)
    ensures Reads(v, Started(st).bodies) == Some(v.(stage := 2)) && Linked(Started(st).st, v.(stage := 2))
  {
    if !st.started {
      ReadsTwo(v, Started(st).bodies[0], Started(st).bodies[1]);
    }
  }

  /** A new item at the next index keeps every other link. */
  lemma NewItem(st: State, r: State, v: View, x: RItem)
    requires Linked(st, v) && st.started && r.started && r.next == st.next + 1 && r.calls == st.calls
    requires (r.msgItem, r.text) == (st.msgItem, st.text)
          || (st.msgItem < 0 && r.msgItem == st.next && x == RItem(MessageItem(r.text), Streaming))
    requires (r.rsItem, r.reasoning) == (st.rsItem, st.reasoning)
          || (st.rsItem < 0 && r.rsItem == st.next && x == RItem(ReasoningItem(r.reasoning), Added))
    requires r.msgItem == st.next || r.rsItem == st.next
    ensures Linked(r, v.(items := v.items + [x]))
  {
  }

  lemma PutLast(v: View, x: RItem, y: ItemValue, p: Phase)
    ensures Put(v.(items := v.items + [x]), |v.items|, y, p) == v.(items := v.items + [RItem(y, p)])
  {
  }

  lemma {:induction false} OpenedMessage(v: View, i: int, s: string)
    requires !v.ended && v.stage == 2 && i == |v.items|
    ensures Reads(v, [ItemAdded(i, MessageItem("")), PartAdded(i)] + [TextDelta(i, s)])
         == Some(v.(items := v.items + [RItem(MessageItem(s), Streaming)]))
  {
    hide Reads, Put;
    var a, b, d := ItemAdded(i, MessageItem("")), PartAdded(i), TextDelta(i, s);
    var x1, x2 := RItem(MessageItem(""), Added), RItem(MessageItem(""), Streaming);
    var v2 := v.(items := v.items + [x2]);
    PutLast(v, x1, MessageItem(""), Streaming);
    ReadsTwo(v, a, b);
    assert "" + s == s;
    PutLast(v, x2, MessageItem(s), Streaming);
    ReadsAppend(v, [a, b], [d]);
    ReadsOne(v2, d);
  }

  lemma {:induction false} OpenedReasoning(v: View, i: int, s: string)
    requires !v.ended && v.stage == 2 && i == |v.items|
    ensures Reads(v, [ItemAdded(i, ReasoningItem(""))] + [ReasoningDelta(i, s)])
         == Some(v.(items := v.items + [RItem(ReasoningItem(s), Added)]))
  {
    hide Reads, Put;
    var a, d := ItemAdded(i, ReasoningItem("")), ReasoningDelta(i, s);
    assert "" + s == s;
    PutLast(v, RItem(ReasoningItem(""), Added), ReasoningItem(s), Added);
    assert [a] + [d] == [a, d];
    ReadsTwo(v, a, d);
  }

  lemma {:induction false} OpenedCall(v: View, c: RespCall, s: string)
    requires !v.ended && v.stage == 2 && c.item == |v.items|
    ensures Reads(v, [ItemAdded(c.item, CallItem(c.id, c.name, ""))] + ArgsBody(c, s))
         == Some(v.(items := v.items + [RItem(CallItem(c.id, c.name, s), Added)]))
  {
    hide Reads, Put;
    var i := |v.items|;
    var a, d := ItemAdded(i, CallItem(c.id, c.name, "")), ArgsDelta(i, c.id, s);
    if s == "" {
      assert [a] + ArgsBody(c, s) == [a];
      ReadsOne(v, a);
    } else {
      assert "" + s == s;
      PutLast(v, RItem(CallItem(c.id, c.name, ""), Added), CallItem(c.id, c.name, s), Added);
      assert [a] + ArgsBody(c, s) == [a, d];
      ReadsTwo(v, a, d);
    }
  }

  lemma TextAccepted(st: State, v: View, s: string) returns (w: View)
    requires Linked(st, v) && st.started
    ensures Reads(v, Texted(st, s).bodies) == Some(w) && Linked(Texted(st, s).st, w)
  {
    hide AcceptBody;
    if s == "" {
      w := v;
    } else if st.msgItem < 0 {
      assert st.text + s == s;
      OpenedMessage(v, st.next, s);
      w := v.(items := v.items + [RItem(MessageItem(s), Streaming)]);
      NewItem(st, Texted(st, s).st, v, RItem(MessageItem(s), Streaming));
    } else {
      w := Put(v, st.msgItem, MessageItem(st.text + s), Streaming);
      TextContinued(st, v, s);
    }
  }

  lemma {:induction false} TextContinued(st: State, v: View, s: string)
    requires Linked(st, v) && st.started && st.msgItem >= 0
    ensures Reads(v, [] + [TextDelta(st.msgItem, s)]) == Some(Put(v, st.msgItem, MessageItem(st.text + s), Streaming))
    ensures Linked(st.(text := st.text + s), Put(v, st.msgItem, MessageItem(st.text + s), Streaming))
  {
    assert [] + [TextDelta(st.msgItem, s)] == [TextDelta(st.msgItem, s)];
    assert AcceptBody(v, TextDelta(st.msgItem, s)) == Some(Put(v, st.msgItem, MessageItem(st.text + s), Streaming));
    hide AcceptBody, Reads;
    ReadsOne(v, TextDelta(st.msgItem, s));
    UnusedByCalls(st, v.items, st.msgItem, RItem(MessageItem(st.text + s), Streaming));
  }

  /** The prose items are no call items. */
  lemma UnusedByCalls(st: State, items: seq<RItem>, i: int, x: RItem)
    requires CallsLinked(st.calls, items) && 0 <= i < |items| && !items[i].value.CallItem?
    ensures CallsLinked(st.calls, items[i := x])
  {
  }

  lemma ReasoningAccepted(st: State, v: View, s: string) returns (w: View)
    requires Linked(st, v) && st.started
    ensures Reads(v, Reasoned(st, s).bodies) == Some(w) && Linked(Reasoned(st, s).st, w)
  {
    hide AcceptBody;
    if s == "" {
      w := v;
    } else if st.rsItem < 0 {
      assert st.reasoning + s == s;
      OpenedReasoning(v, st.next, s);
      w := v.(items := v.items + [RItem(ReasoningItem(s), Added)]);
      NewItem(st, Reasoned(st, s).st, v, RItem(ReasoningItem(s), Added));
    } else {
      w := Put(v, st.rsItem, ReasoningItem(st.reasoning + s), Added);
      ReasoningContinued(st, v, s);
    }
  }

  lemma {:induction false} ReasoningContinued(st: State, v: View, s: string)
    requires Linked(st, v) && st.started && st.rsItem >= 0
    ensures Reads(v, [] + [ReasoningDelta(st.rsItem, s)]) == Some(Put(v, st.rsItem, ReasoningItem(st.reasoning + s), Added))
    ensures Linked(st.(reasoning := st.reasoning + s), Put(v, st.rsItem, ReasoningItem(st.reasoning + s), Added))
  {
    assert [] + [ReasoningDelta(st.rsItem, s)] == [ReasoningDelta(st.rsItem, s)];
    assert AcceptBody(v, ReasoningDelta(st.rsItem, s)) == Some(Put(v, st.rsItem, ReasoningItem(st.reasoning + s), Added));
    hide AcceptBody, Reads;
    ReadsOne(v, ReasoningDelta(st.rsItem, s));
    UnusedByCalls(st, v.items, st.rsItem, RItem(ReasoningItem(st.reasoning + s), Added));
  }

  lemma CallAccepted(st: State, v: View, d: ToolDelta) returns (w: View)
    requires Linked(st, v) && st.started && !Reuses(st, d)
    ensures Reads(v, Called(st, d).bodies) == Some(w) && Linked(Called(st, d).st, w)
  {
    var a := FirstCall(st.calls, d.index);
    if a < |st.calls| {
      w := CallContinued(st, v, a, d.args);
    } else {
      w := CallOpened(st, v, d);
    }
  }

  lemma CallContinued(st: State, v: View, a: nat, s: string) returns (w: View)
    requires Linked(st, v) && a < |st.calls|
    ensures var c := st.calls[a];
            Reads(v, ArgsBody(c, s)) == Some(w) && Linked(st.(calls := st.calls[a := c.(args := c.args + s)]), w)
  {
    var c := st.calls[a];
    var calls := st.calls[a := c.(args := c.args + s)];
    w := Put(v, c.item, CallItem(c.id, c.name, c.args + s), Added);
    if s == "" {
      assert c.args + s == c.args;
      assert w == v;
    } else {
      ReadsOne(v, ArgsDelta(c.item, c.id, s));
    }
    CallsUpdated(st.calls, v.items, a, s);
    assert Covered(st.(calls := calls), w.items) by {
      forall i | 0 <= i < |w.items| ensures i == st.msgItem || i == st.rsItem || IsCallItem(calls, i) {
        if IsCallItem(st.calls, i) {
          var z :| 0 <= z < |st.calls| && st.calls[z].item == i;
          assert calls[z].item == i;
        }
      }
    }
  }

  lemma CallsUpdated(calls: seq<RespCall>, items: seq<RItem>, a: nat, s: string)
    requires CallsLinked(calls, items) && a < |calls|
    ensures var c := calls[a];
            CallsLinked(calls[a := c.(args := c.args + s)], items[c.item := RItem(CallItem(c.id, c.name, c.args + s), Added)])
  {
    var c := calls[a];
    assert forall b :: 0 <= b < |calls| && b != a ==> calls[b].item != c.item;
  }

  lemma CallOpened(st: State, v: View, d: ToolDelta) returns (w: View)
    requires Linked(st, v) && st.started && FirstCall(st.calls, d.index) == |st.calls|
    ensures Reads(v, Called(st, d).bodies) == Some(w) && Linked(Called(st, d).st, w)
  {
    hide AcceptBody, Linked;
    var c := NewCall(st, d);
    OpenedCallHere(st, v, c, d.args);
    w := v.(items := v.items + [RItem(CallItem(c.id, c.name, d.args), Added)]);
    NewCallLinked(st, v, c.(args := d.args));
  }

  lemma {:induction false} OpenedCallHere(st: State, v: View, c: RespCall, s: string)
    requires Linked(st, v) && st.started && c.item == st.next
    ensures Reads(v, [] + [ItemAdded(c.item, CallItem(c.id, c.name, ""))] + ArgsBody(c, s))
         == Some(v.(items := v.items + [RItem(CallItem(c.id, c.name, s), Added)]))
  {
    hide AcceptBody;
    OpenedCall(v, c, s);
    assert [] + [ItemAdded(c.item, CallItem(c.id, c.name, ""))] == [ItemAdded(c.item, CallItem(c.id, c.name, ""))];
  }

  lemma NewCallLinked(st: State, v: View, c: RespCall)
    requires Linked(st, v) && st.started && FirstCall(st.calls, c.idx) == |st.calls| && c.item == st.next
    ensures Linked(st.(calls := st.calls + [c], next := st.next + 1),
                   v.(items := v.items + [RItem(CallItem(c.id, c.name, c.args), Added)]))
  {
    var calls, items := st.calls + [c], v.items + [RItem(CallItem(c.id, c.name, c.args), Added)];
    forall i | 0 <= i < |items| ensures i == st.msgItem || i == st.rsItem || IsCallItem(calls, i) {
      if i == st.next {
        assert calls[|st.calls|].item == i;
      } else if IsCallItem(st.calls, i) {
        var z :| 0 <= z < |st.calls| && st.calls[z].item == i;
        assert calls[z].item == i;
      }
    }
  }

  // ---- Closing

  predicate CallsOpen(calls: seq<RespCall>, items: seq<RItem>) {
    && (forall a :: 0 <= a < |calls| ==>
          0 <= calls[a].item < |items|
          && items[calls[a].item] == RItem(CallItem(calls[a].id, calls[a].name, calls[a].args), Added))
    && (forall a, b :: 0 <= a < b < |calls| ==> calls[a].item < calls[b].item)
  }

  /** All items of the listed calls done, the others as they were. */
  function ClosedCalls(calls: seq<RespCall>, items: seq<RItem>): (r: seq<RItem>)
    ensures SameValues(items, r)
    ensures forall i :: 0 <= i < |r| ==> r[i].phase == if IsCallItem(calls, i) then Done else items[i].phase
  {
    seq(|items|, i requires 0 <= i < |items| => items[i].(phase := if IsCallItem(calls, i) then Done else items[i].phase))
  }

  lemma {:induction false} CallDoneAccepted(v: View, c: RespCall)
    requires !v.ended && 0 <= c.item < |v.items| && v.items[c.item] == RItem(CallItem(c.id, c.name, c.args), Added)
    ensures Reads(v, CallDone(c)) == Some(Put(v, c.item, CallItem(c.id, c.name, c.args), Done))
  {
    var w := Put(v, c.item, CallItem(c.id, c.name, c.args), ValueDone);
    ReadsTwo(v, CallDone(c)[0], CallDone(c)[1]);
    assert AcceptBody(v, CallDone(c)[0]) == Some(w);
    assert Put(w, c.item, CallItem(c.id, c.name, c.args), Done) == Put(v, c.item, CallItem(c.id, c.name, c.args), Done);
  }

  lemma {:induction false} CallsDoneAccepted(v: View, calls: seq<RespCall>)
    requires !v.ended && CallsOpen(calls, v.items)
    ensures Reads(v, CallsDone(calls)) == Some(v.(items := ClosedCalls(calls, v.items)))
  {
    if calls == [] {
      assert ClosedCalls(calls, v.items) == v.items;
    } else {
      var n := |calls| - 1;
      var c, w := calls[n], v.(items := ClosedCalls(calls[..n], v.items));
      CallsDoneAccepted(v, calls[..n]);
      hide AcceptBody, Reads, CallsDone;
      CallsDoneLast(calls);
      ReadsAppend(v, CallsDone(calls[..n]), CallDone(c));
      assert !IsCallItem(calls[..n], c.item);
      CallDoneAccepted(w, c);
      ClosedCallsLast(calls, v.items);
    }
  }

  lemma {:induction false} CallsDoneLast(calls: seq<RespCall>)
    requires calls != []
    ensures CallsDone(calls) == CallsDone(calls[..|calls| - 1]) + CallDone(calls[|calls| - 1])
  {
  }

  lemma ClosedCallsLast(calls: seq<RespCall>, items: seq<RItem>)
    requires calls != [] && CallsOpen(calls, items)
    ensures var c := calls[|calls| - 1];
            ClosedCalls(calls, items)
              == ClosedCalls(calls[..|calls| - 1], items)[c.item := RItem(CallItem(c.id, c.name, c.args), Done)]
  {
    var c := calls[|calls| - 1];
    forall i | 0 <= i < |items|
      ensures ClosedCalls(calls[..|calls| - 1], items)[c.item := RItem(CallItem(c.id, c.name, c.args), Done)][i]
           == ClosedCalls(calls, items)[i]
    {
      LastCallItem(calls, i);
    }
  }

  lemma LastCallItem(calls: seq<RespCall>, i: int)
    requires calls != []
    ensures IsCallItem(calls, i) <==> IsCallItem(calls[..|calls| - 1], i) || calls[|calls| - 1].item == i
  {
    var n := |calls| - 1;
    if IsCallItem(calls, i) && calls[n].item != i {
      var a :| 0 <= a < |calls| && calls[a].item == i;
      assert calls[..n][a].item == i;
    }
    if IsCallItem(calls[..n], i) {
      var a :| 0 <= a < n && calls[..n][a].item == i;
      assert calls[a].item == i;
    }
  }

  lemma {:induction false} MessageDoneAccepted(v: View, i: int, t: string)
    requires !v.ended && 0 <= i < |v.items| && v.items[i] == RItem(MessageItem(t), Streaming)
    ensures Reads(v, [TextDone(i, t), PartDone(i, t), ItemDone(i, MessageItem(t))]) == Some(Put(v, i, MessageItem(t), Done))
  {
    hide Reads;
    var bodies := [TextDone(i, t), PartDone(i, t)];
    var v1, v2 := Put(v, i, MessageItem(t), ValueDone), Put(v, i, MessageItem(t), PartClosed);
    ReadsTwo(v, bodies[0], bodies[1]);
    assert AcceptBody(v, bodies[0]) == Some(v1);
    PutTwice(v, i, MessageItem(t), ValueDone, PartClosed);
    assert bodies + [ItemDone(i, MessageItem(t))] == [TextDone(i, t), PartDone(i, t), ItemDone(i, MessageItem(t))];
    ReadsAppend(v, bodies, [ItemDone(i, MessageItem(t))]);
    ReadsOne(v2, ItemDone(i, MessageItem(t)));
    PutTwice(v, i, MessageItem(t), PartClosed, Done);
  }

  lemma {:induction false} ReasoningDoneAccepted(v: View, i: int, t: string)
    requires !v.ended && 0 <= i < |v.items| && v.items[i] == RItem(ReasoningItem(t), Added)
    ensures Reads(v, [ReasoningDone(i, t), ItemDone(i, ReasoningItem(t))]) == Some(Put(v, i, ReasoningItem(t), Done))
  {
    hide Reads;
    var a, b := ReasoningDone(i, t), ItemDone(i, ReasoningItem(t));
    ReadsTwo(v, a, b);
    PutTwice(v, i, ReasoningItem(t), ValueDone, Done);
  }

  lemma PutTwice(v: View, i: int, y: ItemValue, p: Phase, q: Phase)
    requires 0 <= i < |v.items|
    ensures Put(Put(v, i, y, p), i, y, q) == Put(v, i, y, q)
  {
  }

  /** Closing everything: accepted, values unchanged, every item done. */
  lemma ItemsDoneAccepted(st: State, v: View) returns (w: View)
    requires Linked(st, v)
    ensures Reads(v, ItemsDone(st)) == Some(w)
    ensures SameValues(v.items, w.items) && AllDone(w.items) && w == v.(items := w.items)
  {
    hide AcceptBody;
    var m := if st.msgItem >= 0
             then [TextDone(st.msgItem, st.text), PartDone(st.msgItem, st.text), ItemDone(st.msgItem, MessageItem(st.text))] else [];
    var r := if st.rsItem >= 0
             then [ReasoningDone(st.rsItem, st.reasoning), ItemDone(st.rsItem, ReasoningItem(st.reasoning))] else [];
    var v1 := if st.msgItem >= 0 then Put(v, st.msgItem, MessageItem(st.text), Done) else v;
    var v2 := if st.rsItem >= 0 then Put(v1, st.rsItem, ReasoningItem(st.reasoning), Done) else v1;
    if st.msgItem >= 0 { MessageDoneAccepted(v, st.msgItem, st.text); }
    if st.rsItem >= 0 { ReasoningDoneAccepted(v1, st.rsItem, st.reasoning); }
    hide Reads;
    ReadsAppend(v, m, r);
    CallsDoneAccepted(v2, st.calls);
    ReadsAppend(v, m + r, CallsDone(st.calls));
    w := v2.(items := ClosedCalls(st.calls, v2.items));
    forall i | 0 <= i < |w.items| ensures w.items[i].phase == Done {
      assert i == st.msgItem || i == st.rsItem || IsCallItem(st.calls, i);
    }
  }

  /** A completed or incomplete response, its items closed first. */
  lemma CompletionAccepted(st: State, v: View) returns (w: View)
    requires Linked(st, v) && st.started && !st.failed
    ensures Reads(v, ItemsDone(st) + [TerminalOf(st)]) == Some(w)
    ensures w.ended && w.ok && !w.marked && AllDone(w.items) && Holds(st, w.items)
  {
    hide AcceptBody, Holds;
    var u := ItemsDoneAccepted(st, v);
    LinkedHolds(st, v);
    HoldsSame(st, st, v.items, u.items);
    OutputIsItems(st, u.items);
    ReadsAppend(v, ItemsDone(st), [TerminalOf(st)]);
    ReadsOne(u, TerminalOf(st));
    w := TerminalAccepted(u, st);
  }

  lemma TerminalAccepted(u: View, st: State) returns (w: View)
    requires !u.ended && u.stage == 2 && Output(u.items) == Items(st) && (st.failed || AllDone(u.items))
    ensures AcceptBody(u, TerminalOf(st)) == Some(w) && w == u.(ended := true, ok := !st.failed)
  {
    w := u.(ended := true, ok := !st.failed);
  }

  // ---- Whole runs

  /** The stream is going and linked, or it is over and the client knows how it ended. */
  predicate Related(st: State, c: Client) {
    && c.n == st.seqNo && !c.view.marked
    && (if Over(st) then c.view.ended && c.view.ok == !st.failed && (c.view.ok ==> AllDone(c.view.items)) && Holds(st, c.view.items)
        else Linked(st, c.view))
  }

  lemma RelatedHolds(st: State, c: Client)
    requires Related(st, c)
    ensures Holds(st, c.view.items)
  {
    if !Over(st) { LinkedHolds(st, c.view); }
  }

  /** Content comes only in a begun message, and no tool index changes its id. */
  predicate Ready(st: State, it: Item) {
    && (it.Prose? || it.Tool? || it.Finish? ==> st.started)
    && (it.Tool? ==> !Reuses(st, it.d))
  }

  /** The links speak of the items only. */
  lemma SameLinks(st: State, r: State, v: View)
    requires Linked(st, v) && r.started == st.started && r.next == st.next && r.calls == st.calls
    requires (r.msgItem, r.text, r.rsItem, r.reasoning) == (st.msgItem, st.text, st.rsItem, st.reasoning)
    ensures Linked(r, v)
  {
  }

  lemma SaysAccepted(st: State, v: View, it: Item) returns (w: View)
    requires Linked(st, v) && !Over(st) && Ready(st, it) && !it.Forward?
    ensures Reads(v, Says(st, it).bodies) == Some(w)
    ensures !w.marked && var r := Says(st, it).st;
            if Over(r) then w.ended && w.ok == !r.failed && (w.ok ==> AllDone(w.items)) && Holds(r, w.items)
            else Linked(r, w)
  {
    hide AcceptBody, Finished, Reuses, Holds;
    match it
    case Head(_, _, _) =>
      w := v;
      hide Linked;
      SameLinks(st, Says(st, it).st, v);
    case Begin(usage, lost) =>
      var s := ReadUsage(st, usage).(notes := NotedAll(st.notes, lost));
      w := v.(stage := 2);
      hide Linked;
      SameLinks(st, s, v);
      StartedAccepted(s, v);
    case Prose(k, s) => if k == Thinking { w := ReasoningAccepted(st, v, s); } else { w := TextAccepted(st, v, s); }
    case Tool(d) => w := CallAccepted(st, v, d);
    case Finish(reason) => w := FinishAccepted(st, v, reason);
    case Fail(code, msg, note) =>
      ReadsOne(v, ErrorBody(code, msg));
      w := ErrorAccepted(v, code, msg);
      LinkedHolds(st, v);
      HoldsSame(st, Says(st, it).st, v.items, w.items);
  }

  lemma ErrorAccepted(v: View, code: string, msg: string) returns (w: View)
    requires !v.ended
    ensures AcceptBody(v, ErrorBody(code, msg)) == Some(w) && w == v.(ended := true)
  {
    w := v.(ended := true);
  }

  lemma FinishAccepted(st: State, v: View, reason: string) returns (w: View)
    requires Linked(st, v) && !Over(st) && st.started
    ensures Reads(v, Finished(st, reason).bodies) == Some(w)
    ensures var r := Finished(st, reason).st;
            Over(r) && w.ended && !w.marked && w.ok == !r.failed && (w.ok ==> AllDone(w.items)) && Holds(r, w.items)
  {
    hide AcceptBody, Holds;
    var f := Finished(st, reason).st;
    if reason == "error" {
      LinkedHolds(st, v);
      HoldsSame(st, f, v.items, v.items);
      OutputIsItems(f, v.items);
      ReadsOne(v, TerminalOf(f));
      w := TerminalAccepted(v, f);
    } else {
      assert Linked(f, v);
      w := CompletionAccepted(f, v);
    }
  }

  lemma StepAccepted(st: State, c: Client, it: Item) returns (d: Client)
    requires Related(st, c) && !Over(st) && Ready(st, it)
    ensures AcceptAll(c, Step(st, it).evs) == Some(d) && Related(Step(st, it).st, d)
  {
    hide AcceptBody, Says;
    if it.Forward? {
      AcceptOne(c, Forwarded(it.frame));
      d := c;
    } else {
      var w := SaysAccepted(st, c.view, it);
      SaysKeepsCount(st, it);
      NumberedReads(c, Says(st, it).bodies);
      d := Client(c.n + |Says(st, it).bodies|, w);
      var r := Says(st, it).st;
      assert Linked(r, w) ==> Linked(Step(st, it).st, w);
      assert Holds(r, w.items) ==> Holds(Step(st, it).st, w.items);
    }
  }

  lemma SaysKeepsCount(st: State, it: Item)
    ensures Says(st, it).st.seqNo == st.seqNo
  {
  }

  /** Along the run, no delta ever takes the branch that reopens an index under a fresh id. */
  predicate NeverReuses(st: State, items: seq<Item>) {
    forall i :: 0 <= i < |items| && items[i].Tool? ==>
      var s := Gated(st, items[..i]).st; Over(s) || !Reuses(s, items[i].d)
  }

  lemma NeverReusesInit(st: State, items: seq<Item>)
    requires items != [] && NeverReuses(st, items)
    ensures NeverReuses(st, items[..|items| - 1])
  {
    var p := items[..|items| - 1];
    forall i | 0 <= i < |p| && p[i].Tool?
      ensures var s := Gated(st, p[..i]).st; Over(s) || !Reuses(s, p[i].d)
    {
      assert p[..i] == items[..i] && p[i] == items[i];
    }
  }

  lemma {:induction false} GatedAccepted(invented: string, items: seq<Item>) returns (c: Client)
    requires WellBegun(items) && NeverReuses(Initial(invented), items)
    ensures var r := Gated(Initial(invented), items);
            && AcceptAll(Fresh, r.evs) == Some(c) && Related(r.st, c)
            && (Begun(items) ==> r.st.started || Over(r.st))
  {
    hide Step, Related, Reuses, Accept;
    var s0 := Initial(invented);
    if items == [] {
      InitiallyRelated(invented);
      c := Fresh;
    } else {
      var n := |items| - 1;
      WellBegunInit(items);
      NeverReusesInit(s0, items);
      var d := GatedAccepted(invented, items[..n]);
      var p := Gated(s0, items[..n]);
      if Begun(items) && !items[n].Begin? {
        var i :| 0 <= i < |items| && items[i].Begin?;
        assert items[..n][i].Begin?;
      }
      if Over(p.st) {
        assert p.evs + [] == p.evs;
        c := d;
      } else {
        c := StepAccepted(p.st, d, items[n]);
        AcceptAppend(Fresh, p.evs, Step(p.st, items[n]).evs);
        BegunStep(p.st, items[n]);
      }
    }
  }

  lemma InitiallyRelated(invented: string)
    ensures Related(Initial(invented), Fresh)
  {
  }

  lemma BegunStep(st: State, it: Item)
    ensures it.Begin? || st.started ==> Step(st, it).st.started
  {
  }

  /** The end of the stream, from a related pair. */
  lemma TerminationAccepted(st: State, c: Client) returns (d: Client)
    requires Related(st, c)
    ensures AcceptAll(c, Terminated(st).evs) == Some(d)
    ensures d.view.marked == (st.started && !st.failed)
    ensures d.view.ended == (st.started || Over(st)) && d.view.ok == (!st.failed && (st.started || st.finished))
    ensures d.view.marked ==> AllDone(d.view.items)
    ensures Holds(st, d.view.items)
  {
    hide AcceptBody, Holds;
    RelatedHolds(st, c);
    if !st.started || st.failed {
      d := c;
    } else {
      var e := c;
      var o := if st.finished then Out(st, []) else Emit(Said(st, ItemsDone(st) + [TerminalOf(st)]));
      if !st.finished {
        var w := CompletionAccepted(st, c.view);
        NumberedReads(c, ItemsDone(st) + [TerminalOf(st)]);
        e := Client(c.n + |ItemsDone(st) + [TerminalOf(st)]|, w);
      }
      AcceptAppend(c, o.evs, [DoneMark]);
      AcceptOne(e, DoneMark);
      d := e.(view := e.view.(marked := true));
    }
  }
}
