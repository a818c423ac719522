/**
 Content simulation of the Anthropic emitter, item by item: what the client accumulates is what the items
 say, however prose and parallel tool calls interleave.
 */
module MessagesContent {
  import opened Wrappers
  import opened Bytes
  import opened ChatStream
  import opened MessagesSpec
  import opened MessagesClient
  import opened MessagesDiscipline

  // ---- What the items say, channel by channel, with no blocks

  predicate HasFailed(items: seq<Item>) {
    exists i :: 0 <= i < |items| && items[i].Fail?
  }

  /** All prose of one kind before a failure, joined. */
  function ItemProse(items: seq<Item>, k: Kind): string {
    if items == [] then ""
    else
      var n := |items| - 1;
      ItemProse(items[..n], k)
      + if items[n].Prose? && items[n].kind == k && !HasFailed(items[..n]) then items[n].s else ""
  }

  /** The calls one tool index has carried, and whether the last one is still streaming. */
  datatype Epochs = Epochs(calls: seq<Call>, live: bool)

  /** A delta continues the live call under no id or the call's own id; otherwise it opens a call. */
  function Grown(e: Epochs, d: ToolDelta, given: seq<string>): Epochs {
    var n := |e.calls|;
    if e.live && n > 0 && (d.id == "" || d.id == e.calls[n - 1].id)
    then e.(calls := e.calls[..n - 1] + [e.calls[n - 1].(args := e.calls[n - 1].args + d.args)])
    else Epochs(e.calls + [Call(if d.id != "" then d.id else if n < |given| then given[n] else "", d.name, d.args)], true)
  }

  /**
   The calls of index `i`, from the deltas of that index and the finish marks alone. `given` lists
   the ids the client was told, for calls that arrived without one.
   */
  function ItemCalls(items: seq<Item>, i: int, given: seq<string>): Epochs {
    if items == [] then Epochs([], false)
    else
      var n := |items| - 1;
      var e := ItemCalls(items[..n], i, given);
      if HasFailed(items[..n]) then e
      else match items[n]
        case Tool(d) => if d.index == i then Grown(e, d, given) else e
        case Finish(_) => e.(live := false)
        case _ => e
  }

  function CallIds(cs: seq<Call>): (r: seq<string>)
    ensures |r| == |cs| && forall i :: 0 <= i < |r| ==> r[i] == cs[i].id
  {
    seq(|cs|, i requires 0 <= i < |cs| => cs[i].id)
  }

  lemma {:induction false} GivenBeyond(items: seq<Item>, i: int, given: seq<string>, x: string)
    requires |ItemCalls(items, i, given).calls| <= |given|
    ensures ItemCalls(items, i, given + [x]) == ItemCalls(items, i, given)
  {
    if items != [] {
      CallsGrow(items, i, given);
      GivenBeyond(items[..|items| - 1], i, given, x);
    }
  }

  lemma {:induction false} CallsGrow(items: seq<Item>, i: int, given: seq<string>)
    requires items != []
    ensures |ItemCalls(items[..|items| - 1], i, given).calls| <= |ItemCalls(items, i, given).calls|
  {
  }

  // ---- The simulation

  /** Index `i`: the blocks assigned to it read as its calls, and its open block is the last of them. */
  predicate IndexFaithful(st: State, blocks: seq<Block>, items: seq<Item>, owner: seq<int>, i: int)
    requires |owner| == |blocks|
  {
    var cs, t := ReadCalls(blocks, owner, i), Lookup(st.tools, i);
    && ItemCalls(items, i, CallIds(cs)) == Epochs(cs, t.Some?)
    && (t.Some? ==>
          && 0 <= t.value.blk < |blocks| && blocks[t.value.blk].kind.ToolUse? && owner[t.value.blk] == i
          && forall j :: t.value.blk < j < |blocks| && blocks[j].kind.ToolUse? ==> owner[j] != i)
  }

  ghost predicate Faithful(st: State, c: Client, items: seq<Item>, owner: seq<int>) {
    && st.failed == HasFailed(items)
    && |owner| == |c.blocks|
    && (forall k :: ReadProse(c.blocks, k) == ItemProse(items, k))
    && (forall i :: IndexFaithful(st, c.blocks, items, owner, i))
  }

  lemma FaithfulInitially(invented: string)
    ensures Faithful(Initial(invented), Fresh, [], [])
  {
  }

  lemma Snoc(items: seq<Item>, it: Item)
    ensures (items + [it])[..|items|] == items && (items + [it])[|items|] == it
    ensures HasFailed(items + [it]) <==> HasFailed(items) || it.Fail?
  {
    var s := items + [it];
    if HasFailed(items) {
      var i :| 0 <= i < |items| && items[i].Fail?;
      assert s[i].Fail?;
    }
    assert it.Fail? ==> s[|items|].Fail?;
    if HasFailed(s) && !it.Fail? {
      var i :| 0 <= i < |s| && s[i].Fail?;
      assert items[i].Fail?;
    }
  }

  /** An item that touches neither the blocks' text nor the tool list. */
  lemma QuietStep(st: State, r: State, blocks: seq<Block>, after: seq<Block>, items: seq<Item>, it: Item, owner: seq<int>, i: int)
    requires |owner| == |blocks| && IndexFaithful(st, blocks, items, owner, i)
    requires SameText(blocks, after) && r.tools == st.tools
    requires HasFailed(items) || !(it.Finish? || (it.Tool? && it.d.index == i))
    ensures IndexFaithful(r, after, items + [it], owner, i)
  {
    Snoc(items, it);
    SameReading(blocks, after, owner, i, Text);
  }

  lemma FinishStep(st: State, r: State, blocks: seq<Block>, after: seq<Block>, items: seq<Item>, it: Item, owner: seq<int>, i: int)
    requires |owner| == |blocks| && IndexFaithful(st, blocks, items, owner, i)
    requires SameText(blocks, after) && r.tools == [] && it.Finish? && !HasFailed(items)
    ensures IndexFaithful(r, after, items + [it], owner, i)
  {
    Snoc(items, it);
    SameReading(blocks, after, owner, i, Text);
  }

  /** A prose item leaves every index alone. */
  lemma ProseIndex(st: State, c: Client, items: seq<Item>, k: Kind, s: string, owner: seq<int>, i: int)
    requires Linked(st, c) && !st.failed && st.started && |owner| == |c.blocks|
    requires IndexFaithful(st, c.blocks, items, owner, i)
    ensures var b, r := ProsedBlocks(st, c.blocks, k, s), Prosed(st, k, s).st;
            var o := if |b| > |c.blocks| then owner + [0] else owner;
            |o| == |b| && IndexFaithful(r, b, items + [Prose(k, s)], o, i)
  {
    hide Lookup, ReadCalls, ItemCalls;
    var b, r := ProsedBlocks(st, c.blocks, k, s), Prosed(st, k, s).st;
    PlainSnoc(items, Prose(k, s), i, CallIds(ReadCalls(c.blocks, owner, i)));
    if s == "" {
    } else if st.kind == Some(k) {
      AppendOtherCall(c.blocks, owner, st.open, s, i);
    } else {
      var p := ProseClosed(st, c.blocks);
      SameReading(c.blocks, p, owner, i, k);
      ReadNewBlock(p, owner, Block(StartOf(k), s, true), 0, i, k);
      assert ReadCalls(p, owner, i) + [] == ReadCalls(p, owner, i);
    }
  }

  lemma {:induction false} PlainSnoc(items: seq<Item>, it: Item, i: int, given: seq<string>)
    requires HasFailed(items) || !(it.Finish? || (it.Tool? && it.d.index == i))
    ensures ItemCalls(items + [it], i, given) == ItemCalls(items, i, given)
  {
    Snoc(items, it);
  }

  lemma {:induction false} ToolSnoc(items: seq<Item>, d: ToolDelta, given: seq<string>)
    requires !HasFailed(items)
    ensures ItemCalls(items + [Tool(d)], d.index, given) == Grown(ItemCalls(items, d.index, given), d, given)
  {
    Snoc(items, Tool(d));
  }

  /** The prose the client reads grows by exactly what was sent. */
  lemma {:induction false} ProseText(st: State, c: Client, items: seq<Item>, k: Kind, s: string, j: Kind)
    requires Linked(st, c) && !st.failed && st.started && !HasFailed(items)
    requires ReadProse(c.blocks, j) == ItemProse(items, j)
    ensures ReadProse(ProsedBlocks(st, c.blocks, k, s), j) == ItemProse(items + [Prose(k, s)], j)
  {
    Snoc(items, Prose(k, s));
    if s == "" {
      assert ItemProse(items, j) + "" == ItemProse(items, j);
    } else if st.kind == Some(k) {
      if j == k { AppendProse(c.blocks, st.open, s, k); } else { AppendOtherProse(c.blocks, st.open, s, j); }
    } else {
      var p, owner := ProseClosed(st, c.blocks), seq(|c.blocks|, _ => 0);
      SameReading(c.blocks, p, owner, 0, j);
      ReadNewBlock(p, owner, Block(StartOf(k), s, true), 0, 0, j);
    }
  }

  lemma {:induction false} OtherProse(items: seq<Item>, it: Item, k: Kind)
    requires HasFailed(items) || !it.Prose?
    ensures ItemProse(items + [it], k) == ItemProse(items, k)
  {
    Snoc(items, it);
    assert ItemProse(items, k) + "" == ItemProse(items, k);
  }

  lemma {:induction false} SameProse(a: seq<Block>, b: seq<Block>, k: Kind)
    requires SameText(a, b)
    ensures ReadProse(a, k) == ReadProse(b, k)
  {
    SameReading(a, b, seq(|a|, _ => 0), 0, k);
  }

  // ---- Tool deltas

  lemma {:induction false} LookupAppend(tools: seq<ToolBlock>, t: ToolBlock, i: int)
    ensures Lookup(tools + [t], i) == if t.idx == i then Some(t) else Lookup(tools, i)
  {
    assert (tools + [t])[..|tools|] == tools;
  }

  lemma {:induction false} LookupWithout(tools: seq<ToolBlock>, idx: int, i: int)
    requires i != idx
    ensures Lookup(Without(tools, idx), i) == Lookup(tools, i)
  {
    if tools != [] {
      var n := |tools| - 1;
      LookupWithout(tools[..n], idx, i);
      if tools[n].idx != idx {
        LookupAppend(Without(tools[..n], idx), tools[n], i);
      } else {
        assert Without(tools[..n], idx) + [] == Without(tools[..n], idx);
      }
    }
  }

  /** A delta that continues its index's live call. */
  lemma ContinueIndex(st: State, c: Client, items: seq<Item>, d: ToolDelta, owner: seq<int>, i: int)
    requires Linked(st, c) && !HasFailed(items) && |owner| == |c.blocks|
    requires IndexFaithful(st, c.blocks, items, owner, i) && IndexFaithful(st, c.blocks, items, owner, d.index)
    requires Lookup(st.tools, d.index).Some?
    requires d.id == "" || d.id == Lookup(st.tools, d.index).value.id
    ensures IndexFaithful(st, Appended(c.blocks, Lookup(st.tools, d.index).value.blk, d.args), items + [Tool(d)], owner, i)
  {
    hide Lookup, ReadCalls, ItemCalls;
    var t := Lookup(st.tools, d.index).value;
    var cs := ReadCalls(c.blocks, owner, i);
    LookupLinked(st.tools, d.index, c.blocks);
    if i == d.index {
      ToolSnoc(items, d, CallIds(cs));
      AppendCall(c.blocks, owner, t.blk, d.args, i);
      var ds := ReadCalls(Appended(c.blocks, t.blk, d.args), owner, i);
      assert CallIds(ds) == CallIds(cs);
    } else {
      PlainSnoc(items, Tool(d), i, CallIds(cs));
      AppendOtherCall(c.blocks, owner, t.blk, d.args, i);
    }
  }

  /** A delta that opens a block, seen from its own index. */
  lemma OpenOwnIndex(st: State, r: State, blocks: seq<Block>, p: seq<Block>, items: seq<Item>, d: ToolDelta, id: string, owner: seq<int>)
    requires |owner| == |blocks| && SameText(blocks, p) && !HasFailed(items)
    requires IndexFaithful(st, blocks, items, owner, d.index)
    requires Lookup(r.tools, d.index) == Some(ToolBlock(d.index, |blocks|, id))
    requires match Lookup(st.tools, d.index)
             case None => true
             case Some(t) => d.id != "" && d.id != t.id && 0 <= t.blk < |blocks| && blocks[t.blk].kind.ToolUse?
                             && blocks[t.blk].kind.id == t.id
    requires d.id != "" ==> id == d.id
    ensures IndexFaithful(r, p + [Block(ToolUse(id, d.name), d.args, true)], items + [Tool(d)], owner + [d.index], d.index)
  {
    hide Lookup, ReadCalls, ItemCalls;
    var i, b := d.index, Block(ToolUse(id, d.name), d.args, true);
    var cs := ReadCalls(blocks, owner, i);
    SameReading(blocks, p, owner, i, Text);
    ReadNewBlock(p, owner, b, i, i, Text);
    var ds := cs + [Call(id, d.name, d.args)];
    assert CallIds(ds) == CallIds(cs) + [id];
    GivenBeyond(items, i, CallIds(cs), id);
    ToolSnoc(items, d, CallIds(ds));
    if Lookup(st.tools, i).Some? {
      AppendCall(blocks, owner, Lookup(st.tools, i).value.blk, "", i);
    }
  }

  /** The same, seen from another index. */
  lemma {:induction false} OpenOtherIndex(st: State, r: State, blocks: seq<Block>, p: seq<Block>, items: seq<Item>, d: ToolDelta, id: string, owner: seq<int>, i: int)
    requires |owner| == |blocks| && SameText(blocks, p) && i != d.index
    requires IndexFaithful(st, blocks, items, owner, i)
    requires Lookup(r.tools, i) == Lookup(st.tools, i)
    ensures IndexFaithful(r, p + [Block(ToolUse(id, d.name), d.args, true)], items + [Tool(d)], owner + [d.index], i)
  {
    hide Lookup, ReadCalls, ItemCalls;
    var b := Block(ToolUse(id, d.name), d.args, true);
    PlainSnoc(items, Tool(d), i, CallIds(ReadCalls(blocks, owner, i)));
    SameReading(blocks, p, owner, i, Text);
    ReadNewBlock(p, owner, b, d.index, i, Text);
    assert ReadCalls(p, owner, i) + [] == ReadCalls(p, owner, i);
  }

  lemma ToolIndex(st: State, c: Client, items: seq<Item>, d: ToolDelta, owner: seq<int>, i: int)
    requires Linked(st, c) && !st.failed && st.started && |owner| == |c.blocks| && !HasFailed(items)
    requires IndexFaithful(st, c.blocks, items, owner, i) && IndexFaithful(st, c.blocks, items, owner, d.index)
    ensures var b, r := CalledBlocks(st, c.blocks, d), Called(st, d).st;
            var o := if |b| > |c.blocks| then owner + [d.index] else owner;
            |o| == |b| && IndexFaithful(r, b, items + [Tool(d)], o, i)
  {
    hide IndexFaithful, Lookup, Without;
    var t, id := Lookup(st.tools, d.index), NewId(st, d);
    if t.Some? { LookupLinked(st.tools, d.index, c.blocks); }
    if t.Some? && (d.id == "" || d.id == t.value.id) {
      ContinueIndex(st, c, items, d, owner, i);
    } else {
      var p := if t.Some? then Closed(c.blocks, t.value.blk) else ProseClosed(st, c.blocks);
      var r, w := Called(st, d).st, if t.Some? then Without(st.tools, d.index) else st.tools;
      LookupAppend(w, ToolBlock(d.index, st.next, id), i);
      if i == d.index {
        OpenOwnIndex(st, r, c.blocks, p, items, d, id, owner);
      } else {
        if t.Some? { LookupWithout(st.tools, d.index, i); }
        OpenOtherIndex(st, r, c.blocks, p, items, d, id, owner, i);
      }
    }
  }

  lemma {:induction false} ToolProse(st: State, c: Client, d: ToolDelta, k: Kind)
    requires Linked(st, c) && !st.failed && st.started
    ensures ReadProse(CalledBlocks(st, c.blocks, d), k) == ReadProse(c.blocks, k)
  {
    hide Lookup, ReadProse;
    var t, id := Lookup(st.tools, d.index), NewId(st, d);
    if t.Some? { LookupLinked(st.tools, d.index, c.blocks); }
    if t.Some? && (d.id == "" || d.id == t.value.id) {
      AppendOtherProse(c.blocks, t.value.blk, d.args, k);
    } else {
      var p := if t.Some? then Closed(c.blocks, t.value.blk) else ProseClosed(st, c.blocks);
      SameProse(c.blocks, p, k);
      ReadNewBlock(p, seq(|p|, _ => 0), Block(ToolUse(id, d.name), d.args, true), 0, 0, k);
      assert ReadProse(p, k) + "" == ReadProse(p, k);
    }
  }

  // ---- Whole runs

  /** The assignment after an item: a block it opened belongs to the delta's index. */
  function OwnerAfter(owner: seq<int>, it: Item, grew: bool): seq<int> {
    if grew then owner + [if it.Tool? then it.d.index else 0] else owner
  }

  lemma StepFaithful(st: State, c: Client, items: seq<Item>, it: Item, owner: seq<int>)
    requires Linked(st, c) && Ready(st, it) && Faithful(st, c, items, owner)
    ensures var d := After(st, c, it);
            Faithful(Step(st, it).st, d, items + [it], OwnerAfter(owner, it, |d.blocks| > |c.blocks|))
  {
    hide IndexFaithful, ReadProse, ItemProse, Linked;
    var d, r := After(st, c, it), Step(st, it).st;
    var o := OwnerAfter(owner, it, |d.blocks| > |c.blocks|);
    Snoc(items, it);
    AfterSize(st, c, it);
    forall k ensures ReadProse(d.blocks, k) == ItemProse(items + [it], k) {
      StepProse(st, c, items, it, k);
    }
    forall i ensures IndexFaithful(r, d.blocks, items + [it], o, i) {
      assert IndexFaithful(st, c.blocks, items, owner, i);
      if it.Tool? { assert IndexFaithful(st, c.blocks, items, owner, it.d.index); }
      StepIndex(st, c, items, it, owner, i);
    }
  }

  lemma AfterSize(st: State, c: Client, it: Item)
    requires Linked(st, c)
    ensures |c.blocks| <= |After(st, c, it).blocks| <= |c.blocks| + 1
    ensures |After(st, c, it).blocks| > |c.blocks| ==> !st.failed && (it.Prose? || it.Tool?)
  {
  }

  lemma {:induction false} StepProse(st: State, c: Client, items: seq<Item>, it: Item, k: Kind)
    requires Linked(st, c) && Ready(st, it) && st.failed == HasFailed(items)
    requires ReadProse(c.blocks, k) == ItemProse(items, k)
    ensures ReadProse(After(st, c, it).blocks, k) == ItemProse(items + [it], k)
  {
    hide ReadProse, ItemProse;
    if !st.failed && it.Prose? {
      ProseText(st, c, items, it.kind, it.s, k);
    } else {
      OtherProse(items, it, k);
      if !st.failed && it.Tool? { ToolProse(st, c, it.d, k); }
      if !st.failed && it.Finish? { SameProse(c.blocks, AllClosedOff(c.blocks), k); }
    }
  }

  lemma StepIndex(st: State, c: Client, items: seq<Item>, it: Item, owner: seq<int>, i: int)
    requires Linked(st, c) && Ready(st, it) && st.failed == HasFailed(items) && |owner| == |c.blocks|
    requires IndexFaithful(st, c.blocks, items, owner, i)
    requires it.Tool? ==> IndexFaithful(st, c.blocks, items, owner, it.d.index)
    ensures var d := After(st, c, it);
            var o := OwnerAfter(owner, it, |d.blocks| > |c.blocks|);
            |o| == |d.blocks| && IndexFaithful(Step(st, it).st, d.blocks, items + [it], o, i)
  {
    hide IndexFaithful;
    var d, r := After(st, c, it), Step(st, it).st;
    if st.failed {
      QuietStep(st, r, c.blocks, d.blocks, items, it, owner, i);
    } else {
      match it
      case Prose(k, s) => ProseIndex(st, c, items, k, s, owner, i);
      case Tool(t) => ToolIndex(st, c, items, t, owner, i);
      case Finish(_) => FinishStep(st, r, c.blocks, d.blocks, items, it, owner, i);
      case _ => QuietStep(st, r, c.blocks, d.blocks, items, it, owner, i);
    }
  }

  lemma {:induction false} RunFaithful(invented: string, items: seq<Item>) returns (c: Client, owner: seq<int>)
    requires WellBegun(items)
    ensures var r := Run(Initial(invented), items);
            && AcceptAll(Fresh, r.evs) == Some(c) && Linked(r.st, c) && Faithful(r.st, c, items, owner)
            && (Begun(items) ==> r.st.started || r.st.failed)
  {
    hide Step, Accept, Linked, Faithful;
    if items == [] {
      LinkedInitially(invented);
      FaithfulInitially(invented);
      c, owner := Fresh, [];
    } else {
      var n := |items| - 1;
      WellBegunInit(items);
      var d, o := RunFaithful(invented, items[..n]);
      var p := Run(Initial(invented), items[..n]);
      StepAccepted(p.st, d, items[n]);
      StepLinked(p.st, d, items[n]);
      StepFaithful(p.st, d, items[..n], items[n], o);
      c := After(p.st, d, items[n]);
      owner := OwnerAfter(o, items[n], |c.blocks| > |d.blocks|);
      AcceptAppend(Fresh, p.evs, Step(p.st, items[n]).evs);
      BegunStep(p.st, items[n]);
      assert items[..n] + [items[n]] == items;
      if Begun(items) && !items[n].Begin? {
        var i :| 0 <= i < |items| && items[i].Begin?;
        assert items[..n][i].Begin?;
      }
    }
  }
}
