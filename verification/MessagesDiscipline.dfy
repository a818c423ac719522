/** Block discipline of the Anthropic emitter: every run of it is accepted by the client. */
module MessagesDiscipline {
  import opened Wrappers
  import opened Bytes
  import opened ChatStream
  import opened MessagesSpec
  import opened MessagesClient

  /** Some entry of the tool list streams into block `i`. */
  predicate Streams(tools: seq<ToolBlock>, i: int) {
    exists a :: 0 <= a < |tools| && tools[a].blk == i
  }

  /** The tool list names open tool_use blocks: one per index, no block twice. */
  predicate ToolsLinked(tools: seq<ToolBlock>, blocks: seq<Block>) {
    && (forall a :: 0 <= a < |tools| ==>
          OpenAt(blocks, tools[a].blk) && blocks[tools[a].blk].kind.ToolUse? && blocks[tools[a].blk].kind.id == tools[a].id)
    && (forall a, b :: 0 <= a < b < |tools| ==> tools[a].idx != tools[b].idx && tools[a].blk != tools[b].blk)
  }

  /** The prose fields name the one open prose block, which only tool blocks follow. */
  predicate ProseLinked(kind: Option<Kind>, open: int, blocks: seq<Block>) {
    kind.Some? ==>
      && OpenAt(blocks, open) && blocks[open].kind == StartOf(kind.value)
      && forall j :: open < j < |blocks| ==> blocks[j].kind.ToolUse?
  }

  ghost predicate OpenAccounted(st: State, blocks: seq<Block>) {
    forall i :: OpenAt(blocks, i) ==> (st.kind.Some? && i == st.open) || Streams(st.tools, i)
  }

  /** The emitter's fields and the client's view agree. */
  ghost predicate Linked(st: State, c: Client) {
    && c.started == st.started && c.failed == st.failed && !c.stopped
    && |c.blocks| == st.next
    && (!st.started ==> st.next == 0)
    && ToolsLinked(st.tools, c.blocks)
    && ProseLinked(st.kind, st.open, c.blocks)
    && OpenAccounted(st, c.blocks)
  }

  lemma LinkedInitially(invented: string)
    ensures Linked(Initial(invented), Fresh)
  {
  }

  // ---- Facts about the tool list

  lemma {:induction false} LookupIs(tools: seq<ToolBlock>, idx: int)
    ensures match Lookup(tools, idx)
            case Some(t) => t in tools && t.idx == idx
            case None => forall a :: 0 <= a < |tools| ==> tools[a].idx != idx
  {
    if tools != [] { LookupIs(tools[..|tools| - 1], idx); }
  }

  /** With one entry per index, removing an index keeps exactly the other entries, in order. */
  lemma {:induction false} WithoutIs(tools: seq<ToolBlock>, idx: int, blocks: seq<Block>)
    requires ToolsLinked(tools, blocks)
    ensures var w := Without(tools, idx);
            && ToolsLinked(w, blocks)
            && (forall t :: t in w <==> t in tools && t.idx != idx)
  {
    if tools != [] {
      var n := |tools| - 1;
      WithoutIs(tools[..n], idx, blocks);
      var v, w := Without(tools[..n], idx), Without(tools, idx);
      assert forall t :: t in tools <==> t in tools[..n] || t == tools[n];
      if tools[n].idx != idx {
        assert w == v + [tools[n]];
        forall a | 0 <= a < |v| ensures v[a].idx != tools[n].idx && v[a].blk != tools[n].blk {
          assert v[a] in tools[..n];
        }
      } else {
        assert w == v;
      }
    }
  }

  // ---- The client after each item

  function ProseClosed(st: State, blocks: seq<Block>): (r: seq<Block>)
    requires ProseLinked(st.kind, st.open, blocks)
    ensures |r| == |blocks|
  {
    if st.kind == None then blocks else Closed(blocks, st.open)
  }

  function AllClosedOff(blocks: seq<Block>): (r: seq<Block>)
    ensures |r| == |blocks| && forall i :: 0 <= i < |r| ==> r[i] == blocks[i].(open := false)
  {
    seq(|blocks|, i requires 0 <= i < |blocks| => blocks[i].(open := false))
  }

  function ProsedBlocks(st: State, blocks: seq<Block>, k: Kind, s: string): (r: seq<Block>)
    requires ProseLinked(st.kind, st.open, blocks)
    ensures |blocks| <= |r| <= |blocks| + 1
  {
    if s == "" then blocks
    else if st.kind == Some(k) then Appended(blocks, st.open, s)
    else ProseClosed(st, blocks) + [Block(StartOf(k), s, true)]
  }

  lemma {:induction false} LookupLinked(tools: seq<ToolBlock>, idx: int, blocks: seq<Block>)
    requires ToolsLinked(tools, blocks) && Lookup(tools, idx).Some?
    ensures var t := Lookup(tools, idx).value;
            OpenAt(blocks, t.blk) && blocks[t.blk].kind.ToolUse? && blocks[t.blk].kind.id == t.id && t.idx == idx
  {
    LookupIs(tools, idx);
  }

  function CalledBlocks(st: State, blocks: seq<Block>, d: ToolDelta): (r: seq<Block>)
    requires ProseLinked(st.kind, st.open, blocks) && ToolsLinked(st.tools, blocks)
    ensures |blocks| <= |r| <= |blocks| + 1
  {
    var t := Lookup(st.tools, d.index);
    if t.Some? then
      LookupLinked(st.tools, d.index, blocks);
      if d.id == "" || d.id == t.value.id then Appended(blocks, t.value.blk, d.args)
      else Closed(blocks, t.value.blk) + [Block(ToolUse(NewId(st, d), d.name), d.args, true)]
    else ProseClosed(st, blocks) + [Block(ToolUse(NewId(st, d), d.name), d.args, true)]
  }

  ghost function After(st: State, c: Client, it: Item): Client
    requires Linked(st, c)
  {
    if st.failed then c
    else match it
      case Head(_, _, _) => c
      case Begin(_, _) => c.(started := true)
      case Prose(k, s) => c.(blocks := ProsedBlocks(st, c.blocks, k, s))
      case Tool(d) => c.(blocks := CalledBlocks(st, c.blocks, d))
      case Finish(_) => c.(blocks := AllClosedOff(c.blocks))
      case Forward(_) => c
      case Fail(_, _, _) => c.(failed := true)
  }

  /** Content items come only in a message that was begun. */
  predicate Ready(st: State, it: Item) {
    it.Prose? || it.Tool? || it.Finish? ==> st.started || st.failed
  }

  // ---- Each item is accepted and leaves the two sides linked

  lemma OneProse(st: State, c: Client)
    requires Linked(st, c)
    ensures NoProseOpen(ProseClosed(st, c.blocks))
  {
    var b := ProseClosed(st, c.blocks);
    forall i | 0 <= i < |b| && b[i].open ensures b[i].kind.ToolUse? {
      assert OpenAt(c.blocks, i);
    }
  }

  lemma {:induction false} CloseTextAccepted(st: State, c: Client)
    requires Linked(st, c) && !st.failed
    ensures AcceptAll(c, CloseText(st).evs) == Some(c.(blocks := ProseClosed(st, c.blocks)))
  {
    if st.kind.Some? { AcceptOne(c, BlockStop(st.open)); }
  }

  lemma {:induction false} ProseAccepted(st: State, c: Client, k: Kind, s: string)
    requires Linked(st, c) && !st.failed && st.started
    ensures AcceptAll(c, Prosed(st, k, s).evs) == Some(c.(blocks := ProsedBlocks(st, c.blocks, k, s)))
  {
    if s == "" {
    } else if st.kind == Some(k) {
      AcceptOne(c, BlockDelta(st.open, DeltaOf(k, s)));
    } else {
      var d := c.(blocks := ProseClosed(st, c.blocks));
      CloseTextAccepted(st, c);
      OneProse(st, c);
      var e, f := BlockStart(st.next, StartOf(k)), BlockDelta(st.next, DeltaOf(k, s));
      OpenedAndFilled(d, StartOf(k), DeltaOf(k, s));
      AcceptAppend(c, CloseText(st).evs, [e, f]);
    }
  }

  /** Starting the next block and writing to it. */
  lemma {:induction false} OpenedAndFilled(c: Client, k: BlockKind, d: Delta)
    requires c.started && !c.failed && !c.stopped && Fits(k, d) && (k.ToolUse? || NoProseOpen(c.blocks))
    ensures AcceptAll(c, [BlockStart(|c.blocks|, k), BlockDelta(|c.blocks|, d)])
         == Some(c.(blocks := c.blocks + [Block(k, d.s, true)]))
  {
    var n, b := |c.blocks|, c.blocks + [Block(k, "", true)];
    AcceptTwo(c, BlockStart(n, k), BlockDelta(n, d));
    assert "" + d.s == d.s;
    assert Appended(b, n, d.s) == c.blocks + [Block(k, d.s, true)];
  }

  lemma {:induction false} OpenedCall(c: Client, id: string, name: string, args: string)
    requires c.started && !c.failed && !c.stopped
    ensures AcceptAll(c, [BlockStart(|c.blocks|, ToolUse(id, name))] + ArgsDelta(|c.blocks|, args))
         == Some(c.(blocks := c.blocks + [Block(ToolUse(id, name), args, true)]))
  {
    var e := BlockStart(|c.blocks|, ToolUse(id, name));
    if args == "" {
      assert [e] + ArgsDelta(|c.blocks|, args) == [e];
      AcceptOne(c, e);
    } else {
      assert [e] + ArgsDelta(|c.blocks|, args) == [e, BlockDelta(|c.blocks|, InputJson(args))];
      OpenedAndFilled(c, ToolUse(id, name), InputJson(args));
    }
  }

  lemma {:induction false} ToolAccepted(st: State, c: Client, d: ToolDelta)
    requires Linked(st, c) && !st.failed && st.started
    ensures AcceptAll(c, Called(st, d).evs) == Some(c.(blocks := CalledBlocks(st, c.blocks, d)))
  {
    hide Accept;
    var t := Lookup(st.tools, d.index);
    if t.Some? { LookupLinked(st.tools, d.index, c.blocks); }
    if t.Some? && (d.id == "" || d.id == t.value.id) {
      ArgsAccepted(c, t.value.blk, d.args);
    } else {
      var closing := if t.Some? then [BlockStop(t.value.blk)] else CloseText(st).evs;
      var b := if t.Some? then Closed(c.blocks, t.value.blk) else ProseClosed(st, c.blocks);
      if t.Some? { StopAccepted(c, t.value.blk); } else { CloseTextAccepted(st, c); }
      var id := NewId(st, d);
      var opening := [BlockStart(st.next, ToolUse(id, d.name))] + ArgsDelta(st.next, d.args);
      OpenedCall(c.(blocks := b), id, d.name, d.args);
      AcceptAppend(c, closing, opening);
      Assoc(closing, [BlockStart(st.next, ToolUse(id, d.name))], ArgsDelta(st.next, d.args));
    }
  }

  lemma {:induction false} ArgsAccepted(c: Client, blk: int, args: string)
    requires !c.failed && !c.stopped && OpenAt(c.blocks, blk) && c.blocks[blk].kind.ToolUse?
    ensures AcceptAll(c, ArgsDelta(blk, args)) == Some(c.(blocks := Appended(c.blocks, blk, args)))
  {
    if args == "" {
      assert c.blocks[blk].content + args == c.blocks[blk].content;
      assert Appended(c.blocks, blk, args) == c.blocks;
    } else {
      AcceptOne(c, BlockDelta(blk, InputJson(args)));
    }
  }

  lemma {:induction false} StopAccepted(c: Client, blk: int)
    requires !c.failed && !c.stopped && OpenAt(c.blocks, blk)
    ensures AcceptAll(c, [BlockStop(blk)]) == Some(c.(blocks := Closed(c.blocks, blk)))
  {
    AcceptOne(c, BlockStop(blk));
  }

  /** The tool blocks closed one after the other. */
  function StoppedBlocks(tools: seq<ToolBlock>, blocks: seq<Block>): (r: seq<Block>)
    requires forall a :: 0 <= a < |tools| ==> 0 <= tools[a].blk < |blocks|
    ensures |r| == |blocks|
    ensures forall i :: 0 <= i < |r| ==> r[i] == if Streams(tools, i) then blocks[i].(open := false) else blocks[i]
  {
    if tools == [] then blocks
    else
      var n := |tools| - 1;
      var r := Closed(StoppedBlocks(tools[..n], blocks), tools[n].blk);
      assert forall i :: 0 <= i < |r| ==> (Streams(tools, i) <==> Streams(tools[..n], i) || i == tools[n].blk) by {
        forall i | 0 <= i < |r| ensures Streams(tools, i) <==> Streams(tools[..n], i) || i == tools[n].blk {
          if Streams(tools, i) && i != tools[n].blk {
            var a :| 0 <= a < |tools| && tools[a].blk == i;
            assert tools[..n][a].blk == i;
          }
          if Streams(tools[..n], i) {
            var a :| 0 <= a < n && tools[..n][a].blk == i;
            assert tools[a].blk == i;
          }
          assert tools[n].blk == i ==> Streams(tools, i);
        }
      }
      r
  }

  lemma {:induction false} StopsAccepted(c: Client, tools: seq<ToolBlock>)
    requires !c.failed && !c.stopped && ToolsLinked(tools, c.blocks)
    ensures AcceptAll(c, Stops(tools)) == Some(c.(blocks := StoppedBlocks(tools, c.blocks)))
  {
    if tools != [] {
      var n := |tools| - 1;
      StopsAccepted(c, tools[..n]);
      var b := StoppedBlocks(tools[..n], c.blocks);
      assert OpenAt(b, tools[n].blk) by {
        if Streams(tools[..n], tools[n].blk) { assert false; }
      }
      AcceptAppend(c, Stops(tools[..n]), [BlockStop(tools[n].blk)]);
      StopAccepted(c.(blocks := b), tools[n].blk);
    }
  }

  /** Closing everything is accepted and leaves every block closed. */
  lemma {:induction false} CloseAllAccepted(st: State, c: Client)
    requires Linked(st, c) && !st.failed
    ensures AcceptAll(c, CloseAll(st).evs) == Some(c.(blocks := AllClosedOff(c.blocks)))
  {
    hide Accept;
    var b := ProseClosed(st, c.blocks);
    var d := c.(blocks := b);
    CloseTextAccepted(st, c);
    ToolsAfterProse(st, c);
    StopsAccepted(d, st.tools);
    AcceptAppend(c, CloseText(st).evs, Stops(st.tools));
    assert StoppedBlocks(st.tools, b) == AllClosedOff(c.blocks) by {
      forall i | 0 <= i < |b| ensures StoppedBlocks(st.tools, b)[i] == AllClosedOff(c.blocks)[i] {
        assert OpenAt(c.blocks, i) ==> (st.kind.Some? && i == st.open) || Streams(st.tools, i);
      }
    }
  }

  lemma ToolsAfterProse(st: State, c: Client)
    requires Linked(st, c)
    ensures ToolsLinked(st.tools, ProseClosed(st, c.blocks))
  {
  }

  lemma {:induction false} StepAccepted(st: State, c: Client, it: Item)
    requires Linked(st, c) && Ready(st, it)
    ensures AcceptAll(c, Step(st, it).evs) == Some(After(st, c, it))
  {
    if !st.failed {
      match it
      case Begin(usage, lost) =>
        var s := ReadUsage(st, usage).(notes := NotedAll(st.notes, lost));
        if !st.started { AcceptOne(c, Started(s).evs[0]); }
      case Prose(k, s) => ProseAccepted(st, c, k, s);
      case Tool(d) => ToolAccepted(st, c, d);
      case Finish(reason) => FinishAccepted(st, c, reason);
      case Forward(frame) => AcceptOne(c, Forwarded(frame));
      case Fail(code, msg, note) => AcceptOne(c, ErrorEvent(code, msg));
      case Head(_, _, _) =>
    }
  }

  lemma {:induction false} FinishAccepted(st: State, c: Client, reason: string)
    requires Linked(st, c) && !st.failed && st.started
    ensures AcceptAll(c, Finished(st, reason).evs) == Some(c.(blocks := AllClosedOff(c.blocks)))
  {
    var n := FinishNote(reason);
    var s := st.(stop := StopReason(reason), notes := if n != "" then Noted(st.notes, n) else st.notes);
    CloseAllAccepted(s, c);
    var d, e := c.(blocks := AllClosedOff(c.blocks)), DeltaEvent(CloseAll(s).st);
    AcceptAppend(c, CloseAll(s).evs, [e]);
    AcceptOne(d, e);
  }

  lemma StepLinked(st: State, c: Client, it: Item)
    requires Linked(st, c) && Ready(st, it)
    ensures Linked(Step(st, it).st, After(st, c, it))
  {
    if !st.failed {
      match it
      case Prose(k, s) => ProseStaysLinked(st, c, k, s);
      case Tool(d) => ToolStaysLinked(st, c, d);
      case _ =>
    }
  }

  lemma ProseStaysLinked(st: State, c: Client, k: Kind, s: string)
    requires Linked(st, c) && !st.failed && st.started
    ensures Linked(Prosed(st, k, s).st, c.(blocks := ProsedBlocks(st, c.blocks, k, s)))
  {
    var b, r := ProsedBlocks(st, c.blocks, k, s), Prosed(st, k, s).st;
    forall i | OpenAt(b, i) ensures (r.kind.Some? && i == r.open) || Streams(r.tools, i) {
      assert i < |c.blocks| ==> OpenAt(c.blocks, i);
    }
  }

  lemma ToolStaysLinked(st: State, c: Client, d: ToolDelta)
    requires Linked(st, c) && !st.failed && st.started
    ensures Linked(Called(st, d).st, c.(blocks := CalledBlocks(st, c.blocks, d)))
  {
    var t := Lookup(st.tools, d.index);
    if t.Some? {
      LookupLinked(st.tools, d.index, c.blocks);
      if d.id == "" || d.id == t.value.id {
        ContinuedLinked(st, c, t.value.blk, d.args);
      } else {
        ReusedLinked(st, c, d);
      }
    } else {
      NewCallLinked(st, c, d);
    }
  }

  lemma ContinuedLinked(st: State, c: Client, blk: int, args: string)
    requires Linked(st, c) && OpenAt(c.blocks, blk) && c.blocks[blk].kind.ToolUse?
    ensures Linked(st, c.(blocks := Appended(c.blocks, blk, args)))
  {
    var b := Appended(c.blocks, blk, args);
    forall i | OpenAt(b, i) ensures (st.kind.Some? && i == st.open) || Streams(st.tools, i) {
      assert OpenAt(c.blocks, i);
    }
  }

  /** An index that returns with a fresh id: its block closes, the new one takes its place. */
  lemma ReusedLinked(st: State, c: Client, d: ToolDelta)
    requires Linked(st, c) && st.started && Lookup(st.tools, d.index).Some?
    ensures var t, id := Lookup(st.tools, d.index).value, NewId(st, d);
            && 0 <= t.blk < |c.blocks|
            && Linked(st.(tools := Without(st.tools, d.index) + [ToolBlock(d.index, st.next, id)], next := st.next + 1),
                      c.(blocks := Closed(c.blocks, t.blk) + [Block(ToolUse(id, d.name), d.args, true)]))
  {
    hide Lookup, Without;
    var t, id := Lookup(st.tools, d.index).value, NewId(st, d);
    LookupIs(st.tools, d.index);
    LookupLinked(st.tools, d.index, c.blocks);
    WithoutIs(st.tools, d.index, c.blocks);
    var w := Without(st.tools, d.index);
    var b := Closed(c.blocks, t.blk) + [Block(ToolUse(id, d.name), d.args, true)];
    var tools := w + [ToolBlock(d.index, st.next, id)];
    assert b[..|c.blocks|] == Closed(c.blocks, t.blk);
    RestStaysOpen(st.tools, w, t, c.blocks, b);
    NewToolLinked(w, ToolBlock(d.index, st.next, id), b);
    forall i | OpenAt(b, i) ensures (st.kind.Some? && i == st.open) || Streams(tools, i) {
      ReusedAccounted(st, c, d, t, b, tools, i);
    }
  }

  lemma NewToolLinked(w: seq<ToolBlock>, t: ToolBlock, b: seq<Block>)
    requires ToolsLinked(w, b) && OpenAt(b, t.blk) && b[t.blk].kind.ToolUse? && b[t.blk].kind.id == t.id
    requires forall u :: u in w ==> u.idx != t.idx && u.blk != t.blk
    ensures ToolsLinked(w + [t], b)
  {
    forall a | 0 <= a < |w| ensures w[a].idx != t.idx && w[a].blk != t.blk {
      assert w[a] in w;
    }
  }

  lemma ReusedAccounted(st: State, c: Client, d: ToolDelta, t: ToolBlock, b: seq<Block>, tools: seq<ToolBlock>, i: int)
    requires Linked(st, c) && t in st.tools && t.idx == d.index && OpenAt(c.blocks, t.blk)
    requires |b| == |c.blocks| + 1 && b[..|c.blocks|] == Closed(c.blocks, t.blk) && OpenAt(b, i)
    requires tools != [] && tools[|tools| - 1].blk == |c.blocks|
    requires forall u :: u in st.tools && u.idx != d.index ==> u in tools
    ensures (st.kind.Some? && i == st.open) || Streams(tools, i)
  {
    if i < |c.blocks| && !(st.kind.Some? && i == st.open) {
      assert b[i] == b[..|c.blocks|][i];
      assert OpenAt(c.blocks, i) && i != t.blk;
      var a :| 0 <= a < |st.tools| && st.tools[a].blk == i;
      OneBlock(st.tools, a, t, c.blocks);
      assert st.tools[a] in tools;
    }
  }

  /** An index owns a single block. */
  lemma OneBlock(tools: seq<ToolBlock>, a: nat, t: ToolBlock, blocks: seq<Block>)
    requires ToolsLinked(tools, blocks) && t in tools && a < |tools| && tools[a].blk != t.blk
    ensures tools[a].idx != t.idx
  {
    var z :| 0 <= z < |tools| && tools[z] == t;
  }

  lemma RestStaysOpen(tools: seq<ToolBlock>, w: seq<ToolBlock>, t: ToolBlock, blocks: seq<Block>, b: seq<Block>)
    requires ToolsLinked(tools, blocks) && ToolsLinked(w, blocks) && t in tools && OpenAt(blocks, t.blk)
    requires forall u :: u in w <==> u in tools && u.idx != t.idx
    requires |b| == |blocks| + 1 && b[..|blocks|] == Closed(blocks, t.blk)
    ensures ToolsLinked(w, b)
  {
    forall a | 0 <= a < |w|
      ensures OpenAt(b, w[a].blk) && b[w[a].blk].kind.ToolUse? && b[w[a].blk].kind.id == w[a].id
    {
      assert w[a] in w;
      var z :| 0 <= z < |tools| && tools[z] == t;
      var y :| 0 <= y < |tools| && tools[y] == w[a];
      assert w[a].blk != t.blk;
      assert b[w[a].blk] == b[..|blocks|][w[a].blk] == blocks[w[a].blk];
    }
  }

  lemma NewCallLinked(st: State, c: Client, d: ToolDelta)
    requires Linked(st, c) && st.started && Lookup(st.tools, d.index) == None
    ensures var id := NewId(st, d);
            Linked(st.(kind := None, tools := st.tools + [ToolBlock(d.index, st.next, id)], next := st.next + 1),
                   c.(blocks := ProseClosed(st, c.blocks) + [Block(ToolUse(id, d.name), d.args, true)]))
  {
    var id := NewId(st, d);
    LookupIs(st.tools, d.index);
    var tools := st.tools + [ToolBlock(d.index, st.next, id)];
    var b := ProseClosed(st, c.blocks) + [Block(ToolUse(id, d.name), d.args, true)];
    forall i | OpenAt(b, i) ensures Streams(tools, i) {
      if i == |c.blocks| {
        assert tools[|st.tools|].blk == i;
      } else {
        assert OpenAt(c.blocks, i);
        var a :| 0 <= a < |st.tools| && st.tools[a].blk == i;
        assert tools[a].blk == i;
      }
    }
  }

  // ---- Whole runs

  lemma {:induction false} StreamWellBegun(frames: seq<seq<byte>>, decode: seq<byte> -> FrameKind)
    ensures WellBegun(StreamItems(frames, decode))
  {
    if frames != [] {
      var n := |frames| - 1;
      StreamWellBegun(frames[..n], decode);
      FrameWellBegun(frames[n], decode);
      WellBegunAppend(StreamItems(frames[..n], decode), FrameItems(frames[n], decode));
    }
  }

  lemma FrameWellBegun(frame: seq<byte>, decode: seq<byte> -> FrameKind)
    ensures WellBegun(FrameItems(frame, decode))
  {
    if decode(frame).ChatChunk? {
      var c := decode(frame).chunk;
      ChoicesWellBegun(c.choices);
      WellBegunAppend([Head(c.id, c.model, c.usage)], ChoicesItems(c.choices));
    }
  }

  /** In every run, the events so far are accepted and the two sides are linked. */
  lemma {:induction false} RunAccepted(invented: string, items: seq<Item>) returns (c: Client)
    requires WellBegun(items)
    ensures var r := Run(Initial(invented), items);
            && AcceptAll(Fresh, r.evs) == Some(c) && Linked(r.st, c)
            && (Begun(items) ==> r.st.started || r.st.failed)
  {
    hide Step, Accept, Linked;
    if items == [] {
      LinkedInitially(invented);
      c := Fresh;
    } else {
      var n := |items| - 1;
      WellBegunInit(items);
      var d := RunAccepted(invented, items[..n]);
      var p := Run(Initial(invented), items[..n]);
      StepAccepted(p.st, d, items[n]);
      StepLinked(p.st, d, items[n]);
      c := After(p.st, d, items[n]);
      AcceptAppend(Fresh, p.evs, Step(p.st, items[n]).evs);
      BegunStep(p.st, items[n]);
      if Begun(items) && !items[n].Begin? {
        var i :| 0 <= i < |items| && items[i].Begin?;
        assert items[..n][i].Begin?;
      }
    }
  }

  lemma BegunStep(st: State, it: Item)
    ensures it.Begin? || st.started || st.failed ==> Step(st, it).st.started || Step(st, it).st.failed
  {
  }

  /**
   Block discipline. For every stream, cut into frames and read to the end, the client accepts every
   authored event. A run that opened a message and did not fail ends with one message_stop and every
   block closed; a run that failed ends in its error event; a run that opened nothing authors nothing else.
   */
  lemma BlockDiscipline(invented: string, frames: seq<seq<byte>>, decode: seq<byte> -> FrameKind) returns (c: Client)
    ensures var r := Run(Initial(invented), StreamItems(frames, decode));
            var t := Terminated(r.st);
            && AcceptAll(Fresh, r.evs + t.evs) == Some(c)
            && c.started == r.st.started && c.failed == r.st.failed
            && c.stopped == (r.st.started && !r.st.failed)
            && (c.stopped ==> AllClosed(c.blocks) && t.evs[|t.evs| - 1] == MessageStop)
  {
    hide Step, Accept;
    var items := StreamItems(frames, decode);
    StreamWellBegun(frames, decode);
    var d := RunAccepted(invented, items);
    var r := Run(Initial(invented), items);
    c := TerminationAccepted(r.st, d);
    AcceptAppend(Fresh, r.evs, Terminated(r.st).evs);
  }

  lemma TerminationAccepted(st: State, c: Client) returns (d: Client)
    requires Linked(st, c)
    ensures AcceptAll(c, Terminated(st).evs) == Some(d)
    ensures d.started == c.started && d.failed == c.failed && d.stopped == (st.started && !st.failed)
    ensures d.blocks == if d.stopped then AllClosedOff(c.blocks) else c.blocks
  {
    if !st.started || st.failed {
      d := c;
    } else {
      CloseAllAccepted(st, c);
      var e := c.(blocks := AllClosedOff(c.blocks));
      AcceptTwo(e, DeltaEvent(CloseAll(st).st), MessageStop);
      AcceptAppend(c, CloseAll(st).evs, [DeltaEvent(CloseAll(st).st), MessageStop]);
      d := e.(stopped := true);
    }
  }
}
