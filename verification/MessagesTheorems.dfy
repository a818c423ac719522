/**
 The theorems of the Anthropic emitter, from the decoded chunks to what the client holds: the prose and the calls
 it accumulated, and how its stream ended.
 */
module MessagesTheorems {
  import opened Wrappers
  import opened Bytes
  import opened ChatStream
  import opened SentContent
  import opened MessagesSpec
  import opened MessagesClient
  import opened MessagesDiscipline
  import opened MessagesContent

  // ---- From items to choices

  /** The calls of index `i`, from its deltas and the finish reasons; `given` are the ids the client was told. */
  function SentCalls(marks: seq<Mark>, i: int, given: seq<string>): Epochs {
    if marks == [] then Epochs([], false)
    else
      var e := SentCalls(marks[..|marks| - 1], i, given);
      match marks[|marks| - 1]
      case Delta(d) => if d.index == i then Grown(e, d, given) else e
      case End => e.(live := false)
  }

  function ItemMark(it: Item): seq<Mark> {
    match it case Tool(d) => [Delta(d)] case Finish(_) => [End] case _ => []
  }

  /** The marks of the items before a failure. */
  function ItemMarks(items: seq<Item>): seq<Mark> {
    if items == [] then []
    else
      var n := |items| - 1;
      ItemMarks(items[..n]) + if HasFailed(items[..n]) then [] else ItemMark(items[n])
  }

  lemma {:induction false} ItemCallsAreSent(items: seq<Item>, i: int, given: seq<string>)
    ensures ItemCalls(items, i, given) == SentCalls(ItemMarks(items), i, given)
  {
    hide HasFailed, Grown;
    if items != [] {
      var n := |items| - 1;
      ItemCallsAreSent(items[..n], i, given);
      var p, more := ItemMarks(items[..n]), if HasFailed(items[..n]) then [] else ItemMark(items[n]);
      if more == [] { assert p + more == p; } else { assert (p + more)[..|p + more| - 1] == p; }
    }
  }

  lemma FailedAppend(a: seq<Item>, b: seq<Item>)
    ensures HasFailed(a + b) <==> HasFailed(a) || HasFailed(b)
  {
    var s := a + b;
    if HasFailed(a) {
      var i :| 0 <= i < |a| && a[i].Fail?;
      assert s[i].Fail?;
    }
    if HasFailed(b) {
      var i :| 0 <= i < |b| && b[i].Fail?;
      assert s[|a| + i].Fail?;
    }
    if HasFailed(s) {
      var i :| 0 <= i < |s| && s[i].Fail?;
      if i < |a| { assert a[i].Fail?; } else { assert b[i - |a|].Fail?; }
    }
  }

  lemma {:induction false} ItemsAppend(a: seq<Item>, b: seq<Item>, k: Kind)
    ensures ItemProse(a + b, k) == ItemProse(a, k) + if HasFailed(a) then "" else ItemProse(b, k)
    ensures ItemMarks(a + b) == ItemMarks(a) + if HasFailed(a) then [] else ItemMarks(b)
  {
    hide HasFailed;
    if b == [] {
      assert a + b == a;
    } else {
      var n := |b| - 1;
      assert (a + b)[..|a + b| - 1] == a + b[..n] && (a + b)[|a + b| - 1] == b[n];
      ItemsAppend(a, b[..n], k);
      FailedAppend(a, b[..n]);
      if !HasFailed(a) {
        Assoc(ItemProse(a, k), ItemProse(b[..n], k), if b[n].Prose? && b[n].kind == k && !HasFailed(b[..n]) then b[n].s else "");
        Assoc(ItemMarks(a), ItemMarks(b[..n]), if HasFailed(b[..n]) then [] else ItemMark(b[n]));
      }
    }
  }

  lemma {:induction false} ToolItemsSay(tools: seq<ToolDelta>, k: Kind)
    ensures !HasFailed(ToolItems(tools)) && ItemProse(ToolItems(tools), k) == ""
    ensures ItemMarks(ToolItems(tools)) == seq(|tools|, i requires 0 <= i < |tools| => Delta(tools[i]))
  {
    if tools != [] {
      var n := |tools| - 1;
      assert ToolItems(tools)[..n] == ToolItems(tools[..n]);
      ToolItemsSay(tools[..n], k);
    }
  }

  lemma {:induction false} OneSays(it: Item, k: Kind)
    ensures HasFailed([it]) <==> it.Fail?
    ensures ItemProse([it], k) == (if it.Prose? && it.kind == k then it.s else "") && ItemMarks([it]) == ItemMark(it)
  {
    NoneFailed();
    assert [it][..0] == [];
    assert [it][0] == it;
    assert ItemProse([], k) == "" && ItemMarks([]) == [];
    assert it.Prose? ==> "" + it.s == it.s;
  }

  lemma {:induction false} HeadSays(begin: Item, thought: string, text: string, k: Kind)
    requires begin.Begin?
    ensures var items := [begin, Prose(Thinking, thought), Prose(Text, text)];
            !HasFailed(items) && ItemProse(items, k) == (if k == Text then text else thought) && ItemMarks(items) == []
  {
    hide HasFailed, ItemProse, ItemMarks;
    var a, b, c := [begin], [Prose(Thinking, thought)], [Prose(Text, text)];
    OneSays(begin, k);
    OneSays(b[0], k);
    OneSays(c[0], k);
    BothSay(a, b, k);
    BothSay(a + b, c, k);
    assert [begin, Prose(Thinking, thought), Prose(Text, text)] == a + b + c;
  }

  lemma {:induction false} ChoiceSays(ch: Choice, k: Kind)
    ensures !HasFailed(ChoiceItems(ch))
    ensures ItemProse(ChoiceItems(ch), k) == Texts(if k == Text then ch.content else ch.reasoning)
    ensures ItemMarks(ChoiceItems(ch)) == ChoiceMarks(ch)
  {
    hide HasFailed, Texts, ItemProse, ItemMarks, ToolItems, Lost;
    var begin := Begin(ch.usage, Lost(ch.content) + Lost(ch.reasoning));
    var head := [begin, Prose(Thinking, Texts(ch.reasoning)), Prose(Text, Texts(ch.content))];
    var tools, end := ToolItems(ch.tools), if ch.finish != "" then [Finish(ch.finish)] else [];
    HeadSays(begin, Texts(ch.reasoning), Texts(ch.content), k);
    ToolItemsSay(ch.tools, k);
    EndSays(end, k);
    BothSay(head, tools, k);
    BothSay(head + tools, end, k);
  }

  /** Two lists without a failure, run together. */
  lemma {:induction false} BothSay(a: seq<Item>, b: seq<Item>, k: Kind)
    requires !HasFailed(a) && !HasFailed(b)
    ensures !HasFailed(a + b)
    ensures ItemProse(a + b, k) == ItemProse(a, k) + ItemProse(b, k) && ItemMarks(a + b) == ItemMarks(a) + ItemMarks(b)
  {
    FailedAppend(a, b);
    ItemsAppend(a, b, k);
  }

  lemma {:induction false} EndSays(items: seq<Item>, k: Kind)
    requires items == [] || (|items| == 1 && items[0].Finish?)
    ensures !HasFailed(items) && ItemProse(items, k) == "" && ItemMarks(items) == if items == [] then [] else [End]
  {
    if items != [] { OneSays(items[0], k); assert items == [items[0]]; }
  }

  lemma {:induction false} ChoicesSay(chs: seq<Choice>, k: Kind)
    ensures var items := ChoicesItems(chs);
            !HasFailed(items) && ItemProse(items, k) == SentProse(chs, k) && ItemMarks(items) == Marks(chs)
  {
    hide ChoiceItems, HasFailed, ChoiceMarks;
    if chs == [] {
      NoneFailed();
    } else {
      var n := |chs| - 1;
      ChoicesSay(chs[..n], k);
      ChoiceSays(chs[n], k);
      FailedAppend(ChoicesItems(chs[..n]), ChoiceItems(chs[n]));
      ItemsAppend(ChoicesItems(chs[..n]), ChoiceItems(chs[n]), k);
    }
  }

  lemma NoneFailed()
    ensures !HasFailed([])
  {
  }

  lemma {:induction false} FrameSays(frame: seq<byte>, decode: seq<byte> -> FrameKind, k: Kind)
    ensures var items, chs := FrameItems(frame, decode), Choices(ChunksOf(decode(frame)));
            && (HasFailed(items) <==> Breaks(decode(frame)))
            && ItemProse(items, k) == SentProse(chs, k) && ItemMarks(items) == Marks(chs)
  {
    hide ChoicesItems, SentProse, Marks, HasFailed, ItemProse, ItemMarks;
    var items := FrameItems(frame, decode);
    match decode(frame)
    case ChatChunk(c) =>
      assert [c][..0] == [] && [] + c.choices == c.choices;
      var head := [Head(c.id, c.model, c.usage)];
      OneSays(head[0], k);
      ChoicesSay(c.choices, k);
      BothSay(head, ChoicesItems(c.choices), k);
    case Inert =>
      NothingSays(decode, k);
    case _ =>
      OneSays(items[0], k);
      assert items == [items[0]];
      NothingSays(decode, k);
  }

  lemma {:induction false} ChoicesAppend(a: seq<Chunk>, b: seq<Chunk>)
    ensures Choices(a + b) == Choices(a) + Choices(b)
  {
    if b == [] {
      assert a + b == a;
    } else {
      var n := |b| - 1;
      assert (a + b)[..|a + b| - 1] == a + b[..n] && (a + b)[|a + b| - 1] == b[n];
      ChoicesAppend(a, b[..n]);
      Assoc(Choices(a), Choices(b[..n]), b[n].choices);
    }
  }

  lemma {:induction false} SentAppend(a: seq<Choice>, b: seq<Choice>, k: Kind)
    ensures SentProse(a + b, k) == SentProse(a, k) + SentProse(b, k) && Marks(a + b) == Marks(a) + Marks(b)
  {
    if b == [] {
      assert a + b == a;
    } else {
      var n := |b| - 1;
      assert (a + b)[..|a + b| - 1] == a + b[..n] && (a + b)[|a + b| - 1] == b[n];
      SentAppend(a, b[..n], k);
      Assoc(SentProse(a, k), SentProse(b[..n], k), Texts(if k == Text then b[n].content else b[n].reasoning));
      Assoc(Marks(a), Marks(b[..n]), ChoiceMarks(b[n]));
    }
  }

  /** The items of a stream say what its decoded chunks say. */
  lemma {:induction false} StreamSays(frames: seq<seq<byte>>, decode: seq<byte> -> FrameKind, k: Kind)
    ensures var items, chs := StreamItems(frames, decode), Choices(SentChunks(frames, decode));
            && (HasFailed(items) <==> Broken(frames, decode))
            && ItemProse(items, k) == SentProse(chs, k) && ItemMarks(items) == Marks(chs)
  {
    hide FrameItems, HasFailed, Broken, Choices, SentProse, Marks, ItemProse, ItemMarks;
    if frames == [] {
      NothingSays(decode, k);
    } else {
      var n := |frames| - 1;
      var a, b := SentChunks(frames[..n], decode), ChunksOf(decode(frames[n]));
      StreamSays(frames[..n], decode, k);
      FrameSays(frames[n], decode, k);
      BrokenSnoc(frames, decode);
      FailedAppend(StreamItems(frames[..n], decode), FrameItems(frames[n], decode));
      ItemsAppend(StreamItems(frames[..n], decode), FrameItems(frames[n], decode), k);
      ChoicesAppend(a, b);
      SentAppend(Choices(a), Choices(b), k);
      assert a + [] == a;
    }
  }

  lemma {:induction false} NothingSays(decode: seq<byte> -> FrameKind, k: Kind)
    ensures !HasFailed([]) && !Broken([], decode) && Choices([]) == []
    ensures ItemProse([], k) == SentProse([], k) == "" && ItemMarks([]) == Marks([]) == []
  {
  }

  // ---- Content

  /**
   Content simulation. For every stream read to the end there is an assignment of the client's blocks to tool indices
   under which the client's text and thinking are the text and the reasoning of the decoded choices before any breaking
   frame, joined in order, and for every index the blocks assigned to it read as exactly that index's calls, argument
   fragments joined in order.
   */
  lemma ContentSimulation(invented: string, frames: seq<seq<byte>>, decode: seq<byte> -> FrameKind)
      returns (c: Client, owner: seq<int>)
    ensures var r := Run(Initial(invented), StreamItems(frames, decode));
            var chs := Choices(SentChunks(frames, decode));
            && AcceptAll(Fresh, r.evs + Terminated(r.st).evs) == Some(c)
            && |owner| == |c.blocks|
            && (forall k :: ReadProse(c.blocks, k) == SentProse(chs, k))
            && (forall i :: var cs := ReadCalls(c.blocks, owner, i); SentCalls(Marks(chs), i, CallIds(cs)).calls == cs)
  {
    hide Step, Accept, ReadProse, ItemProse, SentProse, ReadCalls, ItemCalls, SentCalls, Choices, SentChunks, Marks, StreamItems;
    var items, chs := StreamItems(frames, decode), Choices(SentChunks(frames, decode));
    StreamWellBegun(frames, decode);
    var d: Client;
    d, owner := RunFaithful(invented, items);
    var r := Run(Initial(invented), items);
    c := TerminationAccepted(r.st, d);
    AcceptAppend(Fresh, r.evs, Terminated(r.st).evs);
    forall k ensures ReadProse(c.blocks, k) == SentProse(chs, k) {
      SameProse(d.blocks, c.blocks, k);
      StreamSays(frames, decode, k);
    }
    forall i ensures var cs := ReadCalls(c.blocks, owner, i); SentCalls(Marks(chs), i, CallIds(cs)).calls == cs {
      assert IndexFaithful(r.st, d.blocks, items, owner, i);
      SameReading(d.blocks, c.blocks, owner, i, Text);
      ItemCallsAreSent(items, i, CallIds(ReadCalls(c.blocks, owner, i)));
      StreamSays(frames, decode, Text);
    }
  }

  // ---- The names of the tool blocks

  /** The block is a call under the delta's name and id, or an id made from the block's number. */
  predicate NamedBy(e: Event, d: ToolDelta) {
    e.BlockStart? && e.block == ToolUse(if d.id != "" then d.id else "toolu_" + Itoa(e.index), d.name)
  }

  predicate OpensCall(e: Event) { e.BlockStart? && e.block.ToolUse? }

  lemma StepNames(st: State, it: Item, e: Event)
    requires e in Step(st, it).evs && OpensCall(e)
    ensures !st.failed && it.Tool? && NamedBy(e, it.d)
  {
    hide Itoa, Lookup, Without;
    NoStarts(st.tools);
    hide Stops;
  }

  lemma {:induction false} NoStarts(tools: seq<ToolBlock>)
    ensures forall e :: e in Stops(tools) ==> e.BlockStop?
  {
    if tools != [] { NoStarts(tools[..|tools| - 1]); }
  }

  lemma {:induction false} RunNames(invented: string, items: seq<Item>, e: Event) returns (d: ToolDelta)
    requires WellBegun(items) && e in Run(Initial(invented), items).evs && OpensCall(e)
    ensures Delta(d) in ItemMarks(items) && NamedBy(e, d)
  {
    hide Step, NamedBy, HasFailed;
    var n := |items| - 1;
    var p := Run(Initial(invented), items[..n]);
    WellBegunInit(items);
    var c, owner := RunFaithful(invented, items[..n]);
    if e in p.evs {
      d := RunNames(invented, items[..n], e);
    } else {
      StepNames(p.st, items[n], e);
      d := items[n].d;
      assert ItemMark(items[n]) == [Delta(d)];
    }
  }

  /** Every tool block was opened under the name and the id of some delta sent, or under an id made from its number. */
  lemma BlocksNamed(invented: string, frames: seq<seq<byte>>, decode: seq<byte> -> FrameKind, e: Event) returns (d: ToolDelta)
    requires e in Run(Initial(invented), StreamItems(frames, decode)).evs && OpensCall(e)
    ensures Delta(d) in Marks(Choices(SentChunks(frames, decode))) && NamedBy(e, d)
  {
    hide Run, StreamItems, Marks, Choices, SentChunks, NamedBy, ItemMarks;
    StreamWellBegun(frames, decode);
    d := RunNames(invented, StreamItems(frames, decode), e);
    StreamSays(frames, decode, Text);
  }
}
