/** What an Anthropic turn becomes, block by block, in the blocks' own fields. */
module MessagesBlocks {
  import opened Wrappers
  import opened MessagesRequest
  import Bytes

  // ---- One block

  /** The texts of the nested text blocks, first to last. */
  function TextLines(ns: seq<Nested>): seq<string> {
    if ns == [] then [] else (if ns[0].kind == "text" then [ns[0].text] else []) + TextLines(ns[1..])
  }

  /** Lines with a line feed between each two. */
  function Lines(parts: seq<string>): string {
    if parts == [] then "" else if |parts| == 1 then parts[0] else parts[0] + "\n" + Lines(parts[1..])
  }

  /** The block has a unit: every kind the chat side knows, an image only with a usable source. */
  predicate Represented(b: Block) {
    || b.kind == "text" || b.kind == "tool_use" || b.kind == "tool_result"
    || (b.kind == "image" && b.source.Some?
        && ((b.source.value.kind == "base64" && b.source.value.data != "")
            || (b.source.value.kind == "url" && b.source.value.url != "")))
  }

  /** The unit carries what the block carries. */
  predicate Renders(b: Block, u: Unit) {
    && Represented(b)
    && (b.kind == "text" ==> u == Said(TextPart(b.text)))
    && (b.kind == "image" ==>
          var s := b.source.value;
          u == Said(ImagePart(if s.kind == "base64" then "data:" + s.mediaType + ";base64," + s.data else s.url)))
    && (b.kind == "tool_use" ==>
          u == Called(ToolCall(b.id, b.name, if b.input == None || b.input.value in {"", "null"} then "{}" else b.input.value)))
    && (b.kind == "tool_result" ==>
          u == Answered(b.toolUseId, match b.content
                                     case Str(s) => s
                                     case List(ns) => Lines(TextLines(ns))
                                     case _ => ""))
  }

  lemma {:induction false} TextLinesSnoc(ns: seq<Nested>)
    requires ns != []
    ensures TextLines(ns) == TextLines(ns[..|ns| - 1]) + if ns[|ns| - 1].kind == "text" then [ns[|ns| - 1].text] else []
  {
    if |ns| > 1 {
      TextLinesSnoc(ns[1..]);
      assert ns[1..][..|ns| - 2] == ns[..|ns| - 1][1..] && ns[..|ns| - 1][0] == ns[0];
      var last := if ns[|ns| - 1].kind == "text" then [ns[|ns| - 1].text] else [];
      Bytes.Assoc(if ns[0].kind == "text" then [ns[0].text] else [], TextLines(ns[..|ns| - 1][1..]), last);
    } else {
      assert ns[..0] == [] && ns[1..] == [];
    }
  }

  lemma {:induction false} NestedTextsAre(ns: seq<Nested>)
    ensures NestedTexts(ns) == TextLines(ns)
  {
    if ns != [] {
      NestedTextsAre(ns[..|ns| - 1]);
      TextLinesSnoc(ns);
    }
  }

  lemma {:induction false} LinesSnoc(parts: seq<string>)
    requires |parts| > 1
    ensures Lines(parts) == Lines(parts[..|parts| - 1]) + "\n" + parts[|parts| - 1]
  {
    var n := |parts| - 1;
    if |parts| == 2 {
      assert parts[1..] == [parts[1]] && parts[..1] == [parts[0]];
    } else {
      LinesSnoc(parts[1..]);
      assert parts[1..][..n - 1] == parts[..n][1..] && parts[..n][0] == parts[0];
      Bytes.Assoc(parts[0] + "\n", Lines(parts[..n][1..]), "\n" + parts[n]);
      Bytes.Assoc(Lines(parts[..n][1..]), "\n", parts[n]);
      Bytes.Assoc(parts[0] + "\n" + Lines(parts[..n][1..]), "\n", parts[n]);
    }
  }

  lemma {:induction false} JoinIs(parts: seq<string>)
    ensures Join(parts) == Lines(parts)
  {
    if |parts| > 1 {
      JoinIs(parts[..|parts| - 1]);
      LinesSnoc(parts);
    }
  }

  /** A block's unit renders it; a block that is not represented has none. */
  lemma UnitRenders(b: Block)
    ensures if Represented(b) then |UnitOf(b)| == 1 && Renders(b, UnitOf(b)[0]) else UnitOf(b) == []
  {
    hide Join, Lines, NestedTexts, TextLines;
    if b.content.List? {
      NestedTextsAre(b.content.blocks);
      JoinIs(NestedTexts(b.content.blocks));
    }
  }

  // ---- One turn

  predicate Rising(at: seq<int>, n: nat) {
    && (forall j :: 0 <= j < |at| ==> 0 <= at[j] < n)
    && forall j, k :: 0 <= j < k < |at| ==> at[j] < at[k]
  }

  /** The units are those of the represented blocks, in order: the j-th renders the block at `at[j]`. */
  predicate RenderAll(bs: seq<Block>, us: seq<Unit>, at: seq<int>) {
    && |us| == |at| && Rising(at, |bs|)
    && (forall j :: 0 <= j < |at| ==> Renders(bs[at[j]], us[j]))
    && (forall i :: 0 <= i < |bs| ==> (i in at <==> Represented(bs[i])))
  }

  lemma RenderSnoc(bs: seq<Block>, us: seq<Unit>, at: seq<int>, b: Block, u: Unit)
    requires RenderAll(bs, us, at) && Renders(b, u) && Represented(b)
    ensures RenderAll(bs + [b], us + [u], at + [|bs|])
  {
    hide Renders, Represented;
    var cs, vs, places := bs + [b], us + [u], at + [|bs|];
    forall j | 0 <= j < |places| ensures Renders(cs[places[j]], vs[j]) {
      if j < |at| { assert cs[at[j]] == bs[at[j]]; }
    }
    forall i | 0 <= i < |cs| ensures i in places <==> Represented(cs[i]) {
      assert i in places <==> i in at || i == |bs|;
    }
  }

  lemma RenderSkip(bs: seq<Block>, us: seq<Unit>, at: seq<int>, b: Block)
    requires RenderAll(bs, us, at) && !Represented(b)
    ensures RenderAll(bs + [b], us, at)
  {
    hide Renders, Represented;
    var cs := bs + [b];
    forall j | 0 <= j < |at| ensures Renders(cs[at[j]], us[j]) {
      assert cs[at[j]] == bs[at[j]];
    }
    assert |bs| !in at;
  }

  lemma {:induction false} UnitsRender(bs: seq<Block>) returns (at: seq<int>)
    ensures RenderAll(bs, Units(bs), at)
  {
    if bs == [] {
      at := [];
    } else {
      hide UnitOf, Renders, Represented, RenderAll;
      var n := |bs| - 1;
      at := UnitsRender(bs[..n]);
      UnitRenders(bs[n]);
      assert bs[..n] + [bs[n]] == bs;
      if Represented(bs[n]) {
        var u := UnitOf(bs[n])[0];
        assert UnitOf(bs[n]) == [u];
        RenderSnoc(bs[..n], Units(bs[..n]), at, bs[n], u);
        at := at + [n];
      } else {
        assert Units(bs[..n]) + [] == Units(bs[..n]);
        RenderSkip(bs[..n], Units(bs[..n]), at, bs[n]);
      }
    }
  }

  /**
   What a turn says: a chat backend reads out of its messages one unit for every represented block and nothing else,
   each unit rendering its block in the block's own fields, the units of each kind in the order of the blocks. A text, or
   no block at all, is one text.
   */
  lemma TurnSaysBlocks(m: Message) returns (us: seq<Unit>, at: seq<int>)
    requires !m.content.Malformed?
    ensures multiset(ReadAll(Converted(m))) == multiset(us)
    ensures forall k :: Only(ReadAll(Converted(m)), k) == Only(us, k)
    ensures us == MessageUnits(m)
    ensures m.content.Text? ==> us == [Said(TextPart(m.content.text))]
    ensures m.content.Blocks? && m.content.blocks == [] ==> us == [Said(TextPart(""))]
    ensures m.content.Blocks? && m.content.blocks != [] ==> RenderAll(m.content.blocks, us, at)
  {
    hide Only, ReadAll, Converted, Units, RenderAll;
    us, at := MessageUnits(m), [];
    MessageConserved(m);
    if m.content.Blocks? && m.content.blocks != [] {
      at := UnitsRender(m.content.blocks);
    }
  }

  // ---- Refusals and notes

  /** Every part of the block has a place on the chat side. */
  predicate Whole(b: Block) {
    Represented(b)
    && (b.kind == "tool_result" && b.content.List? ==> AllText(b.content.blocks))
  }

  /** What the note of a dropped block, or of a dropped block nested in a tool result, says. */
  predicate Loses(b: Block, note: string) {
    || (!Represented(b) && note == (if b.kind == "" then "content_block" else b.kind) + "=dropped")
    || (b.kind == "tool_result" && b.content.List? && LosesNested(b.content.blocks, note))
  }

  predicate LosesNested(ns: seq<Nested>, note: string) {
    exists i :: 0 <= i < |ns| && ns[i].kind != "text" && note == "tool_result." + ns[i].kind + "=dropped"
  }

  lemma {:induction false} NotedIs(fields: seq<string>, note: string)
    ensures note in Noted(fields) <==> exists i :: 0 <= i < |fields| && note == fields[i] + "=dropped"
  {
    if fields != [] {
      var n := |fields| - 1;
      NotedIs(fields[..n], note);
      if i :| 0 <= i < |fields| && note == fields[i] + "=dropped" {
        if i < n { assert fields[..n][i] == fields[i]; }
      }
      if i :| 0 <= i < n && note == fields[..n][i] + "=dropped" { assert fields[i] == fields[..n][i]; }
    }
  }

  predicate AllText(ns: seq<Nested>) {
    forall i :: 0 <= i < |ns| ==> ns[i].kind == "text"
  }

  lemma LosesSnoc(ns: seq<Nested>, x: Nested, note: string)
    ensures LosesNested(ns + [x], note) <==>
              LosesNested(ns, note) || (x.kind != "text" && note == "tool_result." + x.kind + "=dropped")
    ensures AllText(ns + [x]) <==> AllText(ns) && x.kind == "text"
  {
    var s := ns + [x];
    assert s[|ns|] == x;
    assert forall i :: 0 <= i < |ns| ==> s[i] == ns[i];
    if LosesNested(ns, note) {
      var i :| 0 <= i < |ns| && ns[i].kind != "text" && note == "tool_result." + ns[i].kind + "=dropped";
      assert s[i].kind != "text";
    }
    if AllText(s) {
      forall i | 0 <= i < |ns| ensures ns[i].kind == "text" {
        assert s[i].kind == "text";
      }
    }
  }

  lemma {:induction false} NestedNotes(ns: seq<Nested>, note: string)
    ensures note in Noted(NestedDrops(ns)) <==> LosesNested(ns, note)
    ensures NestedDrops(ns) == [] <==> AllText(ns)
  {
    if ns == [] {
      NothingNoted();
    } else {
      hide Noted, LosesNested, AllText;
      var n := |ns| - 1;
      NestedNotes(ns[..n], note);
      var field := "tool_result." + ns[n].kind;
      NotedAppend(NestedDrops(ns[..n]), [field]);
      NotedOne(field);
      assert NestedDrops(ns[..n]) + [] == NestedDrops(ns[..n]);
      assert ns[..n] + [ns[n]] == ns;
      LosesSnoc(ns[..n], ns[n], note);
    }
  }

  lemma BlockNotes(b: Block, note: string)
    requires !Fatal(b)
    ensures note in Noted(Drops(b)) <==> Loses(b, note)
    ensures Drops(b) == [] <==> Whole(b)
  {
    hide Noted, NestedDrops, LosesNested;
    NothingNoted();
    if b.kind == "tool_result" && b.content.List? { NestedNotes(b.content.blocks, note); }
    NotedOne("image");
    NotedOne("content_block");
    NotedOne(b.kind);
  }

  /** A block is refused if and only if it is a document or audio, or it has a part without a place and drop_params is off. */
  lemma RefusedExactly(b: Block, dropParams: bool)
    ensures Refuses(b, dropParams) <==> b.kind == "document" || b.kind == "audio" || (!dropParams && !Whole(b))
  {
    hide Drops, Whole;
    if !Fatal(b) { BlockNotes(b, ""); }
  }

  /** The notes of an accepted turn name exactly what its blocks lose. */
  lemma {:induction false} NotedExactly(bs: seq<Block>, note: string)
    requires forall i :: 0 <= i < |bs| ==> !Fatal(bs[i])
    ensures note in Noted(AllDrops(bs)) <==> exists i :: 0 <= i < |bs| && Loses(bs[i], note)
  {
    hide Noted, Drops, Loses, Fatal;
    if bs == [] {
      NothingNoted();
    } else {
      var n := |bs| - 1;
      NotedExactly(bs[..n], note);
      NotedAppend(AllDrops(bs[..n]), Drops(bs[n]));
      BlockNotes(bs[n], note);
      if i :| 0 <= i < n && Loses(bs[..n][i], note) { assert bs[..n][i] == bs[i]; }
      if i :| 0 <= i < |bs| && Loses(bs[i], note) { if i < n { assert bs[..n][i] == bs[i]; } }
    }
  }

  /**
   Without drop_params an accepted turn loses nothing: the backend reads exactly one unit for every block, each rendering
   its block in the block's own fields, every nested block is a text, and there is no note.
   */
  lemma StrictLosesNothing(m: Message) returns (us: seq<Unit>)
    requires m.content.Blocks? && m.content.blocks != []
    requires forall i :: 0 <= i < |m.content.blocks| ==> !Refuses(m.content.blocks[i], false)
    ensures var bs := m.content.blocks;
            && |us| == |bs| && (forall i :: 0 <= i < |bs| ==> Renders(bs[i], us[i]) && Whole(bs[i]))
            && multiset(ReadAll(Converted(m))) == multiset(us)
            && (forall k :: Only(ReadAll(Converted(m)), k) == Only(us, k))
            && MessageDrops(m) == []
  {
    hide Noted, Drops, Renders, Whole, Represented, Converted, ReadAll, Only;
    var bs := m.content.blocks;
    var at: seq<int>;
    us, at := TurnSaysBlocks(m);
    forall i | 0 <= i < |bs| ensures Represented(bs[i]) && Whole(bs[i]) && Drops(bs[i]) == [] {
      WholeOne(bs[i]);
    }
    NoDrops(bs);
    AllPlaces(at, |bs|);
  }

  lemma WholeOne(b: Block)
    requires !Refuses(b, false)
    ensures Represented(b) && Whole(b) && Drops(b) == []
  {
    hide Drops, Represented;
    BlockNotes(b, "");
  }

  lemma LastIsHighest(at: seq<int>, n: nat)
    requires Rising(at, n)
    ensures at != [] ==> at[|at| - 1] < n && forall j :: 0 <= j < |at| ==> at[j] <= at[|at| - 1]
    ensures n == 0 ==> at == []
  {
    if at != [] { assert 0 <= at[0] < n; }
  }

  /** Rising places that leave none out are all places in order. */
  lemma {:induction false} AllPlaces(at: seq<int>, n: nat)
    requires Rising(at, n) && forall i :: 0 <= i < n ==> i in at
    ensures |at| == n && forall i :: 0 <= i < n ==> at[i] == i
  {
    LastIsHighest(at, n);
    if n > 0 {
      var m := |at| - 1;
      assert n - 1 in at;
      var z :| 0 <= z < |at| && at[z] == n - 1;
      forall i | 0 <= i < n - 1 ensures i in at[..m] {
        assert i in at;
        var y :| 0 <= y < |at| && at[y] == i;
        assert at[..m][y] == i;
      }
      AllPlaces(at[..m], n - 1);
    }
  }
}
