/** What Responses input items become, item by item and part by part, in their own fields. */
module ResponsesItems {
  import opened Wrappers
  import opened ResponsesRequest
  import B = MessagesBlocks
  import M = MessagesRequest
  import Bytes

  // ---- Content parts

  predicate TextKind(kind: string) {
    kind == "input_text" || kind == "output_text" || kind == "text" || kind == "refusal" || kind == "summary_text"
  }

  /** The part says something: a text or a refusal that is not empty, or an image by its url. */
  predicate PartSays(p: InputPart) {
    (TextKind(p.kind) && (p.text != "" || p.refusal != "")) || (p.kind == "input_image" && p.imageUrl != "")
  }

  predicate RendersPart(p: InputPart, c: Part) {
    && PartSays(p)
    && (TextKind(p.kind) ==> c == M.TextPart(if p.text != "" then p.text else p.refusal))
    && (p.kind == "input_image" ==> c == M.ImagePart(p.imageUrl))
  }

  /** The chat parts are those of the parts that say something, in order: the j-th renders the part at `at[j]`. */
  predicate RenderParts(ps: seq<InputPart>, cs: seq<Part>, at: seq<int>) {
    && |cs| == |at| && B.Rising(at, |ps|)
    && (forall j :: 0 <= j < |at| ==> RendersPart(ps[at[j]], cs[j]))
    && (forall i :: 0 <= i < |ps| ==> (i in at <==> PartSays(ps[i])))
  }

  lemma PartRenders(p: InputPart)
    ensures if PartSays(p) then |ChatPart(p)| == 1 && RendersPart(p, ChatPart(p)[0]) else ChatPart(p) == []
  {
  }

  lemma PartSnoc(ps: seq<InputPart>, cs: seq<Part>, at: seq<int>, p: InputPart, c: Part)
    requires RenderParts(ps, cs, at) && RendersPart(p, c) && PartSays(p)
    ensures RenderParts(ps + [p], cs + [c], at + [|ps|])
  {
    hide RendersPart, PartSays;
    var qs, ds, places := ps + [p], cs + [c], at + [|ps|];
    forall j | 0 <= j < |places| ensures RendersPart(qs[places[j]], ds[j]) {
      if j < |at| { assert qs[at[j]] == ps[at[j]]; }
    }
    forall i | 0 <= i < |qs| ensures i in places <==> PartSays(qs[i]) {
      assert i in places <==> i in at || i == |ps|;
    }
  }

  lemma PartSkip(ps: seq<InputPart>, cs: seq<Part>, at: seq<int>, p: InputPart)
    requires RenderParts(ps, cs, at) && !PartSays(p)
    ensures RenderParts(ps + [p], cs, at)
  {
    hide RendersPart, PartSays;
    var qs := ps + [p];
    forall j | 0 <= j < |at| ensures RendersPart(qs[at[j]], cs[j]) {
      assert qs[at[j]] == ps[at[j]];
    }
    assert |ps| !in at;
  }

  lemma {:induction false} PartsRender(ps: seq<InputPart>) returns (at: seq<int>)
    ensures RenderParts(ps, ChatParts(ps), at)
  {
    if ps == [] {
      at := [];
    } else {
      hide ChatPart, RendersPart, PartSays, RenderParts;
      var n := |ps| - 1;
      at := PartsRender(ps[..n]);
      PartRenders(ps[n]);
      assert ps[..n] + [ps[n]] == ps;
      if PartSays(ps[n]) {
        var c := ChatPart(ps[n])[0];
        assert ChatPart(ps[n]) == [c];
        PartSnoc(ps[..n], ChatParts(ps[..n]), at, ps[n], c);
        at := at + [n];
      } else {
        assert ChatParts(ps[..n]) + [] == ChatParts(ps[..n]);
        PartSkip(ps[..n], ChatParts(ps[..n]), at, ps[n]);
      }
    }
  }

  /** The chat parts say what the content says. */
  ghost predicate SaysContent(c: Content, cs: seq<Part>) {
    match c
    case Str(s) => cs == if s == "" then [] else [M.TextPart(s)]
    case Parts(ps) => exists at :: RenderParts(ps, cs, at)
    case _ => cs == []
  }

  lemma SaidRenders(c: Content)
    ensures SaysContent(c, Said(c))
  {
    if c.Parts? {
      hide RenderParts;
      var at := PartsRender(c.parts);
    }
  }

  // ---- Tool output

  predicate OutputKind(kind: string) { kind == "output_text" || kind == "input_text" || kind == "text" }

  /** The text parts run together, first to last. */
  function RunTogether(ps: seq<InputPart>): string {
    if ps == [] then "" else (if OutputKind(ps[0].kind) then ps[0].text else "") + RunTogether(ps[1..])
  }

  lemma {:induction false} RunTogetherSnoc(ps: seq<InputPart>)
    requires ps != []
    ensures RunTogether(ps) == RunTogether(ps[..|ps| - 1]) + if OutputKind(ps[|ps| - 1].kind) then ps[|ps| - 1].text else ""
  {
    hide OutputKind;
    var n := |ps| - 1;
    if n > 0 {
      RunTogetherSnoc(ps[1..]);
      assert ps[1..][..n - 1] == ps[..n][1..] && ps[..n][0] == ps[0] && ps[1..][n - 1] == ps[n];
      Bytes.Assoc(if OutputKind(ps[0].kind) then ps[0].text else "", RunTogether(ps[..n][1..]),
                  if OutputKind(ps[n].kind) then ps[n].text else "");
    } else {
      assert ps[..0] == [] && ps[1..] == [];
    }
  }

  lemma {:induction false} OutputTextsAre(ps: seq<InputPart>)
    ensures OutputTexts(ps) == RunTogether(ps)
  {
    if ps != [] {
      OutputTextsAre(ps[..|ps| - 1]);
      RunTogetherSnoc(ps);
    }
  }

  // ---- Items

  /** The item has a turn of its own: a call, an output, or a message in a role that is not folded into the system text. */
  predicate HasTurn(it: Item) {
    || it.kind == "function_call" || it.kind == "function_call_output"
    || (it.kind !in HOSTED && (it.role != "" || it.kind == "") && it.role != "system" && it.role != "developer")
  }

  ghost predicate RendersItem(it: Item, t: Turn, hash: string -> string) {
    if it.kind == "function_call" then
      t == Call(M.ToolCall(if it.callId != "" then it.callId else "call_" + hash(it.name), it.name,
                           if it.arguments != "" then it.arguments else "{}"))
    else if it.kind == "function_call_output" then
      t == Message(M.Tool(it.callId, match it.output
                                     case NoOutput => ""
                                     case OutStr(s) => s
                                     case OutParts(ps) => RunTogether(ps)
                                     case Raw(raw) => raw))
    else
      && t.Message? && (t.message.Plain? || t.message.Rich?) && (t.message.Rich? ==> t.message.parts != [])
      && t.message.role == (if it.role == "" then "user" else it.role)
      && SaysContent(it.content, MessageParts(t.message))
  }

  lemma ItemRenders(it: Item, hash: string -> string)
    ensures if HasTurn(it) then |TurnOf(it, hash)| == 1 && RendersItem(it, TurnOf(it, hash)[0], hash) else TurnOf(it, hash) == []
  {
    hide SaysContent, Said, OutputTexts, RunTogether, MessageOf, MessageParts;
    if it.output.OutParts? { OutputTextsAre(it.output.parts); }
    TurnSaysAll(it);
    SaidRenders(it.content);
    MessageShape(it);
  }

  lemma MessageShape(it: Item)
    ensures var m := MessageOf(it); (m.Plain? || m.Rich?) && (m.Rich? ==> m.parts != [])
  {
  }

  /** The turns are those of the items that have one, in order: the j-th renders the item at `at[j]`. */
  ghost predicate RenderItems(items: seq<Item>, ts: seq<Turn>, at: seq<int>, hash: string -> string) {
    && |ts| == |at| && B.Rising(at, |items|)
    && (forall j :: 0 <= j < |at| ==> RendersItem(items[at[j]], ts[j], hash))
    && (forall i :: 0 <= i < |items| ==> (i in at <==> HasTurn(items[i])))
  }

  lemma ItemSnoc(items: seq<Item>, ts: seq<Turn>, at: seq<int>, it: Item, t: Turn, hash: string -> string)
    requires RenderItems(items, ts, at, hash) && RendersItem(it, t, hash) && HasTurn(it)
    ensures RenderItems(items + [it], ts + [t], at + [|items|], hash)
  {
    hide RendersItem, HasTurn;
    var js, us, places := items + [it], ts + [t], at + [|items|];
    forall j | 0 <= j < |places| ensures RendersItem(js[places[j]], us[j], hash) {
      if j < |at| { assert js[at[j]] == items[at[j]]; }
    }
    forall i | 0 <= i < |js| ensures i in places <==> HasTurn(js[i]) {
      assert i in places <==> i in at || i == |items|;
    }
  }

  lemma ItemSkip(items: seq<Item>, ts: seq<Turn>, at: seq<int>, it: Item, hash: string -> string)
    requires RenderItems(items, ts, at, hash) && !HasTurn(it)
    ensures RenderItems(items + [it], ts, at, hash)
  {
    hide RendersItem, HasTurn;
    var js := items + [it];
    forall j | 0 <= j < |at| ensures RendersItem(js[at[j]], ts[j], hash) {
      assert js[at[j]] == items[at[j]];
    }
    assert |items| !in at;
  }

  lemma {:induction false} TurnsRender(items: seq<Item>, hash: string -> string) returns (at: seq<int>)
    ensures RenderItems(items, Turns(items, hash), at, hash)
  {
    if items == [] {
      at := [];
    } else {
      hide TurnOf, RendersItem, HasTurn, RenderItems;
      var n := |items| - 1;
      at := TurnsRender(items[..n], hash);
      ItemRenders(items[n], hash);
      assert items[..n] + [items[n]] == items;
      if HasTurn(items[n]) {
        var t := TurnOf(items[n], hash)[0];
        assert TurnOf(items[n], hash) == [t];
        ItemSnoc(items[..n], Turns(items[..n], hash), at, items[n], t, hash);
        at := at + [n];
      } else {
        assert Turns(items[..n], hash) + [] == Turns(items[..n], hash);
        ItemSkip(items[..n], Turns(items[..n], hash), at, items[n], hash);
      }
    }
  }

  /**
   What the messages behind the system message say: a chat backend reads out of them one turn for every item that has
   one and nothing else, in the items' order, each rendering its item in the item's own fields.
   */
  lemma ConversationRenders(body: seq<ChatMessage>, items: seq<Item>, hash: string -> string) returns (at: seq<int>)
    requires Read(body) == Turns(items, hash)
    ensures RenderItems(items, Read(body), at, hash)
  {
    hide RenderItems, Read, Turns;
    at := TurnsRender(items, hash);
  }

  /** The system message is its texts, one below the other. */
  lemma {:induction false} LeadingIs(sys: seq<string>)
    ensures Leading(sys) == if sys == [] then [] else [M.Plain("system", B.Lines(sys))]
  {
    B.JoinIs(sys);
  }

  // ---- Refusals and notes

  /** A part without a place in a chat message, and one without a place in a tool's answer. */
  predicate Unplaced(p: InputPart) { !TextKind(p.kind) && p.kind != "file" && !(p.kind == "input_image" && p.imageUrl != "") }

  ghost predicate ContentRefused(c: Content, dropParams: bool) {
    || c.Malformed?
    || (c.Parts? && exists i :: 0 <= i < |c.parts| && (c.parts[i].kind == "file" || (!dropParams && Unplaced(c.parts[i]))))
  }

  ghost predicate ItemRefused(it: Item, dropParams: bool) {
    if it.kind == "function_call" then false
    else if it.kind == "function_call_output" then
      !dropParams && it.output.OutParts? && exists i :: 0 <= i < |it.output.parts| && !OutputKind(it.output.parts[i].kind)
    else if it.kind in HOSTED || (it.role == "" && it.kind != "") then !dropParams
    else ContentRefused(it.content, dropParams)
  }

  lemma {:induction false} PartsRefused(ps: seq<InputPart>, dropParams: bool)
    ensures PartsError(ps, dropParams).Some? <==>
              exists i :: 0 <= i < |ps| && (ps[i].kind == "file" || (!dropParams && Unplaced(ps[i])))
  {
    if ps != [] {
      PartsRefused(ps[1..], dropParams);
      if i :| 0 <= i < |ps| && (ps[i].kind == "file" || (!dropParams && Unplaced(ps[i]))) {
        if i > 0 { assert ps[1..][i - 1] == ps[i]; }
      }
      if i :| 0 <= i < |ps| - 1 && (ps[1..][i].kind == "file" || (!dropParams && Unplaced(ps[1..][i]))) {
        assert ps[i + 1] == ps[1..][i];
      }
    }
  }

  lemma {:induction false} OutputDropped(ps: seq<InputPart>)
    ensures OutputPartDrops(ps) != [] <==> exists i :: 0 <= i < |ps| && !OutputKind(ps[i].kind)
  {
    if ps != [] {
      var n := |ps| - 1;
      OutputDropped(ps[..n]);
      if i :| 0 <= i < |ps| && !OutputKind(ps[i].kind) {
        if i < n { assert ps[..n][i] == ps[i]; }
      }
      if i :| 0 <= i < n && !OutputKind(ps[..n][i].kind) { assert ps[i] == ps[..n][i]; }
    }
  }

  /** An item stops the conversion if and only if it holds something without a place that may not be dropped. */
  lemma ItemRefusedExactly(it: Item, dropParams: bool)
    ensures ItemError(it, dropParams).Some? <==> ItemRefused(it, dropParams)
  {
    hide PartsError, OutputPartDrops, Unplaced, OutputKind;
    if it.output.OutParts? { OutputDropped(it.output.parts); }
    if it.content.Parts? { PartsRefused(it.content.parts, dropParams); }
  }

  /** What the notes of an accepted item say. */
  ghost predicate ItemLoses(it: Item, note: string) {
    if it.kind == "function_call" then false
    else if it.kind == "function_call_output" then
      it.output.OutParts? && exists i :: 0 <= i < |it.output.parts| && LosesOutput(it.output.parts[i], note)
    else if it.kind in HOSTED || (it.role == "" && it.kind != "") then note == "input_item=dropped:" + it.kind
    else it.content.Parts? && exists i :: 0 <= i < |it.content.parts| && LosesPart(it.content.parts[i], note)
  }

  predicate LosesPart(p: InputPart, note: string) {
    Unplaced(p) && note == (if p.kind == "" then "content_part" else p.kind) + "=dropped"
  }

  predicate LosesOutput(p: InputPart, note: string) {
    !OutputKind(p.kind) && note == (if p.kind == "" then "tool_output_part" else p.kind) + "=dropped"
  }

  lemma OneDropped(p: InputPart, note: string)
    ensures note in M.Noted(DroppedPart(p)) <==> LosesPart(p, note)
    ensures note in M.Noted(OutputDrop(p)) <==> LosesOutput(p, note)
  {
    hide M.Noted;
    M.NothingNoted();
    M.NotedOne("input_image");
    M.NotedOne("content_part");
    M.NotedOne("tool_output_part");
    M.NotedOne(p.kind);
  }

  lemma {:induction false} PartNotes(ps: seq<InputPart>, note: string)
    ensures note in M.Noted(DroppedParts(ps)) <==> exists i :: 0 <= i < |ps| && LosesPart(ps[i], note)
    ensures note in M.Noted(OutputPartDrops(ps)) <==> exists i :: 0 <= i < |ps| && LosesOutput(ps[i], note)
  {
    hide M.Noted, DroppedPart, OutputDrop, LosesPart, LosesOutput;
    if ps == [] {
      M.NothingNoted();
    } else {
      var n := |ps| - 1;
      PartNotes(ps[..n], note);
      OneDropped(ps[n], note);
      M.NotedAppend(DroppedParts(ps[..n]), DroppedPart(ps[n]));
      M.NotedAppend(OutputPartDrops(ps[..n]), OutputDrop(ps[n]));
      if i :| 0 <= i < |ps| && LosesPart(ps[i], note) { if i < n { assert ps[..n][i] == ps[i]; } }
      if i :| 0 <= i < n && LosesPart(ps[..n][i], note) { assert ps[i] == ps[..n][i]; }
      if i :| 0 <= i < |ps| && LosesOutput(ps[i], note) { if i < n { assert ps[..n][i] == ps[i]; } }
      if i :| 0 <= i < n && LosesOutput(ps[..n][i], note) { assert ps[i] == ps[..n][i]; }
    }
  }

  lemma ItemNoted(it: Item, note: string)
    ensures note in ItemNotes(it) <==> ItemLoses(it, note)
  {
    hide M.Noted, DroppedParts, OutputPartDrops, LosesPart, LosesOutput;
    M.NothingNoted();
    if it.output.OutParts? { PartNotes(it.output.parts, note); }
    if it.content.Parts? { PartNotes(it.content.parts, note); }
  }

  /** The notes of an accepted list name exactly what its items lose. */
  lemma {:induction false} NotedExactly(items: seq<Item>, note: string)
    ensures note in AllNotes(items) <==> exists i :: 0 <= i < |items| && ItemLoses(items[i], note)
  {
    hide ItemNotes, ItemLoses;
    if items != [] {
      var n := |items| - 1;
      NotedExactly(items[..n], note);
      ItemNoted(items[n], note);
      if i :| 0 <= i < |items| && ItemLoses(items[i], note) { if i < n { assert items[..n][i] == items[i]; } }
      if i :| 0 <= i < n && ItemLoses(items[..n][i], note) { assert items[i] == items[..n][i]; }
    }
  }
}
