/** The content theorem of the Responses emitter: the client's items are the text, the reasoning and the calls sent. */
module ResponsesContent {
  import opened Wrappers
  import opened Bytes
  import opened ChatStream
  import opened SentContent
  import opened ResponsesSpec
  import opened ResponsesClient
  import opened ResponsesLifecycle
  import opened ResponsesTheorems

  // ---- What the items say

  predicate HasEnded(items: seq<Item>) {
    exists i :: 0 <= i < |items| && (items[i].Finish? || items[i].Fail?)
  }

  /** All prose of one kind before the stream ended, joined. */
  function ItemProse(items: seq<Item>, k: Kind): string {
    if items == [] then ""
    else
      var n := |items| - 1;
      ItemProse(items[..n], k) + if items[n].Prose? && items[n].kind == k && !HasEnded(items[..n]) then items[n].s else ""
  }

  /** The tool deltas before the stream ended. */
  function Taken(items: seq<Item>): seq<ToolDelta> {
    if items == [] then []
    else
      var n := |items| - 1;
      Taken(items[..n]) + if items[n].Tool? && !HasEnded(items[..n]) then [items[n].d] else []
  }

  /** The accumulated text and reasoning are the prose sent, kind by kind. */
  lemma {:induction false} ProseIsSent(invented: string, items: seq<Item>)
    ensures var st := Gated(Initial(invented), items).st;
            && Over(st) == HasEnded(items)
            && st.text == ItemProse(items, Text) && st.reasoning == ItemProse(items, Thinking)
  {
    if items != [] {
      var n := |items| - 1;
      ProseIsSent(invented, items[..n]);
      var p := Gated(Initial(invented), items[..n]).st;
      EndedLast(items);
      ProseStep(p, items[n]);
      assert p.text + "" == p.text && p.reasoning + "" == p.reasoning;
    }
  }

  lemma EndedLast(items: seq<Item>)
    requires items != []
    ensures var n := |items| - 1; HasEnded(items) <==> HasEnded(items[..n]) || items[n].Finish? || items[n].Fail?
  {
    var n := |items| - 1;
    if HasEnded(items[..n]) {
      var i :| 0 <= i < n && (items[..n][i].Finish? || items[..n][i].Fail?);
      assert items[i] == items[..n][i];
    }
    if HasEnded(items) && !items[n].Finish? && !items[n].Fail? {
      var i :| 0 <= i < |items| && (items[i].Finish? || items[i].Fail?);
      assert items[..n][i] == items[i];
    }
  }

  lemma ProseStep(st: State, it: Item)
    ensures var r := Step(st, it).st;
            && Over(r) == (Over(st) || it.Finish? || it.Fail?)
            && r.text == st.text + (if it.Prose? && it.kind == Text then it.s else "")
            && r.reasoning == st.reasoning + (if it.Prose? && it.kind == Thinking then it.s else "")
  {
    hide Items, ItemsDone, CallsDone, TerminalOf, Called, Numbered, Noted, NotedAll;
    CalledProse(st, it);
    assert st.text + "" == st.text && st.reasoning + "" == st.reasoning;
  }

  lemma CalledProse(st: State, it: Item)
    ensures it.Tool? ==> var r := Called(st, it.d).st;
              (r.text, r.reasoning, r.msgItem, r.rsItem) == (st.text, st.reasoning, st.msgItem, st.rsItem)
              && Over(r) == Over(st) && r.next >= st.next
  {
  }

  // ---- Tool calls

  /** The index has a call listed exactly when a delta named it, and the call holds all of its fragments. */
  predicate ArgsHeld(calls: seq<RespCall>, ds: seq<ToolDelta>, i: int) {
    var a := FirstCall(calls, i);
    if a < |calls| then Named(ds, i) && calls[a].args == SentArgs(ds, i)
    else !Named(ds, i) && SentArgs(ds, i) == ""
  }

  lemma {:induction false} ArgsSnoc(ds: seq<ToolDelta>, d: ToolDelta, i: int)
    ensures SentArgs(ds + [d], i) == SentArgs(ds, i) + if d.index == i then d.args else ""
  {
    assert (ds + [d])[..|ds|] == ds;
  }

  lemma {:induction false} ArgsAreSent(invented: string, items: seq<Item>, i: int)
    requires NeverReuses(Initial(invented), items)
    ensures ArgsHeld(Gated(Initial(invented), items).st.calls, Taken(items), i)
  {
    hide Step, Reuses, Named, SentArgs, HasEnded;
    if items == [] {
      NoArgs(i);
    } else {
      var n := |items| - 1;
      var p, ds := Gated(Initial(invented), items[..n]).st, Taken(items[..n]);
      NeverReusesInit(Initial(invented), items);
      ArgsAreSent(invented, items[..n], i);
      ProseIsSent(invented, items[..n]);
      assert ds + [] == ds && SentArgs(ds, i) + "" == SentArgs(ds, i);
      if !Over(p) {
        if items[n].Tool? {
          assert items[n] == Tool(items[n].d);
          ToolArgs(p, items[n].d, i);
          NamedSnoc(ds, items[n].d, i);
          ArgsSnoc(ds, items[n].d, i);
        } else {
          SameCalls(p, items[n]);
        }
      }
    }
  }

  lemma {:induction false} NoArgs(i: int)
    ensures !Named([], i) && SentArgs([], i) == ""
  {
  }

  lemma {:induction false} ToolArgs(st: State, d: ToolDelta, i: int)
    requires !Reuses(st, d)
    ensures var b, c := FirstCall(st.calls, i), Step(st, Tool(d)).st.calls;
            var a := FirstCall(c, i);
            && (i != d.index ==> if b < |st.calls| then a == b < |c| && c[a] == st.calls[b] else a == |c|)
            && (i == d.index ==> a < |c| && c[a].args == (if b < |st.calls| then st.calls[b].args else "") + d.args)
  {
    assert "" + d.args == d.args;
    var z := FirstCall(st.calls, d.index);
    StepCalls(st, d);
    hide Step;
    if z < |st.calls| {
      FirstCallUpdate(st.calls, z, st.calls[z].(args := st.calls[z].args + d.args), i);
    } else {
      FirstCallAppend(st.calls, NewCall(st, d).(args := d.args), i);
    }
  }

  lemma StepCalls(st: State, d: ToolDelta)
    requires !Reuses(st, d)
    ensures var z := FirstCall(st.calls, d.index);
            Step(st, Tool(d)).st.calls ==
              if z < |st.calls| then st.calls[z := st.calls[z].(args := st.calls[z].args + d.args)]
              else st.calls + [NewCall(st, d).(args := d.args)]
  {
  }

  lemma {:induction false} FirstCallAppend(calls: seq<RespCall>, c: RespCall, i: int)
    ensures var b := FirstCall(calls, i);
            FirstCall(calls + [c], i) == if b < |calls| then b else if c.idx == i then |calls| else |calls| + 1
  {
    hide FirstCall;
    var s, a, b := calls + [c], FirstCall(calls + [c], i), FirstCall(calls, i);
    assert s[|calls|] == c;
    assert forall j :: 0 <= j < |calls| ==> s[j] == calls[j];
    assert b < |calls| ==> s[b].idx == i;
  }

  lemma FirstCallUpdate(calls: seq<RespCall>, z: nat, c: RespCall, i: int)
    requires z < |calls| && c.idx == calls[z].idx
    ensures FirstCall(calls[z := c], i) == FirstCall(calls, i)
  {
    hide FirstCall;
    var s, a, b := calls[z := c], FirstCall(calls[z := c], i), FirstCall(calls, i);
    assert forall j :: 0 <= j < |calls| ==> s[j].idx == calls[j].idx;
    assert b < |calls| ==> s[b].idx == i;
    assert a < |calls| ==> calls[a].idx == i;
  }

  /** The call was opened by the first delta of its index and took that delta's name, and its id or one made from its number. */
  predicate OpenedBy(c: RespCall, ds: seq<ToolDelta>) {
    exists n :: 0 <= n < |ds| && Opens(ds[n], c) && !Named(ds[..n], c.idx)
  }

  predicate Opens(d: ToolDelta, c: RespCall) {
    d.index == c.idx && d.name == c.name && c.id == if d.id != "" then d.id else "call_" + Itoa(c.item)
  }

  lemma OpenedBySnoc(b: RespCall, c: RespCall, ds: seq<ToolDelta>, more: seq<ToolDelta>)
    requires OpenedBy(b, ds) && (b.idx, b.item, b.id, b.name) == (c.idx, c.item, c.id, c.name)
    ensures OpenedBy(c, ds + more)
  {
    hide Named;
    var n :| 0 <= n < |ds| && Opens(ds[n], b) && !Named(ds[..n], b.idx);
    assert (ds + more)[..n] == ds[..n] && (ds + more)[n] == ds[n];
  }

  lemma OpenedFirst(c: RespCall, ds: seq<ToolDelta>, d: ToolDelta)
    requires Opens(d, c) && !Named(ds, d.index)
    ensures OpenedBy(c, ds + [d])
  {
    hide Named;
    assert (ds + [d])[..|ds|] == ds && (ds + [d])[|ds|] == d;
  }

  /** Every listed call was opened by the first delta of its index. */
  lemma {:induction false} CallsOpenedBy(invented: string, items: seq<Item>, a: nat)
    requires NeverReuses(Initial(invented), items) && a < |Gated(Initial(invented), items).st.calls|
    ensures OpenedBy(Gated(Initial(invented), items).st.calls[a], Taken(items))
  {
    hide OpenedBy, Step, Reuses, HasEnded, Named, Opens;
    if items != [] {
      var n := |items| - 1;
      var p, ds, it := Gated(Initial(invented), items[..n]).st, Taken(items[..n]), items[n];
      NeverReusesInit(Initial(invented), items);
      ProseIsSent(invented, items[..n]);
      if a < |p.calls| { CallsOpenedBy(invented, items[..n], a); }
      assert ds + [] == ds;
      if !Over(p) {
        CallOrigin(p, it, a);
        var c := Step(p, it).st.calls[a];
        if a < |p.calls| {
          OpenedBySnoc(p.calls[a], c, ds, if it.Tool? then [it.d] else []);
        } else {
          ArgsAreSent(invented, items[..n], it.d.index);
          OpenedFirst(c, ds, it.d);
        }
      }
    }
  }

  /** A call after a step is an old one with its index, id and name, or was opened by the step's delta, the first of its index. */
  lemma CallOrigin(st: State, it: Item, a: nat)
    requires a < |Step(st, it).st.calls| && (it.Tool? ==> !Reuses(st, it.d))
    ensures var c := Step(st, it).st.calls[a];
            if a < |st.calls| then var b := st.calls[a]; (c.idx, c.item, c.id, c.name) == (b.idx, b.item, b.id, b.name)
            else it.Tool? && Opens(it.d, c) && FirstCall(st.calls, it.d.index) == |st.calls|
  {
    if it.Tool? { hide Itoa; StepCalls(st, it.d); } else { SameCalls(st, it); }
  }

  lemma SameCalls(st: State, it: Item)
    requires !it.Tool?
    ensures Step(st, it).st.calls == st.calls
  {
  }

  // ---- Conditions on the input alone

  /** One id per tool index is enough, and can be read off the input. */
  lemma {:induction false} OneIdNeverReuses(invented: string, items: seq<Item>)
    requires OneIdPerIndex(Taken(items))
    ensures NeverReuses(Initial(invented), items)
  {
    hide Gated, Reuses, Taken;
    if items != [] {
      var n, s0 := |items| - 1, Initial(invented);
      TakenPrefix(items);
      OneIdNeverReuses(invented, items[..n]);
      if items[n].Tool? && !Over(Gated(s0, items[..n]).st) { OneIdNotReused(invented, items); }
      forall i | 0 <= i < |items| && items[i].Tool?
        ensures var s := Gated(s0, items[..i]).st; Over(s) || !Reuses(s, items[i].d)
      {
        if i < n { assert items[..n][..i] == items[..i] && items[..n][i] == items[i]; }
      }
    }
  }

  lemma {:induction false} TakenPrefix(items: seq<Item>)
    requires items != []
    ensures Taken(items[..|items| - 1]) <= Taken(items)
    ensures OneIdPerIndex(Taken(items)) ==> OneIdPerIndex(Taken(items[..|items| - 1]))
  {
    var a, b := Taken(items[..|items| - 1]), Taken(items);
    assert forall i :: 0 <= i < |a| ==> a[i] == b[i];
  }

  lemma {:induction false} OneIdNotReused(invented: string, items: seq<Item>)
    requires items != [] && items[|items| - 1].Tool? && OneIdPerIndex(Taken(items))
    requires NeverReuses(Initial(invented), items[..|items| - 1]) && !Over(Gated(Initial(invented), items[..|items| - 1]).st)
    ensures !Reuses(Gated(Initial(invented), items[..|items| - 1]).st, items[|items| - 1].d)
  {
    hide Gated, NeverReuses, Named;
    var n := |items| - 1;
    var s, d, ds := Gated(Initial(invented), items[..n]).st, items[n].d, Taken(items[..n]);
    ProseIsSent(invented, items[..n]);
    assert Taken(items) == ds + [d];
    var a := FirstCall(s.calls, d.index);
    if a < |s.calls| {
      CallsOpenedBy(invented, items[..n], a);
      var z :| 0 <= z < |ds| && Opens(ds[z], s.calls[a]) && !Named(ds[..z], s.calls[a].idx);
      assert Taken(items)[z] == ds[z] && Taken(items)[|ds|] == d;
    }
  }

  // ---- Prose items

  /** A prose item is open exactly when it holds something. */
  predicate ProseOpen(st: State) {
    && st.next >= 0
    && (st.msgItem < 0 <==> st.text == "")
    && (st.rsItem < 0 <==> st.reasoning == "")
  }

  lemma ProseOpensStep(st: State, it: Item)
    requires ProseOpen(st)
    ensures ProseOpen(Step(st, it).st)
  {
    if it.Prose? {
      hide Numbered;
      SaidOpens(st, it.s);
    } else {
      hide Step, ProseOpen;
      OthersKeepProse(st, it);
      SameProseOpen(st, Step(st, it).st);
    }
  }

  lemma SaidOpens(st: State, s: string)
    requires ProseOpen(st)
    ensures ProseOpen(Texted(st, s).st) && ProseOpen(Reasoned(st, s).st)
  {
    assert s != "" ==> |st.text + s| > 0 && |st.reasoning + s| > 0;
  }

  lemma SameProseOpen(st: State, r: State)
    requires ProseOpen(st) && r.next >= st.next
    requires (r.text, r.reasoning, r.msgItem, r.rsItem) == (st.text, st.reasoning, st.msgItem, st.rsItem)
    ensures ProseOpen(r)
  {
  }

  lemma OthersKeepProse(st: State, it: Item)
    requires !it.Prose?
    ensures var r := Step(st, it).st;
            && (r.text, r.reasoning, r.msgItem, r.rsItem) == (st.text, st.reasoning, st.msgItem, st.rsItem)
            && r.next >= st.next
  {
    hide Items, ItemsDone, CallsDone, TerminalOf, Called, Numbered, Noted, NotedAll;
    CalledProse(st, it);
  }

  lemma {:induction false} ProseOpens(invented: string, items: seq<Item>)
    ensures ProseOpen(Gated(Initial(invented), items).st)
  {
    if items != [] {
      hide Step, ProseOpen;
      ProseOpens(invented, items[..|items| - 1]);
      ProseOpensStep(Gated(Initial(invented), items[..|items| - 1]).st, items[|items| - 1]);
    }
  }

  /** One value, unless there is nothing to say. */
  function TextItem(s: string): seq<ItemValue> {
    if s == "" then [] else [MessageItem(s)]
  }

  function ThoughtItem(s: string): seq<ItemValue> {
    if s == "" then [] else [ReasoningItem(s)]
  }

  // ---- From items to choices

  lemma EndedAppend(a: seq<Item>, b: seq<Item>)
    ensures HasEnded(a + b) <==> HasEnded(a) || HasEnded(b)
  {
    var s := a + b;
    if HasEnded(a) {
      var i :| 0 <= i < |a| && (a[i].Finish? || a[i].Fail?);
      assert s[i] == a[i];
    }
    if HasEnded(b) {
      var i :| 0 <= i < |b| && (b[i].Finish? || b[i].Fail?);
      assert s[|a| + i] == b[i];
    }
    if HasEnded(s) {
      var i :| 0 <= i < |s| && (s[i].Finish? || s[i].Fail?);
      if i < |a| { assert a[i] == s[i]; } else { assert b[i - |a|] == s[i]; }
    }
  }

  lemma {:induction false} ItemsAppend(a: seq<Item>, b: seq<Item>, k: Kind)
    ensures ItemProse(a + b, k) == ItemProse(a, k) + if HasEnded(a) then "" else ItemProse(b, k)
    ensures Taken(a + b) == Taken(a) + if HasEnded(a) then [] else Taken(b)
  {
    hide HasEnded;
    if b == [] {
      assert a + b == a;
    } else {
      var n := |b| - 1;
      assert (a + b)[..|a + b| - 1] == a + b[..n] && (a + b)[|a + b| - 1] == b[n];
      ItemsAppend(a, b[..n], k);
      EndedAppend(a, b[..n]);
      if !HasEnded(a) {
        Assoc(ItemProse(a, k), ItemProse(b[..n], k), if b[n].Prose? && b[n].kind == k && !HasEnded(b[..n]) then b[n].s else "");
        Assoc(Taken(a), Taken(b[..n]), if b[n].Tool? && !HasEnded(b[..n]) then [b[n].d] else []);
      }
    }
  }

  /** A list that does not end the stream, and what follows it. */
  lemma {:induction false} BothSay(a: seq<Item>, b: seq<Item>, k: Kind)
    requires !HasEnded(a)
    ensures HasEnded(a + b) == HasEnded(b)
    ensures ItemProse(a + b, k) == ItemProse(a, k) + ItemProse(b, k) && Taken(a + b) == Taken(a) + Taken(b)
  {
    EndedAppend(a, b);
    ItemsAppend(a, b, k);
  }

  lemma {:induction false} OneSays(it: Item, k: Kind)
    ensures HasEnded([it]) <==> it.Finish? || it.Fail?
    ensures ItemProse([it], k) == if it.Prose? && it.kind == k then it.s else ""
    ensures Taken([it]) == if it.Tool? then [it.d] else []
  {
    NothingSays(k);
    assert [it][..0] == [];
    assert [it][0] == it;
    assert it.Prose? ==> "" + it.s == it.s;
  }

  lemma {:induction false} NothingSays(k: Kind)
    ensures !HasEnded([]) && ItemProse([], k) == SentProse([], k) == "" && Taken([]) == Deltas([]) == []
    ensures Choices([]) == [] && UpToFinish([]) == [] && CutAtFinish([]) == [] && !Finishes([])
  {
  }

  lemma {:induction false} ToolItemsSay(tools: seq<ToolDelta>, k: Kind)
    ensures !HasEnded(ToolItems(tools)) && ItemProse(ToolItems(tools), k) == "" && Taken(ToolItems(tools)) == tools
  {
    if tools != [] {
      var n := |tools| - 1;
      assert ToolItems(tools)[..n] == ToolItems(tools[..n]);
      ToolItemsSay(tools[..n], k);
    }
  }

  lemma {:induction false} HeadSays(begin: Item, thought: string, text: string, k: Kind)
    requires begin.Begin?
    ensures var items := [begin, Prose(Thinking, thought), Prose(Text, text)];
            !HasEnded(items) && ItemProse(items, k) == (if k == Text then text else thought) && Taken(items) == []
  {
    hide HasEnded, ItemProse, Taken;
    var a, b, c := [begin], [Prose(Thinking, thought)], [Prose(Text, text)];
    OneSays(begin, k);
    OneSays(b[0], k);
    OneSays(c[0], k);
    BothSay(a, b, k);
    BothSay(a + b, c, k);
    assert [begin, Prose(Thinking, thought), Prose(Text, text)] == a + b + c;
  }

  lemma {:induction false} ChoiceSays(ch: Choice, k: Kind)
    ensures HasEnded(ChoiceItems(ch)) <==> ch.finish != ""
    ensures ItemProse(ChoiceItems(ch), k) == Texts(if k == Text then ch.content else ch.reasoning)
    ensures Taken(ChoiceItems(ch)) == ch.tools
  {
    hide HasEnded, Texts, ItemProse, Taken, ToolItems, Lost;
    var begin := Begin(ch.usage, Lost(ch.content) + Lost(ch.reasoning));
    var head := [begin, Prose(Thinking, Texts(ch.reasoning)), Prose(Text, Texts(ch.content))];
    var tools, end := ToolItems(ch.tools), if ch.finish != "" then [Finish(ch.finish)] else [];
    HeadSays(begin, Texts(ch.reasoning), Texts(ch.content), k);
    ToolItemsSay(ch.tools, k);
    NothingSays(k);
    if end != [] { OneSays(end[0], k); }
    BothSay(head, tools, k);
    BothSay(head + tools, end, k);
  }

  lemma {:induction false} ChoicesSay(chs: seq<Choice>, k: Kind)
    ensures var items := ChoicesItems(chs);
            && (HasEnded(items) <==> Finishes(chs))
            && ItemProse(items, k) == SentProse(UpToFinish(chs), k) && Taken(items) == Deltas(UpToFinish(chs))
  {
    hide ChoiceItems, HasEnded, Finishes, ItemProse, Taken, Texts;
    NothingSays(k);
    if chs != [] {
      var n := |chs| - 1;
      var init, cut := chs[..n], UpToFinish(chs[..n]);
      ChoicesSay(init, k);
      ChoiceSays(chs[n], k);
      assert init + [chs[n]] == chs;
      FinishesAppend(init, [chs[n]]);
      OneFinishes(chs[n]);
      EndedAppend(ChoicesItems(init), ChoiceItems(chs[n]));
      ItemsAppend(ChoicesItems(init), ChoiceItems(chs[n]), k);
      assert cut + [] == cut;
      assert (cut + [chs[n]])[..|cut|] == cut;
    }
  }

  lemma OneFinishes(ch: Choice)
    ensures Finishes([ch]) <==> ch.finish != ""
  {
    assert [ch][0] == ch;
  }

  lemma {:induction false} SentAppend(a: seq<Choice>, b: seq<Choice>, k: Kind)
    ensures SentProse(a + b, k) == SentProse(a, k) + SentProse(b, k) && Deltas(a + b) == Deltas(a) + Deltas(b)
  {
    if b == [] {
      assert a + b == a;
    } else {
      var n := |b| - 1;
      assert (a + b)[..|a + b| - 1] == a + b[..n] && (a + b)[|a + b| - 1] == b[n];
      SentAppend(a, b[..n], k);
      Assoc(SentProse(a, k), SentProse(b[..n], k), Texts(if k == Text then b[n].content else b[n].reasoning));
      Assoc(Deltas(a), Deltas(b[..n]), b[n].tools);
    }
  }

  /** The choices of a frame up to its first finish reason. */
  function CutChoices(k: FrameKind): seq<Choice> {
    if k.ChatChunk? then UpToFinish(k.chunk.choices) else []
  }

  lemma {:induction false} FrameSays(frame: seq<byte>, decode: seq<byte> -> FrameKind, k: Kind)
    ensures var items, chs := FrameItems(frame, decode), CutChoices(decode(frame));
            && (HasEnded(items) <==> Breaks(decode(frame)) || Finishes(Choices(ChunksOf(decode(frame)))))
            && ItemProse(items, k) == SentProse(chs, k) && Taken(items) == Deltas(chs)
  {
    hide ChoicesItems, SentProse, Deltas, HasEnded, ItemProse, Taken, Finishes, UpToFinish;
    var items := FrameItems(frame, decode);
    NothingSays(k);
    match decode(frame)
    case ChatChunk(c) =>
      assert [c][..0] == [] && [] + c.choices == c.choices;
      var head := [Head(c.id, c.model, c.usage)];
      OneSays(head[0], k);
      ChoicesSay(c.choices, k);
      BothSay(head, ChoicesItems(c.choices), k);
    case Inert =>
    case _ =>
      OneSays(items[0], k);
      assert items == [items[0]];
  }

  /** One more frame: what is heard of it. */
  lemma {:induction false} HeardSnoc(frames: seq<seq<byte>>, decode: seq<byte> -> FrameKind)
    requires frames != []
    ensures var n := |frames| - 1;
            var k, over := decode(frames[n]), Broken(frames[..n], decode) || Finishes(Choices(SentChunks(frames[..n], decode)));
            && Heard(frames, decode) == Heard(frames[..n], decode)
                 + (if over || !k.ChatChunk? then [] else [k.chunk.(choices := CutChoices(k))])
            && (Broken(frames, decode) || Finishes(Choices(SentChunks(frames, decode))) <==>
                  over || Breaks(k) || Finishes(Choices(ChunksOf(k))))
  {
    hide Broken, Finishes, UpToFinish;
    var n := |frames| - 1;
    var a, k := SentChunks(frames[..n], decode), decode(frames[n]);
    BrokenSnoc(frames, decode);
    assert a + [] == a && Heard(frames[..n], decode) + [] == Heard(frames[..n], decode);
    NothingSays(Text);
    if k.ChatChunk? {
      assert (a + [k.chunk])[..|a|] == a && [k.chunk][..0] == [] && [] + k.chunk.choices == k.chunk.choices;
      FinishesAppend(Choices(a), k.chunk.choices);
    }
  }

  /** The items of a stream say what is heard of its decoded chunks. */
  lemma {:induction false} StreamSays(frames: seq<seq<byte>>, decode: seq<byte> -> FrameKind, k: Kind)
    ensures var items, chs := StreamItems(frames, decode), Choices(Heard(frames, decode));
            && (HasEnded(items) <==> Broken(frames, decode) || Finishes(Choices(SentChunks(frames, decode))))
            && ItemProse(items, k) == SentProse(chs, k) && Taken(items) == Deltas(chs)
  {
    hide FrameItems, HasEnded, Broken, SentProse, Deltas, ItemProse, Taken, Finishes, SentChunks, Heard;
    if frames == [] {
      NothingHeard(decode, k);
    } else {
      var n := |frames| - 1;
      var a, f := Heard(frames[..n], decode), decode(frames[n]);
      StreamSays(frames[..n], decode, k);
      FrameSays(frames[n], decode, k);
      HeardSnoc(frames, decode);
      EndedAppend(StreamItems(frames[..n], decode), FrameItems(frames[n], decode));
      ItemsAppend(StreamItems(frames[..n], decode), FrameItems(frames[n], decode), k);
      SentAppend(Choices(a), CutChoices(f), k);
      NothingSays(k);
      assert a + [] == a && Choices(a) + [] == Choices(a);
      if f.ChatChunk? { assert (a + [f.chunk.(choices := CutChoices(f))])[..|a|] == a; }
    }
  }

  lemma {:induction false} NothingHeard(decode: seq<byte> -> FrameKind, k: Kind)
    ensures Heard([], decode) == [] && SentChunks([], decode) == [] && !Broken([], decode)
    ensures !HasEnded([]) && !Finishes([])
    ensures ItemProse([], k) == SentProse([], k) && Taken([]) == Deltas([])
  {
  }

  /** One id per tool index among the decoded deltas is enough for a stream. */
  lemma {:induction false} OneIdIsEnough(invented: string, frames: seq<seq<byte>>, decode: seq<byte> -> FrameKind)
    requires OneIdPerIndex(Deltas(Choices(Heard(frames, decode))))
    ensures NeverReuses(Initial(invented), StreamItems(frames, decode))
  {
    hide NeverReuses, OneIdPerIndex, Heard, StreamItems;
    StreamSays(frames, decode, Text);
    OneIdNeverReuses(invented, StreamItems(frames, decode));
  }

  // ---- Content

  /** The call list of a stream: one call for each index that a delta named, with its name, id and all its fragments. */
  ghost predicate CallsOf(calls: seq<RespCall>, ds: seq<ToolDelta>) {
    && (forall a, b :: 0 <= a < b < |calls| ==> calls[a].idx != calls[b].idx)
    && (forall a :: 0 <= a < |calls| ==> OpenedBy(calls[a], ds))
    && (forall i :: ArgsHeld(calls, ds, i))
  }

  /**
   Content. The client's items are the text, the reasoning and the calls of the decoded choices up to a breaking frame or
   the first finish reason: one message item with all the text, one reasoning item, and per tool index one call, opened by
   its first delta, with its fragments joined in order.
   */
  lemma ContentHeld(invented: string, frames: seq<seq<byte>>, decode: seq<byte> -> FrameKind)
      returns (c: Client, calls: seq<RespCall>)
    requires NeverReuses(Initial(invented), StreamItems(frames, decode))
    requires QuietAfterFinish(Initial(invented), frames, decode)
    ensures var r, chs := Run(Initial(invented), frames, decode), Choices(Heard(frames, decode));
            && AcceptAll(Fresh, r.evs + Terminated(r.st).evs) == Some(c)
            && Select(c.view.items, Messages) == TextItem(SentProse(chs, Text))
            && Select(c.view.items, Reasonings) == ThoughtItem(SentProse(chs, Thinking))
            && Select(c.view.items, Calls) == CallValues(calls) && CallsOf(calls, Deltas(chs))
            && Output(c.view.items) == Items(r.st)
  {
    hide Run, Gated, AcceptAll, QuietAfterFinish, StreamItems, Late, Terminated, Select, SentProse, ItemProse, OpenedBy,
         ArgsHeld, NeverReuses, Output, CallValues, Items, Choices, Heard, Deltas, Taken;
    var s0, items := Initial(invented), StreamItems(frames, decode);
    c := Lifecycle(invented, frames, decode);
    RunSplit(s0, frames, decode);
    var r, g := Run(s0, frames, decode), Gated(s0, items);
    calls := g.st.calls;
    OutputIsItems(r.st, c.view.items);
    ProseIsSent(invented, items);
    ProseOpens(invented, items);
    StreamSays(frames, decode, Text);
    StreamSays(frames, decode, Thinking);
    forall a | 0 <= a < |calls| ensures OpenedBy(calls[a], Taken(items)) {
      CallsOpenedBy(invented, items, a);
    }
    forall i ensures ArgsHeld(calls, Taken(items), i) {
      ArgsAreSent(invented, items, i);
    }
  }
}
