/**
 Anthropic messages to Chat Completions messages, convert/anthropic.go:124-150, 195-243, 265-300, 328-439, on
 decoded values. A string stands for Go's, each char one byte; raw JSON kept as text (a tool call's input) is
 a string too.
 */
module MessagesRequest {
  import opened Wrappers
  import Bytes

  datatype Result<T> = Ok(value: T) | Refused(error: Error)

  /** `invites` is true when the message tells the operator that drop_params would let the request through. */
  datatype Error = Error(field: string, invites: bool)

  datatype Source = Source(kind: string, mediaType: string, data: string, url: string)

  datatype Nested = Nested(kind: string, text: string)

  /** A tool result's content: a string (or null), a list of blocks, no key at all, or some other JSON value. */
  datatype ToolContent = Str(text: string) | List(blocks: seq<Nested>) | Missing | Foreign(raw: string)

  datatype Block = Block(
    kind: string,
    text: string,
    id: string,
    name: string,
    input: Option<string>,
    toolUseId: string,
    content: ToolContent,
    source: Option<Source>)

  /** A missing or null content decodes as the empty text. */
  datatype Content = Text(text: string) | Blocks(blocks: seq<Block>) | Malformed

  datatype Message = Message(role: string, content: Content)

  datatype Part = TextPart(text: string) | ImagePart(url: string)

  datatype ToolCall = ToolCall(id: string, name: string, args: string)

  /** `Calling` without parts has no content key. */
  datatype ChatMessage =
    | Plain(role: string, text: string)
    | Rich(role: string, parts: seq<Part>)
    | Calling(parts: seq<Part>, calls: seq<ToolCall>)
    | Tool(id: string, text: string)

  /** What a conversation is made of, on either side. */
  datatype Unit = Said(part: Part) | Called(call: ToolCall) | Answered(id: string, text: string)

  // ---- what one block means ----

  function Url(b: Block): Option<string> {
    match b.source
    case None => None
    case Some(s) =>
      if s.kind == "base64" && s.data != "" then Some("data:" + s.mediaType + ";base64," + s.data)
      else if s.kind == "url" && s.url != "" then Some(s.url)
      else None
  }

  function Arguments(b: Block): string {
    match b.input
    case None => "{}"
    case Some(raw) => if |raw| > 0 && raw != "null" then raw else "{}"
  }

  function Join(parts: seq<string>): string {
    if parts == [] then "" else if |parts| == 1 then parts[0] else Join(parts[..|parts| - 1]) + "\n" + parts[|parts| - 1]
  }

  function NestedTexts(bs: seq<Nested>): seq<string> {
    if bs == [] then []
    else NestedTexts(bs[..|bs| - 1]) + if bs[|bs| - 1].kind == "text" then [bs[|bs| - 1].text] else []
  }

  function NestedDrops(bs: seq<Nested>): seq<string> {
    if bs == [] then []
    else NestedDrops(bs[..|bs| - 1]) + if bs[|bs| - 1].kind == "text" then [] else ["tool_result." + bs[|bs| - 1].kind]
  }

  function ResultText(c: ToolContent): string {
    match c
    case Str(s) => s
    case List(bs) => Join(NestedTexts(bs))
    case Missing => ""
    case Foreign(_) => ""
  }

  predicate Fatal(b: Block) {
    b.kind == "document" || b.kind == "audio"
  }

  /** The block's unit in the conversation, when it has a representation. */
  function UnitOf(b: Block): seq<Unit> {
    if b.kind == "text" then [Said(TextPart(b.text))]
    else if b.kind == "image" then (if Url(b).Some? then [Said(ImagePart(Url(b).value))] else [])
    else if b.kind == "tool_use" then [Called(ToolCall(b.id, b.name, Arguments(b)))]
    else if b.kind == "tool_result" then [Answered(b.toolUseId, ResultText(b.content))]
    else []
  }

  /** The fields that the drop policy is asked about, in order. */
  function Drops(b: Block): seq<string> {
    if b.kind == "text" || b.kind == "tool_use" then []
    else if b.kind == "image" then (if Url(b).Some? then [] else ["image"])
    else if b.kind == "tool_result" then (if b.content.List? then NestedDrops(b.content.blocks) else [])
    else if b.kind == "" then ["content_block"]
    else [b.kind]
  }

  predicate Refuses(b: Block, dropParams: bool) {
    Fatal(b) || (!dropParams && Drops(b) != [])
  }

  function ErrorOf(b: Block): Error
    requires Fatal(b) || Drops(b) != []
  {
    if Fatal(b) then Error(b.kind, false) else Error(Drops(b)[0], true)
  }

  function Noted(fields: seq<string>): (r: seq<string>)
    ensures |r| == |fields|
  {
    if fields == [] then [] else Noted(fields[..|fields| - 1]) + [fields[|fields| - 1] + "=dropped"]
  }

  function Units(bs: seq<Block>): seq<Unit> {
    if bs == [] then [] else Units(bs[..|bs| - 1]) + UnitOf(bs[|bs| - 1])
  }

  function AllDrops(bs: seq<Block>): seq<string> {
    if bs == [] then [] else AllDrops(bs[..|bs| - 1]) + Drops(bs[|bs| - 1])
  }

  function SaidIn(us: seq<Unit>): seq<Part> {
    if us == [] then [] else SaidIn(us[..|us| - 1]) + if us[|us| - 1].Said? then [us[|us| - 1].part] else []
  }

  function CalledIn(us: seq<Unit>): seq<ToolCall> {
    if us == [] then [] else CalledIn(us[..|us| - 1]) + if us[|us| - 1].Called? then [us[|us| - 1].call] else []
  }

  function AnsweredIn(us: seq<Unit>): seq<ChatMessage> {
    if us == [] then []
    else
      AnsweredIn(us[..|us| - 1])
      + if us[|us| - 1].Answered? then [Tool(us[|us| - 1].id, us[|us| - 1].text)] else []
  }

  // ---- the conversion ----

  /** The messages that one turn's collected parts, calls and tool messages become. */
  function Assembled(role: string, parts: seq<Part>, calls: seq<ToolCall>, tools: seq<ChatMessage>): seq<ChatMessage> {
    if |calls| > 0 then [Calling(parts, calls)] + tools
    else if |parts| == 0 then tools
    else if |parts| == 1 && parts[0].TextPart? then tools + [Plain(role, parts[0].text)]
    else tools + [Rich(role, parts)]
  }

  /** `drop`: refuses, or notes the field. */
  method Drop(field: string, dropParams: bool, notes: seq<string>) returns (r: Result<seq<string>>)
    ensures !dropParams ==> r == Refused(Error(field, true))
    ensures dropParams ==> r == Ok(notes + [field + "=dropped"])
  {
    if !dropParams {
      return Refused(Error(field, true));
    }
    return Ok(notes + [field + "=dropped"]);
  }

  lemma {:induction false} NotedAppend(a: seq<string>, b: seq<string>)
    ensures Noted(a + b) == Noted(a) + Noted(b)
  {
    if b == [] {
      assert a + b == a;
    } else {
      assert (a + b)[..|a + b| - 1] == a + b[..|b| - 1];
      NotedAppend(a, b[..|b| - 1]);
    }
  }

  lemma NotedOne(field: string)
    ensures Noted([field]) == [field + "=dropped"]
  {
    assert [field][..0] == [];
  }

  lemma {:induction false} DropsFirst(bs: seq<Nested>, i: nat)
    requires i <= |bs| && NestedDrops(bs[..i]) != []
    ensures NestedDrops(bs) != [] && NestedDrops(bs)[0] == NestedDrops(bs[..i])[0]
    decreases |bs|
  {
    if i == |bs| {
      assert bs[..i] == bs;
    } else {
      var init := bs[..|bs| - 1];
      assert init[..i] == bs[..i];
      DropsFirst(init, i);
    }
  }

  method ToolResultContent(b: Block, dropParams: bool, notes: seq<string>)
    returns (r: Result<(string, seq<string>)>)
    requires b.kind == "tool_result"
    ensures r.Refused? <==> Refuses(b, dropParams)
    ensures r.Refused? ==> r.error == ErrorOf(b)
    ensures r.Ok? ==> r.value == (ResultText(b.content), notes + Noted(Drops(b)))
  {
    hide Join, Noted;
    NothingNoted();
    assert notes + [] == notes;
    if b.content.Str? {
      return Ok((b.content.text, notes));
    }
    if !b.content.List? {
      return Ok(("", notes));
    }
    var bs := b.content.blocks;
    var parts, out := [], notes;
    for i := 0 to |bs|
      invariant parts == NestedTexts(bs[..i])
      invariant out == notes + Noted(NestedDrops(bs[..i]))
      invariant !dropParams ==> NestedDrops(bs[..i]) == []
    {
      assert bs[..i + 1][..i] == bs[..i];
      if bs[i].kind == "text" {
        parts := parts + [bs[i].text];
        assert NestedDrops(bs[..i + 1]) == NestedDrops(bs[..i]);
      } else {
        var field := "tool_result." + bs[i].kind;
        assert NestedDrops(bs[..i + 1]) == NestedDrops(bs[..i]) + [field];
        var d := Drop(field, dropParams, out);
        if d.Refused? {
          DropsFirst(bs, i + 1);
          return Refused(d.error);
        }
        NotedAppend(NestedDrops(bs[..i]), [field]);
        NotedOne(field);
        Bytes.Assoc(notes, Noted(NestedDrops(bs[..i])), [field + "=dropped"]);
        out := d.value;
      }
    }
    assert bs[..|bs|] == bs;
    return Ok((Join(parts), out));
  }

  /** What the loop has collected from some blocks. */
  datatype Turn = Turn(parts: seq<Part>, calls: seq<ToolCall>, tools: seq<ChatMessage>, notes: seq<string>)

  predicate Collects(t: Turn, bs: seq<Block>, notes: seq<string>) {
    && t.parts == SaidIn(Units(bs))
    && t.calls == CalledIn(Units(bs))
    && t.tools == AnsweredIn(Units(bs))
    && t.notes == notes + Noted(AllDrops(bs))
  }

  /** One pass of the loop's switch. */
  method ConvertBlock(t: Turn, b: Block, dropParams: bool) returns (r: Result<Turn>)
    ensures r.Refused? <==> Refuses(b, dropParams)
    ensures r.Refused? ==> r.error == ErrorOf(b)
    ensures r.Ok? ==> r.value == Turn(t.parts + SaidIn(UnitOf(b)), t.calls + CalledIn(UnitOf(b)),
                                      t.tools + AnsweredIn(UnitOf(b)), t.notes + Noted(Drops(b)))
  {
    hide Join, NestedTexts, NestedDrops, Noted, SaidIn, CalledIn, AnsweredIn, ResultText, Arguments, Url;
    NothingNoted();
    UnitIn(b);
    assert t.parts + [] == t.parts && t.calls + [] == t.calls && t.tools + [] == t.tools && t.notes + [] == t.notes;
    if b.kind == "text" {
      return Ok(t.(parts := t.parts + [TextPart(b.text)]));
    } else if b.kind == "image" {
      var url := Url(b);
      if url.Some? {
        return Ok(t.(parts := t.parts + [ImagePart(url.value)]));
      }
      var d := Drop("image", dropParams, t.notes);
      NotedOne("image");
      if d.Refused? {
        return Refused(d.error);
      }
      return Ok(t.(notes := d.value));
    } else if b.kind == "document" || b.kind == "audio" {
      return Refused(Error(b.kind, false));
    } else if b.kind == "tool_use" {
      return Ok(t.(calls := t.calls + [ToolCall(b.id, b.name, Arguments(b))]));
    } else if b.kind == "tool_result" {
      var body := ToolResultContent(b, dropParams, t.notes);
      if body.Refused? {
        return Refused(body.error);
      }
      return Ok(t.(tools := t.tools + [Tool(b.toolUseId, body.value.0)], notes := body.value.1));
    } else {
      var name := if b.kind == "" then "content_block" else b.kind;
      var d := Drop(name, dropParams, t.notes);
      NotedOne(name);
      if d.Refused? {
        return Refused(d.error);
      }
      return Ok(t.(notes := d.value));
    }
  }

  lemma NothingNoted()
    ensures Noted([]) == []
  {
  }

  lemma UnitIn(b: Block)
    ensures var us := UnitOf(b);
            && SaidIn(us) == (if us != [] && us[0].Said? then [us[0].part] else [])
            && CalledIn(us) == (if us != [] && us[0].Called? then [us[0].call] else [])
            && AnsweredIn(us) == (if us != [] && us[0].Answered? then [Tool(us[0].id, us[0].text)] else [])
  {
    hide ResultText, Url, Arguments;
    var us := UnitOf(b);
    assert us != [] ==> us[..0] == [];
  }

  /** The first block that stops the conversion. */
  predicate FirstRefused(bs: seq<Block>, dropParams: bool, i: int) {
    0 <= i < |bs| && Refuses(bs[i], dropParams) && forall k :: 0 <= k < i ==> !Refuses(bs[k], dropParams)
  }

  method ConvertBlocks(role: string, bs: seq<Block>, dropParams: bool, notes: seq<string>)
    returns (r: Result<(seq<ChatMessage>, seq<string>)>)
    ensures r.Refused? <==> exists i :: 0 <= i < |bs| && Refuses(bs[i], dropParams)
    ensures r.Refused? ==> exists i :: FirstRefused(bs, dropParams, i) && r.error == ErrorOf(bs[i])
    ensures r.Ok? ==>
              var us := Units(bs);
              r.value == (Assembled(role, SaidIn(us), CalledIn(us), AnsweredIn(us)), notes + Noted(AllDrops(bs)))
  {
    hide SaidIn, CalledIn, AnsweredIn, Noted, Drops, UnitOf, ErrorOf, Assembled;
    var t := Turn([], [], [], notes);
    CollectsNothing(notes);
    for i := 0 to |bs|
      invariant Collects(t, bs[..i], notes)
      invariant forall k :: 0 <= k < i ==> !Refuses(bs[k], dropParams)
    {
      var step := ConvertBlock(t, bs[i], dropParams);
      if step.Refused? {
        assert FirstRefused(bs, dropParams, i);
        return Refused(step.error);
      }
      CollectsNext(t, bs[..i], bs[i], notes);
      assert bs[..i] + [bs[i]] == bs[..i + 1];
      t := step.value;
    }
    assert bs[..|bs|] == bs;
    return Ok((Assembled(role, t.parts, t.calls, t.tools), t.notes));
  }

  lemma CollectsNothing(notes: seq<string>)
    ensures Collects(Turn([], [], [], notes), [], notes)
  {
  }

  lemma {:induction false} UnitsSplit(us: seq<Unit>, vs: seq<Unit>)
    ensures SaidIn(us + vs) == SaidIn(us) + SaidIn(vs)
    ensures CalledIn(us + vs) == CalledIn(us) + CalledIn(vs)
    ensures AnsweredIn(us + vs) == AnsweredIn(us) + AnsweredIn(vs)
  {
    if vs == [] {
      assert us + vs == us;
    } else {
      var init := vs[..|vs| - 1];
      assert (us + vs)[..|us + vs| - 1] == us + init;
      UnitsSplit(us, init);
    }
  }

  lemma CollectsNext(t: Turn, bs: seq<Block>, b: Block, notes: seq<string>)
    requires Collects(t, bs, notes)
    ensures Collects(Turn(t.parts + SaidIn(UnitOf(b)), t.calls + CalledIn(UnitOf(b)),
                          t.tools + AnsweredIn(UnitOf(b)), t.notes + Noted(Drops(b))), bs + [b], notes)
  {
    hide UnitOf, Drops, SaidIn, CalledIn, AnsweredIn, Noted;
    assert (bs + [b])[..|bs|] == bs;
    UnitsSplit(Units(bs), UnitOf(b));
    NotedAppend(AllDrops(bs), Drops(b));
  }

  /** `convertMessage`. */
  method ConvertMessage(m: Message, dropParams: bool, notes: seq<string>)
    returns (r: Result<(seq<ChatMessage>, seq<string>)>)
    ensures r.Refused? <==> RefusesMessage(m, dropParams)
    ensures r.Refused? ==> RefusedWith(m, dropParams, r.error)
    ensures r.Ok? ==> r.value == (Converted(m), notes + Noted(MessageDrops(m)))
  {
    NothingNoted();
    assert notes + [] == notes;
    match m.content
    case Malformed =>
      return Refused(Error("content", false));
    case Text(s) =>
      return Ok(([Plain(m.role, s)], notes));
    case Blocks(bs) =>
      if |bs| == 0 {
        return Ok(([Plain(m.role, "")], notes));
      }
      r := ConvertBlocks(m.role, bs, dropParams, notes);
  }

  /** The error of a refused message: its malformed content, or its first offending block. */
  predicate RefusedWith(m: Message, dropParams: bool, error: Error) {
    match m.content
    case Malformed => error == Error("content", false)
    case Text(_) => false
    case Blocks(bs) => exists i :: 0 <= i < |bs| && FirstRefused(bs, dropParams, i) && error == ErrorOf(bs[i])
  }

  predicate RefusesMessage(m: Message, dropParams: bool) {
    m.content.Malformed?
    || (m.content.Blocks? && exists i :: 0 <= i < |m.content.blocks| && Refuses(m.content.blocks[i], dropParams))
  }

  function MessageDrops(m: Message): seq<string> {
    if m.content.Blocks? then AllDrops(m.content.blocks) else []
  }

  function MessageUnits(m: Message): seq<Unit> {
    match m.content
    case Malformed => []
    case Text(s) => [Said(TextPart(s))]
    case Blocks(bs) => if |bs| == 0 then [Said(TextPart(""))] else Units(bs)
  }

  function Converted(m: Message): seq<ChatMessage> {
    match m.content
    case Malformed => []
    case Text(s) => [Plain(m.role, s)]
    case Blocks(bs) =>
      if |bs| == 0 then [Plain(m.role, "")]
      else Assembled(m.role, SaidIn(Units(bs)), CalledIn(Units(bs)), AnsweredIn(Units(bs)))
  }

  // ---- the message list ----

  function ConvertedAll(ms: seq<Message>): seq<ChatMessage> {
    if ms == [] then [] else ConvertedAll(ms[..|ms| - 1]) + Converted(ms[|ms| - 1])
  }

  function DropsAll(ms: seq<Message>): seq<string> {
    if ms == [] then [] else DropsAll(ms[..|ms| - 1]) + MessageDrops(ms[|ms| - 1])
  }

  function UnitsAll(ms: seq<Message>): seq<Unit> {
    if ms == [] then [] else UnitsAll(ms[..|ms| - 1]) + MessageUnits(ms[|ms| - 1])
  }

  predicate FirstRefusedMessage(ms: seq<Message>, dropParams: bool, i: int) {
    && 0 <= i < |ms| && RefusesMessage(ms[i], dropParams)
    && forall k :: 0 <= k < i ==> !RefusesMessage(ms[k], dropParams)
  }

  /** The message loop of `MessagesToChat`; the system text leads. */
  method ConvertMessages(system: string, ms: seq<Message>, dropParams: bool)
    returns (r: Result<(seq<ChatMessage>, seq<string>)>)
    ensures r.Refused? <==> exists i :: 0 <= i < |ms| && RefusesMessage(ms[i], dropParams)
    ensures r.Refused? ==>
              exists i :: 0 <= i < |ms| && FirstRefusedMessage(ms, dropParams, i) && RefusedWith(ms[i], dropParams, r.error)
    ensures r.Ok? ==>
              r.value == ((if system != "" then [Plain("system", system)] else []) + ConvertedAll(ms),
                          Noted(DropsAll(ms)))
  {
    hide Converted, MessageDrops, RefusesMessage, RefusedWith, Noted;
    NothingNoted();
    var lead := if system != "" then [Plain("system", system)] else [];
    var msgs, notes := lead, [];
    for i := 0 to |ms|
      invariant msgs == lead + ConvertedAll(ms[..i]) && notes == Noted(DropsAll(ms[..i]))
      invariant forall k :: 0 <= k < i ==> !RefusesMessage(ms[k], dropParams)
    {
      var one := ConvertMessage(ms[i], dropParams, notes);
      if one.Refused? {
        assert FirstRefusedMessage(ms, dropParams, i);
        return Refused(one.error);
      }
      assert ms[..i + 1][..i] == ms[..i];
      NotedAppend(DropsAll(ms[..i]), MessageDrops(ms[i]));
      Bytes.Assoc(lead, ConvertedAll(ms[..i]), Converted(ms[i]));
      msgs, notes := msgs + one.value.0, one.value.1;
    }
    assert ms[..|ms|] == ms;
    return Ok((msgs, notes));
  }

  // ---- reading the result back ----

  function Parts(ps: seq<Part>): (r: seq<Unit>)
    ensures |r| == |ps| && forall i :: 0 <= i < |ps| ==> r[i] == Said(ps[i])
  {
    seq(|ps|, i requires 0 <= i < |ps| => Said(ps[i]))
  }

  function CallUnits(cs: seq<ToolCall>): (r: seq<Unit>)
    ensures |r| == |cs| && forall i :: 0 <= i < |cs| ==> r[i] == Called(cs[i])
  {
    seq(|cs|, i requires 0 <= i < |cs| => Called(cs[i]))
  }

  /** The units a chat backend reads out of one message. */
  function Read(m: ChatMessage): seq<Unit> {
    match m
    case Plain(_, s) => [Said(TextPart(s))]
    case Rich(_, ps) => Parts(ps)
    case Calling(ps, cs) => Parts(ps) + CallUnits(cs)
    case Tool(id, s) => [Answered(id, s)]
  }

  function ReadAll(ms: seq<ChatMessage>): seq<Unit> {
    if ms == [] then [] else ReadAll(ms[..|ms| - 1]) + Read(ms[|ms| - 1])
  }

  lemma {:induction false} ReadAppend(a: seq<ChatMessage>, b: seq<ChatMessage>)
    ensures ReadAll(a + b) == ReadAll(a) + ReadAll(b)
  {
    if b == [] {
      assert a + b == a;
    } else {
      hide Read;
      assert (a + b)[..|a + b| - 1] == a + b[..|b| - 1];
      ReadAppend(a, b[..|b| - 1]);
      Bytes.Assoc(ReadAll(a), ReadAll(b[..|b| - 1]), Read(b[|b| - 1]));
    }
  }

  lemma ReadOne(m: ChatMessage)
    ensures ReadAll([m]) == Read(m)
  {
    assert [m][..0] == [];
    assert ReadAll([m][..0]) == [];
  }

  datatype Rank = Spoken | Asked | Replied

  function RankOf(u: Unit): Rank {
    match u
    case Said(_) => Spoken
    case Called(_) => Asked
    case Answered(_, _) => Replied
  }

  function Only(us: seq<Unit>, k: Rank): (r: seq<Unit>)
    ensures forall i :: 0 <= i < |r| ==> RankOf(r[i]) == k
    ensures |r| <= |us|
  {
    if us == [] then []
    else Only(us[..|us| - 1], k) + if RankOf(us[|us| - 1]) == k then [us[|us| - 1]] else []
  }

  lemma {:induction false} OnlySplit(us: seq<Unit>, vs: seq<Unit>, k: Rank)
    ensures Only(us + vs, k) == Only(us, k) + Only(vs, k)
  {
    if vs == [] {
      assert us + vs == us;
    } else {
      assert (us + vs)[..|us + vs| - 1] == us + vs[..|vs| - 1];
      OnlySplit(us, vs[..|vs| - 1], k);
    }
  }

  /** A list of one kind is its own part of that kind, and holds nothing of another. */
  lemma {:induction false} OnlyOfKind(us: seq<Unit>, k: Rank, j: Rank)
    requires forall i :: 0 <= i < |us| ==> RankOf(us[i]) == j
    ensures Only(us, k) == if k == j then us else []
  {
    if us != [] {
      OnlyOfKind(us[..|us| - 1], k, j);
    }
  }

  lemma {:induction false} SaidIs(us: seq<Unit>)
    ensures Parts(SaidIn(us)) == Only(us, Spoken)
  {
    if us != [] {
      SaidIs(us[..|us| - 1]);
    }
  }

  lemma {:induction false} CalledIs(us: seq<Unit>)
    ensures CallUnits(CalledIn(us)) == Only(us, Asked)
  {
    if us != [] {
      CalledIs(us[..|us| - 1]);
    }
  }

  lemma {:induction false} AnsweredIs(us: seq<Unit>)
    ensures ReadAll(AnsweredIn(us)) == Only(us, Replied)
  {
    if us != [] {
      hide ReadAll;
      var init, u := us[..|us| - 1], us[|us| - 1];
      AnsweredIs(init);
      if u.Answered? {
        ReadAppend(AnsweredIn(init), [Tool(u.id, u.text)]);
        ReadOne(Tool(u.id, u.text));
      } else {
        assert AnsweredIn(us) == AnsweredIn(init) && Only(us, Replied) == Only(init, Replied);
      }
    } else {
      assert ReadAll([]) == [];
    }
  }

  /** The units of one turn as the chat side reads them: by kind, each kind in the order of the blocks. */
  function ByKind(us: seq<Unit>): seq<Unit> {
    if Only(us, Asked) != [] then Only(us, Spoken) + Only(us, Asked) + Only(us, Replied)
    else Only(us, Replied) + Only(us, Spoken)
  }

  lemma {:induction false} AssembledReads(role: string, parts: seq<Part>, calls: seq<ToolCall>, tools: seq<ChatMessage>)
    ensures ReadAll(Assembled(role, parts, calls, tools)) ==
      if calls != [] then Parts(parts) + CallUnits(calls) + ReadAll(tools) else ReadAll(tools) + Parts(parts)
  {
    hide ReadAll;
    if calls != [] {
      ReadAppend([Calling(parts, calls)], tools);
      ReadOne(Calling(parts, calls));
    } else if |parts| == 0 {
      assert ReadAll(tools) + Parts(parts) == ReadAll(tools);
    } else {
      var m := if |parts| == 1 && parts[0].TextPart? then Plain(role, parts[0].text) else Rich(role, parts);
      ReadAppend(tools, [m]);
      ReadOne(m);
      assert Read(m) == Parts(parts);
    }
  }

  /** A converted message reads as the units of its blocks, grouped by kind. */
  lemma ConvertedReads(m: Message)
    requires !m.content.Malformed?
    ensures ReadAll(Converted(m)) == ByKind(MessageUnits(m))
  {
    hide Units, SaidIn, CalledIn, AnsweredIn, ReadAll, Assembled, Only, Parts, CallUnits;
    if m.content.Blocks? && m.content.blocks != [] {
      var us := Units(m.content.blocks);
      SaidIs(us);
      CalledIs(us);
      AnsweredIs(us);
      AssembledReads(m.role, SaidIn(us), CalledIn(us), AnsweredIn(us));
      assert Only(us, Asked) == [] <==> CalledIn(us) == [] by {
        assert |CallUnits(CalledIn(us))| == |CalledIn(us)| by { CallUnitsLength(CalledIn(us)); }
      }
    } else {
      var text := if m.content.Text? then m.content.text else "";
      ReadOne(Plain(m.role, text));
      var us := [Said(TextPart(text))];
      OnlyOfKind(us, Spoken, Spoken);
      OnlyOfKind(us, Asked, Spoken);
      OnlyOfKind(us, Replied, Spoken);
    }
  }

  lemma CallUnitsLength(cs: seq<ToolCall>)
    ensures |CallUnits(cs)| == |cs|
  {
  }

  lemma NothingOnly()
    ensures forall k :: Only([], k) == []
  {
  }

  lemma {:induction false} ByKindIsPermutation(us: seq<Unit>)
    ensures multiset(Only(us, Spoken)) + multiset(Only(us, Asked)) + multiset(Only(us, Replied)) == multiset(us)
  {
    if us != [] {
      hide Only;
      var init, u := us[..|us| - 1], us[|us| - 1];
      ByKindIsPermutation(init);
      assert us == init + [u];
      Extends(init, u);
    } else {
      hide Only;
      NothingOnly();
    }
  }

  lemma {:induction false} OnlyByKind(us: seq<Unit>, k: Rank)
    ensures Only(ByKind(us), k) == Only(us, k)
  {
    hide Only;
    var s, a, r := Only(us, Spoken), Only(us, Asked), Only(us, Replied);
    OnlyOfKind(s, k, Spoken);
    OnlyOfKind(a, k, Asked);
    OnlyOfKind(r, k, Replied);
    OnlySplit(s + a, r, k);
    OnlySplit(s, a, k);
    OnlySplit(r, s, k);
  }

  /**
   Nothing is lost, doubled or crossed: the messages read as a permutation of the block units, and the units
   of each kind keep their order.
   */
  lemma MessageConserved(m: Message)
    requires !m.content.Malformed?
    ensures multiset(ReadAll(Converted(m))) == multiset(MessageUnits(m))
    ensures forall k :: Only(ReadAll(Converted(m)), k) == Only(MessageUnits(m), k)
  {
    hide Only, ReadAll, Converted, MessageUnits;
    ConvertedReads(m);
    var us := MessageUnits(m);
    ByKindIsPermutation(us);
    forall k ensures Only(ByKind(us), k) == Only(us, k) {
      OnlyByKind(us, k);
    }
  }

  /** Over a whole conversation: the units of each kind are the input's, in the input's order. */
  lemma {:induction false} ConversationConserved(ms: seq<Message>, k: Rank)
    requires forall i :: 0 <= i < |ms| ==> !ms[i].content.Malformed?
    ensures Only(ReadAll(ConvertedAll(ms)), k) == Only(UnitsAll(ms), k)
    ensures multiset(ReadAll(ConvertedAll(ms))) == multiset(UnitsAll(ms))
  {
    if ms != [] {
      hide Only, ReadAll, Converted, MessageUnits;
      var init, m := ms[..|ms| - 1], ms[|ms| - 1];
      ConversationConserved(init, k);
      MessageConserved(m);
      ReadAppend(ConvertedAll(init), Converted(m));
      OnlySplit(ReadAll(ConvertedAll(init)), ReadAll(Converted(m)), k);
      OnlySplit(UnitsAll(init), MessageUnits(m), k);
    }
  }

  lemma {:induction false} AnsweredAreTools(us: seq<Unit>)
    ensures forall x :: x in AnsweredIn(us) ==> x.Tool?
  {
    if us != [] {
      AnsweredAreTools(us[..|us| - 1]);
    }
  }

  /** Beside the tool messages a turn gives at most one message, in its own role unless it carries calls. */
  lemma RoleKept(m: Message)
    ensures forall x :: x in Converted(m) ==> x.Tool? || x.Calling? || x.role == m.role
    ensures forall i, j :: 0 <= i < j < |Converted(m)| ==> Converted(m)[i].Tool? || Converted(m)[j].Tool?
    ensures forall x :: x in Converted(m) && x.Calling? ==> x.calls != []
  {
    hide Units, SaidIn, CalledIn, AnsweredIn;
    if m.content.Blocks? && m.content.blocks != [] {
      AnsweredAreTools(Units(m.content.blocks));
    }
  }

  // ---- order across kinds ----

  /** The position of a kind in the turn's messages: calls follow the turn's own words, and pull the results behind. */
  function Place(u: Unit, calling: bool): nat {
    match u
    case Said(_) => if calling then 0 else 1
    case Called(_) => if calling then 1 else 2
    case Answered(_, _) => if calling then 2 else 0
  }

  predicate InPlace(us: seq<Unit>, calling: bool) {
    forall i, j :: 0 <= i < j < |us| ==> Place(us[i], calling) <= Place(us[j], calling)
  }

  lemma {:induction false} ByKindInPlace(us: seq<Unit>)
    ensures InPlace(ByKind(us), Only(us, Asked) != [])
  {
    hide Only;
  }

  lemma {:induction false} LateKind(us: seq<Unit>, k: Rank, calling: bool)
    requires us != [] && InPlace(us, calling)
    requires forall u: Unit :: RankOf(u) == k ==> Place(u, calling) > Place(us[|us| - 1], calling)
    ensures Only(us, k) == []
  {
    if |us| > 1 {
      var init := us[..|us| - 1];
      assert Place(init[|init| - 1], calling) <= Place(us[|us| - 1], calling);
      LateKind(init, k, calling);
    }
    assert RankOf(us[|us| - 1]) != k;
    assert |us| == 1 ==> Only(us[..0], k) == [];
  }

  lemma {:induction false} OnlySnoc(us: seq<Unit>, u: Unit, k: Rank)
    ensures Only(us + [u], k) == if RankOf(u) == k then Only(us, k) + [u] else Only(us, k)
  {
    assert (us + [u])[..|us|] == us;
  }

  /** When the last unit stands before a kind's place, the list has nothing of that kind. */
  lemma {:induction false} NoneLater(us: seq<Unit>, calling: bool)
    requires us != [] && InPlace(us, calling)
    ensures calling && !us[|us| - 1].Answered? ==> Only(us, Replied) == []
    ensures calling && us[|us| - 1].Said? ==> Only(us, Asked) == []
    ensures !calling && us[|us| - 1].Answered? ==> Only(us, Spoken) == []
  {
    hide Only, InPlace;
    var u := us[|us| - 1];
    if calling && !u.Answered? {
      LateKind(us, Replied, true);
    }
    if calling && u.Said? {
      LateKind(us, Asked, true);
    }
    if !calling && u.Answered? {
      LateKind(us, Spoken, false);
    }
  }

  lemma Regroup(s: seq<Unit>, a: seq<Unit>, r: seq<Unit>, u: Unit)
    ensures s + a + r + [u] == s + a + (r + [u])
    ensures a + r + [u] == a + (r + [u])
    ensures r == [] ==> s + a + r + [u] == s + (a + [u]) + r && a + r + [u] == (a + [u]) + r
    ensures a == [] && r == [] ==> s + a + r + [u] == (s + [u]) + a + r
  {
  }

  lemma {:induction false} CallingIsByKind(us: seq<Unit>)
    requires InPlace(us, true)
    ensures us == Only(us, Spoken) + Only(us, Asked) + Only(us, Replied)
  {
    if us != [] {
      hide Only, InPlace, RankOf;
      var init, u := us[..|us| - 1], us[|us| - 1];
      InPlaceInit(us, true);
      CallingIsByKind(init);
      NoneLater(us, true);
      assert us == init + [u];
      Extends(init, u);
      var s, a, r := Only(init, Spoken), Only(init, Asked), Only(init, Replied);
      if u.Said? {
        assert a == [] && r == [];
      } else if u.Called? {
        assert r == [];
      }
      Regroup(s, a, r, u);
    }
  }

  lemma {:induction false} QuietIsByKind(us: seq<Unit>)
    requires InPlace(us, false) && Only(us, Asked) == []
    ensures us == Only(us, Replied) + Only(us, Spoken)
  {
    if us != [] {
      hide Only, InPlace, RankOf;
      var init, u := us[..|us| - 1], us[|us| - 1];
      assert us == init + [u];
      Extends(init, u);
      InPlaceInit(us, false);
      QuietIsByKind(init);
      NoneLater(us, false);
      var s, r := Only(init, Spoken), Only(init, Replied);
      if u.Answered? {
        assert s == [];
      }
      Regroup([], r, s, u);
    }
  }

  lemma {:induction false} Extends(us: seq<Unit>, u: Unit)
    ensures Only(us + [u], Spoken) == if u.Said? then Only(us, Spoken) + [u] else Only(us, Spoken)
    ensures Only(us + [u], Asked) == if u.Called? then Only(us, Asked) + [u] else Only(us, Asked)
    ensures Only(us + [u], Replied) == if u.Answered? then Only(us, Replied) + [u] else Only(us, Replied)
  {
    OnlySnoc(us, u, Spoken);
    OnlySnoc(us, u, Asked);
    OnlySnoc(us, u, Replied);
  }

  lemma InPlaceInit(us: seq<Unit>, calling: bool)
    requires us != [] && InPlace(us, calling)
    ensures InPlace(us[..|us| - 1], calling)
  {
  }

  /** A turn keeps its order across kinds too exactly when its blocks already stand in the places of their kinds. */
  lemma OrderKeptExactly(m: Message)
    requires !m.content.Malformed?
    ensures ReadAll(Converted(m)) == MessageUnits(m)
       <==> InPlace(MessageUnits(m), Only(MessageUnits(m), Asked) != [])
  {
    hide Only, ReadAll, Converted, MessageUnits;
    ConvertedReads(m);
    var us := MessageUnits(m);
    ByKindInPlace(us);
    if InPlace(us, Only(us, Asked) != []) {
      if Only(us, Asked) != [] {
        CallingIsByKind(us);
      } else {
        QuietIsByKind(us);
      }
    }
  }

  // ---- nothing vanishes without a word ----

  /** The nested blocks of tool results that are not text. */
  function NestedLost(bs: seq<Block>): nat {
    if bs == [] then 0
    else
      var b := bs[|bs| - 1];
      NestedLost(bs[..|bs| - 1])
      + if b.kind == "tool_result" && b.content.List? then NotText(b.content.blocks) else 0
  }

  function NotText(bs: seq<Nested>): nat {
    if bs == [] then 0 else NotText(bs[1..]) + if bs[0].kind == "text" then 0 else 1
  }

  lemma {:induction false} NotTextSnoc(bs: seq<Nested>)
    requires bs != []
    ensures NotText(bs) == NotText(bs[..|bs| - 1]) + if bs[|bs| - 1].kind == "text" then 0 else 1
  {
    if |bs| > 1 {
      NotTextSnoc(bs[1..]);
      assert bs[1..][..|bs| - 2] == bs[..|bs| - 1][1..];
    } else {
      assert bs[..0] == [] && bs[1..] == [];
    }
  }

  lemma {:induction false} NestedDropCount(bs: seq<Nested>)
    ensures |NestedDrops(bs)| == NotText(bs)
  {
    if bs != [] {
      NestedDropCount(bs[..|bs| - 1]);
      NotTextSnoc(bs);
    }
  }

  lemma BlockAccounted(b: Block)
    requires !Fatal(b)
    ensures |Drops(b)| ==
      1 - |UnitOf(b)| + if b.kind == "tool_result" && b.content.List? then NotText(b.content.blocks) else 0
  {
    if b.kind == "tool_result" && b.content.List? {
      NestedDropCount(b.content.blocks);
    }
  }

  /** Each block without a unit, and each nested block that is not text, gives exactly one note. */
  lemma {:induction false} OneNoteEach(bs: seq<Block>)
    requires forall i :: 0 <= i < |bs| ==> !Fatal(bs[i])
    ensures |Noted(AllDrops(bs))| == |bs| - |Units(bs)| + NestedLost(bs)
  {
    if bs != [] {
      hide Drops, UnitOf, NotText, Fatal, Noted;
      OneNoteEach(bs[..|bs| - 1]);
      BlockAccounted(bs[|bs| - 1]);
    }
  }

  lemma {:induction false} NoDrops(bs: seq<Block>)
    requires forall i :: 0 <= i < |bs| ==> Drops(bs[i]) == []
    ensures AllDrops(bs) == []
  {
    if bs != [] {
      NoDrops(bs[..|bs| - 1]);
    }
  }

  /** The texts that a tool result brings along. */
  function Carried(c: ToolContent): seq<string> {
    match c
    case Str(s) => [s]
    case List(bs) => NestedTexts(bs)
    case Missing => []
    case Foreign(raw) => [raw]
  }

  /** The one silent loss: a tool result whose content is neither a string nor blocks becomes empty, unreported. */
  lemma ResultKeptExactly(b: Block)
    requires b.kind == "tool_result"
    ensures ResultText(b.content) == Join(Carried(b.content)) <==> !b.content.Foreign? || b.content.raw == ""
    ensures b.content.Foreign? ==> Drops(b) == []
  {
  }

  /** A tool result whose content is the number 5: it is sent as an empty text, unrefused and unnoted. */
  lemma NumberResultLost(b: Block)
    requires b.kind == "tool_result" && b.content == Foreign("5")
    ensures UnitOf(b) == [Answered(b.toolUseId, "")] && !Refuses(b, false) && Drops(b) == []
    ensures Join(Carried(b.content)) == "5"
  {
  }

  /** What drop_params buys: every refusal of a turn but those for documents and audio. */
  lemma DropParamsBuys(bs: seq<Block>)
    ensures (exists i :: 0 <= i < |bs| && Refuses(bs[i], true)) <==> (exists i :: 0 <= i < |bs| && Fatal(bs[i]))
    ensures forall i :: 0 <= i < |bs| && Refuses(bs[i], false) ==> (ErrorOf(bs[i]).invites <==> !Refuses(bs[i], true))
  {
    hide Drops;
  }

  // ---- the tool list ----

  datatype ToolDecl = ToolDecl(name: string, kind: string, description: string, schema: string)

  datatype Defect = NoName | TooLong | BadChars | Twice

  const MAX_NAME: nat := 64

  predicate NameChar(c: char) {
    'a' <= c <= 'z' || 'A' <= c <= 'Z' || '0' <= c <= '9' || c == '_' || c == '-'
  }

  /** A name that Chat Completions takes. */
  predicate Portable(name: string) {
    0 < |name| <= MAX_NAME && forall i :: 0 <= i < |name| ==> NameChar(name[i])
  }

  /** `toolNameDefect`. */
  method ToolNameDefect(name: string, seen: set<string>) returns (d: Option<Defect>)
    ensures d.None? <==> Portable(name) && name !in seen
    ensures d == Some(NoName) <==> name == ""
    ensures d == Some(TooLong) <==> |name| > MAX_NAME
    ensures d == Some(BadChars) <==> |name| <= MAX_NAME && exists i :: 0 <= i < |name| && !NameChar(name[i])
    ensures d == Some(Twice) <==> Portable(name) && name in seen
  {
    if name == "" {
      return Some(NoName);
    }
    if |name| > MAX_NAME {
      return Some(TooLong);
    }
    for i := 0 to |name|
      invariant forall k :: 0 <= k < i ==> NameChar(name[k])
    {
      if !NameChar(name[i]) {
        return Some(BadChars);
      }
    }
    if name in seen {
      return Some(Twice);
    }
    return None;
  }

  /** The i-th declaration is the first with its name, and its name is portable. */
  predicate Survives(tools: seq<ToolDecl>, i: int) {
    0 <= i < |tools| && Portable(tools[i].name) && forall j :: 0 <= j < i ==> tools[j].name != tools[i].name
  }

  function Surviving(tools: seq<ToolDecl>, n: nat): (r: seq<ToolDecl>)
    requires n <= |tools|
    ensures forall t :: t in r ==> Portable(t.name)
  {
    if n == 0 then [] else Surviving(tools, n - 1) + if Survives(tools, n - 1) then [tools[n - 1]] else []
  }

  function ToolNotes(tools: seq<ToolDecl>, n: nat): seq<string>
    requires n <= |tools|
  {
    if n == 0 then []
    else
      var name := tools[n - 1].name;
      ToolNotes(tools, n - 1)
      + if Survives(tools, n - 1) then [] else ["tools." + (if name == "" then "<unnamed>" else name) + "=dropped"]
  }

  predicate ToolRefused(tools: seq<ToolDecl>, i: int, dropParams: bool) {
    0 <= i < |tools| && (tools[i].kind != "" || (!dropParams && !Survives(tools, i)))
  }

  /** The names seen are the portable ones among the first n declarations. */
  ghost predicate SeenBy(tools: seq<ToolDecl>, n: nat, seen: set<string>)
    requires n <= |tools|
  {
    forall name :: name in seen <==> Portable(name) && exists j :: 0 <= j < n && tools[j].name == name
  }

  lemma SeenNext(tools: seq<ToolDecl>, n: nat, seen: set<string>)
    requires n < |tools| && SeenBy(tools, n, seen)
    ensures Survives(tools, n) <==> Portable(tools[n].name) && tools[n].name !in seen
    ensures SeenBy(tools, n + 1, if Survives(tools, n) then seen + {tools[n].name} else seen)
  {
    hide Portable;
  }

  lemma SeenNothing(tools: seq<ToolDecl>)
    ensures SeenBy(tools, 0, {})
  {
  }

  /** The tool loop: what stays is every portable name once, at its first declaration. */
  method FilterTools(tools: seq<ToolDecl>, dropParams: bool)
    returns (r: Result<(seq<ToolDecl>, seq<string>)>)
    ensures r.Refused? <==> exists i :: ToolRefused(tools, i, dropParams)
    ensures r.Refused? ==> r.error == Error("tools", false)
    ensures r.Ok? ==> r.value == (Surviving(tools, |tools|), ToolNotes(tools, |tools|))
  {
    hide Portable, Survives, SeenBy;
    var kept, notes, seen := [], [], {};
    SeenNothing(tools);
    for i := 0 to |tools|
      invariant kept == Surviving(tools, i) && notes == ToolNotes(tools, i)
      invariant forall k :: k < i ==> !ToolRefused(tools, k, dropParams)
      invariant SeenBy(tools, i, seen)
    {
      if tools[i].kind != "" {
        assert ToolRefused(tools, i, dropParams);
        return Refused(Error("tools", false));
      }
      var defect := ToolNameDefect(tools[i].name, seen);
      SeenNext(tools, i, seen);
      if defect.Some? {
        if !dropParams {
          assert ToolRefused(tools, i, dropParams);
          return Refused(Error("tools", false));
        }
        var name := if tools[i].name == "" then "<unnamed>" else tools[i].name;
        notes := notes + ["tools." + name + "=dropped"];
      } else {
        seen := seen + {tools[i].name};
        kept := kept + [tools[i]];
      }
    }
    return Ok((kept, notes));
  }

  lemma {:induction false} SurvivingFrom(tools: seq<ToolDecl>, n: nat, t: ToolDecl)
    requires n <= |tools|
    ensures t in Surviving(tools, n) <==> exists i :: 0 <= i < n && Survives(tools, i) && tools[i] == t
  {
    if n > 0 {
      SurvivingFrom(tools, n - 1, t);
    }
  }

  /** The names that stay are exactly the portable names declared, each once; the rest have one note each. */
  lemma {:induction false} SurvivingNames(tools: seq<ToolDecl>, n: nat)
    requires n <= |tools|
    ensures |Surviving(tools, n)| + |ToolNotes(tools, n)| == n
    ensures var r := Surviving(tools, n); forall i, j :: 0 <= i < j < |r| ==> r[i].name != r[j].name
    ensures forall name :: (exists i :: 0 <= i < n && tools[i].name == name && Portable(name))
                      <==> (exists t :: t in Surviving(tools, n) && t.name == name)
  {
    if n > 0 {
      hide Portable, ToolNotes;
      SurvivingNames(tools, n - 1);
      NotesNext(tools, n);
      var r, t := Surviving(tools, n - 1), tools[n - 1];
      if Survives(tools, n - 1) {
        forall i | 0 <= i < |r| ensures r[i].name != t.name {
          SurvivingFrom(tools, n - 1, r[i]);
        }
        assert t in Surviving(tools, n);
      }
      forall name ensures (exists i :: 0 <= i < n && tools[i].name == name && Portable(name))
                     <==> (exists t :: t in Surviving(tools, n) && t.name == name)
      {
        NamesNext(tools, n, name);
      }
    }
  }

  /** The notes name the declarations that do not stay. */
  lemma {:induction false} ToolNotesAre(tools: seq<ToolDecl>, n: nat, note: string)
    requires n <= |tools|
    ensures note in ToolNotes(tools, n) <==>
              exists i :: 0 <= i < n && !Survives(tools, i)
                && note == "tools." + (if tools[i].name == "" then "<unnamed>" else tools[i].name) + "=dropped"
  {
    if n > 0 {
      hide Survives;
      ToolNotesAre(tools, n - 1, note);
    }
  }

  lemma NotesNext(tools: seq<ToolDecl>, n: nat)
    requires 0 < n <= |tools|
    ensures |ToolNotes(tools, n)| == |ToolNotes(tools, n - 1)| + if Survives(tools, n - 1) then 0 else 1
  {
  }

  lemma NamesNext(tools: seq<ToolDecl>, n: nat, name: string)
    requires 0 < n <= |tools|
    requires (exists i :: 0 <= i < n - 1 && tools[i].name == name && Portable(name))
        <==> (exists t :: t in Surviving(tools, n - 1) && t.name == name)
    ensures (exists i :: 0 <= i < n && tools[i].name == name && Portable(name))
       <==> (exists t :: t in Surviving(tools, n) && t.name == name)
  {
    hide Portable;
    var r := Surviving(tools, n);
    if Survives(tools, n - 1) {
      assert r == Surviving(tools, n - 1) + [tools[n - 1]];
      assert tools[n - 1] in r;
    } else {
      assert r == Surviving(tools, n - 1);
    }
  }
}
