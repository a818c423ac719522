/**
 Responses input items to Chat Completions messages, convert/responses.go:192-286, 334-399, 533-560, on decoded
 values. `hash` stands for the short hash that names a call without an id.
 */
module ResponsesRequest {
  import opened Wrappers
  import Bytes
  import M = MessagesRequest

  type Part = M.Part
  type ToolCall = M.ToolCall
  type ChatMessage = M.ChatMessage
  type Error = M.Error

  datatype InputPart = InputPart(kind: string, text: string, refusal: string, imageUrl: string)

  datatype Content = Absent | Str(text: string) | Parts(parts: seq<InputPart>) | Malformed

  /** `Raw` is any other JSON value, whose text is passed on. */
  datatype Output = NoOutput | OutStr(text: string) | OutParts(parts: seq<InputPart>) | Raw(raw: string)

  datatype Item = Item(
    kind: string,
    role: string,
    callId: string,
    name: string,
    arguments: string,
    content: Content,
    output: Output)

  datatype Sort = CallItem | OutputItem | DroppedItem | SystemItem | TurnItem

  /** The item kinds without a turn in the chat dialect. */
  const HOSTED: set<string> := {
    "reasoning", "item_reference", "image_generation_call", "web_search_call", "file_search_call", "computer_call",
    "computer_call_output", "code_interpreter_call", "mcp_call", "mcp_list_tools", "mcp_approval_request",
    "custom_tool_call", "custom_tool_call_output", "local_shell_call", "function_approval_call", "compaction"
  }

  function SortOf(it: Item): Sort {
    if it.kind == "function_call" then CallItem
    else if it.kind == "function_call_output" then OutputItem
    else if it.kind in HOSTED then DroppedItem
    else if it.role == "" && it.kind != "" then DroppedItem
    else if it.role == "system" || it.role == "developer" then SystemItem
    else TurnItem
  }

  // ---- content parts ----

  predicate IsText(p: InputPart) {
    p.kind in {"input_text", "output_text", "text", "refusal", "summary_text"}
  }

  function PartText(p: InputPart): string {
    if p.text == "" then p.refusal else p.text
  }

  /** The chat part that an input part becomes; an empty text becomes nothing. */
  function ChatPart(p: InputPart): seq<Part> {
    if IsText(p) then (if PartText(p) == "" then [] else [M.TextPart(PartText(p))])
    else if p.kind == "input_image" && p.imageUrl != "" then [M.ImagePart(p.imageUrl)]
    else []
  }

  function DroppedPart(p: InputPart): seq<string> {
    if IsText(p) || p.kind == "file" then []
    else if p.kind == "input_image" then (if p.imageUrl == "" then ["input_image"] else [])
    else if p.kind == "" then ["content_part"]
    else [p.kind]
  }

  function PartError(p: InputPart, dropParams: bool): Option<Error> {
    if p.kind == "file" then Some(M.Error("file", false))
    else if !dropParams && DroppedPart(p) != [] then Some(M.Error(DroppedPart(p)[0], true))
    else None
  }

  function ChatParts(ps: seq<InputPart>): seq<Part> {
    if ps == [] then [] else ChatParts(ps[..|ps| - 1]) + ChatPart(ps[|ps| - 1])
  }

  function DroppedParts(ps: seq<InputPart>): seq<string> {
    if ps == [] then [] else DroppedParts(ps[..|ps| - 1]) + DroppedPart(ps[|ps| - 1])
  }

  function PartsError(ps: seq<InputPart>, dropParams: bool): Option<Error> {
    if ps == [] then None
    else if PartError(ps[0], dropParams).Some? then PartError(ps[0], dropParams)
    else PartsError(ps[1..], dropParams)
  }

  /** Everything an item says, whatever its role. */
  function Said(c: Content): seq<Part> {
    match c
    case Str(s) => if s == "" then [] else [M.TextPart(s)]
    case Parts(ps) => ChatParts(ps)
    case Absent => []
    case Malformed => []
  }

  /** `convertInputItem`'s pair: one text alone, or the parts. */
  function Flat(c: Content): (string, seq<Part>) {
    match c
    case Str(s) => (s, [])
    case Parts(ps) =>
      var cs := ChatParts(ps);
      if |cs| == 1 && cs[0].TextPart? then (cs[0].text, []) else ("", cs)
    case Absent => ("", [])
    case Malformed => ("", [])
  }

  function ContentError(c: Content, dropParams: bool): Option<Error> {
    match c
    case Malformed => Some(M.Error("content", false))
    case Parts(ps) => PartsError(ps, dropParams)
    case Str(_) => None
    case Absent => None
  }

  function ContentDrops(c: Content): seq<string> {
    if c.Parts? then DroppedParts(c.parts) else []
  }

  method ConvertPart(p: InputPart, dropParams: bool, parts: seq<Part>, notes: seq<string>)
    returns (r: M.Result<(seq<Part>, seq<string>)>)
    ensures r.Refused? ==> PartError(p, dropParams) == Some(r.error)
    ensures r.Ok? ==> PartError(p, dropParams).None? && r.value == (parts + ChatPart(p), notes + M.Noted(DroppedPart(p)))
  {
    M.NothingNoted();
    assert parts + [] == parts && notes + [] == notes;
    if IsText(p) {
      var s := p.text;
      if s == "" {
        s := p.refusal;
      }
      if s == "" {
        return M.Ok((parts, notes));
      }
      return M.Ok((parts + [M.TextPart(s)], notes));
    }
    if p.kind == "input_image" && p.imageUrl != "" {
      return M.Ok((parts + [M.ImagePart(p.imageUrl)], notes));
    }
    if p.kind == "file" {
      return M.Refused(M.Error("file", false));
    }
    var name := if p.kind == "" then "content_part" else p.kind;
    M.NotedOne(name);
    var d := M.Drop(name, dropParams, notes);
    if d.Refused? {
      return M.Refused(d.error);
    }
    return M.Ok((parts, d.value));
  }

  /** `convertInputItem`. */
  method ConvertInputItem(c: Content, dropParams: bool, notes: seq<string>)
    returns (r: M.Result<((string, seq<Part>), seq<string>)>)
    ensures r.Refused? ==> ContentError(c, dropParams) == Some(r.error)
    ensures r.Ok? ==> ContentError(c, dropParams).None? && r.value == (Flat(c), notes + M.Noted(ContentDrops(c)))
  {
    hide M.Noted, PartError, DroppedPart, ChatPart;
    M.NothingNoted();
    assert notes + [] == notes;
    match c
    case Malformed =>
      return M.Refused(M.Error("content", false));
    case Absent =>
      return M.Ok((("", []), notes));
    case Str(s) =>
      return M.Ok(((s, []), notes));
    case Parts(ps) =>
      var parts, out := [], notes;
      for i := 0 to |ps|
        invariant parts == ChatParts(ps[..i]) && out == notes + M.Noted(DroppedParts(ps[..i]))
        invariant PartsError(ps, dropParams) == PartsError(ps[i..], dropParams)
      {
        assert ps[..i + 1][..i] == ps[..i] && ps[i..][1..] == ps[i + 1..];
        var one := ConvertPart(ps[i], dropParams, parts, out);
        if one.Refused? {
          return M.Refused(one.error);
        }
        M.NotedAppend(DroppedParts(ps[..i]), DroppedPart(ps[i]));
        Bytes.Assoc(notes, M.Noted(DroppedParts(ps[..i])), M.Noted(DroppedPart(ps[i])));
        parts, out := one.value.0, one.value.1;
      }
      assert ps[..|ps|] == ps;
      if |parts| == 1 && parts[0].TextPart? {
        return M.Ok(((parts[0].text, []), out));
      }
      return M.Ok((("", parts), out));
  }

  // ---- tool output ----

  predicate IsOutputText(p: InputPart) {
    p.kind == "output_text" || p.kind == "input_text" || p.kind == "text"
  }

  function OutputTexts(ps: seq<InputPart>): string {
    if ps == [] then ""
    else OutputTexts(ps[..|ps| - 1]) + if IsOutputText(ps[|ps| - 1]) then ps[|ps| - 1].text else ""
  }

  function OutputDrop(p: InputPart): seq<string> {
    if IsOutputText(p) then [] else if p.kind == "" then ["tool_output_part"] else [p.kind]
  }

  function OutputPartDrops(ps: seq<InputPart>): seq<string> {
    if ps == [] then [] else OutputPartDrops(ps[..|ps| - 1]) + OutputDrop(ps[|ps| - 1])
  }

  function OutputText(o: Output): string {
    match o
    case NoOutput => ""
    case OutStr(s) => s
    case OutParts(ps) => OutputTexts(ps)
    case Raw(raw) => raw
  }

  function OutputDrops(o: Output): seq<string> {
    if o.OutParts? then OutputPartDrops(o.parts) else []
  }

  lemma NoOutputParts()
    ensures OutputTexts([]) == "" && OutputPartDrops([]) == []
  {
  }

  lemma NextOutputPart(ps: seq<InputPart>, i: nat)
    requires i < |ps|
    ensures OutputTexts(ps[..i + 1]) == OutputTexts(ps[..i]) + if IsOutputText(ps[i]) then ps[i].text else ""
    ensures OutputTexts(ps[..i]) + "" == OutputTexts(ps[..i])
    ensures OutputPartDrops(ps[..i + 1]) ==
              if IsOutputText(ps[i]) then OutputPartDrops(ps[..i]) else OutputPartDrops(ps[..i]) + OutputDrop(ps[i])
  {
    assert ps[..i + 1][..i] == ps[..i];
    assert OutputPartDrops(ps[..i]) + [] == OutputPartDrops(ps[..i]);
  }

  lemma {:induction false} FirstDropStays(ps: seq<InputPart>, i: nat)
    requires i <= |ps| && OutputPartDrops(ps[..i]) != []
    ensures OutputPartDrops(ps) != [] && OutputPartDrops(ps)[0] == OutputPartDrops(ps[..i])[0]
    decreases |ps|
  {
    if i == |ps| {
      assert ps[..i] == ps;
    } else {
      assert ps[..|ps| - 1][..i] == ps[..i];
      FirstDropStays(ps[..|ps| - 1], i);
    }
  }

  /** `itemOutput`; the text parts are run together. */
  method ItemOutput(o: Output, dropParams: bool, notes: seq<string>) returns (r: M.Result<(string, seq<string>)>)
    ensures r.Refused? ==> OutputError(o, dropParams) == Some(r.error)
    ensures r.Ok? ==> OutputError(o, dropParams).None? && r.value == (OutputText(o), notes + M.Noted(OutputDrops(o)))
  {
    hide M.Noted, OutputTexts, OutputPartDrops;
    M.NothingNoted();
    assert notes + [] == notes;
    match o
    case NoOutput =>
      return M.Ok(("", notes));
    case OutStr(s) =>
      return M.Ok((s, notes));
    case Raw(raw) =>
      return M.Ok((raw, notes));
    case OutParts(ps) =>
      var text, out := "", notes;
      NoOutputParts();
      for i := 0 to |ps|
        invariant text == OutputTexts(ps[..i]) && out == notes + M.Noted(OutputPartDrops(ps[..i]))
        invariant !dropParams ==> OutputPartDrops(ps[..i]) == []
      {
        NextOutputPart(ps, i);
        if IsOutputText(ps[i]) {
          text := text + ps[i].text;
        } else {
          var name := if ps[i].kind == "" then "tool_output_part" else ps[i].kind;
          var d := M.Drop(name, dropParams, out);
          if d.Refused? {
            FirstDropStays(ps, i + 1);
            return M.Refused(d.error);
          }
          M.NotedAppend(OutputPartDrops(ps[..i]), [name]);
          M.NotedOne(name);
          Bytes.Assoc(notes, M.Noted(OutputPartDrops(ps[..i])), M.Noted([name]));
          out := d.value;
        }
      }
      assert ps[..|ps|] == ps;
      return M.Ok((text, out));
  }

  function OutputError(o: Output, dropParams: bool): Option<Error> {
    if !dropParams && OutputDrops(o) != [] then Some(M.Error(OutputDrops(o)[0], true)) else None
  }

  // ---- items ----

  function CallOf(it: Item, hash: string -> string): ToolCall {
    M.ToolCall(if it.callId == "" then "call_" + hash(it.name) else it.callId, it.name,
               if it.arguments == "" then "{}" else it.arguments)
  }

  function MessageOf(it: Item): ChatMessage {
    var (text, parts) := Flat(it.content);
    var role := if it.role == "" then "user" else it.role;
    if |parts| > 0 then M.Rich(role, parts) else M.Plain(role, text)
  }

  /** One step of a conversation: a call, or a message that is not a call. */
  datatype Turn = Call(call: ToolCall) | Message(message: ChatMessage)

  /** What an item adds to the conversation proper. */
  function TurnOf(it: Item, hash: string -> string): seq<Turn> {
    match SortOf(it)
    case CallItem => [Call(CallOf(it, hash))]
    case OutputItem => [Message(M.Tool(it.callId, OutputText(it.output)))]
    case TurnItem => [Message(MessageOf(it))]
    case DroppedItem => []
    case SystemItem => []
  }

  function Turns(items: seq<Item>, hash: string -> string): seq<Turn> {
    if items == [] then [] else Turns(items[..|items| - 1], hash) + TurnOf(items[|items| - 1], hash)
  }

  /** The text that an item adds to the leading system message. */
  function SystemText(it: Item): seq<string> {
    if SortOf(it).SystemItem? && Flat(it.content).0 != "" then [Flat(it.content).0] else []
  }

  function SystemTexts(items: seq<Item>): seq<string> {
    if items == [] then [] else SystemTexts(items[..|items| - 1]) + SystemText(items[|items| - 1])
  }

  function ItemNotes(it: Item): seq<string> {
    match SortOf(it)
    case CallItem => []
    case OutputItem => M.Noted(OutputDrops(it.output))
    case DroppedItem => ["input_item=dropped:" + it.kind]
    case SystemItem => M.Noted(ContentDrops(it.content))
    case TurnItem => M.Noted(ContentDrops(it.content))
  }

  function AllNotes(items: seq<Item>): seq<string> {
    if items == [] then [] else AllNotes(items[..|items| - 1]) + ItemNotes(items[|items| - 1])
  }

  function ItemError(it: Item, dropParams: bool): Option<Error> {
    match SortOf(it)
    case CallItem => None
    case OutputItem => OutputError(it.output, dropParams)
    case DroppedItem => if dropParams then None else Some(M.Error("input", true))
    case SystemItem => ContentError(it.content, dropParams)
    case TurnItem => ContentError(it.content, dropParams)
  }

  function FirstError(items: seq<Item>, dropParams: bool): Option<Error> {
    if items == [] then None
    else if ItemError(items[0], dropParams).Some? then ItemError(items[0], dropParams)
    else FirstError(items[1..], dropParams)
  }

  /** The conversation in a list of chat messages. */
  function ReadOne(m: ChatMessage): seq<Turn> {
    if m.Calling? then CallTurns(m.calls) else [Message(m)]
  }

  function CallTurns(cs: seq<ToolCall>): (r: seq<Turn>)
    ensures |r| == |cs|
  {
    if cs == [] then [] else CallTurns(cs[..|cs| - 1]) + [Call(cs[|cs| - 1])]
  }

  function Read(ms: seq<ChatMessage>): seq<Turn> {
    if ms == [] then [] else Read(ms[..|ms| - 1]) + ReadOne(ms[|ms| - 1])
  }

  predicate CallMessage(m: ChatMessage) {
    m.Calling? ==> m.parts == [] && m.calls != []
  }

  /** Calls are grouped: no empty group, no content beside a group, no two groups in a row. */
  predicate Grouped(ms: seq<ChatMessage>) {
    && (forall i :: 0 <= i < |ms| ==> CallMessage(ms[i]))
    && (forall i :: 0 < i < |ms| ==> !ms[i - 1].Calling? || !ms[i].Calling?)
  }

  predicate Settled(ms: seq<ChatMessage>) {
    Grouped(ms) && (ms != [] ==> !ms[|ms| - 1].Calling?)
  }

  datatype Acc = Acc(msgs: seq<ChatMessage>, calls: seq<ToolCall>, sys: seq<string>, notes: seq<string>)

  function Flushed(msgs: seq<ChatMessage>, calls: seq<ToolCall>): seq<ChatMessage> {
    if |calls| == 0 then msgs else msgs + [M.Calling([], calls)]
  }

  /** The accumulators after the loop has seen these items. */
  predicate Holds(acc: Acc, items: seq<Item>, instructions: string, hash: string -> string) {
    && Settled(acc.msgs)
    && Read(acc.msgs) + CallTurns(acc.calls) == Turns(items, hash)
    && acc.sys == (if instructions == "" then [] else [instructions]) + SystemTexts(items)
    && acc.notes == AllNotes(items)
  }

  function After(acc: Acc, it: Item, hash: string -> string): Acc {
    var noted := acc.(notes := acc.notes + ItemNotes(it));
    match SortOf(it)
    case CallItem => noted.(calls := acc.calls + [CallOf(it, hash)])
    case OutputItem =>
      noted.(msgs := Flushed(acc.msgs, acc.calls) + [M.Tool(it.callId, OutputText(it.output))], calls := [])
    case DroppedItem => noted
    case SystemItem => noted.(sys := acc.sys + SystemText(it))
    case TurnItem => noted.(msgs := Flushed(acc.msgs, acc.calls) + [MessageOf(it)], calls := [])
  }

  lemma {:induction false} ReadSnoc(ms: seq<ChatMessage>, m: ChatMessage)
    ensures Read(ms + [m]) == Read(ms) + ReadOne(m)
  {
    assert (ms + [m])[..|ms|] == ms;
  }

  lemma {:induction false} CallTurnsSnoc(cs: seq<ToolCall>, c: ToolCall)
    ensures CallTurns(cs + [c]) == CallTurns(cs) + [Call(c)]
  {
    assert (cs + [c])[..|cs|] == cs;
  }

  lemma {:induction false} FlushReads(msgs: seq<ChatMessage>, calls: seq<ToolCall>)
    requires Settled(msgs)
    ensures Grouped(Flushed(msgs, calls)) && Read(Flushed(msgs, calls)) == Read(msgs) + CallTurns(calls)
  {
    hide Read, CallTurns;
    if calls == [] {
      NoCallTurns();
      NothingAdded(Read(msgs));
    } else {
      ReadSnoc(msgs, M.Calling([], calls));
    }
  }

  lemma SaySettles(acc: Acc, m: ChatMessage)
    requires Settled(acc.msgs) && !m.Calling?
    ensures var out := Flushed(acc.msgs, acc.calls) + [m];
            Settled(out) && Read(out) == Read(acc.msgs) + CallTurns(acc.calls) + [Message(m)]
  {
    hide Read, CallTurns;
    FlushReads(acc.msgs, acc.calls);
    ReadSnoc(Flushed(acc.msgs, acc.calls), m);
  }

  lemma {:induction false} ItemsSnoc(items: seq<Item>, it: Item, hash: string -> string)
    ensures Turns(items + [it], hash) == Turns(items, hash) + TurnOf(it, hash)
    ensures SystemTexts(items + [it]) == SystemTexts(items) + SystemText(it)
    ensures AllNotes(items + [it]) == AllNotes(items) + ItemNotes(it)
  {
    hide SystemText, ItemNotes, TurnOf;
    assert (items + [it])[..|items|] == items;
  }

  lemma SystemTextOnly(it: Item)
    ensures !SortOf(it).SystemItem? ==> SystemText(it) == []
  {
  }

  lemma AfterHolds(acc: Acc, items: seq<Item>, it: Item, instructions: string, hash: string -> string)
    requires Holds(acc, items, instructions, hash)
    ensures Holds(After(acc, it, hash), items + [it], instructions, hash)
  {
    hide Read, CallTurns, Settled, SystemText, ItemNotes, MessageOf, CallOf, OutputText, SortOf, Flushed,
         Turns, SystemTexts, AllNotes;
    var lead := if instructions == "" then [] else [instructions];
    ItemsSnoc(items, it, hash);
    SystemTextOnly(it);
    Bytes.Assoc(lead, SystemTexts(items), SystemText(it));
    assert SystemTexts(items) + [] == SystemTexts(items);
    match SortOf(it)
    case CallItem =>
      CallTurnsSnoc(acc.calls, CallOf(it, hash));
      Bytes.Assoc(Read(acc.msgs), CallTurns(acc.calls), [Call(CallOf(it, hash))]);
    case OutputItem =>
      SaySettles(acc, M.Tool(it.callId, OutputText(it.output)));
      NoCallTurns();
      NothingAdded(Read(After(acc, it, hash).msgs));
    case TurnItem =>
      MessageIsPlain(it);
      SaySettles(acc, MessageOf(it));
      NoCallTurns();
      NothingAdded(Read(After(acc, it, hash).msgs));
    case DroppedItem =>
      NothingAdded(Turns(items, hash));
    case SystemItem =>
      NothingAdded(Turns(items, hash));
  }

  lemma NothingAdded(ts: seq<Turn>)
    ensures ts + [] == ts
  {
  }

  lemma NoCallTurns()
    ensures CallTurns([]) == []
  {
  }

  lemma MessageIsPlain(it: Item)
    ensures !MessageOf(it).Calling?
  {
  }

  /** One pass of the loop. */
  method ConvertItem(acc: Acc, it: Item, dropParams: bool, hash: string -> string) returns (r: M.Result<Acc>)
    ensures r.Refused? ==> ItemError(it, dropParams) == Some(r.error)
    ensures r.Ok? ==> ItemError(it, dropParams).None? && r.value == After(acc, it, hash)
  {
    hide Flat, OutputText, M.Noted, ContentDrops, OutputDrops, ContentError, OutputError;
    assert acc.notes + [] == acc.notes;
    if it.kind == "function_call" {
      return M.Ok(acc.(calls := acc.calls + [CallOf(it, hash)]));
    }
    if it.kind == "function_call_output" {
      var flushed := Flushed(acc.msgs, acc.calls);
      var body := ItemOutput(it.output, dropParams, acc.notes);
      if body.Refused? {
        return M.Refused(body.error);
      }
      return M.Ok(acc.(msgs := flushed + [M.Tool(it.callId, body.value.0)], calls := [], notes := body.value.1));
    }
    if it.kind in HOSTED || (it.role == "" && it.kind != "") {
      if !dropParams {
        return M.Refused(M.Error("input", true));
      }
      return M.Ok(acc.(notes := acc.notes + ["input_item=dropped:" + it.kind]));
    }
    var role := if it.role == "" then "user" else it.role;
    var flat := ConvertInputItem(it.content, dropParams, acc.notes);
    if flat.Refused? {
      return M.Refused(flat.error);
    }
    var ((text, parts), notes) := flat.value;
    if role == "system" || role == "developer" {
      return M.Ok(acc.(sys := if text != "" then acc.sys + [text] else acc.sys + [], notes := notes));
    }
    var m := if |parts| > 0 then M.Rich(role, parts) else M.Plain(role, text);
    return M.Ok(acc.(msgs := Flushed(acc.msgs, acc.calls) + [m], calls := [], notes := notes));
  }

  function Leading(sys: seq<string>): seq<ChatMessage> {
    if |sys| > 0 then [M.Plain("system", M.Join(sys))] else []
  }

  /**
   The item loop of `ResponsesToChat`. It refuses with the first item's error that stops it, or gives the
   system message and behind it the conversation, its calls grouped.
   */
  method ConvertItems(instructions: string, items: seq<Item>, dropParams: bool, hash: string -> string)
    returns (r: M.Result<(seq<ChatMessage>, seq<string>)>)
    ensures r.Refused? ==> FirstError(items, dropParams) == Some(r.error)
    ensures r.Ok? ==>
              && FirstError(items, dropParams).None?
              && r.value.1 == AllNotes(items)
              && exists body ::
                && r.value.0 == Leading((if instructions == "" then [] else [instructions]) + SystemTexts(items)) + body
                && Grouped(body) && Read(body) == Turns(items, hash)
  {
    hide ItemError, After, Settled, Grouped, Read, CallTurns, Flushed, Leading, Turns, SystemTexts, AllNotes;
    var acc := Acc([], [], if instructions == "" then [] else [instructions], []);
    assert Holds(acc, [], instructions, hash) by {
      HoldsAtFirst(instructions, hash);
    }
    for i := 0 to |items|
      invariant Holds(acc, items[..i], instructions, hash)
      invariant FirstError(items, dropParams) == FirstError(items[i..], dropParams)
    {
      assert items[i..][1..] == items[i + 1..] && items[i..][0] == items[i];
      assert items[..i] + [items[i]] == items[..i + 1];
      var step := ConvertItem(acc, items[i], dropParams, hash);
      if step.Refused? {
        return M.Refused(step.error);
      }
      AfterHolds(acc, items[..i], items[i], instructions, hash);
      acc := step.value;
    }
    assert items[..|items|] == items && items[|items|..] == [];
    var body := Flushed(acc.msgs, acc.calls);
    FlushReads(acc.msgs, acc.calls);
    return M.Ok((Leading(acc.sys) + body, acc.notes));
  }

  lemma HoldsAtFirst(instructions: string, hash: string -> string)
    ensures Holds(Acc([], [], if instructions == "" then [] else [instructions], []), [], instructions, hash)
  {
  }

  // ---- the contract determines the result ----

  /** How many calls end a conversation. */
  function Trailing(ts: seq<Turn>): nat {
    if ts == [] || ts[|ts| - 1].Message? then 0 else 1 + Trailing(ts[..|ts| - 1])
  }

  lemma {:induction false} TrailingCalls(ts: seq<Turn>, cs: seq<ToolCall>)
    ensures Trailing(ts + CallTurns(cs)) == Trailing(ts) + |cs|
  {
    if cs == [] {
      assert ts + [] == ts;
    } else {
      var init := cs[..|cs| - 1];
      TrailingCalls(ts, init);
      Bytes.Assoc(ts, CallTurns(init), [Call(cs[|cs| - 1])]);
      var all := ts + CallTurns(cs);
      assert all[..|all| - 1] == ts + CallTurns(init);
    }
  }

  lemma {:induction false} SettledTrails(ms: seq<ChatMessage>)
    requires Settled(ms)
    ensures Trailing(Read(ms)) == 0
  {
  }

  lemma GroupedInit(ms: seq<ChatMessage>)
    requires ms != [] && Grouped(ms)
    ensures Grouped(ms[..|ms| - 1]) && CallMessage(ms[|ms| - 1])
    ensures ms[|ms| - 1].Calling? ==> Settled(ms[..|ms| - 1])
  {
    var n := |ms| - 1;
    assert n > 0 ==> ms[..n][n - 1] == ms[n - 1];
  }

  lemma {:induction false} CallTurnsInjective(a: seq<ToolCall>, b: seq<ToolCall>)
    requires CallTurns(a) == CallTurns(b)
    ensures a == b
  {
    if a != [] {
      var x, y := CallTurns(a), CallTurns(b);
      assert x[..|x| - 1] == CallTurns(a[..|a| - 1]) && y[..|y| - 1] == CallTurns(b[..|b| - 1]);
      assert x[|x| - 1] == Call(a[|a| - 1]) && y[|y| - 1] == Call(b[|b| - 1]);
      CallTurnsInjective(a[..|a| - 1], b[..|b| - 1]);
      assert a == a[..|a| - 1] + [a[|a| - 1]] && b == b[..|b| - 1] + [b[|b| - 1]];
    }
  }

  /** The last message is a group exactly when the conversation ends in calls, and the group is all of them. */
  lemma LastGroup(ms: seq<ChatMessage>)
    requires Grouped(ms)
    ensures Trailing(Read(ms)) == if ms != [] && ms[|ms| - 1].Calling? then |ms[|ms| - 1].calls| else 0
  {
    if ms != [] && ms[|ms| - 1].Calling? {
      GroupedInit(ms);
      TrailingCalls(Read(ms[..|ms| - 1]), ms[|ms| - 1].calls);
      SettledTrails(ms[..|ms| - 1]);
    } else {
      SettledTrails(ms);
    }
  }

  lemma SplitSame(a: seq<Turn>, x: seq<Turn>, b: seq<Turn>, y: seq<Turn>)
    requires a + x == b + y && |x| == |y|
    ensures a == b && x == y
  {
    assert a == (a + x)[..|a|] && b == (b + y)[..|b|];
    assert x == (a + x)[|a|..] && y == (b + y)[|b|..];
  }

  lemma ReadOneLength(m: ChatMessage)
    requires CallMessage(m)
    ensures |ReadOne(m)| == if m.Calling? then |m.calls| else 1
    ensures m.Calling? ==> |m.calls| > 0
  {
  }

  lemma SameMessage(x: ChatMessage, y: ChatMessage)
    requires CallMessage(x) && CallMessage(y) && ReadOne(x) == ReadOne(y) && x.Calling? == y.Calling?
    ensures x == y
  {
    if x.Calling? {
      CallTurnsInjective(x.calls, y.calls);
    }
  }

  /** Two grouped lists with the same conversation are the same list. */
  lemma {:induction false} GroupingUnique(a: seq<ChatMessage>, b: seq<ChatMessage>)
    requires Grouped(a) && Grouped(b) && Read(a) == Read(b)
    ensures a == b
  {
    hide Grouped, ReadOne, CallMessage, Trailing;
    LastGroup(a);
    LastGroup(b);
    if a == [] {
      ReadsNothing(b);
    } else if b == [] {
      ReadsNothing(a);
    } else {
      var x, y := a[|a| - 1], b[|b| - 1];
      var ia, ib := a[..|a| - 1], b[..|b| - 1];
      GroupedInit(a);
      GroupedInit(b);
      ReadOneLength(x);
      ReadOneLength(y);
      SplitSame(Read(ia), ReadOne(x), Read(ib), ReadOne(y));
      SameMessage(x, y);
      GroupingUnique(ia, ib);
      assert a == ia + [x] && b == ib + [y];
    }
  }

  lemma {:induction false} ReadsNothing(ms: seq<ChatMessage>)
    requires Grouped(ms) && Read(ms) == []
    ensures ms == []
  {
  }

  // ---- what the conversation keeps ----

  function CallItems(items: seq<Item>, hash: string -> string): seq<ToolCall> {
    if items == [] then []
    else
      CallItems(items[..|items| - 1], hash)
      + if items[|items| - 1].kind == "function_call" then [CallOf(items[|items| - 1], hash)] else []
  }

  function AllCalls(ms: seq<ChatMessage>): seq<ToolCall> {
    if ms == [] then [] else AllCalls(ms[..|ms| - 1]) + if ms[|ms| - 1].Calling? then ms[|ms| - 1].calls else []
  }

  function CallsIn(ts: seq<Turn>): seq<ToolCall> {
    if ts == [] then [] else CallsIn(ts[..|ts| - 1]) + if ts[|ts| - 1].Call? then [ts[|ts| - 1].call] else []
  }

  lemma {:induction false} CallsInAppend(a: seq<Turn>, b: seq<Turn>)
    ensures CallsIn(a + b) == CallsIn(a) + CallsIn(b)
  {
    if b == [] {
      assert a + b == a;
    } else {
      assert (a + b)[..|a + b| - 1] == a + b[..|b| - 1];
      CallsInAppend(a, b[..|b| - 1]);
    }
  }

  lemma {:induction false} CallsOfTurns(cs: seq<ToolCall>)
    ensures CallsIn(CallTurns(cs)) == cs
  {
    if cs != [] {
      var init, ts := cs[..|cs| - 1], CallTurns(cs);
      CallsOfTurns(init);
      assert ts[..|ts| - 1] == CallTurns(init);
      assert cs == init + [cs[|cs| - 1]];
    }
  }

  lemma {:induction false} CallsRead(ms: seq<ChatMessage>)
    ensures AllCalls(ms) == CallsIn(Read(ms))
  {
    if ms != [] {
      var init, m := ms[..|ms| - 1], ms[|ms| - 1];
      CallsRead(init);
      CallsInAppend(Read(init), ReadOne(m));
      if m.Calling? {
        CallsOfTurns(m.calls);
      }
    }
  }

  lemma {:induction false} CallsAsked(items: seq<Item>, hash: string -> string)
    ensures CallsIn(Turns(items, hash)) == CallItems(items, hash)
  {
    if items != [] {
      hide CallOf, MessageOf, OutputText;
      var init, it := items[..|items| - 1], items[|items| - 1];
      CallsAsked(init, hash);
      CallsInAppend(Turns(init, hash), TurnOf(it, hash));
      assert |TurnOf(it, hash)| == 1 ==> TurnOf(it, hash)[..0] == [];
    }
  }

  /** The tool calls of the messages, run together, are the function_call items in order. */
  lemma {:induction false} CallsConserved(body: seq<ChatMessage>, items: seq<Item>, hash: string -> string)
    requires Read(body) == Turns(items, hash)
    ensures AllCalls(body) == CallItems(items, hash)
  {
    CallsRead(body);
    CallsAsked(items, hash);
  }

  /** What a message says, whether as one text or as parts. */
  function MessageParts(m: ChatMessage): seq<Part> {
    match m
    case Plain(_, s) => if s == "" then [] else [M.TextPart(s)]
    case Rich(_, ps) => ps
    case Calling(ps, _) => ps
    case Tool(_, _) => []
  }

  lemma {:induction false} NoEmptyText(ps: seq<InputPart>)
    ensures forall p :: p in ChatParts(ps) && p.TextPart? ==> p.text != ""
  {
    if ps != [] {
      NoEmptyText(ps[..|ps| - 1]);
    }
  }

  /** A message turn says what its item says, in the item's role. */
  lemma TurnSaysAll(it: Item)
    ensures MessageParts(MessageOf(it)) == Said(it.content)
    ensures MessageOf(it).role == if it.role == "" then "user" else it.role
  {
    hide ChatParts;
    if it.content.Parts? {
      NoEmptyText(it.content.parts);
      var cs := ChatParts(it.content.parts);
      assert |cs| == 1 ==> cs == [cs[0]];
    }
  }

  // ---- the system message ----

  /** An item whose content comes down to at most one text. */
  predicate Foldable(c: Content) {
    c.Parts? ==> var cs := ChatParts(c.parts); cs == [] || (|cs| == 1 && cs[0].TextPart?)
  }

  function SystemSaid(items: seq<Item>): seq<Part> {
    if items == [] then []
    else
      SystemSaid(items[..|items| - 1])
      + if SortOf(items[|items| - 1]).SystemItem? then Said(items[|items| - 1].content) else []
  }

  function AsParts(texts: seq<string>): (r: seq<Part>)
    ensures |r| == |texts|
  {
    if texts == [] then [] else AsParts(texts[..|texts| - 1]) + [M.TextPart(texts[|texts| - 1])]
  }

  lemma AsPartsOne(s: string)
    ensures AsParts([s]) == [M.TextPart(s)]
  {
    assert [s][..0] == [];
  }

  lemma {:induction false} AsPartsAppend(a: seq<string>, b: seq<string>)
    ensures AsParts(a + b) == AsParts(a) + AsParts(b)
  {
    if b == [] {
      assert a + b == a;
    } else {
      assert (a + b)[..|a + b| - 1] == a + b[..|b| - 1];
      AsPartsAppend(a, b[..|b| - 1]);
    }
  }

  /** One system item: what it says is folded in whole, or, being more than one text, not at all. */
  lemma FoldsOrLoses(it: Item)
    requires SortOf(it).SystemItem?
    ensures AsParts(SystemText(it)) == if Foldable(it.content) then Said(it.content) else []
    ensures !Foldable(it.content) ==> Said(it.content) != []
  {
    hide ChatParts;
    if it.content.Parts? {
      NoEmptyText(it.content.parts);
      var cs := ChatParts(it.content.parts);
      assert |cs| == 1 ==> cs == [cs[0]];
    }
    AsPartsOne(Flat(it.content).0);
  }

  predicate AllFold(items: seq<Item>) {
    forall i :: 0 <= i < |items| && SortOf(items[i]).SystemItem? ==> Foldable(items[i].content)
  }

  lemma AllFoldLast(items: seq<Item>)
    requires items != []
    ensures var it := items[|items| - 1];
            AllFold(items) <==> AllFold(items[..|items| - 1]) && (SortOf(it).SystemItem? ==> Foldable(it.content))
  {
    hide SortOf, Foldable;
    var n := |items| - 1;
    assert items == items[..n] + [items[n]];
  }

  /** The folded texts fall short by what the unfoldable items say. */
  lemma {:induction false} FoldLength(items: seq<Item>)
    ensures |SystemTexts(items)| <= |SystemSaid(items)|
    ensures |SystemTexts(items)| == |SystemSaid(items)| <==> AllFold(items)
  {
    if items != [] {
      hide SystemText, Said, Foldable, SortOf, AsParts, AllFold;
      AllFoldLast(items);
      var init, it := items[..|items| - 1], items[|items| - 1];
      FoldLength(init);
      SystemTextOnly(it);
      if SortOf(it).SystemItem? {
        FoldsOrLoses(it);
        assert |AsParts(SystemText(it))| == |SystemText(it)| by { AsPartsLength(SystemText(it)); }
      }
    }
  }

  lemma {:induction false} AsPartsLength(texts: seq<string>)
    ensures |AsParts(texts)| == |texts|
  {
  }

  lemma {:induction false} FoldWhole(items: seq<Item>)
    requires AllFold(items)
    ensures AsParts(SystemTexts(items)) == SystemSaid(items)
  {
    if items != [] {
      hide SystemText, Said, Foldable, SortOf, AllFold;
      AllFoldLast(items);
      var init, it := items[..|items| - 1], items[|items| - 1];
      FoldWhole(init);
      AsPartsAppend(SystemTexts(init), SystemText(it));
      if SortOf(it).SystemItem? {
        FoldsOrLoses(it);
      } else {
        SystemTextOnly(it);
      }
    }
  }

  /**
   The leading message holds what the system and developer items say, in order, exactly when each of them comes
   down to one text; an item with two texts or an image vanishes, without a note.
   */
  lemma {:induction false} SystemFoldedExactly(items: seq<Item>)
    ensures AsParts(SystemTexts(items)) == SystemSaid(items) <==> AllFold(items)
  {
    FoldLength(items);
    if AllFold(items) {
      FoldWhole(items);
    }
  }

  /** A developer item with two texts is lost although nothing is refused or noted. */
  lemma TwoTextsLost()
    ensures var two := Parts([InputPart("input_text", "a", "", ""), InputPart("input_text", "b", "", "")]);
            var it := Item("message", "developer", "", "", "", two, NoOutput);
            && ItemError(it, false).None? && ItemNotes(it) == [] && SystemText(it) == []
            && Said(two) == [M.TextPart("a"), M.TextPart("b")]
  {
    var p, q := InputPart("input_text", "a", "", ""), InputPart("input_text", "b", "", "");
    assert [p, q][..1] == [p] && [p][..0] == [] && [p, q][1..] == [q] && [q][1..] == [];
    assert ChatParts([p]) == [M.TextPart("a")];
    assert ChatParts([p, q]) == [M.TextPart("a"), M.TextPart("b")];
    NothingDropped([p, q]);
    assert PartsError([q], false).None? && PartsError([p, q], false).None?;
    M.NothingNoted();
  }

  // ---- refusing and noting ----

  lemma {:induction false} RefusedExactly(items: seq<Item>, dropParams: bool)
    ensures FirstError(items, dropParams).Some? <==>
              exists i :: 0 <= i < |items| && ItemError(items[i], dropParams).Some?
  {
    if items != [] {
      hide ItemError;
      RefusedExactly(items[1..], dropParams);
      if exists i :: 0 <= i < |items| && ItemError(items[i], dropParams).Some? {
        var i :| 0 <= i < |items| && ItemError(items[i], dropParams).Some?;
        assert i > 0 ==> items[1..][i - 1] == items[i];
      }
      if exists i :: 0 <= i < |items[1..]| && ItemError(items[1..][i], dropParams).Some? {
        var i :| 0 <= i < |items[1..]| && ItemError(items[1..][i], dropParams).Some?;
        assert items[i + 1] == items[1..][i];
      }
    }
  }

  lemma {:induction false} StrictParts(ps: seq<InputPart>)
    requires PartsError(ps, false).None?
    ensures forall i :: 0 <= i < |ps| ==> DroppedPart(ps[i]) == [] && ps[i].kind != "file"
  {
    if ps != [] {
      hide DroppedPart;
      StrictParts(ps[1..]);
      forall i | 0 <= i < |ps| ensures DroppedPart(ps[i]) == [] && ps[i].kind != "file" {
        if i > 0 {
          assert ps[i] == ps[1..][i - 1];
        }
      }
    }
  }

  lemma {:induction false} NothingDropped(ps: seq<InputPart>)
    requires forall i :: 0 <= i < |ps| ==> DroppedPart(ps[i]) == []
    ensures DroppedParts(ps) == []
  {
    if ps != [] {
      NothingDropped(ps[..|ps| - 1]);
    }
  }

  /** Without drop_params an accepted item leaves no note and is no dropped kind; documents are never accepted. */
  lemma StrictItem(it: Item)
    requires ItemError(it, false).None?
    ensures ItemNotes(it) == [] && !SortOf(it).DroppedItem?
  {
    hide SortOf, DroppedPart, DroppedParts, M.Noted;
    M.NothingNoted();
    if it.content.Parts? && (SortOf(it).SystemItem? || SortOf(it).TurnItem?) {
      StrictParts(it.content.parts);
      NothingDropped(it.content.parts);
    }
  }

  lemma {:induction false} StrictNotesNothing(items: seq<Item>)
    requires FirstError(items, false).None?
    ensures AllNotes(items) == []
    ensures forall i :: 0 <= i < |items| ==> !SortOf(items[i]).DroppedItem?
  {
    hide ItemError, ItemNotes, SortOf;
    RefusedExactly(items, false);
    forall i | 0 <= i < |items| ensures ItemNotes(items[i]) == [] && !SortOf(items[i]).DroppedItem? {
      assert ItemError(items[i], false).None?;
      StrictItem(items[i]);
    }
    NoNotes(items);
  }

  lemma {:induction false} NoNotes(items: seq<Item>)
    requires forall i :: 0 <= i < |items| ==> ItemNotes(items[i]) == []
    ensures AllNotes(items) == []
  {
    if items != [] {
      NoNotes(items[..|items| - 1]);
    }
  }
}
