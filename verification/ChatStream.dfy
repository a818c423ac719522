/** A Chat Completions stream after JSON decoding: the input both dialect emitters translate. */
module ChatStream {
  import opened Wrappers
  import opened Bytes

  /** A `content` value: absent, a string, a list of parts, or none of these. */
  datatype Content = Absent | Plain(s: string) | Parts(parts: seq<Part>) | Opaque
  datatype Part = Part(kind: string, text: string, refusal: string)

  datatype Usage = Usage(prompt: int, cached: int, completion: int)
  datatype ToolDelta = ToolDelta(index: int, id: string, name: string, args: string)

  datatype Choice = Choice(content: Content, reasoning: Content, tools: seq<ToolDelta>, finish: string, usage: Option<Usage>)
  datatype Chunk = Chunk(id: string, model: string, choices: seq<Choice>, usage: Option<Usage>)

  /** What the classifier makes of a frame. */
  datatype FrameKind =
    | Inert                                   // comment, blank payload, [DONE], empty object
    | Native                                  // an event already in the client's dialect
    | UpstreamError(code: string, msg: string)
    | Foreign                                 // a frame of no dialect the emitter speaks
    | ChatChunk(chunk: Chunk)

  /** The text pieces of a content value, joined (convert/response.go, contentTexts). */
  function Texts(c: Content): string {
    match c
    case Absent => ""
    case Plain(s) => s
    case Parts(ps) => PartTexts(ps)
    case Opaque => ""
  }

  function PartTexts(ps: seq<Part>): string {
    if ps == [] then ""
    else (if ps[0].text != "" then ps[0].text else ps[0].refusal) + PartTexts(ps[1..])
  }

  /** One note per part that carries no text. */
  function Lost(c: Content): seq<string> {
    match c
    case Parts(ps) => LostParts(ps)
    case Opaque => ["content_part=dropped:content"]
    case _ => []
  }

  function LostParts(ps: seq<Part>): seq<string> {
    if ps == [] then []
    else (if ps[0].text == "" && ps[0].refusal == "" && ps[0].kind != "" && ps[0].kind != "text"
          then ["content_part=dropped:" + ps[0].kind] else [])
         + LostParts(ps[1..])
  }

  /** A list of notes with one more, each distinct note once. */
  function Noted(notes: seq<string>, n: string): seq<string> {
    if n in notes then notes else notes + [n]
  }

  function NotedAll(notes: seq<string>, more: seq<string>): seq<string> {
    if more == [] then notes else Noted(NotedAll(notes, more[..|more| - 1]), more[|more| - 1])
  }

  function FinishNote(fr: string): string {
    if fr in {"", "stop", "length", "tool_calls", "function_call"} then "" else "finish_reason=" + fr
  }

  function StopReason(fr: string): string {
    if fr == "length" then "max_tokens"
    else if fr == "tool_calls" || fr == "function_call" then "tool_use"
    else if fr == "content_filter" then "refusal"
    else "end_turn"
  }

  function Digits(n: nat): string {
    if n < 10 then [('0' as int + n) as char] else Digits(n / 10) + [('0' as int + n % 10) as char]
  }

  /** strconv.Itoa. */
  function Itoa(n: int): string {
    if n < 0 then "-" + Digits(-n) else Digits(n)
  }

  // ---- The stream as the order in which an emitter acts on it

  datatype Kind = Text | Thinking

  datatype Item =
    | Head(id: string, model: string, usage: Option<Usage>)
    | Begin(usage: Option<Usage>, lost: seq<string>)
    | Prose(kind: Kind, s: string)
    | Tool(d: ToolDelta)
    | Finish(reason: string)
    | Forward(frame: seq<byte>)
    | Fail(code: string, msg: string, note: string)

  function ToolItems(tools: seq<ToolDelta>): (r: seq<Item>)
    ensures |r| == |tools| && forall i :: 0 <= i < |r| ==> r[i] == Tool(tools[i])
  {
    seq(|tools|, i requires 0 <= i < |tools| => Tool(tools[i]))
  }

  function ChoiceItems(ch: Choice): seq<Item> {
    [Begin(ch.usage, Lost(ch.content) + Lost(ch.reasoning)),
     Prose(Thinking, Texts(ch.reasoning)), Prose(Text, Texts(ch.content))]
    + ToolItems(ch.tools)
    + if ch.finish != "" then [Finish(ch.finish)] else []
  }

  /** The items of a list of choices, last choice last. */
  function ChoicesItems(chs: seq<Choice>): seq<Item> {
    if chs == [] then [] else ChoicesItems(chs[..|chs| - 1]) + ChoiceItems(chs[|chs| - 1])
  }

  function ChunkItems(c: Chunk): seq<Item> {
    [Head(c.id, c.model, c.usage)] + ChoicesItems(c.choices)
  }

  // ---- Content comes only in a message that was begun

  predicate Begun(items: seq<Item>) {
    exists i :: 0 <= i < |items| && items[i].Begin?
  }

  /** Every content item comes after a Begin. */
  predicate WellBegun(items: seq<Item>) {
    forall i :: 0 <= i < |items| && (items[i].Prose? || items[i].Tool? || items[i].Finish?) ==> Begun(items[..i])
  }

  lemma BegunAppend(a: seq<Item>, b: seq<Item>)
    ensures Begun(a) || Begun(b) ==> Begun(a + b)
  {
    if Begun(a) {
      var i :| 0 <= i < |a| && a[i].Begin?;
      assert (a + b)[i].Begin?;
    } else if Begun(b) {
      var i :| 0 <= i < |b| && b[i].Begin?;
      assert (a + b)[|a| + i].Begin?;
    }
  }

  lemma WellBegunAppend(a: seq<Item>, b: seq<Item>)
    requires WellBegun(a) && WellBegun(b)
    ensures WellBegun(a + b)
  {
    var s := a + b;
    forall i | 0 <= i < |s| && (s[i].Prose? || s[i].Tool? || s[i].Finish?) ensures Begun(s[..i]) {
      if i < |a| {
        assert s[..i] == a[..i];
      } else {
        assert s[..i] == a + b[..i - |a|];
        assert b[i - |a|] == s[i];
        BegunAppend(a, b[..i - |a|]);
      }
    }
  }

  lemma ChoiceWellBegun(ch: Choice)
    ensures WellBegun(ChoiceItems(ch))
  {
    var s := ChoiceItems(ch);
    forall i | 0 <= i < |s| && (s[i].Prose? || s[i].Tool? || s[i].Finish?) ensures Begun(s[..i]) {
      assert s[..i][0].Begin?;
    }
  }

  lemma {:induction false} ChoicesWellBegun(chs: seq<Choice>)
    ensures WellBegun(ChoicesItems(chs))
  {
    if chs != [] {
      ChoicesWellBegun(chs[..|chs| - 1]);
      ChoiceWellBegun(chs[|chs| - 1]);
      WellBegunAppend(ChoicesItems(chs[..|chs| - 1]), ChoiceItems(chs[|chs| - 1]));
    }
  }

  lemma WellBegunInit(items: seq<Item>)
    requires WellBegun(items) && items != []
    ensures var n := |items| - 1;
            WellBegun(items[..n]) && (items[n].Prose? || items[n].Tool? || items[n].Finish? ==> Begun(items[..n]))
  {
    var p := items[..|items| - 1];
    forall i | 0 <= i < |p| && (p[i].Prose? || p[i].Tool? || p[i].Finish?) ensures Begun(p[..i]) {
      assert p[..i] == items[..i] && p[i] == items[i];
    }
  }
}
