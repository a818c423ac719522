/** What a Chat Completions stream says, read off its decoded chunks alone. It knows nothing of the emitters. */
module SentContent {
  import opened Wrappers
  import opened Bytes
  import opened ChatStream

  /** A frame that breaks the stream off: a backend error, or one of no known dialect. */
  predicate Breaks(k: FrameKind) { k.UpstreamError? || k.Foreign? }

  predicate Broken(frames: seq<seq<byte>>, decode: seq<byte> -> FrameKind) {
    exists i :: 0 <= i < |frames| && Breaks(decode(frames[i]))
  }

  /** The class of the first breaking frame. */
  function FirstBreak(frames: seq<seq<byte>>, decode: seq<byte> -> FrameKind): Option<FrameKind> {
    if frames == [] then None
    else
      var init, k := FirstBreak(frames[..|frames| - 1], decode), decode(frames[|frames| - 1]);
      if init.Some? then init else if Breaks(k) then Some(k) else None
  }

  lemma {:induction false} FirstBreakIs(frames: seq<seq<byte>>, decode: seq<byte> -> FrameKind)
    ensures FirstBreak(frames, decode).Some? <==> Broken(frames, decode)
    ensures FirstBreak(frames, decode).Some? ==>
              exists i :: 0 <= i < |frames| && decode(frames[i]) == FirstBreak(frames, decode).value
                && Breaks(decode(frames[i])) && !Broken(frames[..i], decode)
  {
    if frames != [] {
      hide Breaks, Broken;
      var n := |frames| - 1;
      FirstBreakIs(frames[..n], decode);
      BrokenSnoc(frames, decode);
      if FirstBreak(frames[..n], decode).Some? {
        var i :| 0 <= i < n && decode(frames[..n][i]) == FirstBreak(frames[..n], decode).value
                 && Breaks(decode(frames[..n][i])) && !Broken(frames[..n][..i], decode);
        assert frames[..n][..i] == frames[..i] && frames[..n][i] == frames[i];
      }
    } else {
      assert !Broken([], decode);
    }
  }

  function ChunksOf(k: FrameKind): seq<Chunk> { if k.ChatChunk? then [k.chunk] else [] }

  /** The chunks that no breaking frame precedes, in order. */
  function SentChunks(frames: seq<seq<byte>>, decode: seq<byte> -> FrameKind): seq<Chunk> {
    if frames == [] then []
    else
      var n := |frames| - 1;
      SentChunks(frames[..n], decode) + if Broken(frames[..n], decode) then [] else ChunksOf(decode(frames[n]))
  }

  function Choices(chunks: seq<Chunk>): seq<Choice> {
    if chunks == [] then [] else Choices(chunks[..|chunks| - 1]) + chunks[|chunks| - 1].choices
  }

  /** Some choice carries a finish reason. */
  predicate Finishes(chs: seq<Choice>) {
    exists i :: 0 <= i < |chs| && chs[i].finish != ""
  }

  /** The choices up to the first that carries a finish reason. */
  function UpToFinish(chs: seq<Choice>): seq<Choice> {
    if chs == [] then []
    else
      var n := |chs| - 1;
      UpToFinish(chs[..n]) + if Finishes(chs[..n]) then [] else [chs[n]]
  }

  /** The chunks up to that choice. */
  function CutAtFinish(chunks: seq<Chunk>): seq<Chunk> {
    if chunks == [] then []
    else
      var n := |chunks| - 1;
      CutAtFinish(chunks[..n])
      + if Finishes(Choices(chunks[..n])) then [] else [chunks[n].(choices := UpToFinish(chunks[n].choices))]
  }

  /** The chunks up to the first that carries a finish reason, whole. */
  function ThroughFinish(chunks: seq<Chunk>): seq<Chunk> {
    if chunks == [] then []
    else
      var n := |chunks| - 1;
      ThroughFinish(chunks[..n]) + if Finishes(Choices(chunks[..n])) then [] else [chunks[n]]
  }

  /** What a reader that stops at the first finish reason takes in of a stream. */
  function Heard(frames: seq<seq<byte>>, decode: seq<byte> -> FrameKind): seq<Chunk> {
    CutAtFinish(SentChunks(frames, decode))
  }

  // ---- Prose

  /** All text, or all reasoning, joined. */
  function SentProse(chs: seq<Choice>, k: Kind): string {
    if chs == [] then ""
    else
      var ch := chs[|chs| - 1];
      SentProse(chs[..|chs| - 1], k) + Texts(if k == Text then ch.content else ch.reasoning)
  }

  /** A content value says its string, or what its parts say one after the other: each its text, else its refusal. */
  lemma TextsByPart(s: string, a: seq<Part>, b: seq<Part>, p: Part)
    ensures Texts(Plain(s)) == s && Texts(Absent) == "" && Texts(Opaque) == ""
    ensures Texts(Parts([])) == ""
    ensures Texts(Parts([p])) == if p.text != "" then p.text else p.refusal
    ensures Texts(Parts(a + b)) == Texts(Parts(a)) + Texts(Parts(b))
  {
    assert [p][1..] == [];
    PartTextsAppend(a, b);
  }

  lemma {:induction false} PartTextsAppend(a: seq<Part>, b: seq<Part>)
    ensures PartTexts(a + b) == PartTexts(a) + PartTexts(b)
  {
    if a == [] {
      assert a + b == b;
    } else {
      PartTextsAppend(a[1..], b);
      assert (a + b)[1..] == a[1..] + b;
      Assoc(if a[0].text != "" then a[0].text else a[0].refusal, PartTexts(a[1..]), PartTexts(b));
    }
  }

  // ---- Tool calls

  /** What one tool index can see: deltas, and the finish reasons that end every call. */
  datatype Mark = Delta(d: ToolDelta) | End

  function ChoiceMarks(ch: Choice): seq<Mark> {
    seq(|ch.tools|, i requires 0 <= i < |ch.tools| => Delta(ch.tools[i])) + if ch.finish != "" then [End] else []
  }

  function Marks(chs: seq<Choice>): seq<Mark> {
    if chs == [] then [] else Marks(chs[..|chs| - 1]) + ChoiceMarks(chs[|chs| - 1])
  }

  function Deltas(chs: seq<Choice>): seq<ToolDelta> {
    if chs == [] then [] else Deltas(chs[..|chs| - 1]) + chs[|chs| - 1].tools
  }

  /** Some delta carries the tool index. */
  predicate Named(ds: seq<ToolDelta>, i: int) {
    exists n :: 0 <= n < |ds| && ds[n].index == i
  }

  /** The argument fragments of one tool index, joined. */
  function SentArgs(ds: seq<ToolDelta>, i: int): string {
    if ds == [] then ""
    else
      var d := ds[|ds| - 1];
      SentArgs(ds[..|ds| - 1], i) + if d.index == i then d.args else ""
  }

  /** All deltas of one tool index carry the id of its first delta, or none. */
  predicate OneIdPerIndex(ds: seq<ToolDelta>) {
    forall i, j :: 0 <= i < j < |ds| && ds[i].index == ds[j].index ==> ds[j].id == "" || ds[j].id == ds[i].id
  }

  lemma NamedSnoc(ds: seq<ToolDelta>, d: ToolDelta, i: int)
    ensures Named(ds + [d], i) <==> Named(ds, i) || d.index == i
  {
    var s := ds + [d];
    assert s[|ds|] == d;
    if Named(ds, i) {
      var n :| 0 <= n < |ds| && ds[n].index == i;
      assert s[n].index == i;
    }
    if Named(s, i) {
      var n :| 0 <= n < |s| && s[n].index == i;
      assert n < |ds| ==> ds[n].index == i;
    }
  }

  // ---- Identity, usage, finish reason, losses

  /** The last name that is not empty, else the default. */
  function LastName(names: seq<string>, otherwise: string): string {
    if names == [] then otherwise
    else if names[|names| - 1] != "" then names[|names| - 1] else LastName(names[..|names| - 1], otherwise)
  }

  function Ids(chunks: seq<Chunk>): (r: seq<string>)
    ensures |r| == |chunks| && forall i :: 0 <= i < |r| ==> r[i] == chunks[i].id
  {
    seq(|chunks|, i requires 0 <= i < |chunks| => chunks[i].id)
  }

  function Models(chunks: seq<Chunk>): (r: seq<string>)
    ensures |r| == |chunks| && forall i :: 0 <= i < |r| ==> r[i] == chunks[i].model
  {
    seq(|chunks|, i requires 0 <= i < |chunks| => chunks[i].model)
  }

  function Finishings(chs: seq<Choice>): (r: seq<string>)
    ensures |r| == |chs| && forall i :: 0 <= i < |r| ==> r[i] == chs[i].finish
  {
    seq(|chs|, i requires 0 <= i < |chs| => chs[i].finish)
  }

  function ChoiceUsages(chs: seq<Choice>): (r: seq<Option<Usage>>)
    ensures |r| == |chs| && forall i :: 0 <= i < |r| ==> r[i] == chs[i].usage
  {
    seq(|chs|, i requires 0 <= i < |chs| => chs[i].usage)
  }

  /** The usage reports of a stream: of each chunk its own, then its choices'. */
  function Usages(chunks: seq<Chunk>): seq<Option<Usage>> {
    if chunks == [] then []
    else
      var c := chunks[|chunks| - 1];
      Usages(chunks[..|chunks| - 1]) + [c.usage] + ChoiceUsages(c.choices)
  }

  /** The last report there is. */
  function LastUsage(us: seq<Option<Usage>>): Option<Usage> {
    if us == [] then None else if us[|us| - 1].Some? then us[|us| - 1] else LastUsage(us[..|us| - 1])
  }

  lemma {:induction false} LastUsageAppend(a: seq<Option<Usage>>, b: seq<Option<Usage>>)
    ensures LastUsage(a + b) == if LastUsage(b).Some? then LastUsage(b) else LastUsage(a)
  {
    if b == [] {
      assert a + b == a;
    } else {
      var n := |b| - 1;
      assert (a + b)[..|a + b| - 1] == a + b[..n] && (a + b)[|a + b| - 1] == b[n];
      LastUsageAppend(a, b[..n]);
    }
  }

  /** The notes a choice gives rise to: lost parts of its content and its reasoning, then its finish reason's. */
  function ChoiceLosses(ch: Choice): seq<string> {
    Lost(ch.content) + Lost(ch.reasoning) + if FinishNote(ch.finish) != "" then [FinishNote(ch.finish)] else []
  }

  function Losses(chs: seq<Choice>): seq<string> {
    if chs == [] then [] else Losses(chs[..|chs| - 1]) + ChoiceLosses(chs[|chs| - 1])
  }

  /** A content value loses a part: one without text or refusal that is not an empty text, or the whole unreadable value. */
  predicate Drops(c: Content, note: string) {
    match c
    case Parts(ps) => exists i :: 0 <= i < |ps| && DropsPart(ps[i], note)
    case Opaque => note == "content_part=dropped:content"
    case _ => false
  }

  predicate DropsPart(p: Part, note: string) {
    p.text == "" && p.refusal == "" && p.kind != "" && p.kind != "text" && note == "content_part=dropped:" + p.kind
  }

  /** A choice loses something that the note names: content, reasoning, or a finish reason the client has no word for. */
  predicate Loses(ch: Choice, note: string) {
    || Drops(ch.content, note) || Drops(ch.reasoning, note)
    || (ch.finish != "" && ch.finish != "stop" && ch.finish != "length" && ch.finish != "tool_calls"
        && ch.finish != "function_call" && note == "finish_reason=" + ch.finish)
  }

  lemma {:induction false} LostPartsAre(ps: seq<Part>, note: string)
    ensures note in LostParts(ps) <==> Drops(Parts(ps), note)
  {
    if ps != [] {
      LostPartsAre(ps[1..], note);
      if Drops(Parts(ps[1..]), note) {
        var i :| 0 <= i < |ps| - 1 && DropsPart(ps[1..][i], note);
        assert DropsPart(ps[i + 1], note);
      }
      if Drops(Parts(ps), note) && !DropsPart(ps[0], note) {
        var i :| 0 <= i < |ps| && DropsPart(ps[i], note);
        assert DropsPart(ps[1..][i - 1], note);
      }
    }
  }

  lemma ChoiceLossesAre(ch: Choice, note: string)
    ensures note in ChoiceLosses(ch) <==> Loses(ch, note)
  {
    hide LostParts, DropsPart;
    if ch.content.Parts? { LostPartsAre(ch.content.parts, note); }
    if ch.reasoning.Parts? { LostPartsAre(ch.reasoning.parts, note); }
    assert |"finish_reason=" + ch.finish| > 0;
  }

  /** Some choice loses what the note names. */
  predicate LosesAny(chs: seq<Choice>, note: string) {
    exists i :: 0 <= i < |chs| && Loses(chs[i], note)
  }

  /** The notes of a stream name exactly what its choices lose. */
  lemma {:induction false} LossesAre(chs: seq<Choice>, note: string)
    ensures note in Losses(chs) <==> LosesAny(chs, note)
  {
    hide ChoiceLosses, Loses;
    if chs != [] {
      var n := |chs| - 1;
      LossesAre(chs[..n], note);
      ChoiceLossesAre(chs[n], note);
      if i :| 0 <= i < n && Loses(chs[..n][i], note) { assert Loses(chs[i], note); }
      if i :| 0 <= i < |chs| && Loses(chs[i], note) { assert i < n ==> Loses(chs[..n][i], note); }
    }
  }

  predicate Distinct(notes: seq<string>) {
    forall i, j :: 0 <= i < j < |notes| ==> notes[i] != notes[j]
  }

  lemma {:induction false} NotedAllIs(notes: seq<string>, more: seq<string>)
    requires Distinct(notes)
    ensures Distinct(NotedAll(notes, more))
    ensures forall n :: n in NotedAll(notes, more) <==> n in notes || n in more
  {
    if more != [] {
      var m := |more| - 1;
      NotedAllIs(notes, more[..m]);
      assert forall n :: n in more <==> n in more[..m] || n == more[m];
    }
  }

  lemma {:induction false} NotedAllAppend(notes: seq<string>, a: seq<string>, b: seq<string>)
    ensures NotedAll(notes, a + b) == NotedAll(NotedAll(notes, a), b)
  {
    if b == [] {
      assert a + b == a;
    } else {
      var n := |b| - 1;
      assert (a + b)[..|a + b| - 1] == a + b[..n] && (a + b)[|a + b| - 1] == b[n];
      NotedAllAppend(notes, a, b[..n]);
    }
  }

  // ---- The books an emitter keeps beside the content

  datatype Books = Books(id: string, model: string, finish: string, usage: Option<Usage>, losses: seq<string>)

  /** The last id, model and finish reason that were not empty, the last usage report, and all losses. */
  function BooksOf(chunks: seq<Chunk>): Books {
    Books(LastName(Ids(chunks), ""), LastName(Models(chunks), ""), LastName(Finishings(Choices(chunks)), ""),
          LastUsage(Usages(chunks)), Losses(Choices(chunks)))
  }

  function Later<T>(a: Option<T>, b: Option<T>): Option<T> { if b.Some? then b else a }

  function Renamed(was: string, name: string): string { if name != "" then name else was }

  lemma {:induction false} NameSnoc(names: seq<string>, name: string, otherwise: string)
    ensures LastName(names + [name], otherwise) == Renamed(LastName(names, otherwise), name)
  {
    assert (names + [name])[..|names|] == names;
  }

  /** A chunk before its choices. */
  lemma BooksHead(chunks: seq<Chunk>, c: Chunk)
    requires c.choices == []
    ensures var b := BooksOf(chunks);
            BooksOf(chunks + [c])
            == Books(Renamed(b.id, c.id), Renamed(b.model, c.model), b.finish, Later(b.usage, c.usage), b.losses)
  {
    hide LastName;
    var s := chunks + [c];
    assert s[..|s| - 1] == chunks;
    assert Ids(s) == Ids(chunks) + [c.id] && Models(s) == Models(chunks) + [c.model];
    NameSnoc(Ids(chunks), c.id, "");
    NameSnoc(Models(chunks), c.model, "");
    assert Choices(s) == Choices(chunks);
    assert Usages(s) == Usages(chunks) + [c.usage];
    LastUsageAppend(Usages(chunks), [c.usage]);
    assert [c.usage][..0] == [];
  }

  /** One more choice in the last chunk. */
  lemma BooksChoice(chunks: seq<Chunk>, c: Chunk, ch: Choice)
    ensures var b := BooksOf(chunks + [c]);
            BooksOf(chunks + [c.(choices := c.choices + [ch])])
            == b.(finish := Renamed(b.finish, ch.finish), usage := Later(b.usage, ch.usage), losses := b.losses + ChoiceLosses(ch))
  {
    hide LastName, ChoiceLosses;
    var d := c.(choices := c.choices + [ch]);
    var s, t := chunks + [c], chunks + [d];
    assert s[..|s| - 1] == chunks && t[..|t| - 1] == chunks;
    assert Ids(s) == Ids(t) && Models(s) == Models(t);
    Assoc(Choices(chunks), c.choices, [ch]);
    ChoiceSnoc(Choices(s), ch);
    NameSnoc(Finishings(Choices(s)), ch.finish, "");
    assert ChoiceUsages(d.choices) == ChoiceUsages(c.choices) + [ch.usage];
    Assoc(Usages(chunks) + [c.usage], ChoiceUsages(c.choices), [ch.usage]);
    LastUsageAppend(Usages(s), [ch.usage]);
    assert [ch.usage][..0] == [];
  }

  lemma {:induction false} ChoiceSnoc(chs: seq<Choice>, ch: Choice)
    ensures Finishings(chs + [ch]) == Finishings(chs) + [ch.finish] && Losses(chs + [ch]) == Losses(chs) + ChoiceLosses(ch)
  {
    assert (chs + [ch])[..|chs|] == chs;
  }

  // ---- One frame more, one chunk more, one choice more

  lemma BrokenSnoc(frames: seq<seq<byte>>, decode: seq<byte> -> FrameKind)
    requires frames != []
    ensures var n := |frames| - 1; Broken(frames, decode) <==> Broken(frames[..n], decode) || Breaks(decode(frames[n]))
  {
    var n := |frames| - 1;
    if Broken(frames, decode) && !Breaks(decode(frames[n])) {
      var i :| 0 <= i < |frames| && Breaks(decode(frames[i]));
      assert Breaks(decode(frames[..n][i]));
    }
    if Broken(frames[..n], decode) {
      var i :| 0 <= i < n && Breaks(decode(frames[..n][i]));
      assert Breaks(decode(frames[i]));
    }
  }

  lemma FinishesAppend(a: seq<Choice>, b: seq<Choice>)
    ensures Finishes(a + b) <==> Finishes(a) || Finishes(b)
  {
    var s := a + b;
    if Finishes(a) {
      var i :| 0 <= i < |a| && a[i].finish != "";
      assert s[i].finish != "";
    }
    if Finishes(b) {
      var i :| 0 <= i < |b| && b[i].finish != "";
      assert s[|a| + i].finish != "";
    }
    if Finishes(s) {
      var i :| 0 <= i < |s| && s[i].finish != "";
      if i < |a| { assert a[i].finish != ""; } else { assert b[i - |a|].finish != ""; }
    }
  }
}
