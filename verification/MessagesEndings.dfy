/**
 How a stream of the Anthropic emitter begins and ends: what each class of frame authors, the envelope with its id,
 model, stop reason and token counts, and the losses it reports, all from the decoded frames.
 */
module MessagesEndings {
  import opened Wrappers
  import opened Bytes
  import opened ChatStream
  import opened SentContent
  import opened MessagesSpec
  import opened MessagesClient
  import opened MessagesDiscipline

  // ---- One frame

  lemma {:induction false} RunOne(st: State, it: Item)
    ensures Run(st, [it]) == Step(st, it)
  {
    hide Step;
    assert [it][..0] == [];
    assert [] + Step(st, it).evs == Step(st, it).evs;
  }

  /** What a frame that is no chunk does to a stream still going. */
  lemma {:induction false} FrameEffect(st: State, frame: seq<byte>, decode: seq<byte> -> FrameKind)
    requires !st.failed
    ensures var o, k := Run(st, FrameItems(frame, decode)), decode(frame);
            && (k.Inert? ==> o == Out(st, []))
            && (k.Native? ==> o == Out(st, [Forwarded(Reframe(frame))]))
            && (k.UpstreamError? ==> o == Out(st.(failed := true), [ErrorEvent(k.code, k.msg)]))
            && (k.Foreign? ==>
                  o == Out(st.(failed := true, notes := Noted(st.notes, "frame=untranslated")),
                           [ErrorEvent("api_error", "upstream sent a stream frame this proxy cannot translate")]))
            && (k.ChatChunk? ==> !o.st.failed)
  {
    match decode(frame)
    case Inert =>
    case Native => RunOne(st, Forward(Reframe(frame)));
    case UpstreamError(code, msg) => RunOne(st, Fail(code, msg, ""));
    case Foreign => RunOne(st, UNTRANSLATED);
    case ChatChunk(c) =>
      ChunkBooks(st, [], c);
  }

  /** A forwarded frame keeps its bytes up to its trailing line ends, and gets one normal terminator. */
  lemma {:induction false} ReframeIs(b: seq<byte>) returns (n: nat)
    ensures n <= |b| && Reframe(b) == b[..n] + [LF, LF]
    ensures forall i :: n <= i < |b| ==> b[i] == CR || b[i] == LF
    ensures n > 0 ==> b[n - 1] != CR && b[n - 1] != LF
  {
    if b != [] && (b[|b| - 1] == CR || b[|b| - 1] == LF) {
      n := ReframeIs(b[..|b| - 1]);
      assert b[..|b| - 1][..n] == b[..n];
    } else {
      n := |b|;
      assert b[..n] == b;
    }
  }

  lemma {:induction false} FailedStays(st: State, items: seq<Item>)
    requires st.failed
    ensures Run(st, items) == Out(st, [])
  {
    if items != [] { FailedStays(st, items[..|items| - 1]); }
  }

  // ---- The emitter's books

  function StopFor(finish: string): string { if finish == "" then "end_turn" else StopReason(finish) }

  /** The fields that are not about blocks hold what the chunks said last. */
  predicate Keeps(st: State, b: Books) {
    && st.id == b.id && st.model == b.model && st.stop == StopFor(b.finish)
    && st.notes == NotedAll([], b.losses)
    && match b.usage
       case None => st.inputTok == -1 && st.outputToks == 0
       case Some(u) => st.inputTok == u.prompt - u.cached && st.outputToks == u.completion
  }

  predicate SameBooks(a: State, b: State) {
    && (a.id, a.model, a.stop, a.notes) == (b.id, b.model, b.stop, b.notes)
    && (a.inputTok, a.outputToks, a.started, a.failed) == (b.inputTok, b.outputToks, b.started, b.failed)
    && a.invented == b.invented
  }

  lemma ContentKeeps(st: State, it: Item)
    requires it.Prose? || it.Tool?
    ensures SameBooks(Step(st, it).st, st)
  {
  }

  lemma {:induction false} ContentRunKeeps(st: State, items: seq<Item>)
    requires forall i :: 0 <= i < |items| ==> items[i].Prose? || items[i].Tool?
    ensures SameBooks(Run(st, items).st, st)
  {
    hide Step;
    if items != [] {
      ContentRunKeeps(st, items[..|items| - 1]);
      ContentKeeps(Run(st, items[..|items| - 1]).st, items[|items| - 1]);
    }
  }

  /** The state after one choice, blocks aside. */
  lemma {:induction false} ChoiceRun(st: State, ch: Choice)
    requires !st.failed
    ensures var r, u := Run(st, ChoiceItems(ch)).st, ReadUsage(st, ch.usage);
            && r.started && !r.failed && (r.id, r.model, r.invented) == (st.id, st.model, st.invented)
            && (r.inputTok, r.outputToks) == (u.inputTok, u.outputToks)
            && r.stop == (if ch.finish != "" then StopReason(ch.finish) else st.stop)
            && r.notes == NotedAll(st.notes, ChoiceLosses(ch))
    ensures var s := Begin(ch.usage, Lost(ch.content) + Lost(ch.reasoning));
            Step(st, s).evs <= Run(st, ChoiceItems(ch)).evs
  {
    hide Step, SameBooks, Run;
    var head := [Begin(ch.usage, Lost(ch.content) + Lost(ch.reasoning))];
    var body := [Prose(Thinking, Texts(ch.reasoning)), Prose(Text, Texts(ch.content))] + ToolItems(ch.tools);
    var end := if ch.finish != "" then [Finish(ch.finish)] else [];
    assert ChoiceItems(ch) == head + body + end;
    RunAppend(st, head, body);
    RunAppend(st, head + body, end);
    RunOne(st, head[0]);
    var s := Step(st, head[0]).st;
    BeginKeeps(st, head[0]);
    ContentRunKeeps(s, body);
    var t := Run(s, body).st;
    EndKeeps(s, t, end);
    NotedAllAppend(st.notes, Lost(ch.content) + Lost(ch.reasoning),
                   if FinishNote(ch.finish) != "" then [FinishNote(ch.finish)] else []);
  }

  lemma BeginKeeps(st: State, it: Item)
    requires it.Begin? && !st.failed
    ensures var r, u := Step(st, it).st, ReadUsage(st, it.usage);
            && r.started && !r.failed && (r.id, r.model, r.stop, r.invented) == (st.id, st.model, st.stop, st.invented)
            && (r.inputTok, r.outputToks) == (u.inputTok, u.outputToks) && r.notes == NotedAll(st.notes, it.lost)
  {
    hide NotedAll;
  }

  lemma {:induction false} EndKeeps(s: State, t: State, end: seq<Item>)
    requires SameBooks(t, s) && !s.failed
    requires end == [] || (|end| == 1 && end[0].Finish? && end[0].reason != "")
    ensures var r := Run(t, end).st;
            && (r.id, r.model, r.invented, r.started, r.failed) == (s.id, s.model, s.invented, s.started, s.failed)
            && (r.inputTok, r.outputToks) == (s.inputTok, s.outputToks)
            && r.stop == (if end != [] then StopReason(end[0].reason) else s.stop)
            && r.notes == NotedAll(s.notes, if end != [] && FinishNote(end[0].reason) != "" then [FinishNote(end[0].reason)] else [])
  {
    if end != [] {
      assert end == [end[0]];
      RunOne(t, end[0]);
      var n := FinishNote(end[0].reason);
      assert [n][..0] == [];
    }
  }

  /** One chunk of a stream still going. */
  lemma {:induction false} ChunkBooks(st: State, chunks: seq<Chunk>, c: Chunk)
    requires !st.failed
    ensures var r := Run(st, ChunkItems(c)).st;
            && !r.failed && r.started == (st.started || c.choices != []) && r.invented == st.invented
            && (Keeps(st, BooksOf(chunks)) ==> Keeps(r, BooksOf(chunks + [c])))
    decreases |c.choices|
  {
    hide Run, Step, BooksOf, Keeps, ChoiceItems, ChoiceLosses;
    var head := [Head(c.id, c.model, c.usage)];
    if c.choices == [] {
      assert ChunkItems(c) == head;
      RunOne(st, head[0]);
      HeadBooks(st, chunks, c);
    } else {
      var n := |c.choices| - 1;
      var b, ch := c.(choices := c.choices[..n]), c.choices[n];
      assert b.choices + [ch] == c.choices;
      ChunkBooks(st, chunks, b);
      Assoc(head, ChoicesItems(b.choices), ChoiceItems(ch));
      RunAppend(st, ChunkItems(b), ChoiceItems(ch));
      var p := Run(st, ChunkItems(b)).st;
      ChoiceRun(p, ch);
      BooksChoice(chunks, b, ch);
      assert b.(choices := b.choices + [ch]) == c;
      if Keeps(p, BooksOf(chunks + [b])) { KeepsChoice(p, Run(p, ChoiceItems(ch)).st, BooksOf(chunks + [b]), ch); }
    }
  }

  lemma HeadBooks(st: State, chunks: seq<Chunk>, c: Chunk)
    requires !st.failed && c.choices == []
    ensures var r := Step(st, Head(c.id, c.model, c.usage)).st;
            && !r.failed && r.started == st.started && r.invented == st.invented
            && (Keeps(st, BooksOf(chunks)) ==> Keeps(r, BooksOf(chunks + [c])))
  {
    hide BooksOf, NotedAll;
    BooksHead(chunks, c);
  }

  lemma KeepsChoice(st: State, r: State, b: Books, ch: Choice)
    requires Keeps(st, b) && (r.id, r.model) == (st.id, st.model)
    requires (r.inputTok, r.outputToks) == (ReadUsage(st, ch.usage).inputTok, ReadUsage(st, ch.usage).outputToks)
    requires r.stop == if ch.finish != "" then StopReason(ch.finish) else st.stop
    requires r.notes == NotedAll(st.notes, ChoiceLosses(ch))
    ensures Keeps(r, b.(finish := Renamed(b.finish, ch.finish), usage := Later(b.usage, ch.usage), losses := b.losses + ChoiceLosses(ch)))
  {
    hide NotedAll, ChoiceLosses;
    NotedAllAppend([], b.losses, ChoiceLosses(ch));
  }

  /** The note an untranslatable frame leaves. */
  function BreakNotes(k: Option<FrameKind>): seq<string> {
    if k == Some(Foreign) then ["frame=untranslated"] else []
  }

  /** The books of every run: started by the first choice, failed by the first breaking frame, and what was said last. */
  lemma {:induction false} RunBooks(invented: string, frames: seq<seq<byte>>, decode: seq<byte> -> FrameKind)
    ensures var st, chunks := Run(Initial(invented), StreamItems(frames, decode)).st, SentChunks(frames, decode);
            && st.failed == Broken(frames, decode) && st.started == (Choices(chunks) != []) && st.invented == invented
            && (!st.failed ==> Keeps(st, BooksOf(chunks)))
            && st.notes == NotedAll([], BooksOf(chunks).losses + BreakNotes(FirstBreak(frames, decode)))
  {
    hide Run, BooksOf, Keeps, FrameItems, Broken, Choices, Reframe, NotedAll, BreakNotes, Breaks;
    if frames == [] {
      NoBooks(invented, decode);
    } else {
      var n := |frames| - 1;
      RunBooks(invented, frames[..n], decode);
      BrokenSnoc(frames, decode);
      FirstBreakIs(frames[..n], decode);
      var s0, items := Initial(invented), FrameItems(frames[n], decode);
      var p, chunks := Run(s0, StreamItems(frames[..n], decode)).st, SentChunks(frames[..n], decode);
      RunAppend(s0, StreamItems(frames[..n], decode), items);
      if p.failed {
        FailedStays(p, items);
        assert chunks + [] == chunks;
      } else {
        FrameBooks(p, chunks, frames[n], decode);
      }
    }
  }

  lemma NoBooks(invented: string, decode: seq<byte> -> FrameKind)
    ensures Run(Initial(invented), []) == Out(Initial(invented), []) && Choices([]) == [] && !Broken([], decode)
    ensures Keeps(Initial(invented), BooksOf([])) && BooksOf([]).losses + BreakNotes(FirstBreak([], decode)) == []
  {
  }

  lemma {:induction false} FrameBooks(st: State, chunks: seq<Chunk>, frame: seq<byte>, decode: seq<byte> -> FrameKind)
    requires !st.failed && Keeps(st, BooksOf(chunks))
    ensures var r, all := Run(st, FrameItems(frame, decode)).st, chunks + ChunksOf(decode(frame));
            && r.failed == Breaks(decode(frame)) && r.invented == st.invented
            && r.started == (st.started || Choices(ChunksOf(decode(frame))) != [])
            && (Choices(all) == [] <==> Choices(chunks) == [] && Choices(ChunksOf(decode(frame))) == [])
            && (!r.failed ==> Keeps(r, BooksOf(all)))
            && r.notes == NotedAll([], BooksOf(all).losses + BreakNotes(if Breaks(decode(frame)) then Some(decode(frame)) else None))
  {
    hide Run, BooksOf, Keeps, ChunkItems, Reframe, NotedAll;
    FrameEffect(st, frame, decode);
    assert chunks + [] == chunks;
    KeptNotes(st, BooksOf(chunks));
    var losses := BooksOf(chunks).losses;
    assert losses + [] == losses;
    OneMore(losses, "frame=untranslated");
    if decode(frame).ChatChunk? {
      var c := decode(frame).chunk;
      ChunkBooks(st, chunks, c);
      assert (chunks + [c])[..|chunks|] == chunks && [c][..0] == [];
      var r := Run(st, FrameItems(frame, decode)).st;
      KeptNotes(r, BooksOf(chunks + [c]));
      assert BooksOf(chunks + [c]).losses + [] == BooksOf(chunks + [c]).losses;
    }
  }

  lemma KeptNotes(st: State, b: Books)
    ensures Keeps(st, b) ==> st.notes == NotedAll([], b.losses)
  {
    hide NotedAll;
  }

  lemma {:induction false} OneMore(notes: seq<string>, n: string)
    ensures NotedAll([], notes + [n]) == Noted(NotedAll([], notes), n)
  {
    assert (notes + [n])[..|notes|] == notes;
  }

  // ---- How a stream ends

  /** The error a breaking frame becomes. */
  function ErrorOf(k: FrameKind): Event {
    if k.UpstreamError? then ErrorEvent(k.code, k.msg)
    else ErrorEvent("api_error", "upstream sent a stream frame this proxy cannot translate")
  }

  lemma {:induction false} StreamItemsAppend(a: seq<seq<byte>>, b: seq<seq<byte>>, decode: seq<byte> -> FrameKind)
    ensures StreamItems(a + b, decode) == StreamItems(a, decode) + StreamItems(b, decode)
  {
    hide FrameItems;
    if b == [] {
      assert a + b == a;
    } else {
      var n := |b| - 1;
      assert (a + b)[..|a + b| - 1] == a + b[..n] && (a + b)[|a + b| - 1] == b[n];
      StreamItemsAppend(a, b[..n], decode);
      Assoc(StreamItems(a, decode), StreamItems(b[..n], decode), FrameItems(b[n], decode));
    }
  }

  /** The first breaking frame becomes one error event, and that is the last event of the whole stream. */
  lemma {:induction false} ErrorIsLast(invented: string, frames: seq<seq<byte>>, decode: seq<byte> -> FrameKind, i: nat)
    requires i < |frames| && Breaks(decode(frames[i])) && !Broken(frames[..i], decode)
    ensures var r, p := Run(Initial(invented), StreamItems(frames, decode)), Run(Initial(invented), StreamItems(frames[..i], decode));
            && r.evs + Terminated(r.st).evs == p.evs + [ErrorOf(decode(frames[i]))]
            && forall e :: e in p.evs ==> !e.ErrorEvent? && !e.MessageStop?
  {
    hide Run, FrameItems, StreamItems, ErrorOf, Broken, SentChunks, Choices, Keeps, BooksOf, Terminated;
    var s0, done, a, b := Initial(invented), frames[..i], frames[..i + 1], frames[i + 1..];
    assert frames == a + b && a[..i] == done && a[i] == frames[i];
    var p := Run(s0, StreamItems(done, decode));
    RunBooks(invented, done, decode);
    BreakSays(p.st, frames[i], decode);
    LastFrame(a, decode);
    RunAppend(s0, StreamItems(done, decode), FrameItems(frames[i], decode));
    var q := Run(s0, StreamItems(a, decode));
    StreamItemsAppend(a, b, decode);
    RunAppend(s0, StreamItems(a, decode), StreamItems(b, decode));
    FailedStays(q.st, StreamItems(b, decode));
    NoClose(q.st);
    assert q.evs + [] + [] == q.evs;
    Unbroken(s0, StreamItems(done, decode));
  }

  lemma {:induction false} BreakSays(st: State, frame: seq<byte>, decode: seq<byte> -> FrameKind)
    requires !st.failed && Breaks(decode(frame))
    ensures var o := Run(st, FrameItems(frame, decode)); o.st.failed && o.evs == [ErrorOf(decode(frame))]
  {
    hide Run, FrameItems, Reframe;
    FrameEffect(st, frame, decode);
  }

  lemma NoClose(st: State)
    requires st.failed
    ensures Terminated(st).evs == []
  {
  }

  lemma {:induction false} LastFrame(frames: seq<seq<byte>>, decode: seq<byte> -> FrameKind)
    requires frames != []
    ensures StreamItems(frames, decode)
         == StreamItems(frames[..|frames| - 1], decode) + FrameItems(frames[|frames| - 1], decode)
  {
  }

  /** A run that has not failed has authored no error and no final stop. */
  lemma {:induction false} Unbroken(st: State, items: seq<Item>)
    requires !Run(st, items).st.failed
    ensures forall e :: e in Run(st, items).evs ==> !e.ErrorEvent? && !e.MessageStop?
  {
    hide Step;
    if items != [] {
      var n := |items| - 1;
      var p := Run(st, items[..n]).st;
      StepUnbroken(p, items[n]);
      Unbroken(st, items[..n]);
    }
  }

  lemma StepUnbroken(st: State, it: Item)
    requires !Step(st, it).st.failed
    ensures !st.failed && forall e :: e in Step(st, it).evs ==> !e.ErrorEvent? && !e.MessageStop?
  {
    hide Lookup, Without;
    StopsStop(st.tools);
    hide Stops;
  }

  lemma {:induction false} StopsStop(tools: seq<ToolBlock>)
    ensures forall e :: e in Stops(tools) ==> e.BlockStop?
  {
    if tools != [] { StopsStop(tools[..|tools| - 1]); }
  }

  /** The closing message_delta: the stop reason of the last finish reason, and the counts of the last usage report. */
  predicate Closes(e: Event, b: Books) {
    && e.MessageDelta?
    && (b.finish == "length" ==> e.stopReason == "max_tokens")
    && (b.finish == "tool_calls" || b.finish == "function_call" ==> e.stopReason == "tool_use")
    && (b.finish == "content_filter" ==> e.stopReason == "refusal")
    && (b.finish !in {"length", "tool_calls", "function_call", "content_filter"} ==> e.stopReason == "end_turn")
    && (b.usage.None? ==> e.outputTokens == 0 && e.reportedInput == None)
    && (b.usage.Some? ==>
          var u := b.usage.value;
          e.outputTokens == u.completion && e.reportedInput == if u.prompt < u.cached then None else Some(u.prompt - u.cached))
  }

  /**
   The end of every stream, from its decoded frames. The client fails if and only if some frame breaks the stream; it
   has a message if and only if some choice came before; and a message that did not fail, and only that, is closed: every
   block, then a message_delta with the stop reason and the counts, then message_stop.
   */
  lemma Ending(invented: string, frames: seq<seq<byte>>, decode: seq<byte> -> FrameKind) returns (c: Client)
    ensures var r, chunks := Run(Initial(invented), StreamItems(frames, decode)), SentChunks(frames, decode);
            var evs := r.evs + Terminated(r.st).evs;
            && AcceptAll(Fresh, evs) == Some(c)
            && c.failed == Broken(frames, decode) && c.started == (Choices(chunks) != [])
            && c.stopped == (c.started && !c.failed)
            && (c.stopped ==> AllClosed(c.blocks) && |evs| >= 2 && evs[|evs| - 1] == MessageStop
                              && Closes(evs[|evs| - 2], BooksOf(chunks)))
  {
    hide Run, StreamItems, AcceptAll, Broken, Choices, BooksOf;
    c := BlockDiscipline(invented, frames, decode);
    RunBooks(invented, frames, decode);
    var r := Run(Initial(invented), StreamItems(frames, decode));
    if c.stopped { ClosingDelta(r.st, r.evs, BooksOf(SentChunks(frames, decode))); }
  }

  lemma ClosingDelta(st: State, before: seq<Event>, b: Books)
    requires st.started && !st.failed && Keeps(st, b)
    ensures var evs := before + Terminated(st).evs;
            |evs| >= 2 && evs[|evs| - 1] == MessageStop && Closes(evs[|evs| - 2], b)
  {
    hide NotedAll, Stops;
    var d := CloseAll(st);
    Assoc(before, d.evs, [DeltaEvent(d.st), MessageStop]);
  }

  // ---- How a stream begins

  /** The envelope: the chunks' id or the invented one, their model, and the input tokens reported so far. */
  predicate Opens(e: Event, id: string, model: string, usage: Option<Usage>) {
    && e.MessageStart? && e.id == id && e.model == model
    && e.inputTokens == if usage.None? || usage.value.prompt < usage.value.cached then 0 else usage.value.prompt - usage.value.cached
  }

  /**
   The start of every stream: nothing is authored before the first choice, and it is announced by a message_start with the
   last id and model named so far, and the input tokens of the last usage report so far.
   */
  lemma Opening(invented: string, frames: seq<seq<byte>>, decode: seq<byte> -> FrameKind, i: nat)
      returns (before: seq<Event>, start: Event, after: seq<Event>)
    requires i < |frames| && !Broken(frames[..i], decode) && Choices(SentChunks(frames[..i], decode)) == []
    requires decode(frames[i]).ChatChunk? && decode(frames[i]).chunk.choices != []
    ensures var c := decode(frames[i]).chunk;
            var b := BooksOf(SentChunks(frames[..i], decode) + [c.(choices := c.choices[..1])]);
            && Run(Initial(invented), StreamItems(frames, decode)).evs == before + [start] + after
            && (forall e :: e in before ==> e.Forwarded?)
            && Opens(start, if b.id == "" then invented else b.id, b.model, b.usage)
  {
    hide Run, FrameItems, StreamItems, BooksOf, Keeps, Broken, Choices, SentChunks, ChoiceItems;
    var s0, a, rest, c := Initial(invented), frames[..i + 1], frames[i + 1..], decode(frames[i]).chunk;
    assert frames == a + rest && a[..i] == frames[..i] && a[i] == frames[i];
    var p := Run(s0, StreamItems(frames[..i], decode));
    RunBooks(invented, frames[..i], decode);
    before := p.evs;
    SilentBefore(invented, frames[..i], decode);
    var first, others := FirstChoice(p.st, SentChunks(frames[..i], decode), c);
    ChunkFrame(frames[i], decode);
    LastFrame(a, decode);
    RunAppend(s0, StreamItems(frames[..i], decode), FrameItems(frames[i], decode));
    StreamItemsAppend(a, rest, decode);
    RunAppend(s0, StreamItems(a, decode), StreamItems(rest, decode));
    start := first;
    after := others + Run(Run(s0, StreamItems(a, decode)).st, StreamItems(rest, decode)).evs;
    Assoc(before, [first], others);
    Assoc(before + [first], others, Run(Run(s0, StreamItems(a, decode)).st, StreamItems(rest, decode)).evs);
  }

  lemma ChunkFrame(frame: seq<byte>, decode: seq<byte> -> FrameKind)
    requires decode(frame).ChatChunk?
    ensures FrameItems(frame, decode) == ChunkItems(decode(frame).chunk)
  {
  }

  /** A stream that has opened no message has authored nothing. */
  lemma {:induction false} SilentBefore(invented: string, frames: seq<seq<byte>>, decode: seq<byte> -> FrameKind)
    requires !Broken(frames, decode) && Choices(SentChunks(frames, decode)) == []
    ensures forall e :: e in Run(Initial(invented), StreamItems(frames, decode)).evs ==> e.Forwarded?
  {
    hide Run, FrameItems, Broken, Reframe, Choices;
    var s0 := Initial(invented);
    if frames == [] {
      NoBooks(invented, decode);
    } else {
      var n := |frames| - 1;
      var items := FrameItems(frames[n], decode);
      BrokenSnoc(frames, decode);
      NoChoiceYet(frames, decode);
      SilentBefore(invented, frames[..n], decode);
      RunBooks(invented, frames[..n], decode);
      var p := Run(s0, StreamItems(frames[..n], decode));
      RunAppend(s0, StreamItems(frames[..n], decode), items);
      FrameEffect(p.st, frames[n], decode);
      if decode(frames[n]).ChatChunk? {
        var c := decode(frames[n]).chunk;
        ChunkFrame(frames[n], decode);
        assert items == [Head(c.id, c.model, c.usage)];
        RunOne(p.st, items[0]);
      }
    }
  }

  lemma {:induction false} NoChoiceYet(frames: seq<seq<byte>>, decode: seq<byte> -> FrameKind)
    requires frames != [] && !Broken(frames[..|frames| - 1], decode) && Choices(SentChunks(frames, decode)) == []
    ensures var n := |frames| - 1;
            Choices(SentChunks(frames[..n], decode)) == [] && (decode(frames[n]).ChatChunk? ==> decode(frames[n]).chunk.choices == [])
  {
    var n := |frames| - 1;
    var p := SentChunks(frames[..n], decode);
    assert p + [] == p;
    if decode(frames[n]).ChatChunk? {
      var c := decode(frames[n]).chunk;
      assert (p + [c])[..|p|] == p;
    }
  }

  /** The first event of the chunk that opens the message. */
  lemma FirstChoice(st: State, chunks: seq<Chunk>, c: Chunk) returns (start: Event, after: seq<Event>)
    requires !st.failed && !st.started && Keeps(st, BooksOf(chunks)) && c.choices != []
    ensures Run(st, ChunkItems(c)).evs == [start] + after
    ensures var b := BooksOf(chunks + [c.(choices := c.choices[..1])]);
            Opens(start, if b.id == "" then st.invented else b.id, b.model, b.usage)
  {
    hide Run, BooksOf, ChoiceItems, Keeps, ChoicesItems;
    var ch, head, none := c.choices[0], [Head(c.id, c.model, c.usage)], c.(choices := []);
    var one := c.(choices := [ch]);
    assert c.choices[..1] == [ch];
    FirstItems(c);
    RunAppend(st, head, ChoicesItems(c.choices));
    RunOne(st, head[0]);
    var s := Step(st, head[0]).st;
    HeadBooks(st, chunks, none);
    RunAppend(s, ChoiceItems(ch), ChoicesTail(c));
    ChoiceRun(s, ch);
    var begin := Begin(ch.usage, Lost(ch.content) + Lost(ch.reasoning));
    BooksChoice(chunks, none, ch);
    assert none.choices + [ch] == [ch];
    assert none.(choices := [ch]) == one;
    start := StartSays(s, begin, BooksOf(chunks + [none]), BooksOf(chunks + [one]));
    var es, more := Run(s, ChoiceItems(ch)).evs, Run(Run(s, ChoiceItems(ch)).st, ChoicesTail(c)).evs;
    assert es == [start] + es[1..];
    after := es[1..] + more;
    Assoc([start], es[1..], more);
  }

  function ChoicesTail(c: Chunk): seq<Item>
    requires c.choices != []
  {
    ChoicesItems(c.choices[1..])
  }

  lemma FirstItems(c: Chunk)
    requires c.choices != []
    ensures ChoicesItems(c.choices) == ChoiceItems(c.choices[0]) + ChoicesTail(c)
  {
    ChoicesHead(c.choices);
  }

  lemma {:induction false} ChoicesHead(chs: seq<Choice>)
    requires chs != []
    ensures ChoicesItems(chs) == ChoiceItems(chs[0]) + ChoicesItems(chs[1..])
  {
    hide ChoiceItems;
    var n := |chs| - 1;
    if n == 0 {
      assert chs[..0] == [] && chs[1..] == [];
      assert [] + ChoiceItems(chs[0]) == ChoiceItems(chs[0]) + [];
    } else {
      ChoicesHead(chs[..n]);
      assert chs[..n][1..] == chs[1..][..n - 1] && chs[..n][0] == chs[0] && chs[1..][n - 1] == chs[n];
      Assoc(ChoiceItems(chs[0]), ChoicesItems(chs[1..][..n - 1]), ChoiceItems(chs[n]));
    }
  }

  lemma StartSays(st: State, begin: Item, b: Books, d: Books) returns (start: Event)
    requires begin.Begin? && !st.failed && !st.started && Keeps(st, b)
    requires (d.id, d.model, d.usage) == (b.id, b.model, Later(b.usage, begin.usage))
    ensures Step(st, begin).evs == [start]
    ensures Opens(start, if d.id == "" then st.invented else d.id, d.model, d.usage)
  {
    hide NotedAll;
    start := Step(st, begin).evs[0];
  }

  // ---- Losses

  /**
   Every loss is reported: the notes name exactly what the choices before any breaking frame lose, part by part and finish
   reason by finish reason, and an untranslatable frame that broke the stream; each distinct note once.
   */
  lemma {:induction false} LossesReported(invented: string, frames: seq<seq<byte>>, decode: seq<byte> -> FrameKind)
    ensures var notes, chs := Run(Initial(invented), StreamItems(frames, decode)).st.notes, Choices(SentChunks(frames, decode));
            && Distinct(notes)
            && forall n :: n in notes <==> LosesAny(chs, n)
                                           || (n == "frame=untranslated" && FirstBreak(frames, decode) == Some(Foreign))
  {
    hide Run, StreamItems, Broken, Choices, SentChunks, LosesAny, Losses, Usages, LastName, NotedAll, FirstBreak;
    var chs := Choices(SentChunks(frames, decode));
    RunBooks(invented, frames, decode);
    NotedAllIs([], Losses(chs) + BreakNotes(FirstBreak(frames, decode)));
    forall n ensures n in Losses(chs) <==> LosesAny(chs, n) { LossesAre(chs, n); }
  }
}
