/**
 How a stream of the Responses emitter begins and ends: what each class of frame authors, the envelope with its id and
 model, the terminal event with its status and token counts, and the losses it reports, all from the decoded frames.
 */
module ResponsesEndings {
  import opened Wrappers
  import opened Bytes
  import opened ChatStream
  import opened SentContent
  import opened ResponsesSpec
  import opened ResponsesClient
  import opened ResponsesLifecycle
  import opened ResponsesTheorems
  import opened ResponsesContent

  // ---- One frame

  /** The error event a breaking frame becomes, and the note it leaves. */
  function ErrorOf(k: FrameKind): Body {
    if k.UpstreamError? then ErrorBody(k.code, k.msg)
    else ErrorBody("server_error", "upstream sent a stream frame this proxy cannot translate")
  }

  function BreakNote(k: FrameKind): string {
    if k.UpstreamError? then "finish_reason=error" else "frame=untranslated"
  }

  /** What a frame that is no chunk does to a stream still going. */
  lemma FrameEffect(st: State, frame: seq<byte>, decode: seq<byte> -> FrameKind)
    requires !Over(st)
    ensures var o, k := FrameStep(st, frame, decode), decode(frame);
            && (k.Inert? ==> o == Out(st, []))
            && (k.Native? ==> o == Out(st, [Forwarded(Reframed(frame))]))
            && (Breaks(k) ==>
                  o == Out(st.(failed := true, notes := Noted(st.notes, BreakNote(k)), seqNo := st.seqNo + 1),
                           [Ev(st.seqNo + 1, ErrorOf(k))]))
  {
    hide Reframed;
    var k := decode(frame);
    if k.Native? { NativeStep(st, frame, decode); }
    if Breaks(k) {
      var it := FrameItems(frame, decode)[0];
      assert FrameItems(frame, decode) == [it];
      FailEffect(st, it);
    }
  }

  lemma {:induction false} FailEffect(st: State, it: Item)
    requires it.Fail?
    ensures Steps(st, [it]) == Out(st.(failed := true, notes := Noted(st.notes, it.note), seqNo := st.seqNo + 1),
                                   [Ev(st.seqNo + 1, ErrorBody(it.code, it.msg))])
  {
    assert [it][..0] == [];
    assert [] + Step(st, it).evs == Step(st, it).evs;
    assert Numbered(st.seqNo, [ErrorBody(it.code, it.msg)]) == [Ev(st.seqNo + 1, ErrorBody(it.code, it.msg))];
  }

  lemma {:induction false} OverRun(st: State, frames: seq<seq<byte>>, decode: seq<byte> -> FrameKind)
    requires Over(st)
    ensures Run(st, frames, decode) == Out(st, [])
  {
    if frames != [] { OverRun(st, frames[..|frames| - 1], decode); }
  }

  // ---- The emitter's books

  /** The fields that are not about items hold what the chunks said last. */
  predicate Keeps(st: State, b: Books) {
    && st.id == (if st.started && b.id == "" then st.invented else b.id) && st.model == b.model
    && st.notes == NotedAll([], b.losses)
    && st.failed == (b.finish == "error") && st.finished == (b.finish != "") && (!st.failed ==> st.stop == b.finish)
    && match b.usage
       case None => st.inputTok == -1 && st.outputToks == 0 && st.cachedTok == 0
       case Some(u) => st.inputTok == u.prompt - u.cached && st.outputToks == u.completion && st.cachedTok == u.cached
  }

  predicate SameBooks(a: State, b: State) {
    && (a.id, a.model, a.stop, a.notes, a.invented) == (b.id, b.model, b.stop, b.notes, b.invented)
    && (a.inputTok, a.outputToks, a.cachedTok) == (b.inputTok, b.outputToks, b.cachedTok)
    && (a.started, a.failed, a.finished) == (b.started, b.failed, b.finished)
  }

  lemma ContentKeeps(st: State, it: Item)
    requires it.Prose? || it.Tool?
    ensures SameBooks(Step(st, it).st, st)
  {
    hide Numbered;
    if it.Tool? {
      CallKeeps(st, it.d);
      hide Called;
    }
  }

  lemma CallKeeps(st: State, d: ToolDelta)
    ensures SameBooks(Called(st, d).st, st)
  {
    hide FirstCall, Reuses, NewCall, CallDone, ArgsBody;
  }

  lemma {:induction false} ContentRunKeeps(st: State, items: seq<Item>)
    requires !Over(st) && forall i :: 0 <= i < |items| ==> items[i].Prose? || items[i].Tool?
    ensures SameBooks(Gated(st, items).st, st)
  {
    hide Step;
    if items != [] {
      ContentRunKeeps(st, items[..|items| - 1]);
      ContentKeeps(Gated(st, items[..|items| - 1]).st, items[|items| - 1]);
    }
  }

  lemma {:induction false} GatedOne(st: State, it: Item)
    requires !Over(st)
    ensures Gated(st, [it]) == Step(st, it)
  {
    hide Step;
    assert [it][..0] == [];
    assert [] + Step(st, it).evs == Step(st, it).evs;
  }

  lemma BeginKeeps(st: State, it: Item)
    requires it.Begin? && !Over(st)
    ensures var r, u := Step(st, it).st, ReadUsage(st, it.usage);
            && r.started && !Over(r) && (r.model, r.stop, r.invented) == (st.model, st.stop, st.invented)
            && r.id == (if !st.started && st.id == "" then st.invented else st.id)
            && (r.inputTok, r.outputToks, r.cachedTok) == (u.inputTok, u.outputToks, u.cachedTok)
            && r.notes == NotedAll(st.notes, it.lost)
  {
    hide NotedAll, Numbered;
  }

  /** The state after one choice, items aside. */
  lemma {:induction false} ChoiceGated(st: State, ch: Choice)
    requires !Over(st)
    ensures var r, u := Gated(st, ChoiceItems(ch)).st, ReadUsage(st, ch.usage);
            && r.started && (r.model, r.invented) == (st.model, st.invented)
            && r.id == (if !st.started && st.id == "" then st.invented else st.id)
            && (r.inputTok, r.outputToks, r.cachedTok) == (u.inputTok, u.outputToks, u.cachedTok)
            && r.failed == (ch.finish == "error") && r.finished == (ch.finish != "")
            && (!r.failed ==> r.stop == Renamed(st.stop, ch.finish))
            && r.notes == NotedAll(st.notes, ChoiceLosses(ch))
    ensures Step(st, Begin(ch.usage, Lost(ch.content) + Lost(ch.reasoning))).evs <= Gated(st, ChoiceItems(ch)).evs
  {
    hide Step, Gated;
    var head := [Begin(ch.usage, Lost(ch.content) + Lost(ch.reasoning))];
    var body := [Prose(Thinking, Texts(ch.reasoning)), Prose(Text, Texts(ch.content))] + ToolItems(ch.tools);
    var end := if ch.finish != "" then [Finish(ch.finish)] else [];
    assert ChoiceItems(ch) == head + body + end;
    GatedAppend(st, head, body);
    GatedAppend(st, head + body, end);
    GatedOne(st, head[0]);
    BeginKeeps(st, head[0]);
    var s := Step(st, head[0]).st;
    ContentRunKeeps(s, body);
    EndKeeps(s, Gated(s, body).st, end);
    NotedAllAppend(st.notes, Lost(ch.content) + Lost(ch.reasoning),
                   if FinishNote(ch.finish) != "" then [FinishNote(ch.finish)] else []);
  }

  lemma {:induction false} EndKeeps(s: State, t: State, end: seq<Item>)
    requires SameBooks(t, s) && !Over(s)
    requires end == [] || (|end| == 1 && end[0].Finish? && end[0].reason != "")
    ensures var r, f := Gated(t, end).st, if end == [] then "" else end[0].reason;
            && (r.id, r.model, r.invented, r.started) == (s.id, s.model, s.invented, s.started)
            && (r.inputTok, r.outputToks, r.cachedTok) == (s.inputTok, s.outputToks, s.cachedTok)
            && r.failed == (f == "error") && r.finished == (f != "") && (!r.failed ==> r.stop == Renamed(s.stop, f))
            && r.notes == NotedAll(s.notes, if FinishNote(f) != "" then [FinishNote(f)] else [])
  {
    if end != [] {
      assert end == [end[0]];
      GatedOne(t, end[0]);
      hide ItemsDone, TerminalOf, Numbered;
      assert [FinishNote(end[0].reason)][..0] == [];
      assert "finish_reason=" + "error" == "finish_reason=error";
    }
  }

  lemma KeepsChoice(st: State, r: State, b: Books, ch: Choice)
    requires Keeps(st, b) && !Over(st) && r.started && r.invented == st.invented && r.model == st.model
    requires r.id == if !st.started && st.id == "" then st.invented else st.id
    requires var u := ReadUsage(st, ch.usage);
             (r.inputTok, r.outputToks, r.cachedTok) == (u.inputTok, u.outputToks, u.cachedTok)
    requires r.failed == (ch.finish == "error") && r.finished == (ch.finish != "") && (!r.failed ==> r.stop == Renamed(st.stop, ch.finish))
    requires r.notes == NotedAll(st.notes, ChoiceLosses(ch))
    ensures Keeps(r, b.(finish := Renamed(b.finish, ch.finish), usage := Later(b.usage, ch.usage), losses := b.losses + ChoiceLosses(ch)))
  {
    hide NotedAll, ChoiceLosses;
    NotedAllAppend([], b.losses, ChoiceLosses(ch));
  }

  lemma HeadBooks(st: State, chunks: seq<Chunk>, c: Chunk)
    requires !Over(st) && c.choices == [] && Keeps(st, BooksOf(chunks))
    ensures var r := Step(st, Head(c.id, c.model, c.usage)).st;
            !Over(r) && r.started == st.started && r.invented == st.invented && Keeps(r, BooksOf(chunks + [c]))
  {
    hide BooksOf, NotedAll, Numbered;
    BooksHead(chunks, c);
  }

  lemma {:induction false} UpToFinishSnoc(chs: seq<Choice>, ch: Choice)
    ensures UpToFinish(chs + [ch]) == UpToFinish(chs) + if Finishes(chs) then [] else [ch]
    ensures Finishes(chs + [ch]) <==> Finishes(chs) || ch.finish != ""
    ensures UpToFinish(chs + [ch]) != []
  {
    assert (chs + [ch])[..|chs|] == chs;
    FinishesAppend(chs, [ch]);
    OneFinishes(ch);
    if Finishes(chs) { FinishingIsHeard(chs); }
  }

  lemma {:induction false} FinishingIsHeard(chs: seq<Choice>)
    requires chs != []
    ensures UpToFinish(chs) != []
  {
    if Finishes(chs[..|chs| - 1]) { FinishingIsHeard(chs[..|chs| - 1]); }
  }

  /** One chunk of a stream still going, up to its finish reason. */
  lemma {:induction false} ChunkBooks(st: State, chunks: seq<Chunk>, c: Chunk)
    requires !Over(st) && Keeps(st, BooksOf(chunks))
    ensures var r, cut := Gated(st, ChunkItems(c)).st, UpToFinish(c.choices);
            && Over(r) == Finishes(c.choices) && r.started == (st.started || cut != []) && r.invented == st.invented
            && Keeps(r, BooksOf(chunks + [c.(choices := cut)]))
    decreases |c.choices|
  {
    hide Gated, Step, BooksOf, Keeps, ChoiceItems, ChoiceLosses, UpToFinish, Finishes;
    var head := [Head(c.id, c.model, c.usage)];
    if c.choices == [] {
      NothingSays(Text);
      assert ChunkItems(c) == head;
      GatedOne(st, head[0]);
      HeadBooks(st, chunks, c);
      assert c.(choices := []) == c;
    } else {
      var n := |c.choices| - 1;
      var b, ch := c.(choices := c.choices[..n]), c.choices[n];
      assert b.choices + [ch] == c.choices;
      ChunkBooks(st, chunks, b);
      UpToFinishSnoc(b.choices, ch);
      Assoc(head, ChoicesItems(b.choices), ChoiceItems(ch));
      GatedAppend(st, ChunkItems(b), ChoiceItems(ch));
      var p, cut := Gated(st, ChunkItems(b)).st, b.(choices := UpToFinish(b.choices));
      if Over(p) {
        GatedOver(p, ChoiceItems(ch));
        assert UpToFinish(b.choices) + [] == UpToFinish(b.choices);
        assert cut == c.(choices := UpToFinish(c.choices));
      } else {
        ChoiceGated(p, ch);
        BooksChoice(chunks, cut, ch);
        assert cut.(choices := cut.choices + [ch]) == c.(choices := UpToFinish(c.choices));
        KeepsChoice(p, Gated(p, ChoiceItems(ch)).st, BooksOf(chunks + [cut]), ch);
      }
    }
  }

  /** The stream fails: at its finish reason, if there is one, when that is `error`; otherwise at a breaking frame. */
  predicate Fails(frames: seq<seq<byte>>, decode: seq<byte> -> FrameKind) {
    var b := BooksOf(Heard(frames, decode));
    if b.finish != "" then b.finish == "error" else Broken(frames, decode)
  }

  predicate Ends(frames: seq<seq<byte>>, decode: seq<byte> -> FrameKind) {
    Broken(frames, decode) || Finishes(Choices(SentChunks(frames, decode)))
  }

  /** The books of every run that stops item by item. */
  lemma {:induction false} GatedBooks(invented: string, frames: seq<seq<byte>>, decode: seq<byte> -> FrameKind)
    ensures var st, heard := Gated(Initial(invented), StreamItems(frames, decode)).st, Heard(frames, decode);
            && Over(st) == Ends(frames, decode) && st.started == (Choices(heard) != []) && st.invented == invented
            && st.failed == Fails(frames, decode) && st.finished == (BooksOf(heard).finish != "")
            && (st.finished || !st.failed ==> Keeps(st, BooksOf(heard)))
  {
    hide Gated, BooksOf, Keeps, FrameItems, Broken, Choices, Reframed, Finishes, SentChunks, Heard, CutChoices;
    if frames == [] {
      NoBooks(invented, decode);
    } else {
      var n := |frames| - 1;
      GatedBooks(invented, frames[..n], decode);
      HeardSnoc(frames, decode);
      BrokenSnoc(frames, decode);
      var s0, items := Initial(invented), FrameItems(frames[n], decode);
      var p, heard := Gated(s0, StreamItems(frames[..n], decode)).st, Heard(frames[..n], decode);
      GatedAppend(s0, StreamItems(frames[..n], decode), items);
      if Over(p) {
        GatedOver(p, items);
        assert heard + [] == heard;
      } else {
        FrameBooks(p, heard, frames[n], decode);
      }
    }
  }

  lemma NoBooks(invented: string, decode: seq<byte> -> FrameKind)
    ensures Gated(Initial(invented), []) == Out(Initial(invented), []) && Choices([]) == []
    ensures !Broken([], decode) && !Finishes([]) && Heard([], decode) == [] && SentChunks([], decode) == []
    ensures Keeps(Initial(invented), BooksOf([])) && BooksOf([]).finish == ""
  {
  }

  lemma FrameBooks(st: State, chunks: seq<Chunk>, frame: seq<byte>, decode: seq<byte> -> FrameKind)
    requires !Over(st) && Keeps(st, BooksOf(chunks)) && st.started == (Choices(chunks) != [])
    ensures var r, k := Gated(st, FrameItems(frame, decode)).st, decode(frame);
            var all := chunks + if k.ChatChunk? then [k.chunk.(choices := CutChoices(k))] else [];
            && Over(r) == (Breaks(k) || Finishes(Choices(ChunksOf(k)))) && r.invented == st.invented
            && r.started == (Choices(all) != []) && (Breaks(k) ==> r.failed && !r.finished && BooksOf(all).finish == "")
            && (!Breaks(k) ==> Keeps(r, BooksOf(all)) && r.failed == (BooksOf(all).finish == "error")
                               && r.finished == (BooksOf(all).finish != ""))
  {
    hide Gated, BooksOf, ChunkItems, Reframed, Step, UpToFinish, Finishes, NotedAll;
    NothingSays(Text);
    assert chunks + [] == chunks;
    match decode(frame)
    case ChatChunk(c) =>
      ChunkBooks(st, chunks, c);
      assert [c][..0] == [] && [] + c.choices == c.choices;
      assert (chunks + [c.(choices := UpToFinish(c.choices))])[..|chunks|] == chunks;
    case Inert =>
      assert Gated(st, []) == Out(st, []) by { GatedNone(st); }
    case _ =>
      var it := FrameItems(frame, decode)[0];
      assert FrameItems(frame, decode) == [it];
      GatedOne(st, it);
      AloneKeeps(st, it);
  }

  lemma {:induction false} GatedNone(st: State)
    ensures Gated(st, []) == Out(st, [])
  {
  }

  lemma AloneKeeps(st: State, it: Item)
    requires !Over(st) && (it.Forward? || it.Fail?)
    ensures it.Forward? ==> Step(st, it).st == st
    ensures it.Fail? ==> var r := Step(st, it).st; r.failed && !r.finished && r.started == st.started && r.invented == st.invented
  {
  }

  // ---- How a stream ends

  lemma {:induction false} RunAppend(st: State, a: seq<seq<byte>>, b: seq<seq<byte>>, decode: seq<byte> -> FrameKind)
    ensures var p := Run(st, a, decode);
            var q := Run(p.st, b, decode);
            Run(st, a + b, decode) == Out(q.st, p.evs + q.evs)
  {
    hide FrameStep;
    var p := Run(st, a, decode);
    if b == [] {
      assert a + b == a && p.evs + [] == p.evs;
    } else {
      var n := |b| - 1;
      assert (a + b)[..|a + b| - 1] == a + b[..n] && (a + b)[|a + b| - 1] == b[n];
      RunAppend(st, a, b[..n], decode);
      var q := Run(p.st, b[..n], decode);
      Assoc(p.evs, q.evs, FrameStep(q.st, b[n], decode).evs);
    }
  }

  /** The first breaking frame of a stream still going becomes one error event, and that is the last event of the stream. */
  lemma {:induction false} ErrorIsLast(invented: string, frames: seq<seq<byte>>, decode: seq<byte> -> FrameKind, i: nat)
    requires i < |frames| && Breaks(decode(frames[i])) && !Ends(frames[..i], decode)
    ensures var r, p := Run(Initial(invented), frames, decode), Run(Initial(invented), frames[..i], decode);
            && r.evs + Terminated(r.st).evs == p.evs + [Ev(p.st.seqNo + 1, ErrorOf(decode(frames[i])))]
            && (forall e :: e in p.evs && e.Ev? ==> !e.body.ErrorBody? && !e.body.Terminal?) && DoneMark !in p.evs
  {
    hide Run, ErrorOf, Ends, Terminated, Initial, Breaks;
    var s0, done, a, b := Initial(invented), frames[..i], frames[..i + 1], frames[i + 1..];
    CutBehind(frames, i);
    StillGoing(invented, done, decode);
    var q := BrokenOff(s0, a, decode);
    RunAppend(s0, a, b, decode);
    OverRun(q.st, b, decode);
    NoClose(q.st);
    assert q.evs + [] + [] == q.evs;
  }

  lemma CutBehind<T>(s: seq<T>, i: nat)
    requires i < |s|
    ensures s == s[..i + 1] + s[i + 1..] && s[..i + 1][..i] == s[..i] && s[..i + 1][i] == s[i] && |s[..i + 1]| == i + 1
  {
  }

  lemma BrokenOff(st: State, frames: seq<seq<byte>>, decode: seq<byte> -> FrameKind) returns (q: Out)
    requires frames != [] && Breaks(decode(frames[|frames| - 1])) && !Over(Run(st, frames[..|frames| - 1], decode).st)
    ensures var p := Run(st, frames[..|frames| - 1], decode);
            && q == Run(st, frames, decode) && q.st.failed
            && q.evs == p.evs + [Ev(p.st.seqNo + 1, ErrorOf(decode(frames[|frames| - 1])))]
  {
    hide Run, FrameStep, ErrorOf, Reframed;
    q := Run(st, frames, decode);
    FrameEffect(Run(st, frames[..|frames| - 1], decode).st, frames[|frames| - 1], decode);
    LastFrame(st, frames, decode);
  }

  /** Before a breaking frame or a finish reason the stream is going, and no event has ended it. */
  lemma {:induction false} StillGoing(invented: string, frames: seq<seq<byte>>, decode: seq<byte> -> FrameKind)
    requires !Ends(frames, decode)
    ensures var p := Run(Initial(invented), frames, decode);
            && !Over(p.st) && DoneMark !in p.evs
            && forall e :: e in p.evs && e.Ev? ==> !e.body.ErrorBody? && !e.body.Terminal?
  {
    hide Run, Gated, StreamItems, Late, QuietAfterFinish, Ends, Fails, Choices, Heard, BooksOf, Keeps, Over, SameItems;
    GatedBooks(invented, frames, decode);
    NotOver(invented);
    RunSplit(Initial(invented), frames, decode);
    Unended(Initial(invented), StreamItems(frames, decode));
  }

  lemma NotOver(invented: string)
    ensures !Over(Initial(invented))
  {
  }

  lemma {:induction false} LastFrame(st: State, frames: seq<seq<byte>>, decode: seq<byte> -> FrameKind)
    requires frames != []
    ensures var n := |frames| - 1;
            var p := Run(st, frames[..n], decode);
            var q := FrameStep(p.st, frames[n], decode);
            Run(st, frames, decode) == Out(q.st, p.evs + q.evs)
  {
  }

  lemma NoClose(st: State)
    requires st.failed
    ensures Terminated(st).evs == []
  {
  }

  /** A run that is not over has authored no error, no terminal event and no end mark. */
  lemma {:induction false} Unended(st: State, items: seq<Item>)
    requires !Over(Gated(st, items).st)
    ensures forall e :: e in Gated(st, items).evs ==> !e.DoneMark? && (e.Ev? ==> !e.body.ErrorBody? && !e.body.Terminal?)
  {
    hide Step, Over;
    if items != [] {
      var n := |items| - 1;
      var p := Gated(st, items[..n]).st;
      if !Over(p) {
        Unended(st, items[..n]);
        StepUnended(p, items[n]);
      }
    }
  }

  lemma StepUnended(st: State, it: Item)
    requires !Over(Step(st, it).st)
    ensures forall e :: e in Step(st, it).evs ==> !e.DoneMark? && (e.Ev? ==> !e.body.ErrorBody? && !e.body.Terminal?)
  {
    hide ItemsDone, TerminalOf, NotedAll;
  }

  /** The terminal event: the status of the finish reason, and the counts of the last usage report before it. */
  predicate Reports(t: Body, b: Books) {
    && t.Terminal?
    && (b.finish == "error" ==> t.status == Failed)
    && (b.finish == "length" ==> t.status == Incomplete("max_output_tokens"))
    && (b.finish == "content_filter" || b.finish == "refusal" ==> t.status == Incomplete("content_filter"))
    && (b.finish !in {"error", "length", "content_filter", "refusal"} ==> t.status == Completed)
    && (b.usage.None? ==> t.inputTokens == 0 && t.outputTokens == 0 && t.cachedTokens == 0)
    && (b.usage.Some? ==>
          var u := b.usage.value;
          && t.inputTokens == (if u.prompt < u.cached then 0 else u.prompt - u.cached)
          && t.outputTokens == u.completion && t.cachedTokens == u.cached)
  }

  lemma KeptReports(st: State, b: Books)
    requires Keeps(st, b)
    ensures Reports(TerminalOf(st), b)
  {
    hide NotedAll, Items;
  }

  /** Every terminal event of a run is that of its final fields. */
  lemma {:induction false} TerminalIsFinal(st: State, items: seq<Item>)
    requires !Over(st)
    ensures forall e :: e in Gated(st, items).evs && e.Ev? && e.body.Terminal? ==>
              Gated(st, items).st.finished && e.body == TerminalOf(Gated(st, items).st)
  {
    hide Step, Over, TerminalOf;
    if items != [] {
      var n := |items| - 1;
      var p := Gated(st, items[..n]);
      TerminalIsFinal(st, items[..n]);
      if !Over(p.st) {
        Unended(st, items[..n]);
        StepTerminal(p.st, items[n]);
      }
    }
  }

  lemma StepTerminal(st: State, it: Item)
    requires !Over(st)
    ensures forall e :: e in Step(st, it).evs && e.Ev? && e.body.Terminal? ==>
              Step(st, it).st.finished && e.body == TerminalOf(Step(st, it).st)
  {
    if it.Finish? {
      FinishTerminal(st, it.reason);
    } else {
      hide NotedAll, TerminalOf;
    }
  }

  lemma FinishTerminal(st: State, reason: string)
    ensures forall b :: b in Finished(st, reason).bodies && b.Terminal? ==> b == TerminalOf(Finished(st, reason).st)
    ensures var f := Finished(st, reason).st; f.finished && forall n :: TerminalOf(f.(seqNo := n)) == TerminalOf(f)
  {
    CountNotReported(Finished(st, reason).st);
    hide Items;
    DoneNotTerminal(Finished(st, reason).st);
    hide ItemsDone;
  }

  lemma CountNotReported(st: State)
    ensures forall n :: TerminalOf(st.(seqNo := n)) == TerminalOf(st)
  {
  }

  lemma DoneNotTerminal(st: State)
    ensures forall b :: b in ItemsDone(st) ==> !b.Terminal?
  {
    CallsDoneNotTerminal(st.calls);
    hide CallsDone;
  }

  lemma {:induction false} CallsDoneNotTerminal(calls: seq<RespCall>)
    ensures forall b :: b in CallsDone(calls) ==> !b.Terminal?
  {
    if calls != [] { CallsDoneNotTerminal(calls[..|calls| - 1]); }
  }

  /** The events that are owed at the end of the stream. */
  lemma TerminatedTerminal(st: State)
    ensures forall e :: e in Terminated(st).evs && e.Ev? && e.body.Terminal? ==> !Over(st) && e.body == TerminalOf(st)
  {
    hide TerminalOf;
    DoneNotTerminal(st);
    hide ItemsDone;
  }

  /**
   The end of every accepted stream, from its decoded frames. It is ended for the client if and only if a choice was heard
   or it failed; a response that opened and did not fail, and only that, gets the end mark, with every item done; and its
   terminal event carries the status of the finish reason and the counts of the last usage report.
   */
  lemma Ending(invented: string, frames: seq<seq<byte>>, decode: seq<byte> -> FrameKind) returns (c: Client)
    requires NeverReuses(Initial(invented), StreamItems(frames, decode))
    requires QuietAfterFinish(Initial(invented), frames, decode)
    ensures var r, heard := Run(Initial(invented), frames, decode), Heard(frames, decode);
            var evs := r.evs + Terminated(r.st).evs;
            && AcceptAll(Fresh, evs) == Some(c)
            && c.view.ended == (Choices(heard) != [] || Fails(frames, decode)) && c.view.ok == c.view.marked
            && c.view.marked == (Choices(heard) != [] && !Fails(frames, decode)) && (c.view.marked ==> AllDone(c.view.items))
            && forall e :: e in evs && e.Ev? && e.body.Terminal? ==> Reports(e.body, BooksOf(heard))
  {
    hide Run, StreamItems, AcceptAll, Fails, Ends, Choices, Heard, BooksOf, NeverReuses, QuietAfterFinish, Gated, Late, Holds,
         Terminated, Keeps, Reports, TerminalOf;
    var s0, items, heard := Initial(invented), StreamItems(frames, decode), Heard(frames, decode);
    c := Lifecycle(invented, frames, decode);
    GatedBooks(invented, frames, decode);
    RunSplit(s0, frames, decode);
    var r, g := Run(s0, frames, decode), Gated(s0, items);
    FinishedOpened(invented, frames, decode);
    assert g.evs + [] == g.evs;
    TerminalIsFinal(s0, items);
    TerminatedTerminal(r.st);
    if Keeps(g.st, BooksOf(heard)) { KeptReports(g.st, BooksOf(heard)); }
  }

  /** A finish reason comes with a choice. */
  lemma {:induction false} FinishedOpened(invented: string, frames: seq<seq<byte>>, decode: seq<byte> -> FrameKind)
    ensures var st := Gated(Initial(invented), StreamItems(frames, decode)).st; Over(st) && !st.failed ==> st.started
  {
    hide Gated, StreamItems, Heard, Choices, Keeps, Fails, Ends;
    GatedBooks(invented, frames, decode);
    var heard := Heard(frames, decode);
    if Choices(heard) == [] { assert BooksOf(heard).finish == "" by { assert Finishings([]) == []; } }
  }

  // ---- How a stream begins

  /** A stream that has opened no response has authored nothing. */
  lemma {:induction false} SilentBefore(invented: string, frames: seq<seq<byte>>, decode: seq<byte> -> FrameKind)
    requires !Ends(frames, decode) && Choices(Heard(frames, decode)) == []
    ensures var r := Run(Initial(invented), frames, decode);
            && r.st.seqNo == 0 && !r.st.started && !Over(r.st) && Keeps(r.st, BooksOf(Heard(frames, decode)))
            && r.st.invented == invented && forall e :: e in r.evs ==> e.Forwarded?
  {
    hide Run, FrameItems, Heard, Choices, Keeps, BooksOf, Gated, StreamItems, Late, QuietAfterFinish, Broken, Finishes, SentChunks;
    var s0 := Initial(invented);
    GatedBooks(invented, frames, decode);
    RunSplit(s0, frames, decode);
    if frames == [] {
      NothingRun(s0, decode);
    } else {
      var n := |frames| - 1;
      HeardSnoc(frames, decode);
      NoChoiceYet(frames, decode);
      SilentBefore(invented, frames[..n], decode);
      LastFrame(s0, frames, decode);
      SilentFrame(Run(s0, frames[..n], decode).st, frames[n], decode);
    }
  }

  lemma {:induction false} NothingRun(st: State, decode: seq<byte> -> FrameKind)
    ensures Run(st, [], decode) == Out(st, [])
  {
  }

  lemma NoChoiceYet(frames: seq<seq<byte>>, decode: seq<byte> -> FrameKind)
    requires frames != [] && !Ends(frames, decode) && Choices(Heard(frames, decode)) == []
    ensures var n := |frames| - 1;
            && !Ends(frames[..n], decode) && Choices(Heard(frames[..n], decode)) == [] && !Breaks(decode(frames[n]))
            && (decode(frames[n]).ChatChunk? ==> decode(frames[n]).chunk.choices == [])
  {
    hide Broken, Finishes, SentChunks, Heard, UpToFinish;
    HeardSnoc(frames, decode);
    var n := |frames| - 1;
    var p, k := Heard(frames[..n], decode), decode(frames[n]);
    assert p + [] == p;
    if k.ChatChunk? {
      assert (p + [k.chunk.(choices := CutChoices(k))])[..|p|] == p;
      if k.chunk.choices != [] { FinishingIsHeard(k.chunk.choices); }
    }
  }

  lemma SilentFrame(st: State, frame: seq<byte>, decode: seq<byte> -> FrameKind)
    requires !Over(st) && !Breaks(decode(frame)) && (decode(frame).ChatChunk? ==> decode(frame).chunk.choices == [])
    ensures var q := FrameStep(st, frame, decode); q.st.seqNo == st.seqNo && forall e :: e in q.evs ==> e.Forwarded?
  {
    hide Reframed;
    if decode(frame).ChatChunk? {
      var it := FrameItems(frame, decode)[0];
      assert FrameItems(frame, decode) == [it];
      StepsOne(st, it);
      HeadQuiet(st, it);
    } else {
      FrameEffect(st, frame, decode);
    }
  }

  /**
   The start of every stream: nothing is authored before the first choice, and it is announced by `created` and
   `in_progress`, numbered 1 and 2, with the last id and model named so far.
   */
  lemma Opening(invented: string, frames: seq<seq<byte>>, decode: seq<byte> -> FrameKind, i: nat)
      returns (before: seq<Event>, id: string, after: seq<Event>)
    requires i < |frames| && !Ends(frames[..i], decode) && Choices(Heard(frames[..i], decode)) == []
    requires decode(frames[i]).ChatChunk? && decode(frames[i]).chunk.choices != []
    ensures var b := BooksOf(Heard(frames[..i], decode) + [decode(frames[i]).chunk.(choices := [])]);
            && id == (if b.id == "" then invented else b.id)
            && Run(Initial(invented), frames, decode).evs
               == before + [Ev(1, Created(id, b.model)), Ev(2, InProgress(id, b.model))] + after
            && forall e :: e in before ==> e.Forwarded?
  {
    hide Run, FrameStep, BooksOf, Keeps, Ends, Choices, Heard, Initial;
    var s0, a, rest, c := Initial(invented), frames[..i + 1], frames[i + 1..], decode(frames[i]).chunk;
    CutBehind(frames, i);
    SilentBefore(invented, frames[..i], decode);
    var p := Run(s0, frames[..i], decode);
    before := p.evs;
    var more: seq<Event>;
    id, more := FirstChoice(p.st, Heard(frames[..i], decode), frames[i], decode);
    LastFrame(s0, a, decode);
    RunAppend(s0, a, rest, decode);
    var last := Run(Run(s0, a, decode).st, rest, decode).evs;
    after := more + last;
    var model := BooksOf(Heard(frames[..i], decode) + [c.(choices := [])]).model;
    var start := [Ev(1, Created(id, model)), Ev(2, InProgress(id, model))];
    Assoc(before, start, more);
    Assoc(before + start, more, last);
  }

  lemma FirstChoice(st: State, chunks: seq<Chunk>, frame: seq<byte>, decode: seq<byte> -> FrameKind)
      returns (id: string, after: seq<Event>)
    requires decode(frame).ChatChunk? && decode(frame).chunk.choices != []
    requires !Over(st) && !st.started && st.seqNo == 0 && Keeps(st, BooksOf(chunks))
    ensures var b := BooksOf(chunks + [decode(frame).chunk.(choices := [])]);
            && id == (if b.id == "" then st.invented else b.id)
            && FrameStep(st, frame, decode).evs == [Ev(1, Created(id, b.model)), Ev(2, InProgress(id, b.model))] + after
  {
    hide BooksOf, Keeps, ChoiceItems, Steps, Step, ChoicesItems;
    var c := decode(frame).chunk;
    var head, ch := Head(c.id, c.model, c.usage), c.choices[0];
    var none := c.(choices := []);
    HeadBooks(st, chunks, none);
    HeadQuiet(st, head);
    var s, b := Step(st, head).st, BooksOf(chunks + [none]);
    id := if b.id == "" then st.invented else b.id;
    var begin := Begin(ch.usage, Lost(ch.content) + Lost(ch.reasoning));
    StartSays(s, begin, b);
    var more := FirstItems(c.choices);
    var items := ChunkItems(c);
    assert items == [head] + [begin] + more;
    StepsTwo(st, head, begin, more);
    after := Steps(Step(s, begin).st, more).evs;
  }

  lemma HeadQuiet(st: State, head: Item)
    requires head.Head?
    ensures Step(st, head).evs == [] && Step(st, head).st.seqNo == st.seqNo
  {
  }

  lemma StartSays(st: State, begin: Item, b: Books)
    requires begin.Begin? && !st.started && st.seqNo == 0 && Keeps(st, b)
    ensures var id := if b.id == "" then st.invented else b.id;
            Step(st, begin).evs == [Ev(1, Created(id, b.model)), Ev(2, InProgress(id, b.model))]
  {
    hide NotedAll;
  }

  lemma {:induction false} FirstItems(chs: seq<Choice>) returns (more: seq<Item>)
    requires chs != []
    ensures ChoicesItems(chs) == [Begin(chs[0].usage, Lost(chs[0].content) + Lost(chs[0].reasoning))] + more
  {
    var n := |chs| - 1;
    if n == 0 {
      assert chs[..0] == [];
      more := ChoiceItems(chs[0])[1..];
    } else {
      var m := FirstItems(chs[..n]);
      more := m + ChoiceItems(chs[n]);
    }
  }

  lemma {:induction false} StepsAppend(st: State, a: seq<Item>, b: seq<Item>)
    ensures var p := Steps(st, a);
            var q := Steps(p.st, b);
            Steps(st, a + b) == Out(q.st, p.evs + q.evs)
  {
    hide Step;
    if b == [] {
      assert a + b == a;
    } else {
      var n := |b| - 1;
      assert (a + b)[..|a + b| - 1] == a + b[..n] && (a + b)[|a + b| - 1] == b[n];
      StepsAppend(st, a, b[..n]);
      var p := Steps(st, a);
      var q := Steps(p.st, b[..n]);
      Assoc(p.evs, q.evs, Step(q.st, b[n]).evs);
    }
  }

  lemma {:induction false} StepsOne(st: State, it: Item)
    ensures Steps(st, [it]) == Step(st, it)
  {
    hide Step;
    assert [it][..0] == [];
    assert [] + Step(st, it).evs == Step(st, it).evs;
  }

  lemma {:induction false} StepsTwo(st: State, x: Item, y: Item, more: seq<Item>)
    requires Step(st, x).evs == []
    ensures var q := Step(Step(st, x).st, y);
            Steps(st, [x] + [y] + more).evs == q.evs + Steps(q.st, more).evs
  {
    hide Step, Steps;
    StepsAppend(st, [x], [y]);
    StepsAppend(st, [x] + [y], more);
    StepsOne(st, x);
    StepsOne(Step(st, x).st, y);
    var q := Step(Step(st, x).st, y);
    assert [] + q.evs == q.evs;
  }

  // ---- Losses

  /** The notes one item leaves. */
  function ItemNotes(it: Item): seq<string> {
    match it
    case Begin(_, lost) => lost
    case Finish(reason) => if FinishNote(reason) != "" then [FinishNote(reason)] else []
    case _ => []
  }

  lemma StepNotes(st: State, it: Item)
    requires !it.Fail?
    ensures Step(st, it).st.notes == NotedAll(st.notes, ItemNotes(it))
  {
    hide ItemsDone, TerminalOf, Numbered, Called;
    if it.Tool? { ContentKeeps(st, it); }
    if it.Finish? {
      assert [FinishNote(it.reason)][..0] == [];
      assert "finish_reason=" + "error" == "finish_reason=error";
    }
  }

  lemma {:induction false} ContentNotes(st: State, items: seq<Item>)
    requires forall i :: 0 <= i < |items| ==> items[i].Prose? || items[i].Tool?
    ensures Steps(st, items).st.notes == st.notes
  {
    hide Step;
    if items != [] {
      ContentNotes(st, items[..|items| - 1]);
      ContentKeeps(Steps(st, items[..|items| - 1]).st, items[|items| - 1]);
    }
  }

  lemma {:induction false} ChoiceNotes(st: State, ch: Choice)
    ensures Steps(st, ChoiceItems(ch)).st.notes == NotedAll(st.notes, ChoiceLosses(ch))
  {
    hide Step, Steps, NotedAll;
    var begin := Begin(ch.usage, Lost(ch.content) + Lost(ch.reasoning));
    var body := [Prose(Thinking, Texts(ch.reasoning)), Prose(Text, Texts(ch.content))] + ToolItems(ch.tools);
    var end := if ch.finish != "" then [Finish(ch.finish)] else [];
    assert ChoiceItems(ch) == [begin] + body + end;
    StepsAppend(st, [begin], body);
    StepsAppend(st, [begin] + body, end);
    StepsOne(st, begin);
    StepNotes(st, begin);
    var s := Step(st, begin).st;
    ContentNotes(s, body);
    EndNotes(Steps(s, body).st, end);
    NotedAllAppend(st.notes, Lost(ch.content) + Lost(ch.reasoning),
                   if FinishNote(ch.finish) != "" then [FinishNote(ch.finish)] else []);
  }

  lemma {:induction false} EndNotes(st: State, end: seq<Item>)
    requires end == [] || (|end| == 1 && end[0].Finish?)
    ensures Steps(st, end).st.notes == NotedAll(st.notes, if end == [] then [] else ItemNotes(end[0]))
  {
    hide Step;
    if end != [] {
      assert end == [end[0]];
      StepsOne(st, end[0]);
      StepNotes(st, end[0]);
    }
  }

  lemma {:induction false} ChoicesNotes(st: State, chs: seq<Choice>)
    ensures Steps(st, ChoicesItems(chs)).st.notes == NotedAll(st.notes, Losses(chs))
  {
    hide Step, ChoiceItems, ChoiceLosses, NotedAll;
    if chs == [] {
      assert NotedAll(st.notes, []) == st.notes by { NoNotes(st.notes); }
    } else {
      var n := |chs| - 1;
      ChoicesNotes(st, chs[..n]);
      StepsAppend(st, ChoicesItems(chs[..n]), ChoiceItems(chs[n]));
      ChoiceNotes(Steps(st, ChoicesItems(chs[..n])).st, chs[n]);
      NotedAllAppend(st.notes, Losses(chs[..n]), ChoiceLosses(chs[n]));
    }
  }

  lemma {:induction false} NoNotes(notes: seq<string>)
    ensures NotedAll(notes, []) == notes
  {
  }

  lemma {:induction false} ChunkNotes(st: State, c: Chunk)
    ensures Steps(st, ChunkItems(c)).st.notes == NotedAll(st.notes, Losses(c.choices))
  {
    hide Step, Steps, ChoicesItems, NotedAll;
    var head := Head(c.id, c.model, c.usage);
    StepsAppend(st, [head], ChoicesItems(c.choices));
    StepsOne(st, head);
    StepNotes(st, head);
    NoNotes(st.notes);
    ChoicesNotes(Step(st, head).st, c.choices);
  }

  lemma {:induction false} LossesAppend(a: seq<Choice>, b: seq<Choice>)
    ensures Losses(a + b) == Losses(a) + Losses(b)
  {
    hide ChoiceLosses;
    if b == [] {
      assert a + b == a;
    } else {
      var n := |b| - 1;
      assert (a + b)[..|a + b| - 1] == a + b[..n] && (a + b)[|a + b| - 1] == b[n];
      LossesAppend(a, b[..n]);
      Assoc(Losses(a), Losses(b[..n]), ChoiceLosses(b[n]));
    }
  }

  /** The note of a frame that breaks a stream still going. */
  function BreakNotes(frames: seq<seq<byte>>, decode: seq<byte> -> FrameKind): seq<string> {
    var k := FirstBreak(frames, decode);
    if k.Some? && !Finishes(Choices(SentChunks(frames, decode))) then [BreakNote(k.value)] else []
  }

  /** What the chunks through the one that finishes the stream lose, and the frame that broke it. */
  function AllNotes(frames: seq<seq<byte>>, decode: seq<byte> -> FrameKind): seq<string> {
    Losses(Choices(ThroughFinish(SentChunks(frames, decode)))) + BreakNotes(frames, decode)
  }

  lemma NotesOver(frames: seq<seq<byte>>, decode: seq<byte> -> FrameKind)
    requires frames != []
    requires var init := frames[..|frames| - 1]; Broken(init, decode) || Finishes(Choices(SentChunks(init, decode)))
    ensures AllNotes(frames, decode) == AllNotes(frames[..|frames| - 1], decode)
  {
    hide Broken, Losses, Finishes, BreakNote, Breaks;
    var n := |frames| - 1;
    var a, k := SentChunks(frames[..n], decode), decode(frames[n]);
    FirstBreakIs(frames[..n], decode);
    assert a + [] == a;
    if !Broken(frames[..n], decode) && k.ChatChunk? {
      assert (a + [k.chunk])[..|a|] == a && ThroughFinish(a) + [] == ThroughFinish(a);
      FinishesAppend(Choices(a), k.chunk.choices);
    }
  }

  lemma NotesGoOn(frames: seq<seq<byte>>, decode: seq<byte> -> FrameKind)
    requires frames != []
    requires var init := frames[..|frames| - 1]; !Broken(init, decode) && !Finishes(Choices(SentChunks(init, decode)))
    ensures var n := |frames| - 1;
            var k := decode(frames[n]);
            AllNotes(frames, decode) == AllNotes(frames[..n], decode)
              + if k.ChatChunk? then Losses(k.chunk.choices) else if Breaks(k) then [BreakNote(k)] else []
  {
    hide Broken, Losses, Finishes, BreakNote, Breaks;
    var n := |frames| - 1;
    var a, k := SentChunks(frames[..n], decode), decode(frames[n]);
    var t := ThroughFinish(a);
    FirstBreakIs(frames[..n], decode);
    ChunksGoOn(k);
    assert BreakNotes(frames[..n], decode) == [];
    assert a + [] == a && Losses(Choices(t)) + [] == Losses(Choices(t));
    if k.ChatChunk? {
      assert (a + [k.chunk])[..|a|] == a && (t + [k.chunk])[..|t|] == t;
      LossesAppend(Choices(t), k.chunk.choices);
    }
  }

  lemma {:induction false} RunNotes(invented: string, frames: seq<seq<byte>>, decode: seq<byte> -> FrameKind)
    ensures Run(Initial(invented), frames, decode).st.notes == NotedAll([], AllNotes(frames, decode))
  {
    hide Run, FrameStep, Broken, Losses, NotedAll, Finishes, BreakNote, Breaks, AllNotes, SentChunks, Choices, Over;
    var s0 := Initial(invented);
    if frames == [] {
      NothingRun(s0, decode);
      NothingNoted(decode);
    } else {
      var n := |frames| - 1;
      var k, before, p := decode(frames[n]), AllNotes(frames[..n], decode), Run(s0, frames[..n], decode).st;
      RunNotes(invented, frames[..n], decode);
      LastFrame(s0, frames, decode);
      OverExactly(invented, frames[..n], decode);
      FrameNotes(p, frames[n], decode);
      if Over(p) {
        NotesOver(frames, decode);
      } else {
        NotesGoOn(frames, decode);
        assert before + [] == before;
        if k.ChatChunk? { NotedAllAppend([], before, Losses(k.chunk.choices)); }
        OneMore(before, BreakNote(if Breaks(k) then k else Foreign));
      }
    }
  }

  lemma NothingNoted(decode: seq<byte> -> FrameKind)
    ensures AllNotes([], decode) == [] && NotedAll([], []) == []
  {
  }

  lemma ChunksGoOn(k: FrameKind)
    ensures k.ChatChunk? ==> !Breaks(k)
  {
  }

  lemma {:induction false} OneMore(notes: seq<string>, n: string)
    ensures NotedAll([], notes + [n]) == Noted(NotedAll([], notes), n)
  {
    assert (notes + [n])[..|notes|] == notes;
  }

  lemma {:induction false} OverExactly(invented: string, frames: seq<seq<byte>>, decode: seq<byte> -> FrameKind)
    ensures Over(Run(Initial(invented), frames, decode).st)
         == (Broken(frames, decode) || Finishes(Choices(SentChunks(frames, decode))))
  {
    hide Run, Gated, StreamItems, Late, QuietAfterFinish, Fails, Choices, Heard, BooksOf, Keeps, Over, SameItems, Broken, Finishes,
         SentChunks;
    NotOver(invented);
    GatedBooks(invented, frames, decode);
    RunSplit(Initial(invented), frames, decode);
  }

  lemma FrameNotes(st: State, frame: seq<byte>, decode: seq<byte> -> FrameKind)
    ensures var k := decode(frame);
            FrameStep(st, frame, decode).st.notes ==
              if Over(st) then st.notes
              else if k.ChatChunk? then NotedAll(st.notes, Losses(k.chunk.choices))
              else if Breaks(k) then Noted(st.notes, BreakNote(k)) else st.notes
  {
    hide Steps, ChunkItems, NotedAll, Losses, Reframed, BreakNote;
    if !Over(st) {
      if decode(frame).ChatChunk? {
        ChunkNotes(st, decode(frame).chunk);
      } else {
        FrameEffect(st, frame, decode);
      }
    }
  }

  /**
   Every loss is reported: the notes name exactly what the choices lose, through the chunk that finishes the stream, part
   by part and finish reason by finish reason, and the frame that broke a stream still going; each distinct note once.
   */
  lemma {:induction false} LossesReported(invented: string, frames: seq<seq<byte>>, decode: seq<byte> -> FrameKind)
    ensures var notes, chunks := Run(Initial(invented), frames, decode).st.notes, SentChunks(frames, decode);
            var chs, broke := Choices(ThroughFinish(chunks)), FirstBreak(frames, decode);
            && Distinct(notes)
            && forall n :: n in notes <==> LosesAny(chs, n)
                                           || (broke.Some? && !Finishes(Choices(chunks)) && n == BreakNote(broke.value))
  {
    hide Run, Broken, Choices, ThroughFinish, SentChunks, LosesAny, Losses, NotedAll, FirstBreak, BreakNote, Finishes, AllNotes;
    var chunks := SentChunks(frames, decode);
    var chs, broke := Choices(ThroughFinish(chunks)), FirstBreak(frames, decode);
    RunNotes(invented, frames, decode);
    NotedAllIs([], AllNotes(frames, decode));
    var notes := Run(Initial(invented), frames, decode).st.notes;
    forall n ensures n in notes <==>
      LosesAny(chs, n) || (broke.Some? && !Finishes(Choices(chunks)) && n == BreakNote(broke.value))
    {
      assert n in notes <==> n in AllNotes(frames, decode);
      LossesAre(chs, n);
      InAllNotes(frames, decode, n);
    }
  }

  lemma {:induction false} InAllNotes(frames: seq<seq<byte>>, decode: seq<byte> -> FrameKind, n: string)
    ensures var chunks, broke := SentChunks(frames, decode), FirstBreak(frames, decode);
            n in AllNotes(frames, decode) <==>
              n in Losses(Choices(ThroughFinish(chunks)))
              || (broke.Some? && !Finishes(Choices(chunks)) && n == BreakNote(broke.value))
  {
    hide Choices, ThroughFinish, SentChunks, Losses, FirstBreak, BreakNote, Finishes;
  }
}
