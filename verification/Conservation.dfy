/**
 Slots and reservations over any interleaving of requests: the opening and teardown of an attempt
 (router/router.go) as steps on the in-flight counters and the quota tracker.
 */
module Conservation {
  import opened Quota

  /** An attempt that was opened and not torn down yet, with the tokens its teardown will release. */
  datatype Attempt = Attempt(req: nat, id: string, reservedTokens: int)

  datatype System = System(tracker: Tracker, inflight: map<string, int>, open: seq<Attempt>,
                           hist: map<string, seq<TokenEvent>>, now: int)

  const Idle: System := System(Empty, map[], [], map[], 0)

  /** What any request may do, one step at a time. */
  datatype Action =
    | Open(req: nat, id: string, estimate: int, last: bool)  // reserve, then take a slot
    | Close(at: nat, used: int)                              // releaseQuota of the open attempt `at`
    | Gate(id: string)                                       // Allow
    | Look(id: string)                                       // Usage, for the log line
    | Count(id: string)                                      // RecordRequest
    | Tick                                                   // only time passes

  function Inflight(s: System, id: string): int {
    if id in s.inflight then s.inflight[id] else 0
  }

  function Hist(s: System, id: string): seq<TokenEvent> {
    if id in s.hist then s.hist[id] else []
  }

  function CountInflight(m: map<string, int>, id: string, delta: int): map<string, int> {
    m[id := (if id in m then m[id] else 0) + delta]
  }

  /** The opening half of an attempt: a blocked reservation skips unless this is the last attempt. */
  function Opened(s: System, req: nat, id: string, estimate: int, last: bool, limits: string -> Limits, now: int): System {
    if estimate <= 0 then
      s.(inflight := CountInflight(s.inflight, id, 1), open := s.open + [Attempt(req, id, 0)], now := now)
    else
      var (t, ok) := Reserving(s.tracker, id, limits(id), estimate, now);
      if !ok && !last then s.(tracker := t, now := now)
      else s.(tracker := t, inflight := CountInflight(s.inflight, id, 1),
              open := s.open + [Attempt(req, id, if ok then estimate else 0)], now := now)
  }

  /** The teardown: the slot goes back, the reservation is released, the usage recorded. */
  function TornDown(s: System, at: nat, used: int, now: int): System
    requires at < |s.open|
  {
    var a := s.open[at];
    s.(tracker := Completed(s.tracker, a.id, a.reservedTokens, used, now),
       inflight := CountInflight(s.inflight, a.id, -1),
       open := s.open[..at] + s.open[at + 1..],
       hist := if used > 0 then s.hist[a.id := Hist(s, a.id) + [TokenEvent(now, used)]] else s.hist,
       now := now)
  }

  /** A request holds one attempt at a time; a teardown names an open attempt; the clock does not run back. */
  predicate Enabled(s: System, a: Action, now: int) {
    && s.now <= now
    && (a.Close? ==> a.at < |s.open|)
    && (a.Open? ==> forall i :: 0 <= i < |s.open| ==> s.open[i].req != a.req)
  }

  function Act(s: System, a: Action, limits: string -> Limits, now: int): System
    requires Enabled(s, a, now)
  {
    match a
    case Open(req, id, estimate, last) => Opened(s, req, id, estimate, last, limits, now)
    case Close(at, used) => TornDown(s, at, used, now)
    case Gate(id) => s.(tracker := Allowed(s.tracker, id, limits(id), now).0, now := now)
    case Look(id) => s.(tracker := UsageSeen(s.tracker, id, now), now := now)
    case Count(id) => s.(tracker := RequestRecorded(s.tracker, id, now), now := now)
    case Tick => s.(now := now)
  }

  datatype Timed = Timed(act: Action, now: int)

  /** A run: every step enabled where it happens. */
  predicate IsRun(s: System, run: seq<Timed>, limits: string -> Limits)
    decreases |run|, 0
  {
    run == [] || (var n := |run| - 1;
                  IsRun(s, run[..n], limits) && Enabled(After(s, run[..n], limits), run[n].act, run[n].now))
  }

  function After(s: System, run: seq<Timed>, limits: string -> Limits): System
    requires IsRun(s, run, limits)
    decreases |run|, 1
  {
    if run == [] then s
    else Act(After(s, run[..|run| - 1], limits), run[|run| - 1].act, limits, run[|run| - 1].now)
  }

  // ---- Slots

  /** How many open attempts are on a server. */
  function OpenOn(open: seq<Attempt>, id: string): nat {
    if open == [] then 0 else OpenOn(open[..|open| - 1], id) + if open[|open| - 1].id == id then 1 else 0
  }

  /** The tokens the open attempts of a server will release. */
  function HeldOn(open: seq<Attempt>, id: string): int {
    if open == [] then 0
    else HeldOn(open[..|open| - 1], id) + if open[|open| - 1].id == id then open[|open| - 1].reservedTokens else 0
  }

  lemma {:induction false} OpenAppend(a: seq<Attempt>, b: seq<Attempt>, id: string)
    ensures OpenOn(a + b, id) == OpenOn(a, id) + OpenOn(b, id)
    ensures HeldOn(a + b, id) == HeldOn(a, id) + HeldOn(b, id)
  {
    if b == [] {
      assert a + b == a;
    } else {
      var n := |b| - 1;
      assert (a + b)[..|a + b| - 1] == a + b[..n] && (a + b)[|a + b| - 1] == b[n];
      OpenAppend(a, b[..n], id);
    }
  }

  lemma {:induction false} OneOpen(a: Attempt, id: string)
    ensures OpenOn([a], id) == (if a.id == id then 1 else 0)
    ensures HeldOn([a], id) == (if a.id == id then a.reservedTokens else 0)
  {
    assert [a][..0] == [];
  }

  lemma {:induction false} RemoveOpen(open: seq<Attempt>, at: nat, id: string)
    requires at < |open|
    ensures OpenOn(open[..at] + open[at + 1..], id) == OpenOn(open, id) - (if open[at].id == id then 1 else 0)
    ensures HeldOn(open[..at] + open[at + 1..], id)
         == HeldOn(open, id) - (if open[at].id == id then open[at].reservedTokens else 0)
  {
    var l, m, r := open[..at], [open[at]], open[at + 1..];
    assert open == l + m + r;
    OpenAppend(l + m, r, id);
    OpenAppend(l, m, id);
    OpenAppend(l, r, id);
    OneOpen(open[at], id);
  }

  lemma {:induction false} AddOpen(open: seq<Attempt>, a: Attempt, id: string)
    ensures OpenOn(open + [a], id) == OpenOn(open, id) + (if a.id == id then 1 else 0)
    ensures HeldOn(open + [a], id) == HeldOn(open, id) + (if a.id == id then a.reservedTokens else 0)
  {
    OpenAppend(open, [a], id);
    OneOpen(a, id);
  }

  predicate NonNegative(open: seq<Attempt>) {
    forall i :: 0 <= i < |open| ==> open[i].reservedTokens >= 0
  }

  lemma {:induction false} HeldNonNegative(open: seq<Attempt>, id: string)
    requires NonNegative(open)
    ensures HeldOn(open, id) >= 0
  {
    if open != [] { HeldNonNegative(open[..|open| - 1], id); }
  }

  /** What every reachable state keeps, for one server. */
  predicate Balanced(s: System, id: string, tpm: int) {
    && Inflight(s, id) == OpenOn(s.open, id)
    && Reserved(s.tracker, id) == (if tpm > 0 then HeldOn(s.open, id) else 0)
  }

  lemma StepBalanced(s: System, a: Action, limits: string -> Limits, now: int, id: string)
    requires Enabled(s, a, now) && NonNegative(s.open) && Balanced(s, id, limits(id).tpm)
    ensures NonNegative(Act(s, a, limits, now).open) && Balanced(Act(s, a, limits, now), id, limits(id).tpm)
  {
    hide OpenOn, HeldOn;
    match a
    case Open(req, sid, estimate, last) => OpenBalanced(s, req, sid, estimate, last, limits, now, id);
    case Close(at, used) => CloseBalanced(s, at, used, limits, now, id);
    case Gate(_) =>
    case Look(_) =>
    case Count(_) =>
    case Tick =>
  }

  lemma OpenBalanced(s: System, req: nat, sid: string, estimate: int, last: bool, limits: string -> Limits, now: int, id: string)
    requires NonNegative(s.open) && Balanced(s, id, limits(id).tpm)
    ensures var r := Opened(s, req, sid, estimate, last, limits, now); NonNegative(r.open) && Balanced(r, id, limits(id).tpm)
  {
    hide OpenOn, HeldOn, Pruned, Sum;
    var (t, ok) := Reserving(s.tracker, sid, limits(sid), estimate, now);
    AddOpen(s.open, Attempt(req, sid, if estimate > 0 && ok then estimate else 0), id);
  }

  lemma CloseBalanced(s: System, at: nat, used: int, limits: string -> Limits, now: int, id: string)
    requires at < |s.open| && NonNegative(s.open) && Balanced(s, id, limits(id).tpm)
    ensures var r := TornDown(s, at, used, now); NonNegative(r.open) && Balanced(r, id, limits(id).tpm)
  {
    hide OpenOn, HeldOn, Pruned, Sum;
    var rest := s.open[..at] + s.open[at + 1..];
    RemoveOpen(s.open, at, id);
    HeldNonNegative(rest, id);
  }

  /**
   Conservation. After any run of interleaved requests, each server's in-flight counter is the number of
   attempts open on it, and its reserved total is what those attempts will release when it has a token
   limit, 0 when it has none. So the release's clamp at zero never hides a difference.
   */
  lemma {:induction false} Conserved(run: seq<Timed>, limits: string -> Limits, id: string)
    requires IsRun(Idle, run, limits)
    ensures NonNegative(After(Idle, run, limits).open) && Balanced(After(Idle, run, limits), id, limits(id).tpm)
  {
    hide Act, Balanced, Enabled;
    if run == [] {
      IdleBalanced(limits(id).tpm, id);
    } else {
      var n := |run| - 1;
      Conserved(run[..n], limits, id);
      StepBalanced(After(Idle, run[..n], limits), run[n].act, limits, run[n].now, id);
    }
  }

  lemma IdleBalanced(tpm: int, id: string)
    ensures NonNegative(Idle.open) && Balanced(Idle, id, tpm)
  {
  }

  /** With nothing open, every slot and every reservation is back. */
  lemma {:induction false} QuiescentIsClean(run: seq<Timed>, limits: string -> Limits, id: string)
    requires IsRun(Idle, run, limits) && After(Idle, run, limits).open == []
    ensures Inflight(After(Idle, run, limits), id) == 0 && Reserved(After(Idle, run, limits).tracker, id) == 0
  {
    Conserved(run, limits, id);
  }

  // ---- Token safety

  /** Teardowns on the server report no more than was reserved for them. */
  predicate Honest(s: System, a: Action, id: string) {
    a.Close? && a.at < |s.open| && s.open[a.at].id == id ==>
      a.used <= s.open[a.at].reservedTokens || a.used <= 0
  }

  predicate HonestRun(run: seq<Timed>, limits: string -> Limits, id: string)
    requires IsRun(Idle, run, limits)
  {
    run == [] || (var n := |run| - 1;
                  HonestRun(run[..n], limits, id) && Honest(After(Idle, run[..n], limits), run[n].act, id))
  }

  /** The stored list never under-counts the true history, now or later. */
  ghost predicate Covers(stored: seq<TokenEvent>, hist: seq<TokenEvent>, now: int) {
    && Positive(stored) && Positive(hist)
    && forall t :: now <= t ==> Live(stored, t) >= Live(hist, t)
  }

  /** Usage in the window plus what is reserved stays within the limit. */
  ghost predicate Safe(s: System, id: string, tpm: int) {
    && Covers(Events(s.tracker, id), Hist(s, id), s.now)
    && Live(Hist(s, id), s.now) + HeldOn(s.open, id) <= tpm
  }

  lemma CoversLater(stored: seq<TokenEvent>, hist: seq<TokenEvent>, now: int, later: int)
    requires Covers(stored, hist, now) && now <= later
    ensures Covers(stored, hist, later)
  {
    hide Live;
  }

  lemma CoversPruned(stored: seq<TokenEvent>, hist: seq<TokenEvent>, now: int)
    requires Covers(stored, hist, now)
    ensures Covers(Pruned(stored, now - WINDOW), hist, now)
  {
    hide Live;
    PrunedPositive(stored, now - WINDOW);
    forall t | now <= t ensures Live(Pruned(stored, now - WINDOW), t) >= Live(hist, t) { LiveOfPruned(stored, now, t); }
  }

  lemma CoversCompacted(stored: seq<TokenEvent>, hist: seq<TokenEvent>, now: int)
    requires Covers(stored, hist, now)
    ensures Covers(Compacted(stored, now - WINDOW), hist, now)
  {
    hide Live, Compacted;
    LiveOfCompacted(stored, now, now);
    forall t | now <= t ensures Live(Compacted(stored, now - WINDOW), t) >= Live(hist, t) { LiveOfCompacted(stored, now, t); }
  }

  lemma CoversSnoc(stored: seq<TokenEvent>, hist: seq<TokenEvent>, now: int, e: TokenEvent)
    requires Covers(stored, hist, now) && e.tokens > 0
    ensures Covers(stored + [e], hist + [e], now)
  {
    hide Live;
    forall t | now <= t ensures Live(stored + [e], t) >= Live(hist + [e], t) {
      LiveSnoc(stored, e, t);
      LiveSnoc(hist, e, t);
    }
  }

  lemma StepSafe(s: System, a: Action, limits: string -> Limits, now: int, id: string)
    requires Enabled(s, a, now) && Honest(s, a, id) && limits(id).tpm > 0
    requires NonNegative(s.open) && Balanced(s, id, limits(id).tpm) && Safe(s, id, limits(id).tpm)
    ensures Safe(Act(s, a, limits, now), id, limits(id).tpm)
  {
    hide Live, HeldOn, OpenOn, Pruned, Compacted, PrunedTimes, CompactedTimes, Allowed;
    var stored, hist := Events(s.tracker, id), Hist(s, id);
    LiveFalls(hist, s.now, now);
    CoversLater(stored, hist, s.now, now);
    CoversPruned(stored, hist, now);
    match a
    case Open(req, sid, estimate, last) => OpenSafe(s, req, sid, estimate, last, limits, now, id);
    case Close(at, used) => CloseSafe(s, at, used, limits, now, id);
    case Gate(sid) => AllowedEvents(s.tracker, sid, limits(sid), now, id);
    case Look(_) => CoversCompacted(stored, hist, now);
    case Count(_) =>
    case Tick =>
  }

  lemma OpenSafe(s: System, req: nat, sid: string, estimate: int, last: bool, limits: string -> Limits, now: int, id: string)
    requires s.now <= now && limits(id).tpm > 0
    requires Balanced(s, id, limits(id).tpm) && Safe(s, id, limits(id).tpm)
    ensures Safe(Opened(s, req, sid, estimate, last, limits, now), id, limits(id).tpm)
  {
    hide Live, HeldOn, OpenOn, Pruned, Sum;
    var stored, hist := Events(s.tracker, id), Hist(s, id);
    LiveFalls(hist, s.now, now);
    CoversLater(stored, hist, s.now, now);
    CoversPruned(stored, hist, now);
    AddOpen(s.open, Attempt(req, sid, if estimate > 0 && Reserving(s.tracker, sid, limits(sid), estimate, now).1 then estimate else 0), id);
    LiveIs(stored, now);
  }

  lemma {:induction false} LiveIs(evs: seq<TokenEvent>, now: int)
    ensures Live(evs, now) == Sum(Pruned(evs, now - WINDOW))
  {
  }

  lemma CloseSafe(s: System, at: nat, used: int, limits: string -> Limits, now: int, id: string)
    requires at < |s.open| && s.now <= now && limits(id).tpm > 0 && NonNegative(s.open)
    requires s.open[at].id == id ==> used <= s.open[at].reservedTokens || used <= 0
    requires Safe(s, id, limits(id).tpm)
    ensures Safe(TornDown(s, at, used, now), id, limits(id).tpm)
  {
    hide Live, HeldOn, OpenOn, Pruned, Sum;
    var stored, hist, a := Events(s.tracker, id), Hist(s, id), s.open[at];
    LiveFalls(hist, s.now, now);
    CoversLater(stored, hist, s.now, now);
    CoversPruned(stored, hist, now);
    RemoveOpen(s.open, at, id);
    if a.id == id && used > 0 {
      var e := TokenEvent(now, used);
      CoversSnoc(Pruned(stored, now - WINDOW), hist, now, e);
      LiveSnoc(hist, e, now);
    }
  }

  /**
   Token safety over whole runs. With a token limit, if every teardown on the server reports no more than its
   reservation, then in every reachable state, and at every later time, the tokens truly used in the window plus
   the reservations held never exceed the limit. Reading the usage does not break this, although it over-counts.
   */
  lemma {:induction false} TokenSafety(run: seq<Timed>, limits: string -> Limits, id: string)
    requires IsRun(Idle, run, limits) && HonestRun(run, limits, id) && limits(id).tpm > 0
    ensures Safe(After(Idle, run, limits), id, limits(id).tpm)
  {
    hide Act, Balanced, Enabled, Safe, Honest;
    if run == [] {
      IdleSafe(id, limits(id).tpm);
    } else {
      var n := |run| - 1;
      TokenSafety(run[..n], limits, id);
      Conserved(run[..n], limits, id);
      StepSafe(After(Idle, run[..n], limits), run[n].act, limits, run[n].now, id);
    }
  }

  lemma IdleSafe(id: string, tpm: int)
    requires tpm > 0
    ensures Safe(Idle, id, tpm)
  {
  }

  /** The bound the limit promises, read off the state and the clock. */
  lemma {:induction false} WithinLimit(run: seq<Timed>, limits: string -> Limits, id: string, later: int)
    requires IsRun(Idle, run, limits) && HonestRun(run, limits, id) && limits(id).tpm > 0
    requires After(Idle, run, limits).now <= later
    ensures var s := After(Idle, run, limits);
            Live(Hist(s, id), later) + Reserved(s.tracker, id) <= limits(id).tpm
  {
    hide Live;
    TokenSafety(run, limits, id);
    Conserved(run, limits, id);
    var s := After(Idle, run, limits);
    LiveFalls(Hist(s, id), s.now, later);
  }

  // ---- What the stored lists look like

  /** The stored list of a server: positive entries, none newer than the last, none from the future. */
  predicate WellStored(evs: seq<TokenEvent>, now: int) {
    Positive(evs) && NewestLast(evs) && forall e :: e in evs ==> e.at <= now
  }

  lemma {:induction false} PrunedWellStored(evs: seq<TokenEvent>, cutoff: int, now: int)
    requires WellStored(evs, now)
    ensures WellStored(Pruned(evs, cutoff), now)
  {
    PrunedPositive(evs, cutoff);
    PrunedNewestLast(evs, cutoff);
    PrunedFrom(evs, cutoff);
  }

  lemma CompactedWellStored(evs: seq<TokenEvent>, now: int)
    requires WellStored(evs, now)
    ensures WellStored(Compacted(evs, now - WINDOW), now)
  {
    hide Compacted;
    LiveOfCompacted(evs, now, now);
    CompactedNewestLast(evs, now - WINDOW);
  }

  lemma SnocWellStored(evs: seq<TokenEvent>, e: TokenEvent)
    requires WellStored(evs, e.at) && e.tokens > 0
    ensures WellStored(evs + [e], e.at)
  {
    var r := evs + [e];
    forall i | 0 <= i < |r| ensures r[i].at <= e.at && r[i].tokens > 0 {
      assert i < |evs| ==> r[i] == evs[i] && evs[i] in evs;
    }
  }

  lemma {:induction false} OpenedEvents(s: System, req: nat, sid: string, estimate: int, last: bool, limits: string -> Limits, now: int, id: string)
    ensures var evs, r := Events(s.tracker, id), Events(Opened(s, req, sid, estimate, last, limits, now).tracker, id);
            r == evs || r == Pruned(evs, now - WINDOW)
  {
    hide Pruned, Sum;
  }

  lemma {:induction false} TornDownEvents(s: System, at: nat, used: int, now: int, id: string)
    requires at < |s.open|
    ensures var evs, r := Events(s.tracker, id), Events(TornDown(s, at, used, now).tracker, id);
            r == evs || (used > 0 && r == Pruned(evs, now - WINDOW) + [TokenEvent(now, used)])
  {
    hide Pruned;
  }

  lemma {:induction false} AllowedEvents(t: Tracker, sid: string, lim: Limits, now: int, id: string)
    ensures var evs, r := Events(t, id), Events(Allowed(t, sid, lim, now).0, id); r == evs || r == Pruned(evs, now - WINDOW)
  {
    hide Pruned, PrunedTimes, Sum;
  }

  lemma StepWellStored(s: System, a: Action, limits: string -> Limits, now: int, id: string)
    requires Enabled(s, a, now) && WellStored(Events(s.tracker, id), s.now)
    ensures WellStored(Events(Act(s, a, limits, now).tracker, id), now) && Act(s, a, limits, now).now == now
  {
    hide WellStored, Pruned, Compacted, PrunedTimes, CompactedTimes, Allowed;
    var evs := Events(s.tracker, id);
    StoredLater(evs, s.now, now);
    PrunedWellStored(evs, now - WINDOW, now);
    match a
    case Open(req, sid, estimate, last) =>
      OpenedEvents(s, req, sid, estimate, last, limits, now, id);
    case Close(at, used) =>
      TornDownEvents(s, at, used, now, id);
      if used > 0 { SnocWellStored(Pruned(evs, now - WINDOW), TokenEvent(now, used)); }
    case Gate(sid) => AllowedEvents(s.tracker, sid, limits(sid), now, id);
    case Look(_) => CompactedWellStored(evs, now);
    case Count(_) =>
    case Tick =>
  }

  lemma StoredLater(evs: seq<TokenEvent>, now: int, later: int)
    requires WellStored(evs, now) && now <= later
    ensures WellStored(evs, later)
  {
  }

  /** In every reachable state every stored list is positive and has its newest event last. */
  lemma {:induction false} RunWellStored(run: seq<Timed>, limits: string -> Limits, id: string)
    requires IsRun(Idle, run, limits)
    ensures var s := After(Idle, run, limits); WellStored(Events(s.tracker, id), s.now)
  {
    if run != [] {
      hide Act, Enabled, WellStored;
      var n := |run| - 1;
      RunWellStored(run[..n], limits, id);
      StepWellStored(After(Idle, run[..n], limits), run[n].act, limits, run[n].now, id);
    }
  }

  /** In every reachable state, reading a server's usage leaves it unchanged if and only if all or none of it expired. */
  lemma {:induction false} UsageHarmlessInRuns(run: seq<Timed>, limits: string -> Limits, id: string, now: int)
    requires IsRun(Idle, run, limits)
    ensures var t := After(Idle, run, limits).tracker;
            var evs, seen := Events(t, id), Events(UsageSeen(t, id, now), id);
            Live(seen, now) == Live(evs, now) <==> Pruned(evs, now - WINDOW) == [] || Pruned(evs, now - WINDOW) == evs
  {
    hide Live, Pruned, Compacted, CompactedTimes, IsRun, After;
    RunWellStored(run, limits, id);
    var t := After(Idle, run, limits).tracker;
    UsageHarmlessExactly(Events(t, id), now);
    if id !in t.tokens {
      assert Compacted([], now - WINDOW) == [] by { NothingCompacted(now - WINDOW); }
    }
  }

  lemma NothingCompacted(cutoff: int)
    ensures Compacted([], cutoff) == []
  {
  }
}
