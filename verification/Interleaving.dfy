/**
 Requests running side by side: each plays the trace of its own attempt loop, event by event, and the system of
 `Conservation` takes the matching steps.
 */
module Interleaving {
  import opened Quota
  import opened Conservation
  import L = AttemptLoop
  import T = AttemptTheorems

  /** A request: its attempts, the server of each, and what the loop reads beside them. */
  datatype Request = Request(attempts: seq<L.Attempt>, ids: seq<string>, bodyLen: nat, budget: L.Budget)

  predicate WellFormed(reqs: seq<Request>) {
    forall q :: 0 <= q < |reqs| ==> |reqs[q].ids| == |reqs[q].attempts|
  }

  function TraceOf(r: Request): seq<L.Event> {
    L.Walk(r.attempts, 0, r.bodyLen, r.budget).trace
  }

  /** One turn: a request plays its next event (a teardown reports `used`), or the tracker is read or counted. */
  datatype Turn = Play(req: nat, used: int, now: int) | Other(act: Action, now: int)

  /** How many events a request has played. */
  function Played(turns: seq<Turn>, q: nat): nat {
    if turns == [] then 0
    else Played(turns[..|turns| - 1], q) + if turns[|turns| - 1].Play? && turns[|turns| - 1].req == q then 1 else 0
  }

  function OpenBy(open: seq<Attempt>, q: nat): nat {
    if open == [] then 0 else OpenBy(open[..|open| - 1], q) + if open[|open| - 1].req == q then 1 else 0
  }

  /** The position of a request's open attempt, |open| when it has none. */
  function SlotOf(open: seq<Attempt>, q: nat): (at: nat)
    ensures at <= |open| && (at < |open| ==> open[at].req == q)
    ensures at == |open| ==> forall i :: 0 <= i < |open| ==> open[i].req != q
  {
    if open == [] then 0 else if open[0].req == q then 0 else 1 + SlotOf(open[1..], q)
  }

  /** The attempt was skipped for its reservation, not by a soft gate. */
  predicate Blocked(r: Request, i: nat) {
    i < |r.attempts| && !L.SoftGated(r.attempts[i], r.bodyLen) && L.ReservationBlocked(r.attempts[i])
  }

  /** The step of the system for an event of a request's trace; a blocked reservation asks and opens nothing. */
  function ActionFor(s: System, r: Request, q: nat, e: L.Event, used: int): Action
    requires |r.ids| == |r.attempts|
  {
    match e
    case Open(i) =>
      if i < |r.attempts| then Open(q, r.ids[i], r.attempts[i].estimate, i == |r.attempts| - 1) else Tick
    case Teardown(_) => Close(SlotOf(s.open, q), used)
    case Skip(i) => if Blocked(r, i) then Open(q, r.ids[i], r.attempts[i].estimate, false) else Tick
    case Refuse(_) => Tick
    case Send(_, _, _) => Tick
  }

  function ActionOf(s: System, reqs: seq<Request>, turns: seq<Turn>): Action
    requires WellFormed(reqs) && turns != []
  {
    var t, before := turns[|turns| - 1], turns[..|turns| - 1];
    match t
    case Other(act, _) => if act.Open? || act.Close? then Tick else act
    case Play(q, used, _) =>
      if q < |reqs| && Played(before, q) < |TraceOf(reqs[q])|
      then ActionFor(s, reqs[q], q, TraceOf(reqs[q])[Played(before, q)], used)
      else Tick
  }

  /** The system's run for a list of turns. */
  function RunOf(reqs: seq<Request>, turns: seq<Turn>, limits: string -> Limits): (r: seq<Timed>)
    requires WellFormed(reqs)
    ensures |r| == |turns|
  {
    if turns == [] then []
    else
      var before := RunOf(reqs, turns[..|turns| - 1], limits);
      before + [Timed(if IsRun(Idle, before, limits) then ActionOf(After(Idle, before, limits), reqs, turns) else Tick,
                      turns[|turns| - 1].now)]
  }

  /** The tracker answers what the loop was told: a reservation granted where it opens, refused where it skips. */
  predicate Answers(s: System, r: Request, e: L.Event, limits: string -> Limits, now: int)
    requires |r.ids| == |r.attempts|
  {
    match e
    case Open(i) => i < |r.attempts| - 1 && r.attempts[i].estimate > 0 ==> Grants(s, r, i, limits, now)
    case Skip(i) => Blocked(r, i) ==> !Grants(s, r, i, limits, now)
    case _ => true
  }

  predicate Grants(s: System, r: Request, i: nat, limits: string -> Limits, now: int)
    requires |r.ids| == |r.attempts| && i < |r.attempts|
  {
    Reserving(s.tracker, r.ids[i], limits(r.ids[i]), r.attempts[i].estimate, now).1
  }

  predicate LastAnswers(s: System, reqs: seq<Request>, turns: seq<Turn>, limits: string -> Limits)
    requires WellFormed(reqs) && turns != [] && Playable(reqs, turns)
  {
    var t := turns[|turns| - 1];
    t.Play? ==>
      Answers(s, reqs[t.req], TraceOf(reqs[t.req])[Played(turns[..|turns| - 1], t.req)], limits, t.now)
  }

  /** The last turn plays an event that its request still has. */
  predicate Playable(reqs: seq<Request>, turns: seq<Turn>)
    requires turns != []
  {
    var t := turns[|turns| - 1];
    t.Play? ==> t.req < |reqs| && Played(turns[..|turns| - 1], t.req) < |TraceOf(reqs[t.req])|
  }

  /** The turns are an interleaving: clocks do not go back, requests play only what their trace holds. */
  predicate Interleaves(reqs: seq<Request>, turns: seq<Turn>, limits: string -> Limits)
    requires WellFormed(reqs)
  {
    turns == [] || (
      var n := |turns| - 1;
      var before := RunOf(reqs, turns[..n], limits);
      && Interleaves(reqs, turns[..n], limits)
      && Playable(reqs, turns)
      && (IsRun(Idle, before, limits) ==>
            var s := After(Idle, before, limits);
            s.now <= turns[n].now && LastAnswers(s, reqs, turns, limits)))
  }

  // ---- Slots by request

  lemma {:induction false} OpenByAppend(a: seq<Attempt>, b: seq<Attempt>, q: nat)
    ensures OpenBy(a + b, q) == OpenBy(a, q) + OpenBy(b, q)
  {
    if b == [] {
      assert a + b == a;
    } else {
      assert (a + b)[..|a + b| - 1] == a + b[..|b| - 1];
      OpenByAppend(a, b[..|b| - 1], q);
    }
  }

  lemma {:induction false} OpenByOne(a: Attempt, q: nat)
    ensures OpenBy([a], q) == if a.req == q then 1 else 0
  {
    assert [a][..0] == [];
  }

  lemma {:induction false} OpenByWithout(open: seq<Attempt>, at: nat, q: nat)
    requires at < |open|
    ensures OpenBy(open[..at] + open[at + 1..], q) == OpenBy(open, q) - if open[at].req == q then 1 else 0
  {
    var l, m, r := open[..at], [open[at]], open[at + 1..];
    assert open == l + m + r;
    OpenByAppend(l + m, r, q);
    OpenByAppend(l, m, q);
    OpenByAppend(l, r, q);
    OpenByOne(open[at], q);
  }

  lemma {:induction false} OpenByNone(open: seq<Attempt>, q: nat)
    ensures OpenBy(open, q) == 0 <==> forall i :: 0 <= i < |open| ==> open[i].req != q
  {
    if open != [] {
      OpenByNone(open[..|open| - 1], q);
    }
  }

  /** Open attempts belong to requests, and each request has as many as its trace so far opened and not tore down. */
  ghost predicate Matched(s: System, reqs: seq<Request>, turns: seq<Turn>) {
    && (forall i :: 0 <= i < |s.open| ==> s.open[i].req < |reqs|)
    && forall q: nat :: q < |reqs| ==> MatchedBy(s, reqs[q], q, Played(turns, q))
  }

  predicate MatchedBy(s: System, r: Request, q: nat, n: nat) {
    n <= |TraceOf(r)| && OpenBy(s.open, q) == T.Opens(TraceOf(r)[..n]) - T.Teardowns(TraceOf(r)[..n])
  }

  lemma CountNext(t: seq<L.Event>, n: nat)
    requires n < |t|
    ensures T.Opens(t[..n + 1]) == T.Opens(t[..n]) + if t[n].Open? then 1 else 0
    ensures T.Teardowns(t[..n + 1]) == T.Teardowns(t[..n]) + if t[n].Teardown? then 1 else 0
  {
    assert t[..n + 1][..n] == t[..n];
  }

  /** What one event of a request does to the slots: it is enabled, and keeps the match of every request. */
  lemma PlayStep(s: System, r: Request, q: nat, n: nat, used: int, limits: string -> Limits, now: int)
    requires |r.ids| == |r.attempts| && n < |TraceOf(r)| && MatchedBy(s, r, q, n) && s.now <= now
    requires Answers(s, r, TraceOf(r)[n], limits, now)
    ensures var a := ActionFor(s, r, q, TraceOf(r)[n], used);
            && Enabled(s, a, now)
            && var u := Act(s, a, limits, now);
               && MatchedBy(u, r, q, n + 1) && u.now == now
               && (forall p: nat :: p != q ==> OpenBy(u.open, p) == OpenBy(s.open, p))
               && (forall i :: 0 <= i < |u.open| ==> u.open[i] in s.open || u.open[i].req == q)
  {
    hide L.Walk, OpenBy, Reserving, Completed, L.SoftGated;
    var t := TraceOf(r);
    var e := t[n];
    var a := ActionFor(s, r, q, e, used);
    CountNext(t, n);
    T.OneSlotAtATime(r.attempts, r.bodyLen, r.budget, n);
    T.OneSlotAtATime(r.attempts, r.bodyLen, r.budget, n + 1);
    OpenByNone(s.open, q);
    match e
    case Open(i) =>
      OpensInRange(r, n);
      OpenStep(s, q, r.ids[i], r.attempts[i].estimate, i == |r.attempts| - 1, limits, now);
    case Teardown(_) =>
      var at := SlotOf(s.open, q);
      forall p: nat ensures OpenBy(s.open[..at] + s.open[at + 1..], p) == OpenBy(s.open, p) - if p == q then 1 else 0 {
        OpenByWithout(s.open, at, p);
      }
    case Skip(i) =>
      T.SkipHoldsNone(r.attempts, r.bodyLen, r.budget, n);
    case Refuse(_) =>
    case Send(_, _, _) =>
  }

  lemma OpenStep(s: System, q: nat, id: string, estimate: int, last: bool, limits: string -> Limits, now: int)
    requires estimate > 0 && !last ==> Reserving(s.tracker, id, limits(id), estimate, now).1
    ensures var u := Opened(s, q, id, estimate, last, limits, now);
            && u.now == now && (forall p: nat :: OpenBy(u.open, p) == OpenBy(s.open, p) + if p == q then 1 else 0)
            && (forall i :: 0 <= i < |u.open| ==> u.open[i] in s.open || u.open[i].req == q)
  {
    hide OpenBy, Reserving;
    var u := Opened(s, q, id, estimate, last, limits, now);
    var a := u.open[|u.open| - 1];
    assert u.open == s.open + [a];
    forall p: nat ensures OpenBy(u.open, p) == OpenBy(s.open, p) + if p == q then 1 else 0 {
      OpenByAppend(s.open, [a], p);
      OpenByOne(a, p);
    }
  }

  /** The loop opens only attempts it has. */
  lemma OpensInRange(r: Request, n: nat)
    requires n < |TraceOf(r)| && TraceOf(r)[n].Open?
    ensures TraceOf(r)[n].i < |r.attempts|
  {
    WalkInRange(r.attempts, 0, r.bodyLen, r.budget, TraceOf(r)[n]);
  }

  lemma {:induction false} WalkInRange(attempts: seq<L.Attempt>, i: nat, bodyLen: nat, b: L.Budget, e: L.Event)
    requires i <= |attempts| && e in L.Walk(attempts, i, bodyLen, b).trace && e.Open?
    ensures e.i < |attempts|
    decreases |attempts| - i
  {
    hide L.Sends, L.SoftGated;
    if i < |attempts| {
      T.NoSkipInSends(attempts[i], i, 0, b);
      if e in L.Walk(attempts, i + 1, bodyLen, b).trace {
        WalkInRange(attempts, i + 1, bodyLen, b, e);
      }
    }
  }

  // ---- Whole interleavings

  /** Every interleaving is a run of the system, and matches what the requests have played. */
  lemma {:induction false} InterleavingRuns(reqs: seq<Request>, turns: seq<Turn>, limits: string -> Limits)
    requires WellFormed(reqs) && Interleaves(reqs, turns, limits)
    ensures IsRun(Idle, RunOf(reqs, turns, limits), limits)
    ensures Matched(After(Idle, RunOf(reqs, turns, limits), limits), reqs, turns)
  {
    if turns == [] {
      StartMatches(reqs);
    } else {
      hide Act, Enabled, MatchedBy, Answers, ActionFor, TraceOf, RunOf, Interleaves, IsRun, After, Matched, ActionOf;
      var n := |turns| - 1;
      var before := RunOf(reqs, turns[..n], limits);
      LastTurn(reqs, turns, limits);
      InterleavingRuns(reqs, turns[..n], limits);
      var s, t := After(Idle, before, limits), turns[n];
      var a := ActionOf(s, reqs, turns);
      TurnStep(s, reqs, turns, limits);
      RunSnoc(before, Timed(a, t.now), limits);
    }
  }

  lemma StartMatches(reqs: seq<Request>)
    ensures Matched(Idle, reqs, [])
  {
  }

  lemma {:induction false} LastTurn(reqs: seq<Request>, turns: seq<Turn>, limits: string -> Limits)
    requires WellFormed(reqs) && turns != [] && Interleaves(reqs, turns, limits)
    ensures var n := |turns| - 1;
            var before := RunOf(reqs, turns[..n], limits);
            && Interleaves(reqs, turns[..n], limits)
            && (IsRun(Idle, before, limits) ==>
                  var s := After(Idle, before, limits);
                  && RunOf(reqs, turns, limits) == before + [Timed(ActionOf(s, reqs, turns), turns[n].now)]
                  && Playable(reqs, turns)
                  && s.now <= turns[n].now && LastAnswers(s, reqs, turns, limits))
  {
    hide IsRun, After, ActionOf, TraceOf, Answers;
  }

  lemma {:induction false} RunSnoc(run: seq<Timed>, t: Timed, limits: string -> Limits)
    requires IsRun(Idle, run, limits) && Enabled(After(Idle, run, limits), t.act, t.now)
    ensures IsRun(Idle, run + [t], limits) && After(Idle, run + [t], limits) == Act(After(Idle, run, limits), t.act, limits, t.now)
  {
    hide Act, Enabled;
    assert (run + [t])[..|run|] == run;
  }

  /** One turn from a matched state. */
  lemma TurnStep(s: System, reqs: seq<Request>, turns: seq<Turn>, limits: string -> Limits)
    requires WellFormed(reqs) && turns != [] && Playable(reqs, turns) && Matched(s, reqs, turns[..|turns| - 1])
    requires s.now <= turns[|turns| - 1].now && LastAnswers(s, reqs, turns, limits)
    ensures var a, now := ActionOf(s, reqs, turns), turns[|turns| - 1].now;
            Enabled(s, a, now) && Matched(Act(s, a, limits, now), reqs, turns)
  {
    hide Act, Enabled, MatchedBy, Answers, ActionFor, TraceOf;
    var t, before := turns[|turns| - 1], turns[..|turns| - 1];
    var a := ActionOf(s, reqs, turns);
    if t.Play? {
      PlayStep(s, reqs[t.req], t.req, Played(before, t.req), t.used, limits, t.now);
      PlayMatches(s, Act(s, a, limits, t.now), reqs, turns);
    } else {
      OtherStep(s, a, limits, t.now);
      OtherMatches(s, Act(s, a, limits, t.now), reqs, turns);
    }
  }

  lemma PlayMatches(s: System, u: System, reqs: seq<Request>, turns: seq<Turn>)
    requires turns != [] && turns[|turns| - 1].Play? && turns[|turns| - 1].req < |reqs|
    requires Matched(s, reqs, turns[..|turns| - 1])
    requires var q := turns[|turns| - 1].req;
             && MatchedBy(u, reqs[q], q, Played(turns[..|turns| - 1], q) + 1)
             && (forall p: nat :: p != q ==> OpenBy(u.open, p) == OpenBy(s.open, p))
             && (forall i :: 0 <= i < |u.open| ==> u.open[i] in s.open || u.open[i].req == q)
    ensures Matched(u, reqs, turns)
  {
    hide TraceOf, OpenBy;
    var q := turns[|turns| - 1].req;
    forall p: nat | p < |reqs| ensures MatchedBy(u, reqs[p], p, Played(turns, p)) {
      assert MatchedBy(s, reqs[p], p, Played(turns[..|turns| - 1], p));
    }
  }

  lemma OtherStep(s: System, a: Action, limits: string -> Limits, now: int)
    requires !a.Open? && !a.Close? && s.now <= now
    ensures Enabled(s, a, now) && Act(s, a, limits, now).open == s.open
  {
    hide Allowed, UsageSeen, RequestRecorded;
  }

  lemma OtherMatches(s: System, u: System, reqs: seq<Request>, turns: seq<Turn>)
    requires turns != [] && turns[|turns| - 1].Other? && Matched(s, reqs, turns[..|turns| - 1]) && u.open == s.open
    ensures Matched(u, reqs, turns)
  {
    hide TraceOf, OpenBy;
    forall p: nat | p < |reqs| ensures MatchedBy(u, reqs[p], p, Played(turns, p)) {
      assert MatchedBy(s, reqs[p], p, Played(turns[..|turns| - 1], p));
    }
  }

  /** Every request has played its whole trace. */
  predicate Finished(reqs: seq<Request>, turns: seq<Turn>) {
    forall q :: 0 <= q < |reqs| ==> Played(turns, q) == |TraceOf(reqs[q])|
  }

  /**
   Any interleaving of any requests that have all finished leaves nothing open: every in-flight counter and every
   reserved total is back at zero.
   */
  lemma {:induction false} FinishedIsClean(reqs: seq<Request>, turns: seq<Turn>, limits: string -> Limits, id: string)
    requires WellFormed(reqs) && Interleaves(reqs, turns, limits) && Finished(reqs, turns)
    ensures var run := RunOf(reqs, turns, limits);
            && IsRun(Idle, run, limits) && After(Idle, run, limits).open == []
            && Inflight(After(Idle, run, limits), id) == 0 && Reserved(After(Idle, run, limits).tracker, id) == 0
  {
    hide RunOf, After, Interleaves, L.Walk, OpenBy;
    InterleavingRuns(reqs, turns, limits);
    var run := RunOf(reqs, turns, limits);
    var s := After(Idle, run, limits);
    if s.open != [] {
      var q := s.open[0].req;
      assert MatchedBy(s, reqs[q], q, Played(turns, q));
      var t := TraceOf(reqs[q]);
      assert t[..|t|] == t;
      T.OneSlotAtATime(reqs[q].attempts, reqs[q].bodyLen, reqs[q].budget, |t|);
      OpenByNone(s.open, q);
    }
    QuiescentIsClean(run, limits, id);
  }

  // ---- Token safety of interleavings

  /** Every teardown on the server reports no more than the attempt reserved. */
  predicate HonestTurns(reqs: seq<Request>, turns: seq<Turn>, limits: string -> Limits, id: string)
    requires WellFormed(reqs)
  {
    turns == [] || (
      var n := |turns| - 1;
      var before := RunOf(reqs, turns[..n], limits);
      && HonestTurns(reqs, turns[..n], limits, id)
      && (IsRun(Idle, before, limits) ==>
            var s := After(Idle, before, limits); Honest(s, ActionOf(s, reqs, turns), id)))
  }

  lemma {:induction false} HonestInterleaving(reqs: seq<Request>, turns: seq<Turn>, limits: string -> Limits, id: string)
    requires WellFormed(reqs) && Interleaves(reqs, turns, limits) && HonestTurns(reqs, turns, limits, id)
    ensures IsRun(Idle, RunOf(reqs, turns, limits), limits) && HonestRun(RunOf(reqs, turns, limits), limits, id)
  {
    InterleavingRuns(reqs, turns, limits);
    if turns != [] {
      hide Act, Enabled, ActionOf, TraceOf, Honest, RunOf, IsRun, After, Interleaves, LastAnswers, Matched;
      var n := |turns| - 1;
      LastTurn(reqs, turns, limits);
      HonestInterleaving(reqs, turns[..n], limits, id);
      var before := RunOf(reqs, turns[..n], limits);
      HonestSnoc(before, Timed(ActionOf(After(Idle, before, limits), reqs, turns), turns[n].now), limits, id);
    }
  }

  lemma {:induction false} HonestSnoc(run: seq<Timed>, t: Timed, limits: string -> Limits, id: string)
    requires IsRun(Idle, run, limits) && IsRun(Idle, run + [t], limits) && HonestRun(run, limits, id)
    requires Honest(After(Idle, run, limits), t.act, id)
    ensures HonestRun(run + [t], limits, id)
  {
    hide Act, Enabled, Honest;
    assert (run + [t])[..|run|] == run;
  }

  /**
   Any interleaving of the loops' traces in which the server's teardowns report no more than was reserved for them
   stays within the server's token limit, at every moment and at every later time.
   */
  lemma {:induction false} InterleavingWithinLimit(reqs: seq<Request>, turns: seq<Turn>, limits: string -> Limits, id: string, later: int)
    requires WellFormed(reqs) && Interleaves(reqs, turns, limits) && HonestTurns(reqs, turns, limits, id)
    requires limits(id).tpm > 0
    ensures var run := RunOf(reqs, turns, limits);
            && IsRun(Idle, run, limits)
            && var s := After(Idle, run, limits);
               s.now <= later ==> Live(Hist(s, id), later) + Reserved(s.tracker, id) <= limits(id).tpm
  {
    hide RunOf, After, IsRun, HonestRun, HonestTurns, Interleaves, Live;
    HonestInterleaving(reqs, turns, limits, id);
    var run := RunOf(reqs, turns, limits);
    if After(Idle, run, limits).now <= later {
      WithinLimit(run, limits, id, later);
    }
  }
}
