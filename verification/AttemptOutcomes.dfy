/** The attempt loop in the attempts' own fields: which events happen, and who answers. */
module AttemptOutcomes {
  import opened Wrappers
  import opened AttemptLoop
  import opened AttemptTheorems

  // ---- The rules, written out

  /** Another send to the same server is due: no answer came although something listens, or an explicit budget meets a 5xx. */
  predicate MayRetry(o: Outcome, retry: nat, b: Budget) {
    match o
    case Transport(refused) => !refused && retry < b.retries
    case Buffered(status) => status != 429 && b.isExplicit && retry < b.retries
    case _ => false
  }

  /** The send is followed by another one. */
  predicate Retried(a: Attempt, b: Budget, retry: nat) {
    MayRetry(a.outcome(retry), retry, b) && !a.goneInBackoff(retry)
  }

  /** All sends before this one were retried. */
  predicate Sent(a: Attempt, b: Budget, retry: nat) {
    forall q :: 0 <= q < retry ==> Retried(a, b, q)
  }

  predicate GatedOff(a: Attempt, bodyLen: nat) {
    || a.unhealthy || a.cooling || a.overQuota
    || (a.window > 0 && bodyLen / 4 > a.window)
    || (a.maxParallel > 0 && a.inflight >= a.maxParallel)
  }

  predicate CannotReserve(a: Attempt) { a.estimate > 0 && !a.reserveOk }

  /** The server is contacted: nothing refuses the request, and the last attempt ignores what skips the others. */
  predicate Contacted(a: Attempt, last: bool, bodyLen: nat) {
    && !a.planRefused && !a.rewriteFails && !a.convertRefused
    && (last || (!GatedOff(a, bodyLen) && !CannotReserve(a)))
  }

  /** The last send neither ended the request nor calls for another one. */
  ghost predicate GivesUp(a: Attempt, b: Budget) {
    exists r :: 0 <= r && Sent(a, b, r) && !Ends(a.outcome(r)) && !MayRetry(a.outcome(r), r, b)
  }

  /** The loop moves on from an attempt that is not the last one. */
  ghost predicate PassedOn(a: Attempt, bodyLen: nat, b: Budget) {
    || GatedOff(a, bodyLen) || a.planRefused
    || (!a.rewriteFails && (a.convertRefused || CannotReserve(a) || GivesUp(a, b)))
  }

  /** The loop gets from attempt `from` to attempt `i`. */
  ghost predicate Reaches(attempts: seq<Attempt>, from: nat, i: nat, bodyLen: nat, b: Budget) {
    from <= i < |attempts| && forall j :: from <= j < i ==> PassedOn(attempts[j], bodyLen, b)
  }

  /** What an attempt that is reached does. */
  predicate Does(a: Attempt, last: bool, e: Event, bodyLen: nat, b: Budget) {
    match e
    case Skip(_) =>
      !last && (GatedOff(a, bodyLen) || (CannotReserve(a) && !a.planRefused && !a.rewriteFails && !a.convertRefused))
    case Refuse(_) => (last || !GatedOff(a, bodyLen)) && (a.planRefused || (a.convertRefused && !a.rewriteFails))
    case Open(_) => Contacted(a, last, bodyLen)
    case Send(_, retry, o) => Contacted(a, last, bodyLen) && Sent(a, b, retry) && o == a.outcome(retry)
    case Teardown(_) => Contacted(a, last, bodyLen)
  }

  ghost predicate Happens(attempts: seq<Attempt>, from: nat, e: Event, bodyLen: nat, b: Budget) {
    Reaches(attempts, from, e.i, bodyLen, b) && Does(attempts[e.i], e.i == |attempts| - 1, e, bodyLen, b)
  }

  // ---- One server

  lemma RetryRule(o: Outcome, retry: nat, b: Budget)
    ensures !Ends(o) && retry < RetriesLeft(o, b) <==> MayRetry(o, retry, b)
  {
  }

  /** All sends from `from` up to this one were retried. */
  predicate SentFrom(a: Attempt, b: Budget, from: nat, retry: nat) {
    from <= retry && forall q :: from <= q < retry ==> Retried(a, b, q)
  }

  /** The trace of one server: the sends that are due, each with its outcome, and the teardown. */
  lemma {:induction false} SendsExactly(a: Attempt, i: nat, retry: nat, b: Budget, e: Event)
    ensures e in Sends(a, i, retry, b).trace <==>
              e.i == i && (e.Teardown? || (e.Send? && e.outcome == a.outcome(e.retry) && SentFrom(a, b, retry, e.retry)))
    decreases Max(0, b.retries) - retry
  {
    hide Sends, Retried, RetriesLeft;
    var o, s := a.outcome(retry), Sends(a, i, retry, b);
    SendsNext(a, i, retry, b);
    RetryRule(o, retry, b);
    RetriedIs(a, b, retry);
    if Retried(a, b, retry) {
      var m := Sends(a, i, retry + 1, b);
      SendsExactly(a, i, retry + 1, b, e);
      assert e in s.trace <==> e == Send(i, retry, o) || e in m.trace;
    } else {
      assert s.trace == [Send(i, retry, o), Teardown(i)];
      assert SentFrom(a, b, retry, retry);
    }
  }

  lemma RetriedIs(a: Attempt, b: Budget, retry: nat)
    ensures Retried(a, b, retry) <==> MayRetry(a.outcome(retry), retry, b) && !a.goneInBackoff(retry)
  {
  }

  /** The answer one send gives the request, if it ends it. */
  function AnswerFor(i: nat, o: Outcome): Answer {
    match o
    case Served(s) => ServedBy(i, s)
    case MidStream(s) => BrokenBy(i, s)
    case _ => Gone
  }

  /** How one server's sends end: at the first that is not retried. */
  lemma {:induction false} SendsEndAt(a: Attempt, i: nat, retry: nat, b: Budget) returns (k: nat)
    ensures SentFrom(a, b, retry, k) && !Retried(a, b, k)
    ensures Sends(a, i, retry, b).ended ==
              if Ends(a.outcome(k)) then Some(AnswerFor(i, a.outcome(k)))
              else if MayRetry(a.outcome(k), k, b) then Some(Gone) else None
    decreases Max(0, b.retries) - retry
  {
    hide Sends, Retried, RetriesLeft;
    SendsNext(a, i, retry, b);
    RetryRule(a.outcome(retry), retry, b);
    RetriedIs(a, b, retry);
    if Retried(a, b, retry) {
      k := SendsEndAt(a, i, retry + 1, b);
    } else {
      k := retry;
    }
  }

  /** There is one last send. */
  lemma OneEnd(a: Attempt, b: Budget, k: nat, r: nat)
    requires SentFrom(a, b, 0, k) && !Retried(a, b, k) && Sent(a, b, r) && !Retried(a, b, r)
    ensures k == r
  {
    hide Retried;
  }

  lemma {:induction false} GivesUpExactly(a: Attempt, i: nat, b: Budget)
    ensures Sends(a, i, 0, b).ended == None <==> GivesUp(a, b)
  {
    hide Sends, Sent;
    var k := SendsEndAt(a, i, 0, b);
    assert Sent(a, b, k) by { SentIs(a, b, k); }
    RetriedIs(a, b, k);
    if r: nat :| Sent(a, b, r) && !Ends(a.outcome(r)) && !MayRetry(a.outcome(r), r, b) {
      RetriedIs(a, b, r);
      OneEnd(a, b, k, r);
    }
  }

  lemma SentIs(a: Attempt, b: Budget, retry: nat)
    ensures Sent(a, b, retry) <==> SentFrom(a, b, 0, retry)
  {
  }

  // ---- The walk

  lemma GatesAre(a: Attempt, bodyLen: nat)
    ensures SoftGated(a, bodyLen) <==> GatedOff(a, bodyLen)
    ensures ReservationBlocked(a) <==> CannotReserve(a)
  {
  }

  /** The events of the attempt at the head of a walk, and whether the walk goes on. */
  lemma HeadExactly(attempts: seq<Attempt>, i: nat, bodyLen: nat, b: Budget) returns (head: seq<Event>, on: bool)
    requires i < |attempts|
    ensures var w, rest := Walk(attempts, i, bodyLen, b), Walk(attempts, i + 1, bodyLen, b);
            if on then w == Then(head, rest) else w.trace == head && w.ended.Some?
    ensures i < |attempts| - 1 ==> on == PassedOn(attempts[i], bodyLen, b)
    ensures forall e :: e in head <==> e.i == i && Does(attempts[i], i == |attempts| - 1, e, bodyLen, b)
  {
    hide Sends, SoftGated, ReservationBlocked, GatedOff, CannotReserve, GivesUp, Sent;
    var a, last, s := attempts[i], i == |attempts| - 1, Sends(attempts[i], i, 0, b);
    GatesAre(a, bodyLen);
    GivesUpExactly(a, i, b);
    if GatedOff(a, bodyLen) && !last {
      head, on := [Skip(i)], true;
    } else if a.planRefused {
      head, on := [Refuse(i)], !last;
    } else if a.rewriteFails {
      head, on := [], false;
    } else if a.convertRefused {
      head, on := [Refuse(i)], !last;
    } else if CannotReserve(a) && !last {
      head, on := [Skip(i)], true;
    } else {
      head, on := [Open(i)] + s.trace, s.ended == None;
      forall e ensures e in s.trace <==> e.i == i && (e.Teardown? || (e.Send? && e.outcome == a.outcome(e.retry) && Sent(a, b, e.retry))) {
        SendsExactly(a, i, 0, b, e);
        if e.Send? { SentIs(a, b, e.retry); }
      }
      assert forall e :: e in head <==> e == Open(i) || e in s.trace;
    }
  }

  lemma ReachesNext(attempts: seq<Attempt>, from: nat, i: nat, bodyLen: nat, b: Budget)
    requires from < i
    ensures Reaches(attempts, from, i, bodyLen, b) <==>
              i < |attempts| && PassedOn(attempts[from], bodyLen, b) && Reaches(attempts, from + 1, i, bodyLen, b)
  {
    hide PassedOn;
  }

  lemma ReachesSelf(attempts: seq<Attempt>, i: nat, bodyLen: nat, b: Budget)
    requires i < |attempts|
    ensures Reaches(attempts, i, i, bodyLen, b)
  {
  }

  /**
   The trace of a request, event by event, in the attempts' own fields: an attempt that is not the last is skipped if and
   only if it is reached and a gate or its reservation says so; a reached attempt that nothing refuses and nothing skips
   is opened, and sends exactly the sends that are due.
   */
  lemma {:induction false} TraceExactly(attempts: seq<Attempt>, i: nat, bodyLen: nat, b: Budget, e: Event)
    requires i <= |attempts|
    ensures e in Walk(attempts, i, bodyLen, b).trace <==> Happens(attempts, i, e, bodyLen, b)
    decreases |attempts| - i
  {
    hide Walk, Reaches, Does, PassedOn;
    if i == |attempts| {
      WalkedAll(attempts, bodyLen, b, e);
    } else {
      var head, on := HeadExactly(attempts, i, bodyLen, b);
      TraceExactly(attempts, i + 1, bodyLen, b, e);
      NotBefore(attempts, i, bodyLen, b, e.i);
      ReachesSelf(attempts, i, bodyLen, b);
      if e.i > i { ReachesNext(attempts, i, e.i, bodyLen, b); }
    }
  }

  lemma {:induction false} WalkedAll(attempts: seq<Attempt>, bodyLen: nat, b: Budget, e: Event)
    ensures Walk(attempts, |attempts|, bodyLen, b).trace == [] && !Happens(attempts, |attempts|, e, bodyLen, b)
  {
  }

  lemma NotBefore(attempts: seq<Attempt>, from: nat, bodyLen: nat, b: Budget, i: nat)
    ensures i < from ==> !Reaches(attempts, from, i, bodyLen, b)
    ensures i <= from ==> !Reaches(attempts, from + 1, i, bodyLen, b)
    ensures Reaches(attempts, from, i, bodyLen, b) || Reaches(attempts, from + 1, i, bodyLen, b) ==> i < |attempts|
  {
  }

  // ---- The answer

  /** A send that ends the request decides its answer. */
  lemma {:induction false} EndedBy(attempts: seq<Attempt>, i: nat, bodyLen: nat, b: Budget, e: Event)
    requires i <= |attempts| && e in Walk(attempts, i, bodyLen, b).trace && e.Send? && Ends(e.outcome)
    ensures Walk(attempts, i, bodyLen, b).ended == Some(AnswerFor(e.i, e.outcome))
    decreases |attempts| - i
  {
    hide Walk, Sends, Refused, RewriteFails, Ends;
    if i == |attempts| {
      WalkedAll(attempts, bodyLen, b, e);
    } else {
      var head := WalkOn(attempts, i, bodyLen, b);
      var w, s, m := Walk(attempts, i, bodyLen, b), Sends(attempts[i], i, 0, b), Walk(attempts, i + 1, bodyLen, b);
      if s.ended.Some? && w == Tried([Open(i)] + s.trace, s.ended) {
        assert e in s.trace;
        SendsExactly(attempts[i], i, 0, b, e);
        var k := SendsEndAt(attempts[i], i, 0, b);
        EndsThere(attempts[i], b, k, e.retry);
      } else {
        assert e in m.trace;
        EndedBy(attempts, i + 1, bodyLen, b, e);
      }
    }
  }

  lemma EndsThere(a: Attempt, b: Budget, k: nat, r: nat)
    requires SentFrom(a, b, 0, k) && !Retried(a, b, k) && SentFrom(a, b, 0, r) && Ends(a.outcome(r))
    ensures k == r
  {
    assert !Retried(a, b, r);
    SentIs(a, b, r);
    OneEnd(a, b, k, r);
  }

  /**
   Who serves: the answer is the i-th server's if and only if the loop reaches it and contacts it, and one of the sends
   that are due there is served with that status. Likewise for an answer that breaks off.
   */
  lemma {:induction false} ServedExactly(attempts: seq<Attempt>, bodyLen: nat, b: Budget, i: nat, status: int)
    ensures AnswerOf(Walk(attempts, 0, bodyLen, b)) == ServedBy(i, status) <==>
              exists r :: Happens(attempts, 0, Send(i, r, Served(status)), bodyLen, b)
    ensures AnswerOf(Walk(attempts, 0, bodyLen, b)) == BrokenBy(i, status) <==>
              exists r :: Happens(attempts, 0, Send(i, r, MidStream(status)), bodyLen, b)
  {
    hide Walk, Happens, Refused, NothingServed;
    var w := Walk(attempts, 0, bodyLen, b);
    AnswerIs(attempts, 0, bodyLen, b);
    forall r: nat, o: Outcome ensures Send(i, r, o) in w.trace <==> Happens(attempts, 0, Send(i, r, o), bodyLen, b) {
      TraceExactly(attempts, 0, bodyLen, b, Send(i, r, o));
    }
    if r :| Happens(attempts, 0, Send(i, r, Served(status)), bodyLen, b) {
      EndedBy(attempts, 0, bodyLen, b, Send(i, r, Served(status)));
    }
    if r :| Happens(attempts, 0, Send(i, r, MidStream(status)), bodyLen, b) {
      EndedBy(attempts, 0, bodyLen, b, Send(i, r, MidStream(status)));
    }
  }

  /** The client left: during the send, or while the loop waited for the next one. */
  predicate Leaves(attempts: seq<Attempt>, e: Event, b: Budget) {
    e.Send? && e.i < |attempts| && (e.outcome == ClientGone || (MayRetry(e.outcome, e.retry, b) && attempts[e.i].goneInBackoff(e.retry)))
  }

  /** Nobody is answered if and only if the client left. */
  lemma {:induction false} GoneExactly(attempts: seq<Attempt>, bodyLen: nat, b: Budget)
    ensures AnswerOf(Walk(attempts, 0, bodyLen, b)) == Gone <==>
              exists e :: Happens(attempts, 0, e, bodyLen, b) && Leaves(attempts, e, b)
  {
    hide Walk, Happens, Leaves;
    var w := Walk(attempts, 0, bodyLen, b);
    forall e ensures e in w.trace <==> Happens(attempts, 0, e, bodyLen, b) {
      TraceExactly(attempts, 0, bodyLen, b, e);
    }
    if AnswerOf(w) == Gone { var i, r, o := GoneShows(attempts, 0, bodyLen, b); }
    if e :| Happens(attempts, 0, e, bodyLen, b) && Leaves(attempts, e, b) {
      LeavingEnds(attempts, 0, bodyLen, b, e);
    }
  }

  lemma {:induction false} GoneShows(attempts: seq<Attempt>, from: nat, bodyLen: nat, b: Budget)
      returns (i: nat, r: nat, o: Outcome)
    requires from <= |attempts| && Walk(attempts, from, bodyLen, b).ended == Some(Gone)
    ensures Send(i, r, o) in Walk(attempts, from, bodyLen, b).trace && Leaves(attempts, Send(i, r, o), b)
    decreases |attempts| - from
  {
    hide Walk, Sends, Refused, RewriteFails;
    if from == |attempts| {
      assert false by { assert Walk(attempts, from, bodyLen, b).ended == None by { NothingLeft(attempts, bodyLen, b); } }
    }
    var head := WalkOn(attempts, from, bodyLen, b);
    var w, s, m := Walk(attempts, from, bodyLen, b), Sends(attempts[from], from, 0, b), Walk(attempts, from + 1, bodyLen, b);
    if s.ended.Some? && w == Tried([Open(from)] + s.trace, s.ended) {
      var k := SendsEndAt(attempts[from], from, 0, b);
      i, r, o := from, k, attempts[from].outcome(k);
      SendsExactly(attempts[from], from, 0, b, Send(i, r, o));
      RetriedIs(attempts[from], b, k);
    } else {
      i, r, o := GoneShows(attempts, from + 1, bodyLen, b);
    }
  }

  lemma {:induction false} NothingLeft(attempts: seq<Attempt>, bodyLen: nat, b: Budget)
    ensures Walk(attempts, |attempts|, bodyLen, b) == Tried([], None)
  {
  }

  lemma {:induction false} LeavingEnds(attempts: seq<Attempt>, from: nat, bodyLen: nat, b: Budget, e: Event)
    requires from <= |attempts| && e in Walk(attempts, from, bodyLen, b).trace && Leaves(attempts, e, b)
    ensures Walk(attempts, from, bodyLen, b).ended == Some(Gone)
    decreases |attempts| - from
  {
    hide Walk, Sends;
    if from == |attempts| {
      NothingLeft(attempts, bodyLen, b);
    } else {
      var head, on := HeadExactly(attempts, from, bodyLen, b);
      var a := attempts[from];
      if e in head {
        assert SentFrom(a, b, 0, e.retry) by { SentIs(a, b, e.retry); }
        LeavingSends(a, from, b, e.retry);
        OpenedWalk(attempts, from, bodyLen, b);
      } else {
        LeavingEnds(attempts, from + 1, bodyLen, b, e);
      }
    }
  }

  lemma {:induction false} LeavingSends(a: Attempt, i: nat, b: Budget, r: nat)
    requires SentFrom(a, b, 0, r) && (a.outcome(r) == ClientGone || (MayRetry(a.outcome(r), r, b) && a.goneInBackoff(r)))
    ensures Sends(a, i, 0, b).ended == Some(Gone)
  {
    hide Sends;
    var k := SendsEndAt(a, i, 0, b);
    SentIs(a, b, r);
    OneEnd(a, b, k, r);
  }

  lemma {:induction false} OpenedWalk(attempts: seq<Attempt>, i: nat, bodyLen: nat, b: Budget)
    requires i < |attempts| && Contacted(attempts[i], i == |attempts| - 1, bodyLen) && Sends(attempts[i], i, 0, b).ended.Some?
    ensures Walk(attempts, i, bodyLen, b).ended == Sends(attempts[i], i, 0, b).ended
  {
    hide Sends;
    GatesAre(attempts[i], bodyLen);
  }

  // ---- The budget

  /** The client's wish, when it is a count, is explicit and capped; else the rule's own value is explicit; else ten tries. */
  lemma BudgetIs(ruleRetries: int, header: Option<int>)
    ensures var b := BudgetOf(ruleRetries, header);
            if header.Some? && header.value >= 0
            then b.isExplicit && b.retries == (if header.value > 100 then 100 else header.value)
            else if ruleRetries != 0 then b == Budget(ruleRetries, true) else b == Budget(10, false)
  {
  }
}
