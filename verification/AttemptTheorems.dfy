/** Safety, termination and the answer of the attempt loop, read off its trace. */
module AttemptTheorems {
  import opened Wrappers
  import opened AttemptLoop

  /**
   A referee for traces, which knows only the retry budget. `Between(n)`: attempt `n` is next.
   `In(i, k, may)`: attempt `i` is open, `k` sends were made, another one is allowed. `Closing(i)`: an
   outcome ended the request and only the teardown is owed. `Over`: nothing may follow.
   */
  datatype Phase = Between(n: nat) | In(i: nat, k: nat, may: bool) | Closing(i: nat) | Over

  function Judge(p: Phase, e: Event, b: Budget): Option<Phase> {
    match (p, e)
    case (Between(n), Skip(i)) => if i == n then Some(Between(n + 1)) else None
    case (Between(n), Refuse(i)) => if i == n then Some(Between(n + 1)) else None
    case (Between(n), Open(i)) => if i == n then Some(In(i, 0, true)) else None
    case (In(i, k, may), Send(j, r, o)) =>
      if j == i && r == k && may then Some(if Ends(o) then Closing(i) else In(i, k + 1, k < RetriesLeft(o, b))) else None
    case (In(i, k, _), Teardown(j)) => if j == i && k > 0 then Some(Between(i + 1)) else None
    case (Closing(i), Teardown(j)) => if j == i then Some(Over) else None
    case _ => None
  }

  function JudgeAll(p: Phase, trace: seq<Event>, b: Budget): Option<Phase> {
    if trace == [] then Some(p)
    else match JudgeAll(p, trace[..|trace| - 1], b)
      case None => None
      case Some(q) => Judge(q, trace[|trace| - 1], b)
  }

  lemma {:induction false} JudgeAppend(p: Phase, s: seq<Event>, t: seq<Event>, b: Budget)
    ensures JudgeAll(p, s + t, b) == match JudgeAll(p, s, b) case None => None case Some(q) => JudgeAll(q, t, b)
  {
    hide Judge;
    if t == [] {
      assert s + t == s;
    } else {
      var n := |t| - 1;
      assert (s + t)[..|s + t| - 1] == s + t[..n] && (s + t)[|s + t| - 1] == t[n];
      JudgeAppend(p, s, t[..n], b);
    }
  }

  lemma {:induction false} JudgeOne(p: Phase, e: Event, b: Budget)
    ensures JudgeAll(p, [e], b) == Judge(p, e, b)
  {
    assert [e][..0] == [];
  }

  lemma {:induction false} JudgeTwo(p: Phase, e: Event, f: Event, b: Budget)
    ensures JudgeAll(p, [e, f], b) == match Judge(p, e, b) case None => None case Some(q) => Judge(q, f, b)
  {
    hide Judge;
    assert [e, f] == [e] + [f];
    JudgeAppend(p, [e], [f], b);
    JudgeOne(p, e, b);
    if Judge(p, e, b).Some? { JudgeOne(Judge(p, e, b).value, f, b); }
  }

  lemma {:induction false} SendsJudged(a: Attempt, i: nat, retry: nat, b: Budget)
    ensures var s := Sends(a, i, retry, b);
            && JudgeAll(In(i, retry, true), s.trace, b).Some?
            && var p := JudgeAll(In(i, retry, true), s.trace, b).value;
               p == Between(i + 1) || (p == Over && s.ended.Some?)
    decreases Max(0, b.retries) - retry
  {
    hide Sends, JudgeAll;
    SendsNext(a, i, retry, b);
    var o := a.outcome(retry);
    var sent := Send(i, retry, o);
    JudgeTwo(In(i, retry, true), sent, Teardown(i), b);
    if !Ends(o) && retry < RetriesLeft(o, b) && !a.goneInBackoff(retry) {
      SendsJudged(a, i, retry + 1, b);
      JudgeAppend(In(i, retry, true), [sent], Sends(a, i, retry + 1, b).trace, b);
      JudgeOne(In(i, retry, true), sent, b);
    }
  }

  /**
   Every trace of the loop satisfies the referee: attempts are taken in order and once, sends happen only inside an
   opened attempt and only while its budget for that failure allows, each opened attempt is torn down exactly
   once, and after a Served, MidStream or ClientGone outcome nothing but that teardown follows.
   */
  lemma {:induction false} WalkJudged(attempts: seq<Attempt>, i: nat, bodyLen: nat, b: Budget)
    requires i <= |attempts|
    ensures var w := Walk(attempts, i, bodyLen, b);
            && JudgeAll(Between(i), w.trace, b).Some?
            && var p := JudgeAll(Between(i), w.trace, b).value;
               (p.Between? && p.n <= |attempts|) || p == Over
    decreases |attempts| - i
  {
    hide Sends, Judge, SoftGated;
    if i < |attempts| {
      var a, last := attempts[i], i == |attempts| - 1;
      HeadJudged(i, b);
      if Refused(a, bodyLen, last) || Skipped(a, bodyLen, last) {
        var e := if Refused(a, bodyLen, last) then Refuse(i) else Skip(i);
        JudgeOne(Between(i), e, b);
        if !last || !Refused(a, bodyLen, last) {
          WalkJudged(attempts, i + 1, bodyLen, b);
          JudgeAppend(Between(i), [e], Walk(attempts, i + 1, bodyLen, b).trace, b);
        }
      } else if !(a.rewriteFails && !a.planRefused) {
        var s := Sends(a, i, 0, b);
        SendsJudged(a, i, 0, b);
        JudgeOne(Between(i), Open(i), b);
        JudgeAppend(Between(i), [Open(i)], s.trace, b);
        if s.ended.None? {
          WalkJudged(attempts, i + 1, bodyLen, b);
          JudgeAppend(Between(i), [Open(i)] + s.trace, Walk(attempts, i + 1, bodyLen, b).trace, b);
        }
      }
    }
  }

  lemma HeadJudged(i: nat, b: Budget)
    ensures Judge(Between(i), Skip(i), b) == Some(Between(i + 1))
    ensures Judge(Between(i), Refuse(i), b) == Some(Between(i + 1))
    ensures Judge(Between(i), Open(i), b) == Some(In(i, 0, true))
  {
  }

  /** The attempt is skipped by a soft gate or a blocked reservation. */
  predicate Skipped(a: Attempt, bodyLen: nat, last: bool) {
    !last && (SoftGated(a, bodyLen) || (!a.planRefused && !a.rewriteFails && !a.convertRefused && ReservationBlocked(a)))
  }

  /** The attempt is refused: a dialect or a body the backend can not be given. */
  predicate Refused(a: Attempt, bodyLen: nat, last: bool) {
    (last || !SoftGated(a, bodyLen)) && (a.planRefused || (!a.rewriteFails && a.convertRefused))
  }

  // ---- Consequences a caller can use

  /** Phases never go back from a closed request: what the referee allows after `p`. */
  lemma {:induction false} NothingAfterOver(trace: seq<Event>, b: Budget)
    requires JudgeAll(Over, trace, b).Some?
    ensures trace == []
  {
    if trace != [] { NothingAfterOver(trace[..|trace| - 1], b); }
  }

  lemma {:induction false} ClosingThen(i: nat, trace: seq<Event>, b: Budget)
    requires JudgeAll(Closing(i), trace, b).Some? && trace != []
    ensures trace == [Teardown(i)]
  {
    var t := trace[1..];
    assert trace == [trace[0]] + t;
    JudgeAppend(Closing(i), [trace[0]], t, b);
    JudgeOne(Closing(i), trace[0], b);
    NothingAfterOver(t, b);
  }

  /** No send follows an outcome that ends the request: only the attempt's teardown does, and it comes. */
  lemma {:induction false} EndIsFinal(attempts: seq<Attempt>, bodyLen: nat, b: Budget, at: nat)
    requires var t := Walk(attempts, 0, bodyLen, b).trace; at < |t| && t[at].Send? && Ends(t[at].outcome)
    ensures var t := Walk(attempts, 0, bodyLen, b).trace; t[at + 1..] == [Teardown(t[at].i)]
  {
    hide Walk;
    var t := Walk(attempts, 0, bodyLen, b).trace;
    WalkJudged(attempts, 0, bodyLen, b);
    var l, e, r := t[..at], t[at], t[at + 1..];
    assert t == l + [e] + r;
    JudgeAppend(Between(0), l + [e], r, b);
    JudgeAppend(Between(0), l, [e], b);
    var p := JudgeAll(Between(0), l, b).value;
    JudgeOne(p, e, b);
    assert r == [] ==> t == l + [e];
    ClosingThen(e.i, r, b);
  }

  function Opens(t: seq<Event>): nat {
    if t == [] then 0 else Opens(t[..|t| - 1]) + if t[|t| - 1].Open? then 1 else 0
  }

  function Teardowns(t: seq<Event>): nat {
    if t == [] then 0 else Teardowns(t[..|t| - 1]) + if t[|t| - 1].Teardown? then 1 else 0
  }

  lemma {:induction false} SlotBalance(t: seq<Event>, b: Budget)
    requires JudgeAll(Between(0), t, b).Some?
    ensures var p := JudgeAll(Between(0), t, b).value;
            Opens(t) - Teardowns(t) == if p.In? || p.Closing? then 1 else 0
  {
    if t != [] { SlotBalance(t[..|t| - 1], b); }
  }

  lemma {:induction false} JudgedPrefix(p: Phase, t: seq<Event>, n: nat, b: Budget)
    requires n <= |t| && JudgeAll(p, t, b).Some?
    ensures JudgeAll(p, t[..n], b).Some?
  {
    assert t == t[..n] + t[n..];
    JudgeAppend(p, t[..n], t[n..], b);
  }

  /** At every moment a request holds at most one slot, and at its end it holds none. */
  lemma {:induction false} OneSlotAtATime(attempts: seq<Attempt>, bodyLen: nat, b: Budget, n: nat)
    requires n <= |Walk(attempts, 0, bodyLen, b).trace|
    ensures var t := Walk(attempts, 0, bodyLen, b).trace;
            && 0 <= Opens(t[..n]) - Teardowns(t[..n]) <= 1
            && Opens(t) == Teardowns(t)
  {
    hide Walk;
    var t := Walk(attempts, 0, bodyLen, b).trace;
    WalkJudged(attempts, 0, bodyLen, b);
    JudgedPrefix(Between(0), t, n, b);
    SlotBalance(t[..n], b);
    SlotBalance(t, b);
  }

  function SendsIn(t: seq<Event>): nat {
    if t == [] then 0 else SendsIn(t[..|t| - 1]) + if t[|t| - 1].Send? then 1 else 0
  }

  /** A request that skips an attempt holds no slot. */
  lemma {:induction false} SkipHoldsNone(attempts: seq<Attempt>, bodyLen: nat, b: Budget, n: nat)
    requires n < |Walk(attempts, 0, bodyLen, b).trace| && Walk(attempts, 0, bodyLen, b).trace[n].Skip?
    ensures var t := Walk(attempts, 0, bodyLen, b).trace; Opens(t[..n]) == Teardowns(t[..n])
  {
    hide Walk;
    var t := Walk(attempts, 0, bodyLen, b).trace;
    WalkJudged(attempts, 0, bodyLen, b);
    JudgedPrefix(Between(0), t, n, b);
    JudgedPrefix(Between(0), t, n + 1, b);
    assert t[..n + 1][..n] == t[..n];
    SlotBalance(t[..n], b);
  }

  lemma {:induction false} SendsInAppend(s: seq<Event>, t: seq<Event>)
    ensures SendsIn(s + t) == SendsIn(s) + SendsIn(t)
  {
    if t == [] {
      assert s + t == s;
    } else {
      var n := |t| - 1;
      assert (s + t)[..|s + t| - 1] == s + t[..n] && (s + t)[|s + t| - 1] == t[n];
      SendsInAppend(s, t[..n]);
    }
  }

  lemma SendsInOne(e: Event)
    ensures SendsIn([e]) == (if e.Send? then 1 else 0)
  {
    assert [e][..0] == [];
  }

  lemma {:induction false} SendBoundOne(a: Attempt, i: nat, retry: nat, b: Budget)
    requires retry <= Max(0, b.retries)
    ensures SendsIn(Sends(a, i, retry, b).trace) <= 1 + Max(0, b.retries) - retry
    decreases Max(0, b.retries) - retry
  {
    var o := a.outcome(retry);
    var sent := Send(i, retry, o);
    assert [sent, Teardown(i)] == [sent] + [Teardown(i)];
    SendsInAppend([sent], [Teardown(i)]);
    SendsInOne(sent);
    SendsInOne(Teardown(i));
    if !Ends(o) && retry < RetriesLeft(o, b) && !a.goneInBackoff(retry) {
      SendBoundOne(a, i, retry + 1, b);
      SendsInAppend([sent], Sends(a, i, retry + 1, b).trace);
    }
  }

  /** The loop makes at most 1 + max(0, retries) sends per attempt. */
  lemma {:induction false} SendBound(attempts: seq<Attempt>, i: nat, bodyLen: nat, b: Budget)
    requires i <= |attempts|
    ensures SendsIn(Walk(attempts, i, bodyLen, b).trace) <= (|attempts| - i) * (1 + Max(0, b.retries))
    decreases |attempts| - i
  {
    hide Sends, SoftGated;
    if i < |attempts| {
      var rest, s, m := Walk(attempts, i + 1, bodyLen, b), Sends(attempts[i], i, 0, b), 1 + Max(0, b.retries);
      SendBound(attempts, i + 1, bodyLen, b);
      SendBoundOne(attempts[i], i, 0, b);
      SendsInOne(Skip(i));
      SendsInOne(Refuse(i));
      SendsInOne(Open(i));
      SendsInAppend([Skip(i)], rest.trace);
      SendsInAppend([Refuse(i)], rest.trace);
      SendsInAppend([Open(i)], s.trace);
      SendsInAppend([Open(i)] + s.trace, rest.trace);
      assert (|attempts| - i) * m == (|attempts| - i - 1) * m + m;
      assert (|attempts| - i - 1) * m >= 0;
    }
  }

  lemma {:induction false} NoSkipInSends(a: Attempt, i: nat, retry: nat, b: Budget)
    ensures forall e :: e in Sends(a, i, retry, b).trace ==> e.Send? || e.Teardown?
    decreases Max(0, b.retries) - retry
  {
    var o := a.outcome(retry);
    if !Ends(o) && retry < RetriesLeft(o, b) && !a.goneInBackoff(retry) {
      NoSkipInSends(a, i, retry + 1, b);
    }
  }

  /** Neither the soft gates nor a blocked reservation skip the last attempt. */
  lemma {:induction false} LastNeverSkipped(attempts: seq<Attempt>, i: nat, bodyLen: nat, b: Budget)
    requires i <= |attempts|
    ensures forall e :: e in Walk(attempts, i, bodyLen, b).trace && e.Skip? ==> e.i < |attempts| - 1
    decreases |attempts| - i
  {
    hide Sends, SoftGated;
    if i < |attempts| {
      LastNeverSkipped(attempts, i + 1, bodyLen, b);
      NoSkipInSends(attempts[i], i, 0, b);
    }
  }

  // ---- The answer

  /** No send of the trace ended the request. */
  predicate NothingServed(t: seq<Event>) {
    forall e :: e in t && e.Send? ==> !Ends(e.outcome)
  }

  lemma {:induction false} GaveUp(a: Attempt, i: nat, retry: nat, b: Budget)
    ensures var s := Sends(a, i, retry, b);
            match s.ended
            case None => NothingServed(s.trace)
            case Some(ServedBy(j, st)) => j == i && exists r :: Send(i, r, Served(st)) in s.trace
            case Some(BrokenBy(j, st)) => j == i && exists r :: Send(i, r, MidStream(st)) in s.trace
            case Some(x) => x == Gone
    decreases Max(0, b.retries) - retry
  {
    var o := a.outcome(retry);
    if !Ends(o) && retry < RetriesLeft(o, b) && !a.goneInBackoff(retry) {
      GaveUp(a, i, retry + 1, b);
      var s, m := Sends(a, i, retry, b), Sends(a, i, retry + 1, b);
      assert forall e :: e in m.trace ==> e in s.trace;
    } else {
      assert Send(i, retry, o) in Sends(a, i, retry, b).trace;
    }
  }

  /** What the end of a walk from attempt `i` says of its trace. */
  ghost predicate Shown(w: Tried, attempts: seq<Attempt>, i: nat, bodyLen: nat) {
    match w.ended
    case None => NothingServed(w.trace) && (i < |attempts| ==> !Refused(attempts[|attempts| - 1], bodyLen, true))
    case Some(ServedBy(j, st)) => exists r :: Send(j, r, Served(st)) in w.trace
    case Some(BrokenBy(j, st)) => exists r :: Send(j, r, MidStream(st)) in w.trace
    case Some(Refusal(j)) =>
      |attempts| > 0 && j == |attempts| - 1 && Refused(attempts[j], bodyLen, true) && NothingServed(w.trace)
    case Some(RewriteError) => NothingServed(w.trace)
    case Some(x) => x == Gone
  }

  /** Events in front that serve nothing change nothing. */
  lemma ShownBehind(head: seq<Event>, w: Tried, attempts: seq<Attempt>, i: nat, bodyLen: nat)
    requires i < |attempts| && NothingServed(head) && Shown(w, attempts, i + 1, bodyLen)
    requires i == |attempts| - 1 ==> !Refused(attempts[i], bodyLen, true)
    ensures Shown(Then(head, w), attempts, i, bodyLen)
  {
    var t := Then(head, w).trace;
    assert forall e :: e in w.trace ==> e in t;
  }

  /** The end of one server's sends is the end of the walk. */
  lemma {:induction false} ShownHere(a: Attempt, i: nat, b: Budget, attempts: seq<Attempt>, bodyLen: nat)
    requires Sends(a, i, 0, b).ended.Some?
    ensures var s := Sends(a, i, 0, b); Shown(Tried([Open(i)] + s.trace, s.ended), attempts, i, bodyLen)
  {
    hide Sends;
    GaveUp(a, i, 0, b);
    var s := Sends(a, i, 0, b);
    assert forall e :: e in s.trace ==> e in [Open(i)] + s.trace;
  }

  lemma OpenedServesNothing(i: nat, t: seq<Event>)
    requires NothingServed(t)
    ensures NothingServed([Open(i)] + t)
  {
  }

  /** The attempt's body can not be rewritten, and the loop gets as far as trying. */
  predicate RewriteFails(attempts: seq<Attempt>, i: nat, bodyLen: nat)
    requires i < |attempts|
  {
    var a := attempts[i];
    (i == |attempts| - 1 || !SoftGated(a, bodyLen)) && !a.planRefused && a.rewriteFails
  }

  /** One attempt that nothing ended, in terms of the rest of the walk. */
  lemma WalkOn(attempts: seq<Attempt>, i: nat, bodyLen: nat, b: Budget) returns (head: seq<Event>)
    requires i < |attempts|
    ensures var w, s := Walk(attempts, i, bodyLen, b), Sends(attempts[i], i, 0, b);
            || (w == Then(head, Walk(attempts, i + 1, bodyLen, b)) && NothingServed(head)
                && !RewriteFails(attempts, i, bodyLen) && (i == |attempts| - 1 ==> !Refused(attempts[i], bodyLen, true)))
            || (w.ended == Some(Refusal(i)) && i == |attempts| - 1 && Refused(attempts[i], bodyLen, true)
                && !RewriteFails(attempts, i, bodyLen) && NothingServed(w.trace))
            || (w == Tried([], Some(RewriteError)) && RewriteFails(attempts, i, bodyLen))
            || (s.ended.Some? && w == Tried([Open(i)] + s.trace, s.ended))
  {
    hide Sends, SoftGated;
    GaveUp(attempts[i], i, 0, b);
    var a, s := attempts[i], Sends(attempts[i], i, 0, b);
    if s.ended == None {
      OpenedServesNothing(i, s.trace);
    }
    var last := i == |attempts| - 1;
    head := if SoftGated(a, bodyLen) && !last then [Skip(i)]
            else if a.planRefused then [Refuse(i)]
            else if a.rewriteFails then []
            else if a.convertRefused then [Refuse(i)]
            else if ReservationBlocked(a) && !last then [Skip(i)]
            else [Open(i)] + s.trace;
  }

  /**
   The answer of a request, by what its trace shows. A served or broken answer names an outcome of the
   trace; a refusal is the last attempt's; and when nothing was served, no rewrite failed and the last
   attempt was not refused, the answer is the last held-back backend answer, or 502 when there is none.
   */
  lemma {:induction false} AnswerIs(attempts: seq<Attempt>, i: nat, bodyLen: nat, b: Budget)
    requires i <= |attempts|
    ensures Shown(Walk(attempts, i, bodyLen, b), attempts, i, bodyLen)
    decreases |attempts| - i
  {
    if i < |attempts| {
      hide Sends, Walk, NothingServed, Refused;
      var head := WalkOn(attempts, i, bodyLen, b);
      var w, s, m := Walk(attempts, i, bodyLen, b), Sends(attempts[i], i, 0, b), Walk(attempts, i + 1, bodyLen, b);
      AnswerIs(attempts, i + 1, bodyLen, b);
      if w == Then(head, m) && NothingServed(head) && (i == |attempts| - 1 ==> !Refused(attempts[i], bodyLen, true)) {
        ShownBehind(head, m, attempts, i, bodyLen);
      } else if s.ended.Some? && w == Tried([Open(i)] + s.trace, s.ended) {
        ShownHere(attempts[i], i, b, attempts, bodyLen);
      } else if w == Tried([], Some(RewriteError)) {
        assert NothingServed([]) by { EmptyServesNothing(); }
      }
    }
  }

  lemma EmptyServesNothing()
    ensures NothingServed([])
  {
  }

  /** The n-th event is the last held-back answer of the trace. */
  predicate LastHeld(t: seq<Event>, n: int, i: nat, status: int) {
    && 0 <= n < |t| && t[n].Send? && t[n].i == i && t[n].outcome == Buffered(status)
    && forall k :: n < k < |t| && t[k].Send? ==> !t[k].outcome.Buffered?
  }

  lemma {:induction false} LastBufferedIs(t: seq<Event>) returns (n: int)
    ensures LastBuffered(t).None? ==> forall k :: 0 <= k < |t| && t[k].Send? ==> !t[k].outcome.Buffered?
    ensures LastBuffered(t).Some? ==> LastHeld(t, n, LastBuffered(t).value.0, LastBuffered(t).value.1)
  {
    n := |t| - 1;
    if t != [] && !(t[n].Send? && t[n].outcome.Buffered?) {
      n := LastBufferedIs(t[..n]);
    }
  }

  /** The client left while the loop waited to send again. */
  predicate LeftAfter(attempts: seq<Attempt>, e: Event, b: Budget) {
    e.Send? && e.i < |attempts| && e.retry < RetriesLeft(e.outcome, b) && attempts[e.i].goneInBackoff(e.retry)
  }

  /** No send of the trace ended the request, and the client left behind none of them. */
  predicate Unanswered(attempts: seq<Attempt>, t: seq<Event>, b: Budget) {
    forall e :: e in t && e.Send? ==> !Ends(e.outcome) && !LeftAfter(attempts, e, b)
  }

  lemma {:induction false} SendsEnd(attempts: seq<Attempt>, i: nat, retry: nat, b: Budget)
    requires i < |attempts| && Unanswered(attempts, Sends(attempts[i], i, retry, b).trace, b)
    ensures Sends(attempts[i], i, retry, b).ended == None
    decreases Max(0, b.retries) - retry
  {
    hide Sends;
    var a := attempts[i];
    var o, s := a.outcome(retry), Sends(a, i, retry, b);
    SendsNext(a, i, retry, b);
    assert s.trace[0] == Send(i, retry, o) && s.trace[0] in s.trace;
    if retry < RetriesLeft(o, b) {
      var m := Sends(a, i, retry + 1, b);
      assert forall e :: e in m.trace ==> e in s.trace;
      SendsEnd(attempts, i, retry + 1, b);
    }
  }

  lemma UnansweredParts(attempts: seq<Attempt>, l: seq<Event>, r: seq<Event>, b: Budget)
    requires Unanswered(attempts, l + r, b)
    ensures Unanswered(attempts, l, b) && Unanswered(attempts, r, b)
  {
    assert forall e :: e in l || e in r ==> e in l + r;
  }

  ghost predicate RewriteFailsFrom(attempts: seq<Attempt>, i: nat, bodyLen: nat) {
    exists j :: i <= j < |attempts| && RewriteFails(attempts, j, bodyLen)
  }

  lemma RewriteFailsNext(attempts: seq<Attempt>, i: nat, bodyLen: nat)
    requires i < |attempts|
    ensures RewriteFailsFrom(attempts, i, bodyLen) <==>
              RewriteFails(attempts, i, bodyLen) || RewriteFailsFrom(attempts, i + 1, bodyLen)
  {
    hide RewriteFails;
  }

  /** How an unanswered walk ends: at a failed rewrite, at the last attempt's refusal, or not at all. */
  lemma {:induction false} UnansweredEnd(attempts: seq<Attempt>, i: nat, bodyLen: nat, b: Budget)
    requires i <= |attempts| && Unanswered(attempts, Walk(attempts, i, bodyLen, b).trace, b)
    ensures Walk(attempts, i, bodyLen, b).ended ==
              if RewriteFailsFrom(attempts, i, bodyLen) then Some(RewriteError)
              else if i < |attempts| && Refused(attempts[|attempts| - 1], bodyLen, true) then Some(Refusal(|attempts| - 1))
              else None
    decreases |attempts| - i
  {
    if i < |attempts| {
      hide Sends, Walk, NothingServed, Refused, RewriteFails, RewriteFailsFrom, Unanswered;
      var head := WalkOn(attempts, i, bodyLen, b);
      RewriteFailsNext(attempts, i, bodyLen);
      var w, s, m := Walk(attempts, i, bodyLen, b), Sends(attempts[i], i, 0, b), Walk(attempts, i + 1, bodyLen, b);
      if s.ended.Some? && w == Tried([Open(i)] + s.trace, s.ended) {
        UnansweredParts(attempts, [Open(i)], s.trace, b);
        SendsEnd(attempts, i, 0, b);
      } else if w == Then(head, m) && !RewriteFails(attempts, i, bodyLen)
                && (i == |attempts| - 1 ==> !Refused(attempts[i], bodyLen, true)) {
        UnansweredParts(attempts, head, m.trace, b);
        UnansweredEnd(attempts, i + 1, bodyLen, b);
      } else if w.ended == Some(Refusal(i)) {
        assert !RewriteFailsFrom(attempts, |attempts|, bodyLen) by { NothingFailsBehind(attempts, bodyLen); }
      }
    } else {
      NothingFailsBehind(attempts, bodyLen);
    }
  }

  lemma NothingFailsBehind(attempts: seq<Attempt>, bodyLen: nat)
    ensures !RewriteFailsFrom(attempts, |attempts|, bodyLen)
  {
  }

  /**
   When no send ended the request and the client did not leave between sends: a failed rewrite is the answer, else the
   last attempt's refusal, else the trace's last held-back backend answer, server and status, else 502.
   */
  lemma {:induction false} FallbackAnswer(attempts: seq<Attempt>, bodyLen: nat, b: Budget)
    requires Unanswered(attempts, Walk(attempts, 0, bodyLen, b).trace, b)
    ensures var w := Walk(attempts, 0, bodyLen, b);
            if RewriteFailsFrom(attempts, 0, bodyLen) then AnswerOf(w) == RewriteError
            else if attempts != [] && Refused(attempts[|attempts| - 1], bodyLen, true)
            then AnswerOf(w) == Refusal(|attempts| - 1)
            else if exists k :: 0 <= k < |w.trace| && w.trace[k].Send? && w.trace[k].outcome.Buffered?
            then AnswerOf(w).BackendAnswer? && exists n :: LastHeld(w.trace, n, AnswerOf(w).i, AnswerOf(w).status)
            else AnswerOf(w) == BadGateway
  {
    hide Walk, Refused, RewriteFailsFrom, Unanswered;
    var w := Walk(attempts, 0, bodyLen, b);
    UnansweredEnd(attempts, 0, bodyLen, b);
    var n := LastBufferedIs(w.trace);
    if LastBuffered(w.trace).Some? {
      var (i, s) := LastBuffered(w.trace).value;
      assert LastHeld(w.trace, n, i, s);
      assert w.trace[n].Send?;
    }
  }
}
