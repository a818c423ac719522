/** The quota tracker against a reference that forgets nothing: its verdicts are counts over the whole history. */
module QuotaHistory {
  import opened Quota

  /** The calls that change the tracker, apart from a usage read. */
  datatype Op =
    | Allow(id: string, now: int)
    | Record(id: string, now: int)
    | Reserve(id: string, estimate: int, now: int)
    | Complete(id: string, reservedTokens: int, actual: int, now: int)

  function Step(t: Tracker, op: Op, limits: string -> Limits): Tracker {
    match op
    case Allow(id, now) => Allowed(t, id, limits(id), now).0
    case Record(id, now) => RequestRecorded(t, id, now)
    case Reserve(id, estimate, now) => Reserving(t, id, limits(id), estimate, now).0
    case Complete(id, reservedTokens, actual, now) => Completed(t, id, reservedTokens, actual, now)
  }

  function Run(ops: seq<Op>, limits: string -> Limits): Tracker {
    if ops == [] then Empty else Step(Run(ops[..|ops| - 1], limits), ops[|ops| - 1], limits)
  }

  /** The clock does not go back. */
  predicate Timely(ops: seq<Op>, now: int) {
    && (forall i, j :: 0 <= i < j < |ops| ==> ops[i].now <= ops[j].now)
    && (forall i :: 0 <= i < |ops| ==> ops[i].now <= now)
  }

  /** The requests of the server recorded after the cutoff, none forgotten. */
  function RequestsSince(ops: seq<Op>, id: string, cutoff: int): nat {
    if ops == [] then 0
    else
      var op := ops[|ops| - 1];
      RequestsSince(ops[..|ops| - 1], id, cutoff) + if op.Record? && op.id == id && op.now > cutoff then 1 else 0
  }

  /** The tokens the server's requests reported after the cutoff, none forgotten. */
  function TokensSince(ops: seq<Op>, id: string, cutoff: int): int {
    if ops == [] then 0
    else
      var op := ops[|ops| - 1];
      TokensSince(ops[..|ops| - 1], id, cutoff)
      + if op.Complete? && op.id == id && op.now > cutoff && op.actual > 0 then op.actual else 0
  }

  lemma {:induction false} TimesAppend(a: seq<int>, b: seq<int>, cutoff: int)
    ensures PrunedTimes(a + b, cutoff) == PrunedTimes(a, cutoff) + PrunedTimes(b, cutoff)
  {
    if b == [] {
      assert a + b == a;
    } else {
      var n := |b| - 1;
      assert (a + b)[..|a + b| - 1] == a + b[..n] && (a + b)[|a + b| - 1] == b[n];
      TimesAppend(a, b[..n], cutoff);
    }
  }

  lemma {:induction false} TimesTwice(ts: seq<int>, early: int, late: int)
    requires early <= late
    ensures PrunedTimes(PrunedTimes(ts, early), late) == PrunedTimes(ts, late)
  {
    if ts != [] {
      var n := |ts| - 1;
      TimesTwice(ts[..n], early, late);
      if ts[n] > early {
        TimesAppend(PrunedTimes(ts[..n], early), [ts[n]], late);
        assert [ts[n]][..0] == [];
      } else {
        assert PrunedTimes(ts[..n], early) + [] == PrunedTimes(ts[..n], early);
        assert PrunedTimes(ts[..n], late) + [] == PrunedTimes(ts[..n], late);
      }
    }
  }

  /** A verdict prunes at most; a call for another server touches nothing. */
  lemma {:induction false} OthersKeep(t: Tracker, op: Op, limits: string -> Limits, id: string, cutoff: int)
    requires op.now - WINDOW <= cutoff && (op.Allow? || op.Reserve? || op.id != id)
    ensures PrunedTimes(Requests(Step(t, op, limits), id), cutoff) == PrunedTimes(Requests(t, id), cutoff)
    ensures Pruned(Events(Step(t, op, limits), id), cutoff) == Pruned(Events(t, id), cutoff)
  {
    hide Pruned, PrunedTimes, Sum;
    PrunedTwice(Events(t, id), op.now - WINDOW, cutoff);
    TimesTwice(Requests(t, id), op.now - WINDOW, cutoff);
  }

  /** What one call leaves of the server's lists, seen from a later cutoff. */
  lemma {:induction false} StepLists(t: Tracker, op: Op, limits: string -> Limits, id: string, cutoff: int)
    requires op.now - WINDOW <= cutoff
    ensures PrunedTimes(Requests(Step(t, op, limits), id), cutoff)
         == PrunedTimes(Requests(t, id), cutoff) + if op.Record? && op.id == id && op.now > cutoff then [op.now] else []
    ensures Pruned(Events(Step(t, op, limits), id), cutoff)
         == Pruned(Events(t, id), cutoff)
            + if op.Complete? && op.id == id && op.now > cutoff && op.actual > 0 then [TokenEvent(op.now, op.actual)] else []
  {
    hide Pruned, PrunedTimes, Sum;
    var early := op.now - WINDOW;
    PrunedTwice(Events(t, id), early, cutoff);
    TimesTwice(Requests(t, id), early, cutoff);
    assert PrunedTimes(Requests(t, id), cutoff) + [] == PrunedTimes(Requests(t, id), cutoff);
    assert Pruned(Events(t, id), cutoff) + [] == Pruned(Events(t, id), cutoff);
    if op.Allow? || op.Reserve? || op.id != id {
      hide Step;
      OthersKeep(t, op, limits, id, cutoff);
    }
    if op.Record? && op.id == id {
      TimesAppend(PrunedTimes(Requests(t, id), early), [op.now], cutoff);
      OneTime(op.now, cutoff);
    }
    if op.Complete? && op.id == id && op.actual > 0 {
      PrunedAppend(Pruned(Events(t, id), early), [TokenEvent(op.now, op.actual)], cutoff);
      OneEvent(TokenEvent(op.now, op.actual), cutoff);
    }
  }

  lemma {:induction false} OneTime(t: int, cutoff: int)
    ensures PrunedTimes([t], cutoff) == if t > cutoff then [t] else []
  {
    assert [t][..0] == [];
  }

  lemma {:induction false} OneEvent(e: TokenEvent, cutoff: int)
    ensures Pruned([e], cutoff) == if e.at > cutoff then [e] else []
  {
    assert [e][..0] == [];
  }

  /** The pruned lists count as much as the whole history, now and later. */
  lemma {:induction false} ListsAreHistory(ops: seq<Op>, limits: string -> Limits, id: string, now: int)
    requires Timely(ops, now)
    ensures |PrunedTimes(Requests(Run(ops, limits), id), now - WINDOW)| == RequestsSince(ops, id, now - WINDOW)
    ensures Live(Events(Run(ops, limits), id), now) == TokensSince(ops, id, now - WINDOW)
  {
    hide Step, Pruned, PrunedTimes, Sum, Timely;
    if ops == [] {
      NothingListed(id, now);
    } else {
      var n := |ops| - 1;
      var t, op := Run(ops[..n], limits), ops[n];
      TimelyInit(ops, now);
      ListsAreHistory(ops[..n], limits, id, now);
      StepLists(t, op, limits, id, now - WINDOW);
      SumSnoc(Pruned(Events(t, id), now - WINDOW), TokenEvent(op.now, if op.Complete? then op.actual else 0));
    }
  }

  lemma TimelyInit(ops: seq<Op>, now: int)
    requires ops != [] && Timely(ops, now)
    ensures Timely(ops[..|ops| - 1], now) && ops[|ops| - 1].now <= now
  {
  }

  lemma {:induction false} NothingListed(id: string, now: int)
    ensures PrunedTimes(Requests(Empty, id), now - WINDOW) == [] && Live(Events(Empty, id), now) == 0
  {
  }

  /**
   A server is allowed if and only if fewer requests than its limit were recorded in the last minute, and fewer tokens
   than its limit were reported; a limit of zero or less does not bind.
   */
  lemma {:induction false} AllowedExactly(ops: seq<Op>, limits: string -> Limits, id: string, now: int)
    requires Timely(ops, now)
    ensures var lim := limits(id);
            Allowed(Run(ops, limits), id, lim, now).1 <==>
              && (lim.rpm <= 0 || RequestsSince(ops, id, now - 60_000_000_000) < lim.rpm)
              && (lim.tpm <= 0 || TokensSince(ops, id, now - 60_000_000_000) < lim.tpm)
  {
    hide Run, Pruned, PrunedTimes, Sum;
    ListsAreHistory(ops, limits, id, now);
  }

  /** A reservation is granted if and only if it asks for nothing, nothing binds, or it fits beside usage and reservations. */
  lemma {:induction false} ReservedExactly(ops: seq<Op>, limits: string -> Limits, id: string, estimate: int, now: int)
    requires Timely(ops, now)
    ensures var t, lim := Run(ops, limits), limits(id);
            var (after, ok) := Reserving(t, id, lim, estimate, now);
            && (ok <==> estimate <= 0 || lim.tpm <= 0
                        || TokensSince(ops, id, now - 60_000_000_000) + Reserved(t, id) + estimate <= lim.tpm)
            && Reserved(after, id) == Reserved(t, id) + (if ok && estimate > 0 && lim.tpm > 0 then estimate else 0)
            && forall other :: other != id ==> Reserved(after, other) == Reserved(t, other)
  {
    hide Run, Pruned, PrunedTimes, Sum;
    ListsAreHistory(ops, limits, id, now);
  }
}
