/** Fairness on what the requests are handed: the attempt lists themselves, by the member each list starts with. */
module RotationLists {
  import opened Wrappers
  import opened Rotation

  /** The lists of the run's unpinned requests on one pool, as `BalanceRotation` returns them. */
  function Lists(st: State, reqs: seq<Request>, key: string): seq<seq<Member>>
    requires forall i :: 0 <= i < |reqs| ==> WellFormed(reqs[i])
    decreases |reqs|
  {
    if reqs == [] then []
    else
      var (next, start) := Turn(st, reqs[0]);
      (if Unpinned(reqs[0], key) then [Rotated(reqs[0].pool, start)] else []) + Lists(next, reqs[1..], key)
  }

  /** How many lists start with the member. */
  function StartsWith(lists: seq<seq<Member>>, m: Member): nat {
    if lists == [] then 0
    else (if lists[0] != [] && lists[0][0] == m then 1 else 0) + StartsWith(lists[1..], m)
  }

  /** The sum of the entries at the member's places in the pool. */
  function Tally(pool: seq<Member>, entries: seq<nat>, m: Member): nat
    requires |entries| == |pool|
  {
    if pool == [] then 0 else (if pool[0] == m then entries[0] else 0) + Tally(pool[1..], entries[1..], m)
  }

  /** Every request on the pool's counter brings this pool and these weights. */
  predicate SteadyPool(reqs: seq<Request>, pool: seq<Member>, weights: seq<nat>) {
    forall i :: 0 <= i < |reqs| ==>
      WellFormed(reqs[i]) && (Key(reqs[i].pool) == Key(pool) ==> reqs[i].pool == pool && reqs[i].weights == weights)
  }

  function Counts(s: seq<nat>, n: nat): (r: seq<nat>)
    ensures |r| == n && forall i :: 0 <= i < n ==> r[i] == Count(s, i)
  {
    seq(n, i requires 0 <= i < n => Count(s, i))
  }

  lemma {:induction false} TallyMore(pool: seq<Member>, f: seq<nat>, g: seq<nat>, x: nat, m: Member)
    requires |f| == |g| == |pool| && x < |pool| && g == f[x := f[x] + 1]
    ensures Tally(pool, g, m) == Tally(pool, f, m) + if pool[x] == m then 1 else 0
  {
    if x == 0 {
      assert g[1..] == f[1..];
    } else {
      assert g[1..] == f[1..][x - 1 := f[1..][x - 1] + 1];
      TallyMore(pool[1..], f[1..], g[1..], x - 1, m);
    }
  }

  lemma {:induction false} TallyNone(pool: seq<Member>, f: seq<nat>, m: Member)
    requires |f| == |pool| && forall i :: 0 <= i < |f| ==> f[i] == 0
    ensures Tally(pool, f, m) == 0
  {
    if pool != [] { TallyNone(pool[1..], f[1..], m); }
  }

  lemma CountNone(n: nat)
    ensures forall i :: 0 <= i < n ==> Counts([], n)[i] == 0
  {
  }

  lemma CountOneMore(x: nat, s: seq<nat>, n: nat)
    requires x < n
    ensures Counts([x] + s, n) == Counts(s, n)[x := Counts(s, n)[x] + 1]
  {
    hide Count;
    forall i | 0 <= i < n ensures Counts([x] + s, n)[i] == Counts(s, n)[x := Counts(s, n)[x] + 1][i] {
      CountCons(x, s, i);
    }
  }

  lemma {:induction false} StartsWithCons(l: seq<Member>, lists: seq<seq<Member>>, m: Member)
    requires l != []
    ensures StartsWith([l] + lists, m) == (if l[0] == m then 1 else 0) + StartsWith(lists, m)
  {
    assert ([l] + lists)[1..] == lists;
  }

  /** How often a list starts with a member is how often its places were drawn. */
  lemma {:induction false} ListsAreStarts(st: State, reqs: seq<Request>, pool: seq<Member>, weights: seq<nat>, m: Member)
    requires SteadyPool(reqs, pool, weights)
    ensures |Lists(st, reqs, Key(pool))| == |Starts(st, reqs, Key(pool))|
    ensures StartsWith(Lists(st, reqs, Key(pool)), m) == Tally(pool, Counts(Starts(st, reqs, Key(pool)), |pool|), m)
    decreases |reqs|
  {
    hide Key, Turn, Tally, Count, StartsWith, Rotated, Unpinned;
    if reqs == [] {
      CountNone(|pool|);
      TallyNone(pool, Counts([], |pool|), m);
      assert StartsWith([], m) == 0 by { NoLists(m); }
    } else {
      var (next, start) := Turn(st, reqs[0]);
      ListsAreStarts(next, reqs[1..], pool, weights, m);
      var lists, starts := Lists(next, reqs[1..], Key(pool)), Starts(next, reqs[1..], Key(pool));
      if Unpinned(reqs[0], Key(pool)) {
        KeyOf(reqs[0], Key(pool));
        FirstOf(pool, start);
        var l := Rotated(pool, start);
        StartsWithCons(l, lists, m);
        CountOneMore(start, starts, |pool|);
        TallyMore(pool, Counts(starts, |pool|), Counts([start] + starts, |pool|), start, m);
      } else {
        assert [] + lists == lists && [] + starts == starts;
      }
    }
  }

  lemma {:induction false} NoLists(m: Member)
    ensures StartsWith([], m) == 0
  {
  }

  lemma FirstOf(pool: seq<Member>, i: nat)
    requires i < |pool|
    ensures Rotated(pool, i) != [] && Rotated(pool, i)[0] == pool[i]
  {
    assert Place(i, 0, |pool|) == i;
  }

  predicate DistinctMembers(pool: seq<Member>) {
    forall i, j :: 0 <= i < j < |pool| ==> pool[i] != pool[j]
  }

  lemma {:induction false} TallyAbsent(pool: seq<Member>, f: seq<nat>, m: Member)
    requires |f| == |pool| && m !in pool
    ensures Tally(pool, f, m) == 0
  {
    if pool != [] { TallyAbsent(pool[1..], f[1..], m); }
  }

  lemma {:induction false} TallyAt(pool: seq<Member>, f: seq<nat>, i: nat)
    requires |f| == |pool| && i < |pool| && DistinctMembers(pool)
    ensures Tally(pool, f, pool[i]) == f[i]
  {
    if i == 0 {
      assert pool[0] !in pool[1..];
      TallyAbsent(pool[1..], f[1..], pool[0]);
    } else {
      assert DistinctMembers(pool[1..]);
      TallyAt(pool[1..], f[1..], i - 1);
    }
  }

  /** Every member heads as many lists as it has weight in the pool. */
  ghost predicate DealtByWeight(lists: seq<seq<Member>>, pool: seq<Member>, weights: seq<nat>)
    requires |weights| == |pool|
  {
    forall m :: StartsWith(lists, m) == Tally(pool, weights, m)
  }

  /**
   Over any run on any pools, with pinned requests and sweeps in between that keep the pool: when the pool's unpinned
   requests number one total of weights, every member stands first in as many of the lists handed out as its weight, as
   long as the counter has not passed half of its range; past it, for distinct members, only if nobody's slot is lost to
   the first one.
   */
  lemma {:induction false} FairRun(st: State, reqs: seq<Request>, pool: seq<Member>, weights: seq<nat>)
    requires |weights| == |pool| > 0 && weights[0] >= 1 && SteadyPool(reqs, pool, weights) && Kept(st, reqs, Key(pool))
    requires |Lists(st, reqs, Key(pool))| == Total(weights) && Drawn(st, Key(pool)) + |reqs| < TWO64
    ensures Drawn(st, Key(pool)) + Total(weights) <= TWO63 ==> DealtByWeight(Lists(st, reqs, Key(pool)), pool, weights)
    ensures DistinctMembers(pool) ==>
              (DealtByWeight(Lists(st, reqs, Key(pool)), pool, weights) <==> UpperIsFirsts(weights, Drawn(st, Key(pool))))
  {
    hide Total, Starts, Lists, Kept, Key, UpperIsFirsts, Tally, StartsWith, Drawn, Count;
    var key := Key(pool);
    var lists, starts := Lists(st, reqs, key), Starts(st, reqs, key);
    assert Steady(reqs, key, weights);
    ListsAreStarts(st, reqs, pool, weights, pool[0]);
    Rotation.FairRun(st, reqs, key, weights);
    forall m ensures StartsWith(lists, m) == Tally(pool, Counts(starts, |pool|), m) {
      ListsAreStarts(st, reqs, pool, weights, m);
    }
    if FairlyDealt(weights, starts) { assert Counts(starts, |pool|) == weights; }
    if DistinctMembers(pool) && DealtByWeight(lists, pool, weights) {
      forall i | 0 <= i < |pool| ensures Count(starts, i) == weights[i] {
        TallyAt(pool, Counts(starts, |pool|), i);
        TallyAt(pool, weights, i);
      }
    }
  }
}
