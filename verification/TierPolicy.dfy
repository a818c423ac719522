/**
 The tier policy and the attempt order of router/jev.go:242-284, 310-325, 380-417. The decision itself is an
 input: the index that the decision model, the cache or the pin chose, or -1.
 */
module TierPolicy {

  /** `jevDowngradeMaxContext`. */
  const MAX_CONTEXT: int := 20000

  /** `-1<<31`, the start value of the nearest-tier search. */
  const FLOOR: int := -0x8000_0000

  datatype Candidate = Candidate(serverId: string, targetModel: string, tier: int)

  datatype Decision = Decision(choice: int, sticky: bool, confidence: real, minConfidence: real, context: int)

  type Pool = s: seq<Candidate> | s != [] witness [Candidate("", "", 0)]

  predicate WellFormed(pool: Pool, d: Decision) {
    -1 <= d.choice < |pool|
  }

  function Abs(n: int): int {
    if n < 0 then -n else n
  }

  /** A tier above the wanted one costs its distance twice. */
  function Cost(t: int, tier: int): int {
    if t > tier then 2 * Abs(t - tier) else Abs(t - tier)
  }

  /** The first of the cheapest members. */
  predicate IsCheapest(pool: Pool, tier: int, i: int) {
    && 0 <= i < |pool|
    && (forall k :: 0 <= k < |pool| ==> Cost(pool[i].tier, tier) <= Cost(pool[k].tier, tier))
    && (forall k :: 0 <= k < i ==> Cost(pool[i].tier, tier) < Cost(pool[k].tier, tier))
  }

  /** `jevTierIndex`. */
  method TierIndex(pool: Pool, tier: int) returns (best: int)
    ensures IsCheapest(pool, tier, best)
  {
    best := 0;
    var bestDist := -1;
    for i := 0 to |pool|
      invariant bestDist < 0 <==> i == 0
      invariant i == 0 ==> best == 0
      invariant i > 0 ==> 0 <= best < i && bestDist == Cost(pool[best].tier, tier)
      invariant forall k :: 0 <= k < i ==> pool[k].tier != tier && bestDist <= Cost(pool[k].tier, tier)
      invariant forall k :: 0 <= k < best ==> bestDist < Cost(pool[k].tier, tier)
    {
      if pool[i].tier == tier {
        return i;
      }
      var dist := Abs(pool[i].tier - tier);
      if pool[i].tier > tier {
        dist := dist * 2;
      }
      if bestDist < 0 || dist < bestDist {
        best, bestDist := i, dist;
      }
    }
  }

  predicate Eligible(pool: Pool, ceiling: int, k: int) {
    0 <= k < |pool| && FLOOR < pool[k].tier <= ceiling
  }

  /** The first of the highest members at or below the ceiling; without one, the cheapest for the ceiling. */
  ghost predicate IsNearest(pool: Pool, ceiling: int, i: int) {
    if exists k :: Eligible(pool, ceiling, k) then
      && Eligible(pool, ceiling, i)
      && (forall k :: Eligible(pool, ceiling, k) ==> pool[k].tier <= pool[i].tier)
      && (forall k :: Eligible(pool, ceiling, k) && k < i ==> pool[k].tier < pool[i].tier)
    else IsCheapest(pool, ceiling, i)
  }

  /** `jevNearestIndex`. */
  method NearestIndex(pool: Pool, ceiling: int) returns (best: int)
    ensures IsNearest(pool, ceiling, best)
  {
    hide IsCheapest;
    best := 0;
    var bestTier := FLOOR;
    for i := 0 to |pool|
      invariant bestTier >= FLOOR
      invariant bestTier == FLOOR ==> forall k :: 0 <= k < i ==> !Eligible(pool, ceiling, k)
      invariant bestTier > FLOOR ==> best < i && Eligible(pool, ceiling, best) && bestTier == pool[best].tier
      invariant forall k :: 0 <= k < i && Eligible(pool, ceiling, k) ==> pool[k].tier <= bestTier
      invariant bestTier > FLOOR ==>
                  forall k :: 0 <= k < best && Eligible(pool, ceiling, k) ==> pool[k].tier < bestTier
    {
      if pool[i].tier <= ceiling && pool[i].tier > bestTier {
        best, bestTier := i, pool[i].tier;
      }
    }
    if bestTier > FLOOR {
      return best;
    }
    best := TierIndex(pool, ceiling);
  }

  // ---- the searches as functions, and what the code decides ----

  function CheapestFrom(pool: Pool, tier: int, n: nat): (i: int)
    requires 0 < n <= |pool|
    ensures 0 <= i < n
    ensures forall k :: 0 <= k < n ==> Cost(pool[i].tier, tier) <= Cost(pool[k].tier, tier)
    ensures forall k :: 0 <= k < i ==> Cost(pool[i].tier, tier) < Cost(pool[k].tier, tier)
  {
    if n == 1 then 0
    else
      var i := CheapestFrom(pool, tier, n - 1);
      if Cost(pool[n - 1].tier, tier) < Cost(pool[i].tier, tier) then n - 1 else i
  }

  /** The default member: the cheapest for the default tier. */
  function DefaultIndex(pool: Pool, tier: int): (i: int)
    ensures IsCheapest(pool, tier, i)
  {
    CheapestFrom(pool, tier, |pool|)
  }

  lemma CheapestUnique(pool: Pool, tier: int, i: int, j: int)
    requires IsCheapest(pool, tier, i) && IsCheapest(pool, tier, j)
    ensures i == j
  {
    var a, b := pool[i], pool[j];
  }

  /** The decision is doubted: it comes with too little confidence and is no pin of an earlier turn. */
  predicate Unsure(d: Decision) {
    d.choice >= 0 && !d.sticky && d.confidence < d.minConfidence
  }

  /** The tier policy. */
  method Settle(pool: Pool, d: Decision, defaultTier: int) returns (choice: int)
    requires WellFormed(pool, d)
    ensures IsSettled(pool, d, DefaultIndex(pool, defaultTier), choice)
  {
    hide IsCheapest, IsNearest, DefaultIndex;
    var def := TierIndex(pool, defaultTier);
    CheapestUnique(pool, defaultTier, def, DefaultIndex(pool, defaultTier));
    CheapestInRange(pool, defaultTier, def);
    choice := d.choice;
    if choice < 0 {
      choice := def;
    } else if !d.sticky && d.confidence < d.minConfidence {
      if pool[choice].tier < pool[def].tier {
        choice := def;
      } else if pool[choice].tier > pool[def].tier + 1 {
        choice := NearestIndex(pool, pool[def].tier + 1);
        NearestInRange(pool, pool[def].tier + 1, choice);
      }
    }
    NearestStep(pool, def, choice);
    if choice >= 0 && pool[choice].tier < pool[def].tier && d.context > MAX_CONTEXT {
      choice := def;
    }
  }

  lemma CheapestInRange(pool: Pool, tier: int, i: int)
    requires IsCheapest(pool, tier, i)
    ensures 0 <= i < |pool|
  {
  }

  lemma NearestInRange(pool: Pool, ceiling: int, i: int)
    requires IsNearest(pool, ceiling, i)
    ensures 0 <= i < |pool|
  {
  }

  /** Capping at one above a member's tier gives that tier or the one above, whatever the pool's tiers are. */
  lemma NearestStep(pool: Pool, def: int, i: int)
    requires 0 <= def < |pool|
    ensures IsNearest(pool, pool[def].tier + 1, i) ==>
              0 <= i < |pool| && pool[def].tier <= pool[i].tier <= pool[def].tier + 1
  {
    var ceiling := pool[def].tier + 1;
    if IsNearest(pool, ceiling, i) {
      if exists k :: Eligible(pool, ceiling, k) {
        assert Eligible(pool, ceiling, i);
        if pool[def].tier > FLOOR {
          assert Eligible(pool, ceiling, def);
        }
      } else {
        assert Cost(pool[i].tier, ceiling) <= Cost(pool[def].tier, ceiling) == 1;
      }
    }
  }

  /**
   What the policy promises of the member it settles on: a decision taken at its word, or the default member, or
   for an unsure upgrade the member nearest to one tier above the default.
   */
  ghost predicate IsSettled(pool: Pool, d: Decision, def: int, choice: int)
    requires WellFormed(pool, d) && 0 <= def < |pool|
  {
    var want := d.choice;
    && 0 <= choice < |pool|
    && (want < 0 ==> choice == def)
    && (want >= 0 && pool[want].tier < pool[def].tier ==>
          choice == if Unsure(d) || d.context > MAX_CONTEXT then def else want)
    && (want >= 0 && pool[want].tier >= pool[def].tier && (!Unsure(d) || pool[want].tier <= pool[def].tier + 1) ==>
          choice == want)
    && (Unsure(d) && pool[want].tier > pool[def].tier + 1 ==> IsNearest(pool, pool[def].tier + 1, choice))
  }

  /** An unsure decision ends at the default member's tier or one above it. */
  lemma UnsureStaysClose(pool: Pool, d: Decision, def: int, choice: int)
    requires WellFormed(pool, d) && 0 <= def < |pool| && IsSettled(pool, d, def, choice)
    requires Unsure(d)
    ensures pool[def].tier <= pool[choice].tier <= pool[def].tier + 1
  {
    hide IsNearest;
    NearestStep(pool, def, choice);
  }

  /** A large context never ends below the default member's tier, pinned or not. */
  lemma LargeContextKeepsTier(pool: Pool, d: Decision, def: int, choice: int)
    requires WellFormed(pool, d) && 0 <= def < |pool| && IsSettled(pool, d, def, choice)
    requires d.context > MAX_CONTEXT
    ensures pool[choice].tier >= pool[def].tier
  {
    hide IsNearest;
    NearestStep(pool, def, choice);
  }

  /** A member below the default tier is settled on exactly when it was chosen, trusted, and the context is small. */
  lemma DowngradeExactly(pool: Pool, d: Decision, def: int, choice: int)
    requires WellFormed(pool, d) && 0 <= def < |pool| && IsSettled(pool, d, def, choice)
    ensures pool[choice].tier < pool[def].tier <==>
              d.choice >= 0 && pool[d.choice].tier < pool[def].tier && !Unsure(d) && d.context <= MAX_CONTEXT
  {
    hide IsNearest;
    NearestStep(pool, def, choice);
  }

  /** The settled member is unique: the promise leaves no freedom. */
  lemma SettledUnique(pool: Pool, d: Decision, def: int, i: int, j: int)
    requires WellFormed(pool, d) && 0 <= def < |pool|
    requires IsSettled(pool, d, def, i) && IsSettled(pool, d, def, j)
    ensures i == j
  {
    if Unsure(d) && pool[d.choice].tier > pool[def].tier + 1 {
      NearestUnique(pool, pool[def].tier + 1, i, j);
    }
  }

  lemma NearestUnique(pool: Pool, ceiling: int, i: int, j: int)
    requires IsNearest(pool, ceiling, i) && IsNearest(pool, ceiling, j)
    ensures i == j
  {
  }

  /** Stepping up is not preferred: with one member a tier below and one a tier above, the weaker one is default. */
  lemma DefaultStepsDown()
    ensures var pool: Pool := [Candidate("a", "", 2), Candidate("b", "", 4)]; DefaultIndex(pool, 3) == 0
  {
    var pool: Pool := [Candidate("a", "", 2), Candidate("b", "", 4)];
    var i := DefaultIndex(pool, 3);
    assert Cost(pool[0].tier, 3) == 1 && Cost(pool[1].tier, 3) == 2;
  }

  /** The default member is below the wanted tier exactly when some lower tier is nearer than half the way up. */
  lemma DefaultBelowExactly(pool: Pool, tier: int)
    ensures pool[DefaultIndex(pool, tier)].tier < tier <==>
              exists k :: 0 <= k < |pool| && pool[k].tier < tier && Undercut(pool, tier, k)
  {
    var i := DefaultIndex(pool, tier);
    if pool[i].tier < tier {
      forall j | 0 <= j < |pool| && pool[j].tier >= tier
        ensures tier - pool[i].tier <= 2 * (pool[j].tier - tier)
      {
        assert Cost(pool[i].tier, tier) <= Cost(pool[j].tier, tier);
      }
      // A tie goes to the earlier member.
      assert Undercut(pool, tier, i);
    } else {
      forall k | 0 <= k < |pool| && pool[k].tier < tier ensures !Undercut(pool, tier, k) {
        assert Cost(pool[i].tier, tier) <= Cost(pool[k].tier, tier);
        assert Beats(pool, tier, i, k);
      }
    }
  }

  /** A member at or above the tier that is preferred to the lower member k. */
  predicate Beats(pool: Pool, tier: int, j: int, k: int)
    requires 0 <= j < |pool| && 0 <= k < |pool|
  {
    var up, down := 2 * (pool[j].tier - tier), tier - pool[k].tier;
    pool[j].tier >= tier && (up < down || (up == down && j < k))
  }

  predicate Undercut(pool: Pool, tier: int, k: int)
    requires 0 <= k < |pool|
  {
    forall j :: 0 <= j < |pool| ==> !Beats(pool, tier, j, k)
  }

  // ---- the order of attempts ----

  /** Stronger members count up from the choice, the others down. */
  function Key(pool: Pool, i: nat, up: bool): int
    requires i < |pool|
  {
    if up then pool[i].tier else -pool[i].tier
  }

  predicate InPool(pool: Pool, xs: seq<nat>) {
    forall i :: 0 <= i < |xs| ==> xs[i] < |pool|
  }

  predicate Precedes(pool: Pool, a: nat, b: nat, up: bool)
    requires a < |pool| && b < |pool|
  {
    Key(pool, a, up) < Key(pool, b, up) || (Key(pool, a, up) == Key(pool, b, up) && a < b)
  }

  predicate Sorted(pool: Pool, xs: seq<nat>, up: bool)
    requires InPool(pool, xs)
  {
    forall i, j :: 0 <= i < j < |xs| ==> Precedes(pool, xs[i], xs[j], up)
  }

  /** Puts a member behind all that its key does not precede. */
  function Insert(pool: Pool, xs: seq<nat>, x: nat, up: bool): (r: seq<nat>)
    requires InPool(pool, xs) && x < |pool|
    ensures InPool(pool, r) && multiset(r) == multiset(xs) + multiset{x}
  {
    if xs == [] then [x]
    else
      var init, last := xs[..|xs| - 1], xs[|xs| - 1];
      assert xs == init + [last];
      if Key(pool, last, up) <= Key(pool, x, up) then xs + [x] else Insert(pool, init, x, up) + [last]
  }

  /** `sort.SliceStable` by the key. */
  function StableSort(pool: Pool, xs: seq<nat>, up: bool): (r: seq<nat>)
    requires InPool(pool, xs)
    ensures InPool(pool, r) && multiset(r) == multiset(xs)
  {
    if xs == [] then []
    else
      assert xs == xs[..|xs| - 1] + [xs[|xs| - 1]];
      Insert(pool, StableSort(pool, xs[..|xs| - 1], up), xs[|xs| - 1], up)
  }

  lemma AppendSorted(pool: Pool, xs: seq<nat>, x: nat, up: bool)
    requires InPool(pool, xs) && x < |pool| && Sorted(pool, xs, up)
    requires forall i :: 0 <= i < |xs| ==> Precedes(pool, xs[i], x, up)
    ensures InPool(pool, xs + [x]) && Sorted(pool, xs + [x], up)
  {
    hide Precedes;
  }

  lemma {:induction false} InsertSorted(pool: Pool, xs: seq<nat>, x: nat, up: bool)
    requires InPool(pool, xs) && x < |pool| && Sorted(pool, xs, up) && forall i :: 0 <= i < |xs| ==> xs[i] < x
    ensures Sorted(pool, Insert(pool, xs, x, up), up)
  {
    if xs != [] {
      var init, last := xs[..|xs| - 1], xs[|xs| - 1];
      if Key(pool, last, up) > Key(pool, x, up) {
        InsertSorted(pool, init, x, up);
        var r := Insert(pool, init, x, up);
        forall i | 0 <= i < |r| ensures Precedes(pool, r[i], last, up) {
          assert r[i] in multiset(r);
          assert r[i] in multiset(init) || r[i] == x;
        }
        AppendSorted(pool, r, last, up);
      } else {
        forall i | 0 <= i < |xs| ensures Precedes(pool, xs[i], x, up) {
          assert i < |xs| - 1 ==> Precedes(pool, xs[i], last, up);
        }
        AppendSorted(pool, xs, x, up);
      }
    }
  }

  predicate Increasing(xs: seq<nat>) {
    forall i, j :: 0 <= i < j < |xs| ==> xs[i] < xs[j]
  }

  lemma {:induction false} StableSortSorts(pool: Pool, xs: seq<nat>, up: bool)
    requires InPool(pool, xs) && Increasing(xs)
    ensures Sorted(pool, StableSort(pool, xs, up), up)
  {
    if xs != [] {
      var init, x := xs[..|xs| - 1], xs[|xs| - 1];
      StableSortSorts(pool, init, up);
      var r := StableSort(pool, init, up);
      forall i | 0 <= i < |r| ensures r[i] < x {
        assert r[i] in multiset(r);
        assert r[i] in init;
      }
      InsertSorted(pool, r, x, up);
    }
  }

  /** Whether a member other than the choice stands in the given group. */
  predicate Belongs(pool: Pool, choice: nat, i: nat, up: bool)
    requires choice < |pool| && i < |pool|
  {
    i != choice && (pool[i].tier > pool[choice].tier <==> up)
  }

  /** Where every attempt stands: the choice, then the stronger ascending, then the rest descending. */
  predicate Before(pool: Pool, choice: nat, a: nat, b: nat)
    requires choice < |pool| && a < |pool| && b < |pool|
  {
    b != choice
    && (|| a == choice
        || (Belongs(pool, choice, a, true) && Belongs(pool, choice, b, false))
        || (Belongs(pool, choice, a, true) && Belongs(pool, choice, b, true) && Precedes(pool, a, b, true))
        || (Belongs(pool, choice, a, false) && Belongs(pool, choice, b, false) && Precedes(pool, a, b, false)))
  }

  predicate OrderedFrom(pool: Pool, choice: nat, order: seq<nat>)
    requires choice < |pool|
  {
    && InPool(pool, order)
    && (forall i, j :: 0 <= i < j < |order| ==> Before(pool, choice, order[i], order[j]))
  }

  /** The members of a group, among the first n. */
  predicate Gathers(pool: Pool, choice: nat, xs: seq<nat>, n: nat, up: bool)
    requires choice < |pool| && n <= |pool|
  {
    && InPool(pool, xs) && Increasing(xs)
    && (forall i :: 0 <= i < |xs| ==> xs[i] < n && Belongs(pool, choice, xs[i], up))
    && (forall k: nat :: k < n && Belongs(pool, choice, k, up) ==> k in xs)
  }

  /** Every member once, in the order of the policy. */
  method AttemptOrder(pool: Pool, choice: nat) returns (order: seq<nat>)
    requires choice < |pool|
    ensures OrderedFrom(pool, choice, order)
    ensures |order| > 0 && order[0] == choice
    ensures forall k: nat :: k in order <==> k < |pool|
  {
    hide Belongs, Precedes, Increasing, Sorted, StableSort;
    var up, down := [], [];
    assert Increasing([]) by {
      NoneIncreasing();
    }
    for i := 0 to |pool|
      invariant Gathers(pool, choice, up, i, true) && Gathers(pool, choice, down, i, false)
    {
      GathersNext(pool, choice, up, i, true);
      GathersNext(pool, choice, down, i, false);
      if i != choice {
        if pool[i].tier > pool[choice].tier {
          up := up + [i];
        } else {
          down := down + [i];
        }
      }
    }
    ghost var u, d := up, down;
    StableSortSorts(pool, up, true);
    StableSortSorts(pool, down, false);
    up := StableSort(pool, up, true);
    down := StableSort(pool, down, false);
    SameMembers(u, up);
    SameMembers(d, down);
    order := [choice] + up + down;
    Arranged(pool, choice, up, down);
  }

  lemma NoneIncreasing()
    ensures Increasing([])
  {
  }

  lemma GathersNext(pool: Pool, choice: nat, xs: seq<nat>, n: nat, up: bool)
    requires choice < |pool| && n < |pool| && Gathers(pool, choice, xs, n, up)
    ensures Gathers(pool, choice, if n != choice && (pool[n].tier > pool[choice].tier <==> up) then xs + [n] else xs,
                    n + 1, up)
  {
    hide Belongs, Increasing;
    var r := if Belongs(pool, choice, n, up) then xs + [n] else xs;
    BelongsIs(pool, choice, n, up);
    if Belongs(pool, choice, n, up) {
      AppendIncreasing(xs, n);
    }
    forall k: nat | k < n + 1 && Belongs(pool, choice, k, up) ensures k in r {
      if k == n {
        assert r[|xs|] == n;
      } else {
        assert k in xs;
      }
    }
  }

  lemma AppendIncreasing(xs: seq<nat>, n: nat)
    requires Increasing(xs) && forall i :: 0 <= i < |xs| ==> xs[i] < n
    ensures Increasing(xs + [n])
  {
  }

  lemma BelongsIs(pool: Pool, choice: nat, i: nat, up: bool)
    requires choice < |pool| && i < |pool|
    ensures Belongs(pool, choice, i, up) <==> i != choice && (pool[i].tier > pool[choice].tier <==> up)
  {
  }

  lemma SameMembers(a: seq<nat>, b: seq<nat>)
    requires multiset(a) == multiset(b)
    ensures forall k :: k in a <==> k in b
  {
    forall k ensures k in a <==> k in b {
      assert k in a <==> k in multiset(a);
      assert k in b <==> k in multiset(b);
    }
  }

  /** All members but the choice stand in one group. */
  lemma Arranged(pool: Pool, choice: nat, up: seq<nat>, down: seq<nat>)
    requires choice < |pool| && InPool(pool, up) && InPool(pool, down)
    requires Sorted(pool, up, true) && Sorted(pool, down, false)
    requires forall k: nat :: k in up <==> k < |pool| && Belongs(pool, choice, k, true)
    requires forall k: nat :: k in down <==> k < |pool| && Belongs(pool, choice, k, false)
    ensures OrderedFrom(pool, choice, [choice] + up + down)
    ensures forall k: nat :: k in [choice] + up + down <==> k < |pool|
  {
    var order := [choice] + up + down;
    forall i | 0 <= i < |order|
      ensures order[i] == if i == 0 then choice else if i <= |up| then up[i - 1] else down[i - 1 - |up|]
    {
    }
    forall i, j | 0 <= i < j < |order|
      ensures order[i] < |pool| && order[j] < |pool| && Before(pool, choice, order[i], order[j])
    {
      assert j <= |up| ==> order[j] == up[j - 1] && up[j - 1] in up;
      assert j > |up| ==> order[j] == down[j - 1 - |up|] && down[j - 1 - |up|] in down;
      assert 0 < i <= |up| ==> order[i] == up[i - 1] && up[i - 1] in up;
      assert i > |up| ==> order[i] == down[i - 1 - |up|] && down[i - 1 - |up|] in down;
    }
    forall k: nat | k < |pool| ensures k in order {
      assert k == choice || Belongs(pool, choice, k, true) || Belongs(pool, choice, k, false);
      assert order[0] == choice;
    }
  }

  lemma BeforeIrreflexive(pool: Pool, choice: nat, a: nat, b: nat)
    requires choice < |pool| && a < |pool| && b < |pool| && Before(pool, choice, a, b)
    ensures a != b && !Before(pool, choice, b, a)
  {
  }

  /** No member is tried twice, and the order is the only one that the policy allows. */
  lemma {:induction false} OrderUnique(pool: Pool, choice: nat, p: seq<nat>, q: seq<nat>)
    requires choice < |pool| && OrderedFrom(pool, choice, p) && OrderedFrom(pool, choice, q)
    requires forall k: nat :: k in p <==> k in q
    ensures p == q
    ensures forall i, j :: 0 <= i < j < |p| ==> p[i] != p[j]
  {
    hide Before;
    assert q != [] ==> q[0] in q;
    forall i, j | 0 <= i < j < |p| ensures p[i] != p[j] {
      BeforeIrreflexive(pool, choice, p[i], p[j]);
    }
    if p != [] {
      assert p[0] in q;
      assert q[0] in p;
      var i :| 0 <= i < |q| && q[i] == p[0];
      var j :| 0 <= j < |p| && p[j] == q[0];
      if i > 0 && j > 0 {
        BeforeIrreflexive(pool, choice, p[0], q[0]);
      } else {
        RestOrdered(pool, choice, p);
        RestOrdered(pool, choice, q);
        forall k: nat ensures k in p[1..] <==> k in q[1..] {
          assert k in p <==> k == p[0] || k in p[1..];
          assert k in q <==> k == q[0] || k in q[1..];
        }
        OrderUnique(pool, choice, p[1..], q[1..]);
        assert p == [p[0]] + p[1..] && q == [q[0]] + q[1..];
      }
    }
  }

  lemma RestOrdered(pool: Pool, choice: nat, p: seq<nat>)
    requires choice < |pool| && p != [] && OrderedFrom(pool, choice, p)
    ensures OrderedFrom(pool, choice, p[1..])
    ensures p[0] !in p[1..]
  {
    hide Before;
    if p[0] in p[1..] {
      var i :| 0 <= i < |p[1..]| && p[1..][i] == p[0];
      BeforeIrreflexive(pool, choice, p[0], p[i + 1]);
    }
  }

  // ---- the names a pin is kept by ----

  function BaseName(c: Candidate): string {
    if c.targetModel == "" then c.serverId else c.targetModel
  }

  /** `jevCandidateIDs`, for the first n members. */
  function Ids(pool: Pool, n: nat): (r: seq<string>)
    requires n <= |pool|
    ensures |r| == n
  {
    if n == 0 then []
    else
      var ids, c := Ids(pool, n - 1), pool[n - 1];
      ids + [if BaseName(c) in ids then Marked(c) else BaseName(c)]
  }

  /** The candidates' names, which tell them apart exactly when none finds both of its names taken. */
  method CandidateIds(pool: Pool) returns (ids: seq<string>)
    ensures ids == Ids(pool, |pool|)
    ensures Distinct(ids) <==> forall j: nat :: j < |pool| ==> !Clashes(pool, j)
  {
    DistinctIdsExactly(pool, |pool|);
    ids := [];
    var seen: set<string> := {};
    for i := 0 to |pool|
      invariant ids == Ids(pool, i) && forall s :: s in seen <==> s in ids
    {
      var id := pool[i].targetModel;
      if id == "" {
        id := pool[i].serverId;
      }
      if id in seen {
        id := id + "@" + pool[i].serverId;
      }
      seen := seen + {id};
      ids := ids + [id];
    }
  }

  function Marked(c: Candidate): string {
    BaseName(c) + "@" + c.serverId
  }

  /** The j-th candidate finds both its name and its marked name taken by earlier ones. */
  predicate Clashes(pool: Pool, j: nat)
    requires j < |pool|
  {
    BaseName(pool[j]) in Ids(pool, j) && Marked(pool[j]) in Ids(pool, j)
  }

  predicate Distinct(ids: seq<string>) {
    forall i, j :: 0 <= i < j < |ids| ==> ids[i] != ids[j]
  }

  lemma DistinctSnoc(ids: seq<string>, s: string)
    ensures Distinct(ids + [s]) <==> Distinct(ids) && s !in ids
  {
    var r := ids + [s];
    assert forall i :: 0 <= i < |ids| ==> r[i] == ids[i];
    if Distinct(r) {
      forall i | 0 <= i < |ids| ensures ids[i] != s {
        assert r[i] != r[|ids|];
      }
      forall i, j | 0 <= i < j < |ids| ensures ids[i] != ids[j] {
        assert r[i] != r[j];
      }
    }
  }

  /** The names tell the candidates apart if and only if no candidate finds both of its names taken. */
  lemma {:induction false} DistinctIdsExactly(pool: Pool, n: nat)
    requires n <= |pool|
    ensures Distinct(Ids(pool, n)) <==> forall j: nat :: j < n ==> !Clashes(pool, j)
  {
    if n > 0 {
      DistinctIdsExactly(pool, n - 1);
      var ids, c := Ids(pool, n - 1), pool[n - 1];
      DistinctSnoc(ids, if BaseName(c) in ids then Marked(c) else BaseName(c));
      assert Clashes(pool, n - 1) <==> BaseName(c) in ids && Marked(c) in ids;
    }
  }

  /** A shared model alone is told apart: no name holds the mark, and no model stands twice on one server. */
  lemma {:induction false} SharedModelsAreTold(pool: Pool, n: nat)
    requires n <= |pool|
    requires forall i :: 0 <= i < |pool| ==> '@' !in BaseName(pool[i])
    requires forall i, j :: 0 <= i < j < |pool| ==>
               BaseName(pool[i]) != BaseName(pool[j]) || pool[i].serverId != pool[j].serverId
    ensures Distinct(Ids(pool, n))
    ensures forall i :: 0 <= i < n ==> Ids(pool, n)[i] == BaseName(pool[i]) || Ids(pool, n)[i] == Marked(pool[i])
  {
    if n > 0 {
      SharedModelsAreTold(pool, n - 1);
      var ids, c := Ids(pool, n - 1), pool[n - 1];
      var id := if BaseName(c) in ids then Marked(c) else BaseName(c);
      DistinctSnoc(ids, id);
      if BaseName(c) in ids {
        forall i | 0 <= i < n - 1 ensures ids[i] != Marked(c) {
          MarkTells(pool[i], c);
        }
      }
    }
  }

  lemma MarkTells(b: Candidate, c: Candidate)
    requires '@' !in BaseName(b) && '@' !in BaseName(c)
    requires BaseName(b) != BaseName(c) || b.serverId != c.serverId
    ensures Marked(c) != BaseName(b) && Marked(c) != Marked(b)
  {
    MarkAt(c);
    if Marked(c) == Marked(b) {
      MarkSplits(b, c);
    }
  }

  /** A marked name splits at its first mark. */
  lemma MarkSplits(b: Candidate, c: Candidate)
    requires '@' !in BaseName(b) && '@' !in BaseName(c) && Marked(b) == Marked(c)
    ensures BaseName(b) == BaseName(c) && b.serverId == c.serverId
  {
    MarkAt(b);
    MarkAt(c);
    var m := |BaseName(c)|;
    assert |BaseName(b)| == m;
    assert Marked(b)[..m] == BaseName(b) && Marked(b)[m + 1..] == b.serverId;
    assert Marked(c)[..m] == BaseName(c) && Marked(c)[m + 1..] == c.serverId;
  }

  /** The first mark stands behind the base name. */
  lemma MarkAt(c: Candidate)
    requires '@' !in BaseName(c)
    ensures var m := Marked(c); m[|BaseName(c)|] == '@' && forall i :: 0 <= i < |BaseName(c)| ==> m[i] != '@'
  {
    var m := Marked(c);
    forall i | 0 <= i < |BaseName(c)| ensures m[i] != '@' {
      assert m[i] == BaseName(c)[i];
    }
  }

  /** Three servers, three different entries: a model named like another one's marked name takes that name. */
  lemma ServersCanCollide()
    ensures var pool: Pool := [Candidate("x", "m@t", 0), Candidate("s", "m", 0), Candidate("t", "m", 0)];
            Ids(pool, 3)[0] == Ids(pool, 3)[2]
  {
    var pool: Pool := [Candidate("x", "m@t", 0), Candidate("s", "m", 0), Candidate("t", "m", 0)];
    assert Ids(pool, 1) == ["m@t"];
    assert Ids(pool, 2) == ["m@t", "m"] && Ids(pool, 2)[1] == "m";
    assert Marked(pool[2]) == "m@t";
  }

  /** Three entries for one model on one server: the mark does not tell the last two apart. */
  lemma IdsCanCollide()
    ensures var c := Candidate("s", "m", 0); var pool: Pool := [c, c, c]; Ids(pool, 3)[1] == Ids(pool, 3)[2]
  {
    var c := Candidate("s", "m", 0);
    var pool: Pool := [c, c, c];
    assert Ids(pool, 1) == ["m"] && "m" in Ids(pool, 1);
    assert Ids(pool, 2) == ["m", Marked(c)] && Ids(pool, 2)[0] == "m";
    assert Ids(pool, 3) == ["m", Marked(c), Marked(c)];
  }
}
