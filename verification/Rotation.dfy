/**
 Weighted round-robin starts, router/router.go:98-189. A pool's counter is a uint64 that one unpinned request
 advances by one; Go converts it to a signed int and takes the truncated remainder.
 */
module Rotation {
  import Bytes
  import opened Wrappers

  const TWO63: nat := 0x8000_0000_0000_0000
  const TWO64: nat := 0x1_0000_0000_0000_0000

  /** `rotationSweepAt`. */
  const SWEEP_AT: int := 256

  datatype Member = Member(id: string, target: string)

  /** `live` holds the keys that the active profile can build at the moment of the request. */
  datatype Request = Request(pool: seq<Member>, weights: seq<nat>, pinned: string, live: set<string>)

  /** `known` is the code's own count of the keys. */
  datatype State = State(counters: map<string, nat>, known: int)

  predicate WellFormed(req: Request) {
    && |req.weights| == |req.pool| > 0
    && forall i :: 0 <= i < |req.weights| ==> req.weights[i] >= 1
  }

  predicate InRange(counters: map<string, nat>) {
    forall k :: k in counters ==> counters[k] < TWO64
  }

  /** `strings.Join(ids, ",")`. */
  function Key(pool: seq<Member>): string {
    if pool == [] then [] else if |pool| == 1 then pool[0].id else pool[0].id + [','] + Key(pool[1..])
  }

  function Total(weights: seq<nat>): nat {
    if weights == [] then 0 else weights[0] + Total(weights[1..])
  }

  /** The member whose run of slots holds the given slot; a slot at or below zero is the first member's. */
  function Owner(weights: seq<nat>, slot: int): (i: nat)
    requires slot < Total(weights)
    ensures weights != [] ==> i < |weights|
  {
    if weights == [] || slot < weights[0] then 0 else 1 + Owner(weights[1..], slot - weights[0])
  }

  /** Go's conversion of a uint64 to int. */
  function Signed(c: nat): int {
    if c < TWO63 then c else c - TWO64
  }

  /** Go's `%`, which truncates toward zero. */
  function Remainder(a: int, b: int): (r: int)
    requires b > 0
    ensures -b < r < b
  {
    if a >= 0 then a % b else -((-a) % b)
  }

  /** A slot belongs to the member whose run of as many slots as its weight holds it, the runs in pool order. */
  lemma {:induction false} OwnerExactly(weights: seq<nat>, slot: nat, i: nat)
    requires slot < Total(weights) && i < |weights|
    ensures Owner(weights, slot) == i <==> Total(weights[..i]) <= slot < Total(weights[..i + 1])
  {
    var rest := weights[1..];
    assert weights[..i + 1][1..] == rest[..i];
    if i > 0 {
      assert weights[..i][1..] == rest[..i - 1];
      if slot >= weights[0] { OwnerExactly(rest, slot - weights[0], i - 1); }
    } else {
      assert rest[..0] == [];
    }
  }

  lemma {:induction false} TotalPositive(weights: seq<nat>)
    requires weights != [] && weights[0] >= 1
    ensures Total(weights) >= 1
  {
  }

  /** The member that the request drawing counter value `c` starts on. */
  function Start(weights: seq<nat>, c: nat): (i: nat)
    requires weights != [] && weights[0] >= 1
    ensures i < |weights|
  {
    Owner(weights, Remainder(Signed(c), Total(weights)))
  }

  /** The place `k` behind place `i`, counting on from the front. */
  function Place(i: nat, k: nat, n: nat): (r: nat)
    requires i < n && k < n
    ensures r < n
  {
    if i + k < n then i + k else i + k - n
  }

  lemma PlaceIs(i: nat, k: nat, n: nat)
    requires i < n && k < n
    ensures Place(i, k, n) == (i + k) % n
  {
    RemainderIs(i + k, n, if i + k < n then 0 else 1, Place(i, k, n));
  }

  function Rotated<T>(s: seq<T>, i: nat): (r: seq<T>)
    requires i < |s|
    ensures |r| == |s| && multiset(r) == multiset(s)
    ensures forall k :: 0 <= k < |s| ==> r[k] == s[Place(i, k, |s|)]
  {
    assert s == s[..i] + s[i..];
    s[i..] + s[..i]
  }

  /** The first member with the pinned id; an empty pin is no pin. */
  function Pin(pool: seq<Member>, pinned: string): (r: Option<nat>)
    ensures r.Some? ==> r.value < |pool| && pool[r.value].id == pinned && pinned != ""
    ensures r.Some? ==> forall i :: 0 <= i < r.value ==> pool[i].id != pinned
    ensures r.None? <==> pinned == "" || forall i :: 0 <= i < |pool| ==> pool[i].id != pinned
  {
    if pinned == "" then None else PinFrom(pool, pinned, 0)
  }

  function PinFrom(pool: seq<Member>, pinned: string, from: nat): (r: Option<nat>)
    requires from <= |pool|
    ensures r.Some? ==> from <= r.value < |pool| && pool[r.value].id == pinned
    ensures r.Some? ==> forall i :: from <= i < r.value ==> pool[i].id != pinned
    ensures r.None? <==> forall i :: from <= i < |pool| ==> pool[i].id != pinned
    decreases |pool| - from
  {
    if from == |pool| then None
    else if pool[from].id == pinned then Some(from)
    else PinFrom(pool, pinned, from + 1)
  }

  /** The map after `LoadOrStore` and, for a key never seen, the sweep that may follow. */
  function Registered(st: State, key: string, live: set<string>): State {
    if key in st.counters then st
    else
      var grown := State(st.counters[key := 0], st.known + 1);
      if grown.known > SWEEP_AT
      then State(map k | k in grown.counters && k in live :: grown.counters[k], |live|)
      else grown
  }

  function Drawn(st: State, key: string): nat {
    if key in st.counters then st.counters[key] else 0
  }

  /** One request: the state it leaves and the member it starts on. */
  function Turn(st: State, req: Request): (r: (State, nat))
    requires WellFormed(req)
    ensures r.1 < |req.pool|
  {
    var key := Key(req.pool);
    var reg := Registered(st, key, req.live);
    match Pin(req.pool, req.pinned)
    case Some(i) => (reg, i)
    case None =>
      var c := Drawn(st, key);
      (if key in reg.counters then reg.(counters := reg.counters[key := (c + 1) % TWO64]) else reg,
       Start(req.weights, c))
  }

  /** The router's rotation state. */
  class Rotator {
    var counters: map<string, nat>
    var known: int

    function Value(): State
      reads this
    {
      State(counters, known)
    }

    constructor ()
      ensures Value() == State(map[], 0)
    {
      counters := map[];
      known := 0;
    }

    method SweepRotations(live: set<string>)
      modifies this
      ensures counters == map k | k in old(counters) && k in live :: old(counters)[k]
      ensures known == |live|
    {
      var kept := map[];
      var keys := counters.Keys;
      while keys != {}
        invariant keys <= counters.Keys
        invariant kept == map k | k in counters && k !in keys && k in live :: counters[k]
        invariant counters == old(counters)
      {
        var k :| k in keys;
        if k in live {
          kept := kept[k := counters[k]];
        }
        keys := keys - {k};
      }
      counters := kept;
      known := |live|;
    }

    /** `LoadOrStore`, with the sweep that a new key may bring; returns the counter's value. */
    method Load(key: string, live: set<string>) returns (c: nat)
      requires InRange(counters)
      modifies this
      ensures InRange(counters) && c < TWO64
      ensures Value() == Registered(old(Value()), key, live) && c == Drawn(old(Value()), key)
    {
      c := if key in counters then counters[key] else 0;
      if key !in counters {
        counters := counters[key := 0];
        known := known + 1;
        if known > SWEEP_AT {
          SweepRotations(live);
        }
      }
    }

    /** The request's attempts, started at the pinned member or at the next slot's owner. */
    method BalanceRotation(req: Request) returns (attempts: seq<Member>)
      requires WellFormed(req) && InRange(counters)
      modifies this
      ensures InRange(counters)
      ensures Value() == Turn(old(Value()), req).0
      ensures var start := Turn(old(Value()), req).1;
              && attempts == Rotated(req.pool, start)
              && |attempts| == |req.pool| && forall k :: 0 <= k < |req.pool| ==> attempts[k] == req.pool[Place(start, k, |req.pool|)]
      ensures match Pin(req.pool, req.pinned)
              case Some(i) => attempts[0].id == req.pinned && attempts[0] == req.pool[i]
              case None => attempts[0] == req.pool[Start(req.weights, Drawn(old(Value()), Key(req.pool)))]
    {
      hide Key, PinFrom, Rotated, Owner, Total;
      var key := Key(req.pool);
      var c := Load(key, req.live);
      var pin := FirstPinned(req.pool, req.pinned);
      if pin.Some? {
        return Rotated(req.pool, pin.value);
      }
      // The request holds the counter itself, so it draws from it even when the sweep has just dropped the key.
      if key in counters {
        counters := counters[key := (c + 1) % TWO64];
      }
      TotalPositive(req.weights);
      var start := Walk(req.weights, Remainder(Signed(c), Total(req.weights)));
      attempts := Rotated(req.pool, start);
    }
  }

  method FirstPinned(pool: seq<Member>, pinned: string) returns (r: Option<nat>)
    ensures r == Pin(pool, pinned)
  {
    var i := 0;
    if pinned != "" {
      while i < |pool|
        invariant i <= |pool|
        invariant PinFrom(pool, pinned, 0) == PinFrom(pool, pinned, i)
      {
        if pool[i].id == pinned {
          return Some(i);
        }
        i := i + 1;
      }
    }
    return None;
  }

  method Walk(weights: seq<nat>, start: int) returns (i: nat)
    requires weights != [] && start < Total(weights)
    ensures i == Owner(weights, start)
  {
    var slot := start;
    i := 0;
    assert weights[0..] == weights;
    while true
      invariant i < |weights| && slot < Total(weights[i..])
      invariant i + Owner(weights[i..], slot) == Owner(weights, start)
      decreases |weights| - i
    {
      assert weights[i..][1..] == weights[i + 1..];
      if slot < weights[i] {
        break;
      }
      slot := slot - weights[i];
      i := i + 1;
    }
  }

  // ---- fairness of a window of slots ----

  function Count(s: seq<nat>, i: nat): nat {
    if s == [] then 0 else Count(s[..|s| - 1], i) + if s[|s| - 1] == i then 1 else 0
  }

  lemma {:induction false} CountAppend(s: seq<nat>, t: seq<nat>, i: nat)
    ensures Count(s + t, i) == Count(s, i) + Count(t, i)
  {
    if t == [] {
      assert s + t == s;
    } else {
      assert (s + t)[..|s + t| - 1] == s + t[..|t| - 1];
      CountAppend(s, t[..|t| - 1], i);
    }
  }

  /** The starts of `n` requests in a row that draw from the counter value `c` on. */
  function Window(weights: seq<nat>, c: nat, n: nat): (r: seq<nat>)
    requires weights != [] && weights[0] >= 1
    ensures |r| == n
    decreases n
  {
    if n == 0 then [] else [Start(weights, c)] + Window(weights, c + 1, n - 1)
  }

  lemma {:induction false} WindowSplit(weights: seq<nat>, c: nat, n: nat, m: nat)
    requires weights != [] && weights[0] >= 1
    ensures Window(weights, c, n + m) == Window(weights, c, n) + Window(weights, c + n, m)
    decreases n
  {
    if n > 0 {
      WindowSplit(weights, c + 1, n - 1, m);
      assert (n + m) - 1 == (n - 1) + m;
    }
  }

  /** The owners of the slots `lo`, `lo + 1`, ... taken without any wrapping. */
  function Owners(weights: seq<nat>, lo: nat, n: nat): (r: seq<nat>)
    requires lo + n <= Total(weights)
    ensures |r| == n
    decreases n
  {
    if n == 0 then [] else [Owner(weights, lo)] + Owners(weights, lo + 1, n - 1)
  }

  lemma {:induction false} OwnersSplit(weights: seq<nat>, lo: nat, n: nat, m: nat)
    requires lo + n + m <= Total(weights)
    ensures Owners(weights, lo, n + m) == Owners(weights, lo, n) + Owners(weights, lo + n, m)
    decreases n
  {
    if n > 0 {
      OwnersSplit(weights, lo + 1, n - 1, m);
      assert (n + m) - 1 == (n - 1) + m;
    }
  }

  lemma {:induction false} CountCons(x: nat, s: seq<nat>, i: nat)
    ensures Count([x] + s, i) == (if x == i then 1 else 0) + Count(s, i)
  {
    CountAppend([x], s, i);
    assert [x][..0] == [];
  }

  lemma {:induction false} FirstRun(weights: seq<nat>, lo: nat, n: nat, i: nat)
    requires weights != [] && lo + n <= weights[0]
    ensures lo + n <= Total(weights)
    ensures Count(Owners(weights, lo, n), i) == if i == 0 then n else 0
    decreases n
  {
    if n > 0 {
      FirstRun(weights, lo + 1, n - 1, i);
      CountCons(0, Owners(weights, lo + 1, n - 1), i);
    }
  }

  lemma {:induction false} LaterRuns(weights: seq<nat>, lo: nat, n: nat, i: nat)
    requires weights != [] && lo + n <= Total(weights[1..])
    ensures Count(Owners(weights, weights[0] + lo, n), i)
         == if i == 0 then 0 else Count(Owners(weights[1..], lo, n), i - 1)
    decreases n
  {
    if n > 0 {
      LaterRuns(weights, lo + 1, n - 1, i);
      var x := Owner(weights[1..], lo);
      CountCons(1 + x, Owners(weights, weights[0] + lo + 1, n - 1), i);
      if i > 0 {
        CountCons(x, Owners(weights[1..], lo + 1, n - 1), i - 1);
      }
    }
  }

  /** One whole turn of the wheel holds every member as often as its weight. */
  lemma {:induction false} WheelIsWeighted(weights: seq<nat>, i: nat)
    requires i < |weights|
    ensures Count(Owners(weights, 0, Total(weights)), i) == weights[i]
  {
    var w, rest := weights[0], Total(weights[1..]);
    OwnersSplit(weights, 0, w, rest);
    CountAppend(Owners(weights, 0, w), Owners(weights, w, rest), i);
    FirstRun(weights, 0, w, i);
    LaterRuns(weights, 0, rest, i);
    if i > 0 {
      WheelIsWeighted(weights[1..], i - 1);
    }
  }

  lemma RemainderIs(a: int, w: int, q: int, r: int)
    requires w > 0 && a == w * q + r && 0 <= r < w
    ensures a % w == r
  {
    var d := q - a / w;
    assert w * d == a % w - r;
    assert d <= -1 ==> w * d <= -w;
    assert d >= 1 ==> w * d >= w;
  }

  /** The owner of a draw if the counter had no end. */
  function Ideal(weights: seq<nat>, c: nat): (i: nat)
    requires weights != [] && weights[0] >= 1
    ensures i < |weights|
  {
    Owner(weights, c % Total(weights))
  }

  function Wheel(weights: seq<nat>, c: nat, n: nat): (r: seq<nat>)
    requires weights != [] && weights[0] >= 1
    ensures |r| == n
    decreases n
  {
    if n == 0 then [] else [Ideal(weights, c)] + Wheel(weights, c + 1, n - 1)
  }

  lemma {:induction false} WheelSplit(weights: seq<nat>, c: nat, n: nat, m: nat)
    requires weights != [] && weights[0] >= 1
    ensures Wheel(weights, c, n + m) == Wheel(weights, c, n) + Wheel(weights, c + n, m)
    decreases n
  {
    hide Ideal;
    if n > 0 {
      WheelSplit(weights, c + 1, n - 1, m);
      assert (n + m) - 1 == (n - 1) + m;
    }
  }

  lemma {:induction false} FirstTurn(weights: seq<nat>, c: nat, n: nat)
    requires weights != [] && weights[0] >= 1 && c + n <= Total(weights)
    ensures Wheel(weights, c, n) == Owners(weights, c, n)
    decreases n
  {
    if n > 0 {
      FirstTurn(weights, c + 1, n - 1);
      RemainderIs(c, Total(weights), 0, c);
    }
  }

  lemma {:induction false} Periodic(weights: seq<nat>, c: nat)
    requires weights != [] && weights[0] >= 1
    ensures Ideal(weights, c + Total(weights)) == Ideal(weights, c)
  {
    var w := Total(weights);
    RemainderIs(c + w, w, c / w + 1, c % w);
  }

  /** Sliding the window of one turn does not change how often a member appears. */
  lemma {:induction false} WheelIsFair(weights: seq<nat>, c: nat, i: nat)
    requires i < |weights| && weights[0] >= 1
    ensures Count(Wheel(weights, c, Total(weights)), i) == weights[i]
  {
    var w := Total(weights);
    if c == 0 {
      FirstTurn(weights, 0, w);
      WheelIsWeighted(weights, i);
    } else {
      hide Total, Owner, Ideal, Count, Wheel;
      WheelIsFair(weights, c - 1, i);
      Periodic(weights, c - 1);
      Slide(weights, c - 1, w, i);
    }
  }

  lemma Slide(weights: seq<nat>, c: nat, w: nat, i: nat)
    requires weights != [] && weights[0] >= 1 && Ideal(weights, c + w) == Ideal(weights, c)
    ensures Count(Wheel(weights, c + 1, w), i) == Count(Wheel(weights, c, w), i)
  {
    hide Ideal, Count;
    WheelSplit(weights, c, 1, w);
    WheelSplit(weights, c, w, 1);
    var x := Ideal(weights, c);
    assert Wheel(weights, c, 1) == [x] && Wheel(weights, c + w, 1) == [x];
    CountAppend([x], Wheel(weights, c + 1, w), i);
    CountAppend(Wheel(weights, c, w), [x], i);
  }

  // ---- the counter's two halves ----

  lemma {:induction false} LowerHalf(weights: seq<nat>, c: nat, n: nat)
    requires weights != [] && weights[0] >= 1 && c + n <= TWO63
    ensures Window(weights, c, n) == Wheel(weights, c, n)
    decreases n
  {
    if n > 0 {
      LowerHalf(weights, c + 1, n - 1);
    }
  }

  predicate AllZero(s: seq<nat>) {
    forall k :: 0 <= k < |s| ==> s[k] == 0
  }

  /** Past half of the counter's range the signed conversion is negative, and every request starts on member 0. */
  lemma {:induction false} UpperHalf(weights: seq<nat>, c: nat, n: nat)
    requires weights != [] && weights[0] >= 1 && TWO63 <= c && c + n <= TWO64
    ensures AllZero(Window(weights, c, n))
    decreases n
  {
    if n > 0 {
      UpperHalf(weights, c + 1, n - 1);
      var rest := Window(weights, c + 1, n - 1);
      forall k | 0 <= k < n ensures Window(weights, c, n)[k] == 0 {
        assert k > 0 ==> Window(weights, c, n)[k] == rest[k - 1];
      }
    }
  }

  lemma {:induction false} CountZeros(s: seq<nat>)
    ensures Count(s, 0) <= |s|
    ensures Count(s, 0) == |s| <==> AllZero(s)
  {
    if s != [] {
      var init, x := s[..|s| - 1], s[|s| - 1];
      CountZeros(init);
      assert s == init + [x];
      assert AllZero(s) <==> AllZero(init) && x == 0 by { ZerosSnoc(init, x); }
    }
  }

  lemma ZerosSnoc(s: seq<nat>, x: nat)
    ensures AllZero(s + [x]) <==> AllZero(s) && x == 0
  {
    var r := s + [x];
    assert r[|s|] == x;
    forall k | 0 <= k < |s| ensures r[k] == s[k] {
    }
  }

  lemma {:induction false} WheelAt(weights: seq<nat>, c: nat, n: nat, k: nat)
    requires weights != [] && weights[0] >= 1 && k < n
    ensures Wheel(weights, c, n)[k] == Ideal(weights, c + k)
    decreases n
  {
    hide Ideal;
    if k > 0 {
      WheelAt(weights, c + 1, n - 1, k - 1);
    }
  }

  /** The starts of one turn of the wheel are dealt by weight. */
  predicate FairlyDealt(weights: seq<nat>, s: seq<nat>) {
    forall i :: 0 <= i < |weights| ==> Count(s, i) == weights[i]
  }

  /** The draws of the window that fall in the upper half would be member 0's anyway. */
  predicate UpperIsFirsts(weights: seq<nat>, c: nat)
    requires weights != [] && weights[0] >= 1
  {
    forall k: nat :: c <= k < c + Total(weights) && TWO63 <= k ==> Ideal(weights, k) == 0
  }

  /**
   Any window of one total of weights, up to the counter's end: it is dealt fairly if and only if no draw past half
   of the counter's range takes a slot of another member than the first.
   */
  lemma {:induction false} FairExactly(weights: seq<nat>, c: nat)
    requires weights != [] && weights[0] >= 1 && c + Total(weights) <= TWO64
    ensures FairlyDealt(weights, Window(weights, c, Total(weights))) <==> UpperIsFirsts(weights, c)
  {
    hide Total, Owner, Ideal, Start, Count;
    var w := Total(weights);
    var h := if c + w <= TWO63 then c + w else if c >= TWO63 then c else TWO63;
    var a, m := h - c, c + w - h;
    WindowSplit(weights, c, a, m);
    WheelSplit(weights, c, a, m);
    assert a > 0 ==> h <= TWO63;
    if a > 0 {
      LowerHalf(weights, c, a);
    }
    if m > 0 {
      UpperHalf(weights, h, m);
    }
    var low, up, ideal := Window(weights, c, a), Window(weights, h, m), Wheel(weights, h, m);
    assert AllZero(up);
    forall i: nat | i < |weights| ensures Count(low + up, i) - weights[i] == Count(up, i) - Count(ideal, i) {
      WheelIsFair(weights, c, i);
      CountAppend(low, up, i);
      CountAppend(low, ideal, i);
    }
    CountZeros(up);
    CountZeros(ideal);
    UpperMeans(weights, c, h, m);
    if AllZero(ideal) {
      assert up == ideal;
    } else {
      assert Count(low + up, 0) != weights[0];
    }
  }

  lemma {:induction false} UpperMeans(weights: seq<nat>, c: nat, h: nat, m: nat)
    requires weights != [] && weights[0] >= 1 && c <= h && h + m == c + Total(weights)
    requires (m > 0 ==> h >= TWO63) && (h > c ==> h <= TWO63)
    ensures UpperIsFirsts(weights, c) <==> AllZero(Wheel(weights, h, m))
  {
    hide Total, Ideal;
    var ideal := Wheel(weights, h, m);
    forall k | 0 <= k < m ensures ideal[k] == Ideal(weights, h + k) {
      WheelAt(weights, h, m, k);
    }
    if AllZero(ideal) {
      forall k: nat | c <= k < c + Total(weights) && TWO63 <= k ensures Ideal(weights, k) == 0 {
        assert ideal[k - h] == Ideal(weights, h + (k - h));
      }
    }
    if UpperIsFirsts(weights, c) {
      forall k | 0 <= k < m ensures ideal[k] == 0 {
        assert Ideal(weights, h + k) == 0;
      }
    }
  }

  /** In the lower half every window of one turn is fair. */
  lemma {:induction false} Fair(weights: seq<nat>, c: nat, i: nat)
    requires i < |weights| && weights[0] >= 1 && c + Total(weights) <= TWO63
    ensures Count(Window(weights, c, Total(weights)), i) == weights[i]
  {
    LowerHalf(weights, c, Total(weights));
    WheelIsFair(weights, c, i);
  }

  /** In the upper half the deal is fair only to a pool of one. */
  lemma {:induction false} FairPastHalfExactly(weights: seq<nat>, c: nat)
    requires weights != [] && forall i :: 0 <= i < |weights| ==> weights[i] >= 1
    requires TWO63 <= c && c + Total(weights) <= TWO64
    ensures FairlyDealt(weights, Window(weights, c, Total(weights))) <==> |weights| == 1
  {
    var s := Window(weights, c, Total(weights));
    UpperHalf(weights, c, Total(weights));
    CountZeros(s);
    if |weights| > 1 {
      TotalPositive(weights[1..]);
    } else {
      assert Total(weights[1..]) == 0;
    }
  }

  // ---- whole runs over every pool ----

  function Run(st: State, reqs: seq<Request>): State
    requires forall i :: 0 <= i < |reqs| ==> WellFormed(reqs[i])
    decreases |reqs|
  {
    if reqs == [] then st else Run(Turn(st, reqs[0]).0, reqs[1..])
  }

  /** The starts of the run's unpinned requests on one pool. */
  function Starts(st: State, reqs: seq<Request>, key: string): seq<nat>
    requires forall i :: 0 <= i < |reqs| ==> WellFormed(reqs[i])
    decreases |reqs|
  {
    if reqs == [] then []
    else
      var (next, start) := Turn(st, reqs[0]);
      (if Unpinned(reqs[0], key) then [start] else []) + Starts(next, reqs[1..], key)
  }

  predicate Unpinned(req: Request, key: string) {
    Key(req.pool) == key && Pin(req.pool, req.pinned).None?
  }

  /** Every request on the pool brings these weights. */
  predicate Steady(reqs: seq<Request>, key: string, weights: seq<nat>) {
    forall i :: 0 <= i < |reqs| ==> WellFormed(reqs[i]) && (Key(reqs[i].pool) == key ==> reqs[i].weights == weights)
  }

  /** The request brings a sweep that forgets the pool. */
  predicate Drops(st: State, req: Request, key: string) {
    Key(req.pool) !in st.counters && st.known + 1 > SWEEP_AT && key !in req.live
  }

  /** No sweep of the run forgets the pool. */
  predicate Kept(st: State, reqs: seq<Request>, key: string)
    requires forall i :: 0 <= i < |reqs| ==> WellFormed(reqs[i])
    decreases |reqs|
  {
    reqs == [] || (!Drops(st, reqs[0], key) && Kept(Turn(st, reqs[0]).0, reqs[1..], key))
  }

  /**
   A turn moves a pool's counter by one when it is that pool's and unpinned, and not at all otherwise, if and only if
   no sweep forgets it, or there was nothing yet to forget.
   */
  lemma TurnDrawsExactly(st: State, req: Request, key: string)
    requires WellFormed(req) && Drawn(st, key) + 1 < TWO64
    ensures Drawn(Turn(st, req).0, key) == Drawn(st, key) + (if Unpinned(req, key) then 1 else 0)
       <==> !Drops(st, req, key) || (Drawn(st, key) == 0 && !Unpinned(req, key))
    ensures Drops(st, req, key) ==> Drawn(Turn(st, req).0, key) == 0
  {
    hide Key, Pin, Start;
  }

  lemma WindowCons(weights: seq<nat>, c: nat, n: nat)
    requires weights != [] && weights[0] >= 1
    ensures Window(weights, c, n + 1) == [Start(weights, c)] + Window(weights, c + 1, n)
  {
  }

  lemma KeyOf(req: Request, key: string)
    requires Unpinned(req, key)
    ensures Key(req.pool) == key
  {
  }

  lemma TurnStarts(st: State, req: Request, key: string)
    requires WellFormed(req) && Unpinned(req, key)
    ensures Turn(st, req).1 == Start(req.weights, Drawn(st, key))
  {
    hide Key, Start;
  }

  lemma {:induction false} StartsAreWindow(st: State, reqs: seq<Request>, key: string, weights: seq<nat>)
    requires weights != [] && weights[0] >= 1 && Steady(reqs, key, weights) && Kept(st, reqs, key)
    requires Drawn(st, key) + |reqs| < TWO64
    ensures var n := |Starts(st, reqs, key)|;
            Starts(st, reqs, key) == Window(weights, Drawn(st, key), n)
    ensures Drawn(Run(st, reqs), key) == Drawn(st, key) + |Starts(st, reqs, key)|
    ensures |Starts(st, reqs, key)| <= |reqs|
    decreases |reqs|
  {
    if reqs != [] {
      hide Turn, Drawn, Drops, Unpinned, Start, Key, Total;
      TurnDrawsExactly(st, reqs[0], key);
      StartsAreWindow(Turn(st, reqs[0]).0, reqs[1..], key, weights);
      var rest := Starts(Turn(st, reqs[0]).0, reqs[1..], key);
      if Unpinned(reqs[0], key) {
        TurnStarts(st, reqs[0], key);
        KeyOf(reqs[0], key);
        WindowCons(weights, Drawn(st, key), |rest|);
        assert Starts(st, reqs, key) == [Start(weights, Drawn(st, key))] + rest;
      } else {
        assert Starts(st, reqs, key) == rest;
      }
    }
  }

  /**
   Over any run on any pools, with pinned requests and sweeps in between that keep the pool: when the pool's
   unpinned requests number one total of weights, each member was the start exactly as often as its weight, as long
   as the counter has not passed half of its range, and past it only if nobody's slot is lost to the first member.
   */
  lemma {:induction false} FairRun(st: State, reqs: seq<Request>, key: string, weights: seq<nat>)
    requires weights != [] && weights[0] >= 1 && Steady(reqs, key, weights) && Kept(st, reqs, key)
    requires |Starts(st, reqs, key)| == Total(weights) && Drawn(st, key) + |reqs| < TWO64
    ensures FairlyDealt(weights, Starts(st, reqs, key)) <==> UpperIsFirsts(weights, Drawn(st, key))
    ensures Drawn(st, key) + Total(weights) <= TWO63 ==> FairlyDealt(weights, Starts(st, reqs, key))
  {
    hide Total, Starts, Run, Kept, Steady, FairlyDealt, Window;
    StartsAreWindow(st, reqs, key, weights);
    FairExactly(weights, Drawn(st, key));
  }

  // ---- when two pools share a counter ----

  /** The pieces of a string between its commas. */
  function Pieces(s: string): (r: seq<string>)
    ensures r != []
  {
    if s == "" then [""]
    else
      var r := Pieces(s[1..]);
      if s[0] == ',' then [""] + r else [[s[0]] + r[0]] + r[1..]
  }

  /** The pieces of all ids of a pool, in order. */
  function AllPieces(pool: seq<Member>): (r: seq<string>)
    ensures |r| >= |pool|
  {
    if pool == [] then [] else Pieces(pool[0].id) + AllPieces(pool[1..])
  }

  function Joined(parts: seq<string>): string {
    if parts == [] then "" else if |parts| == 1 then parts[0] else parts[0] + [','] + Joined(parts[1..])
  }

  /** Cutting at the commas loses nothing. */
  lemma {:induction false} PiecesJoin(s: string)
    ensures Joined(Pieces(s)) == s
  {
    if s != "" {
      var r := Pieces(s[1..]);
      PiecesJoin(s[1..]);
      if s[0] == ',' {
        assert ([""] + r)[1..] == r;
        assert s == "" + [','] + s[1..];
      } else {
        var p := [[s[0]] + r[0]] + r[1..];
        assert p[1..] == r[1..];
        assert s == [s[0]] + s[1..];
        if |r| > 1 {
          assert [s[0]] + r[0] + [','] + Joined(r[1..]) == [s[0]] + (r[0] + [','] + Joined(r[1..]));
        }
      }
    }
  }

  /** A comma between two strings separates their pieces. */
  lemma {:induction false} PiecesAppend(a: string, b: string)
    ensures Pieces(a + [','] + b) == Pieces(a) + Pieces(b)
  {
    var s := a + [','] + b;
    if a == "" {
      assert s[1..] == b;
    } else {
      assert s[1..] == a[1..] + [','] + b;
      PiecesAppend(a[1..], b);
      var r, t := Pieces(a[1..]), Pieces(b);
      assert (r + t)[0] == r[0] && (r + t)[1..] == r[1..] + t;
      if a[0] == ',' {
        Bytes.Assoc([""], r, t);
      } else {
        Bytes.Assoc([[a[0]] + r[0]], r[1..], t);
      }
    }
  }

  lemma {:induction false} KeyPieces(pool: seq<Member>)
    requires pool != []
    ensures Pieces(Key(pool)) == AllPieces(pool)
  {
    hide Pieces;
    if |pool| == 1 {
      assert AllPieces(pool[1..]) == [];
      assert Pieces(pool[0].id) + [] == Pieces(pool[0].id);
    } else {
      KeyPieces(pool[1..]);
      PiecesAppend(pool[0].id, Key(pool[1..]));
    }
  }

  /** Two pools draw from one counter if and only if their ids, cut at the commas, are the same pieces in order. */
  lemma {:induction false} KeyExactly(p: seq<Member>, q: seq<Member>)
    requires p != [] && q != []
    ensures Key(p) == Key(q) <==> AllPieces(p) == AllPieces(q)
  {
    hide Pieces, AllPieces, Key, Joined;
    KeyPieces(p);
    KeyPieces(q);
    PiecesJoin(Key(p));
    PiecesJoin(Key(q));
  }

  predicate CommaFree(pool: seq<Member>) {
    forall i :: 0 <= i < |pool| ==> ',' !in pool[i].id
  }

  predicate SameIds(p: seq<Member>, q: seq<Member>) {
    |p| == |q| && forall i :: 0 <= i < |p| ==> p[i].id == q[i].id
  }

  lemma {:induction false} WholePiece(s: string)
    requires ',' !in s
    ensures Pieces(s) == [s]
  {
    if s != "" {
      WholePiece(s[1..]);
      assert s == [s[0]] + s[1..];
    }
  }

  lemma {:induction false} IdsArePieces(pool: seq<Member>)
    requires CommaFree(pool)
    ensures |AllPieces(pool)| == |pool| && forall i :: 0 <= i < |pool| ==> AllPieces(pool)[i] == pool[i].id
  {
    if pool != [] {
      hide Pieces;
      WholePiece(pool[0].id);
      IdsArePieces(pool[1..]);
      forall i | 0 <= i < |pool| ensures AllPieces(pool)[i] == pool[i].id {
        assert i > 0 ==> AllPieces(pool)[i] == AllPieces(pool[1..])[i - 1];
      }
    }
  }

  /** Ids without commas: exactly when they are the same ids in the same order. */
  lemma {:induction false} KeyInjective(p: seq<Member>, q: seq<Member>)
    requires p != [] && q != [] && CommaFree(p) && CommaFree(q)
    ensures Key(p) == Key(q) <==> SameIds(p, q)
  {
    hide AllPieces, Key;
    KeyExactly(p, q);
    IdsArePieces(p);
    IdsArePieces(q);
  }

  /** With a comma in an id two different pools draw from one counter. */
  lemma CommaSharesCounter()
    ensures var p, q := [Member("a,b", ""), Member("c", "")], [Member("a", ""), Member("b,c", "")];
            Key(p) == Key(q) && p[0].id != q[0].id
  {
    var p, q := [Member("a,b", ""), Member("c", "")], [Member("a", ""), Member("b,c", "")];
    assert Key(p[1..]) == "c" && Key(q[1..]) == "b,c";
    assert Key(p) == "a,b,c" && Key(q) == "a,b,c";
  }

  // ---- which pools a sweep keeps ----

  function Members(ids: seq<string>): (r: seq<Member>)
    ensures |r| == |ids| && forall i :: 0 <= i < |ids| ==> r[i] == Member(ids[i], "")
  {
    seq(|ids|, i requires 0 <= i < |ids| => Member(ids[i], ""))
  }

  /** The servers of a rule that the store still has, in order. */
  function Found(ids: seq<string>, store: set<string>): (r: seq<string>)
    ensures |r| <= |ids| && forall x :: x in r ==> x in ids
  {
    if ids == [] then []
    else Found(ids[..|ids| - 1], store) + if ids[|ids| - 1] in store then [ids[|ids| - 1]] else []
  }

  lemma {:induction false} PiecesOfAppend(a: seq<Member>, b: seq<Member>)
    ensures AllPieces(a + b) == AllPieces(a) + AllPieces(b)
  {
    if a == [] {
      assert a + b == b;
    } else {
      hide Pieces;
      assert (a + b)[1..] == a[1..] + b;
      PiecesOfAppend(a[1..], b);
      Bytes.Assoc(Pieces(a[0].id), AllPieces(a[1..]), AllPieces(b));
    }
  }

  lemma MembersAppend(a: seq<string>, b: seq<string>)
    ensures Members(a + b) == Members(a) + Members(b)
  {
  }

  /** A missing server takes at least one piece away. */
  lemma {:induction false} FoundAll(ids: seq<string>, store: set<string>)
    ensures |AllPieces(Members(Found(ids, store)))| <= |AllPieces(Members(ids))|
    ensures |AllPieces(Members(Found(ids, store)))| == |AllPieces(Members(ids))|
       <==> forall i :: 0 <= i < |ids| ==> ids[i] in store
    ensures (forall i :: 0 <= i < |ids| ==> ids[i] in store) ==> Found(ids, store) == ids
  {
    if ids != [] {
      hide AllPieces, Members;
      var init, x := ids[..|ids| - 1], ids[|ids| - 1];
      FoundAll(init, store);
      assert ids == init + [x];
      MembersAppend(init, [x]);
      PiecesOfAppend(Members(init), Members([x]));
      MembersAppend(Found(init, store), [x]);
      PiecesOfAppend(Members(Found(init, store)), Members([x]));
      assert |AllPieces(Members([x]))| >= |Members([x])| >= 1;
      assert Found(init, store) + [] == Found(init, store);
    }
  }

  /**
   A rule's own key is the one its requests draw from if and only if the store has all of its servers: the sweep
   counts the servers the rule names, a request those that exist.
   */
  lemma {:induction false} RuleKeyExactly(ids: seq<string>, store: set<string>)
    requires Found(ids, store) != []
    ensures Key(Members(Found(ids, store))) == Key(Members(ids)) <==> forall i :: 0 <= i < |ids| ==> ids[i] in store
  {
    hide AllPieces, Key;
    FoundAll(ids, store);
    KeyExactly(Members(Found(ids, store)), Members(ids));
  }

  /** A rule with a missing fallback: its pool has drawn seven times, and another pool's first request restarts it. */
  lemma MissingServerRestarts(known: State, other: Request)
    requires known.counters == map["a,b" := 7] && known.known == SWEEP_AT
    requires WellFormed(other) && Key(other.pool) != "a,b" && other.live == {"a,b,gone", Key(other.pool)}
    ensures Key(Members(["a", "b"])) == "a,b" && Key(Members(["a", "b", "gone"])) == "a,b,gone"
    ensures Drawn(known, "a,b") == 7 && Drawn(Turn(known, other).0, "a,b") == 0
  {
    var two, three := Members(["a", "b"]), Members(["a", "b", "gone"]);
    assert two[1..] == [Member("b", "")] && three[1..][1..] == [Member("gone", "")];
    assert Key(three[1..]) == "b,gone";
    assert "a" + [','] + "b" == "a,b" && "a" + [','] + "b,gone" == "a,b,gone";
    assert "a,b" != "a,b,gone" by { assert |"a,b"| != |"a,b,gone"|; }
    hide Key;
    assert Drops(known, other, "a,b");
    TurnDrawsExactly(known, other, "a,b");
  }
}
