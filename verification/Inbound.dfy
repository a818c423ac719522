/**
 The token bucket per client of config/inbound.go. Time is in nanoseconds, tokens are reals. A call carries
 the clock readings that the code takes: one for the sweep and one for the bucket.
 */
module Inbound {

  /** `inboundSweepAt`. */
  const SWEEP_AT: nat := 4096

  const SECOND: int := 1_000_000_000

  datatype Config = Config(rps: real, burst: real)

  datatype Bucket = Bucket(tokens: real, last: int)

  datatype Verdict = Verdict(ok: bool, wait: int)

  datatype Call = Call(key: string, sweep: int, now: int)

  predicate Sane(c: Config) {
    c.rps > 0.0 && c.burst >= 1.0
  }

  function Ceil(x: real): (r: int)
    ensures r as real - 1.0 < x <= r as real
  {
    -((-x).Floor)
  }

  /** The burst that a non-nil limiter is built with. */
  function Burst(rps: real, burst: int): (r: real)
    ensures burst >= 1 ==> r == burst as real
    ensures burst < 1 ==> r == r.Floor as real && rps <= r < rps + 1.0
  {
    if burst < 1 then Ceil(rps) as real else burst as real
  }

  /** The tokens that come back between two instants. */
  function Gain(c: Config, from: int, to: int): real {
    (to - from) as real / SECOND as real * c.rps
  }

  function Level(c: Config, b: Bucket, now: int): real {
    var full := b.tokens + Gain(c, b.last, now);
    if full < c.burst then full else c.burst
  }

  /** How long until the level is back at one token. */
  function Wait(c: Config, level: real): int
    requires Sane(c)
  {
    Ceil((1.0 - level) / c.rps * SECOND as real)
  }

  function Spend(c: Config, b: Bucket, now: int): (r: (Bucket, Verdict))
    requires Sane(c)
  {
    var level := Level(c, b, now);
    if level >= 1.0 then (Bucket(level - 1.0, now), Verdict(true, 0))
    else (Bucket(level, now), Verdict(false, Wait(c, level)))
  }

  /** Two full refills. */
  function Cutoff(c: Config): int
    requires Sane(c)
  {
    (2.0 * SECOND as real * c.burst / c.rps).Floor
  }

  function Swept(c: Config, keys: map<string, Bucket>, at: int): map<string, Bucket>
    requires Sane(c)
  {
    map k | k in keys && at - keys[k].last <= Cutoff(c) :: keys[k]
  }

  /** The sweep keeps a bucket if and only if it was used within the time of two full refills. */
  lemma SweptExactly(c: Config, keys: map<string, Bucket>, at: int, k: string)
    requires Sane(c)
    ensures k in Swept(c, keys, at) <==> k in keys && (at - keys[k].last) as real <= 2.0 * (c.burst / c.rps * 1_000_000_000.0)
    ensures k in Swept(c, keys, at) ==> Swept(c, keys, at)[k] == keys[k]
  {
    var x := 2.0 * SECOND as real * c.burst / c.rps;
    assert x == 2.0 * (c.burst / c.rps * 1_000_000_000.0);
    if k in keys {
      var d := at - keys[k].last;
      assert d <= x.Floor <==> d as real <= x;
    }
  }

  function Found(c: Config, keys: map<string, Bucket>, call: Call): Bucket {
    if call.key in keys then keys[call.key] else Bucket(c.burst, call.now)
  }

  /** One call of `Allow`. */
  function Turn(c: Config, keys: map<string, Bucket>, call: Call): (map<string, Bucket>, Verdict)
    requires Sane(c)
  {
    var kept := if call.key !in keys && |keys| >= SWEEP_AT then Swept(c, keys, call.sweep) else keys;
    var (b, v) := Spend(c, Found(c, keys, call), call.now);
    (kept[call.key := b], v)
  }

  /** `Allow` on a limiter that forgets no bucket. */
  function Plain(c: Config, keys: map<string, Bucket>, call: Call): (map<string, Bucket>, Verdict)
    requires Sane(c)
  {
    var (b, v) := Spend(c, Found(c, keys, call), call.now);
    (keys[call.key := b], v)
  }

  predicate Filled(c: Config, keys: map<string, Bucket>, now: int) {
    forall k :: k in keys ==> 0.0 <= keys[k].tokens <= c.burst && keys[k].last <= now
  }

  class InboundLimiter {
    const config: Config
    var keys: map<string, Bucket>
    var denied: nat

    constructor (rps: real, burst: int)
      requires rps > 0.0
      ensures config == Config(rps, Burst(rps, burst)) && Sane(config)
      ensures keys == map[] && denied == 0
    {
      config := Config(rps, if burst < 1 then Ceil(rps) as real else burst as real);
      keys := map[];
      denied := 0;
    }

    /** Spends one token of the key's bucket, or says how long until there is one. */
    method Allow(call: Call) returns (ok: bool, wait: int)
      requires Sane(config)
      modifies this
      ensures (keys, Verdict(ok, wait)) == Turn(config, old(keys), call)
      ensures denied == old(denied) + if ok then 0 else 1
    {
      hide Swept;
      var b;
      if call.key in keys {
        b := keys[call.key];
      } else {
        if |keys| >= SWEEP_AT {
          Sweep(call.sweep);
        }
        b := Bucket(config.burst, call.now);
      }
      var level := Level(config, b, call.now);
      if level >= 1.0 {
        keys := keys[call.key := Bucket(level - 1.0, call.now)];
        return true, 0;
      }
      keys := keys[call.key := Bucket(level, call.now)];
      denied := denied + 1;
      return false, Wait(config, level);
    }

    method Sweep(at: int)
      requires Sane(config)
      modifies this`keys
      ensures keys == Swept(config, old(keys), at)
    {
      var kept, left := map[], keys.Keys;
      while left != {}
        invariant left <= keys.Keys && keys == old(keys)
        invariant kept == map k | k in keys && k !in left && at - keys[k].last <= Cutoff(config) :: keys[k]
      {
        var k :| k in left;
        if at - keys[k].last <= Cutoff(config) {
          kept := kept[k := keys[k]];
        }
        left := left - {k};
      }
      keys := kept;
    }
  }

  /** No limiter at all when the rate is off; a missing limiter lets everything through. */
  method NewInboundLimiter(rps: real, burst: int) returns (l: InboundLimiter?)
    ensures l == null <==> rps <= 0.0
    ensures l != null ==> fresh(l) && l.config == Config(rps, Burst(rps, burst)) && Sane(l.config) && l.keys == map[]
  {
    if rps <= 0.0 {
      return null;
    }
    l := new InboundLimiter(rps, burst);
  }

  // ---- arithmetic of refilling ----

  lemma GainAdds(c: Config, r: int, s: int, t: int)
    ensures Gain(c, r, t) == Gain(c, r, s) + Gain(c, s, t)
  {
    var a, b := (s - r) as real / SECOND as real, (t - s) as real / SECOND as real;
    assert (t - r) as real / SECOND as real == a + b;
    assert (a + b) * c.rps == a * c.rps + b * c.rps;
  }

  lemma GainGrows(c: Config, s: int, t: int)
    requires Sane(c) && s <= t
    ensures Gain(c, s, t) >= 0.0
  {
  }

  lemma Product(a: real, b: real, r: real)
    requires r > 0.0
    ensures a >= b / r <==> a * r >= b
    ensures a > b / r <==> a * r > b
  {
    var q := b / r;
    assert q * r == b;
    assert a >= q ==> (a - q) * r >= 0.0;
    assert a < q ==> (q - a) * r > 0.0;
    assert a > q ==> (a - q) * r > 0.0;
    assert a <= q ==> (q - a) * r >= 0.0;
  }

  /** The wait is exactly the time that the missing part of a token takes, rounded up to the clock. */
  lemma WaitIsExact(c: Config, level: real, from: int, to: int)
    requires Sane(c)
    ensures to - from >= Wait(c, level) <==> level + Gain(c, from, to) >= 1.0
  {
    var d := to - from;
    var s, need := d as real / SECOND as real, 1.0 - level;
    Product(s, need, c.rps);
    assert s >= need / c.rps <==> d as real >= need / c.rps * SECOND as real;
    assert d as real >= need / c.rps * SECOND as real <==> d >= Wait(c, level);
  }

  /** What the sweep drops is back at the cap, now and from here on. */
  lemma IdleIsFull(c: Config, b: Bucket, at: int, now: int)
    requires Sane(c) && b.tokens >= 0.0 && at - b.last > Cutoff(c) && at <= now
    ensures b.tokens + Gain(c, b.last, now) >= c.burst
  {
    var d := (now - b.last) as real;
    var q := 2.0 * SECOND as real * c.burst / c.rps;
    assert d >= Cutoff(c) as real + 1.0;
    assert d > q;
    Product(d, 2.0 * SECOND as real * c.burst, c.rps);
    assert d * c.rps > 2.0 * SECOND as real * c.burst;
    assert Gain(c, b.last, now) == d * c.rps / SECOND as real;
  }

  // ---- whole runs ----

  /** The clock never goes back, from one reading to the next. */
  predicate Timely(calls: seq<Call>) {
    && (forall i :: 0 <= i < |calls| ==> calls[i].sweep <= calls[i].now)
    && (forall i, j :: 0 <= i < j < |calls| ==> calls[i].now <= calls[j].sweep)
  }

  function Keys(c: Config, calls: seq<Call>): map<string, Bucket>
    requires Sane(c)
  {
    if calls == [] then map[]
    else Turn(c, Keys(c, calls[..|calls| - 1]), calls[|calls| - 1]).0
  }

  function Verdicts(c: Config, calls: seq<Call>): (r: seq<Verdict>)
    requires Sane(c)
    ensures |r| == |calls|
  {
    if calls == [] then []
    else
      var init := calls[..|calls| - 1];
      Verdicts(c, init) + [Turn(c, Keys(c, init), calls[|calls| - 1]).1]
  }

  function PlainKeys(c: Config, calls: seq<Call>): map<string, Bucket>
    requires Sane(c)
  {
    if calls == [] then map[]
    else Plain(c, PlainKeys(c, calls[..|calls| - 1]), calls[|calls| - 1]).0
  }

  function PlainVerdicts(c: Config, calls: seq<Call>): (r: seq<Verdict>)
    requires Sane(c)
    ensures |r| == |calls|
  {
    if calls == [] then []
    else
      var init := calls[..|calls| - 1];
      PlainVerdicts(c, init) + [Plain(c, PlainKeys(c, init), calls[|calls| - 1]).1]
  }

  /** A kept bucket is the reference's; a forgotten one is full in the reference, from `now` on. */
  predicate Forgets(c: Config, keys: map<string, Bucket>, all: map<string, Bucket>, now: int) {
    && keys.Keys <= all.Keys
    && (forall k :: k in keys ==> keys[k] == all[k])
    && (forall k :: k in all && k !in keys ==> Full(c, all[k], now))
  }

  predicate Full(c: Config, b: Bucket, now: int) {
    b.tokens + Gain(c, b.last, now) >= c.burst
  }

  lemma FullStays(c: Config, b: Bucket, now: int, later: int)
    requires Sane(c) && Full(c, b, now) && now <= later
    ensures Full(c, b, later)
  {
    GainAdds(c, b.last, now, later);
    GainGrows(c, now, later);
  }

  lemma SpendFilled(c: Config, b: Bucket, now: int)
    requires Sane(c) && 0.0 <= b.tokens && b.last <= now
    ensures var b' := Spend(c, b, now).0; 0.0 <= b'.tokens <= c.burst && b'.last == now
  {
    GainGrows(c, b.last, now);
  }

  lemma SameSpend(c: Config, b: Bucket, call: Call)
    requires Sane(c) && Full(c, b, call.now)
    ensures Spend(c, b, call.now) == Spend(c, Bucket(c.burst, call.now), call.now)
  {
    assert Gain(c, call.now, call.now) == 0.0;
  }

  lemma StepSweeps(c: Config, keys: map<string, Bucket>, all: map<string, Bucket>, call: Call, was: int)
    requires Sane(c) && Forgets(c, keys, all, was) && Filled(c, all, was)
    requires was <= call.sweep <= call.now
    ensures Turn(c, keys, call).1 == Plain(c, all, call).1
    ensures Forgets(c, Turn(c, keys, call).0, Plain(c, all, call).0, call.now)
    ensures Filled(c, Plain(c, all, call).0, call.now)
  {
    hide Spend, Full;
    if call.key in all {
      if call.key !in keys {
        FullStays(c, all[call.key], was, call.now);
        SameSpend(c, all[call.key], call);
      }
      SpendFilled(c, all[call.key], call.now);
    } else {
      SpendFilled(c, Bucket(c.burst, call.now), call.now);
    }
    var keys', all' := Turn(c, keys, call).0, Plain(c, all, call).0;
    forall k | k in all' && k !in keys' ensures Full(c, all'[k], call.now) {
      if k in keys {
        IdleIsFull(c, all[k], call.sweep, call.now);
        IsFull(c, all[k], call.now);
      } else {
        FullStays(c, all[k], was, call.now);
      }
    }
  }

  lemma IsFull(c: Config, b: Bucket, now: int)
    requires b.tokens + Gain(c, b.last, now) >= c.burst
    ensures Full(c, b, now)
  {
  }

  /** The time of the last call. */
  function Last(calls: seq<Call>, first: int): int {
    if calls == [] then first else calls[|calls| - 1].now
  }

  lemma {:induction false} RunSweeps(c: Config, calls: seq<Call>, first: int)
    requires Sane(c) && Timely(calls) && (calls != [] ==> first <= calls[0].sweep)
    ensures Verdicts(c, calls) == PlainVerdicts(c, calls)
    ensures Forgets(c, Keys(c, calls), PlainKeys(c, calls), Last(calls, first))
    ensures Filled(c, PlainKeys(c, calls), Last(calls, first))
  {
    if calls != [] {
      hide Turn, Plain, Forgets, Filled;
      var init := calls[..|calls| - 1];
      RunSweeps(c, init, first);
      StepSweeps(c, Keys(c, init), PlainKeys(c, init), calls[|calls| - 1], Last(init, first));
    }
  }

  /** The sweep cannot be told from the outside: every verdict and every wait is the never-sweeping limiter's. */
  lemma {:induction false} SweepIsUnobservable(c: Config, calls: seq<Call>)
    requires Sane(c) && Timely(calls)
    ensures Verdicts(c, calls) == PlainVerdicts(c, calls)
  {
    RunSweeps(c, calls, if calls == [] then 0 else calls[0].sweep);
  }

  // ---- the bound ----

  /** The calls of one key let through in the closed interval. */
  function Admits(calls: seq<Call>, vs: seq<Verdict>, key: string, s: int, t: int): nat
    requires |vs| == |calls|
  {
    if calls == [] then 0
    else
      var n := |calls| - 1;
      Admits(calls[..n], vs[..n], key, s, t)
      + if calls[n].key == key && s <= calls[n].now <= t && vs[n].ok then 1 else 0
  }

  /** What the key's bucket leaves for later calls of the interval. */
  predicate Bounded(c: Config, keys: map<string, Bucket>, n: nat, key: string, s: int, t: int) {
    && (n as real <= c.burst + Gain(c, s, t))
    && (key !in keys || keys[key].last < s ==> n == 0)
    && (key in keys && s <= keys[key].last ==> n as real + keys[key].tokens <= c.burst + Gain(c, s, keys[key].last))
  }

  lemma SpendBounds(c: Config, b: Bucket, now: int, n: nat, s: int, t: int)
    requires Sane(c) && 0.0 <= b.tokens && b.last <= now && s <= now && s <= t
    requires b.last < s ==> n == 0
    requires s <= b.last ==> n as real + b.tokens <= c.burst + Gain(c, s, b.last)
    requires n as real <= c.burst + Gain(c, s, t)
    ensures var (b', v) := Spend(c, b, now);
            var n' := n + if now <= t && v.ok then 1 else 0;
            && n' as real + b'.tokens <= c.burst + Gain(c, s, now)
            && n' as real <= c.burst + Gain(c, s, t)
  {
    GainGrows(c, s, now);
    GainGrows(c, b.last, now);
    GainAdds(c, s, b.last, now);
    if now <= t {
      GainAdds(c, s, now, t);
      GainGrows(c, now, t);
    }
  }

  lemma {:induction false} PlainBounded(c: Config, calls: seq<Call>, key: string, s: int, t: int)
    requires Sane(c) && Timely(calls) && s <= t
    ensures Bounded(c, PlainKeys(c, calls), Admits(calls, PlainVerdicts(c, calls), key, s, t), key, s, t)
  {
    if calls == [] {
      GainGrows(c, s, t);
    } else {
      hide Spend, Gain;
      var init, call := calls[..|calls| - 1], calls[|calls| - 1];
      PlainBounded(c, init, key, s, t);
      RunSweeps(c, init, calls[0].sweep);
      var keys, vs := PlainKeys(c, init), PlainVerdicts(c, calls);
      assert vs[..|init|] == PlainVerdicts(c, init);
      var b := Found(c, keys, call);
      SpendFilled(c, b, call.now);
      if call.key == key && s <= call.now {
        if key !in keys {
          GainAdds(c, s, call.now, call.now);
          GainGrows(c, s, call.now);
        }
        SpendBounds(c, b, call.now, Admits(init, vs[..|init|], key, s, t), s, t);
      }
    }
  }

  /** Every key, every interval, every run: at most the burst plus what the rate allows in that time. */
  lemma {:induction false} AdmitBound(c: Config, calls: seq<Call>, key: string, s: int, t: int)
    requires Sane(c) && Timely(calls) && s <= t
    ensures Admits(calls, Verdicts(c, calls), key, s, t) as real <= c.burst + Gain(c, s, t)
  {
    SweepIsUnobservable(c, calls);
    PlainBounded(c, calls, key, s, t);
  }

  // ---- the promise made to a denied caller ----

  predicate Alone(calls: seq<Call>, i: nat, j: nat) {
    i < j < |calls| && calls[i].key == calls[j].key && forall k :: i < k < j ==> calls[k].key != calls[i].key
  }

  lemma {:induction false} VerdictAt(c: Config, calls: seq<Call>, i: nat)
    requires Sane(c) && i < |calls|
    ensures PlainVerdicts(c, calls)[i] == Plain(c, PlainKeys(c, calls[..i]), calls[i]).1
  {
    if i < |calls| - 1 {
      VerdictAt(c, calls[..|calls| - 1], i);
      assert calls[..|calls| - 1][..i] == calls[..i];
    }
  }

  /** Other keys' calls leave a bucket alone. */
  lemma {:induction false} BucketKept(c: Config, calls: seq<Call>, i: nat, j: nat)
    requires Sane(c) && i < j <= |calls| && forall k :: i < k < j ==> calls[k].key != calls[i].key
    ensures var keys := PlainKeys(c, calls[..j]);
            calls[i].key in keys
            && keys[calls[i].key] == Spend(c, Found(c, PlainKeys(c, calls[..i]), calls[i]), calls[i].now).0
    decreases j
  {
    assert calls[..j][..j - 1] == calls[..j - 1];
    if i < j - 1 {
      BucketKept(c, calls, i, j - 1);
    }
  }

  /**
   A denied caller who is the key's next caller is let through exactly when the returned time has passed;
   one nanosecond earlier is too early.
   */
  lemma {:induction false} WaitIsEnough(c: Config, calls: seq<Call>, i: nat, j: nat)
    requires Sane(c) && Timely(calls) && Alone(calls, i, j) && !Verdicts(c, calls)[i].ok
    ensures Verdicts(c, calls)[j].ok <==> calls[j].now >= calls[i].now + Verdicts(c, calls)[i].wait
  {
    hide Gain, Wait;
    SweepIsUnobservable(c, calls);
    VerdictAt(c, calls, i);
    VerdictAt(c, calls, j);
    BucketKept(c, calls, i, j);
    var b := PlainKeys(c, calls[..j])[calls[i].key];
    WaitIsExact(c, b.tokens, calls[i].now, calls[j].now);
  }

  // ---- the exact rule ----

  /** The calls of one key let through from the m-th call on. */
  function AdmittedFrom(calls: seq<Call>, vs: seq<Verdict>, key: string, m: nat): nat
    requires |vs| == |calls|
  {
    if |calls| <= m then 0
    else
      var n := |calls| - 1;
      AdmittedFrom(calls[..n], vs[..n], key, m) + if calls[n].key == key && vs[n].ok then 1 else 0
  }

  /** The burst, and what came back since the m-th call, less what was spent from there on. */
  function LeftSince(c: Config, calls: seq<Call>, vs: seq<Verdict>, key: string, m: nat, now: int): real
    requires |vs| == |calls| && m < |calls|
  {
    c.burst + Gain(c, calls[m].now, now) - AdmittedFrom(calls, vs, key, m) as real
  }

  /** The bucket holds the least of what is left since any call of its key. */
  ghost predicate HoldsLeast(c: Config, calls: seq<Call>, vs: seq<Verdict>, key: string, b: Bucket)
    requires |vs| == |calls|
  {
    && (forall m :: 0 <= m < |calls| && calls[m].key == key ==> b.tokens <= LeftSince(c, calls, vs, key, m, b.last))
    && (exists m :: 0 <= m < |calls| && calls[m].key == key && b.tokens == LeftSince(c, calls, vs, key, m, b.last))
  }

  /** One more call: what was left, less the token it may have spent, plus the refill. */
  lemma LeftNext(c: Config, calls: seq<Call>, vs: seq<Verdict>, call: Call, v: Verdict, key: string, m: nat, was: int, now: int)
    requires |vs| == |calls| && m < |calls|
    ensures LeftSince(c, calls + [call], vs + [v], key, m, now)
         == LeftSince(c, calls, vs, key, m, was) + Gain(c, was, now) - if call.key == key && v.ok then 1.0 else 0.0
  {
    hide Gain;
    assert (calls + [call])[..|calls|] == calls && (vs + [v])[..|vs|] == vs;
    GainAdds(c, calls[m].now, was, now);
  }

  lemma LeftNow(c: Config, calls: seq<Call>, vs: seq<Verdict>, call: Call, v: Verdict, key: string)
    requires |vs| == |calls|
    ensures LeftSince(c, calls + [call], vs + [v], key, |calls|, call.now) == c.burst - if call.key == key && v.ok then 1.0 else 0.0
  {
    assert (calls + [call])[..|calls|] == calls && (vs + [v])[..|vs|] == vs;
    assert AdmittedFrom(calls, vs, key, |calls|) == 0;
    NoGain(c, call.now);
  }

  /** A call of the key: its level, and the bucket it leaves, are the least of what is left. */
  lemma SpendsLeast(c: Config, calls: seq<Call>, vs: seq<Verdict>, call: Call, b: Bucket)
    requires Sane(c) && |vs| == |calls| && HoldsLeast(c, calls, vs, call.key, b)
    ensures var (d, v) := Spend(c, b, call.now);
            && HoldsLeast(c, calls + [call], vs + [v], call.key, d)
            && (v.ok <==> c.burst >= 1.0 && forall m :: 0 <= m < |calls| && calls[m].key == call.key ==>
                            LeftSince(c, calls, vs, call.key, m, call.now) >= 1.0)
  {
    var key, now := call.key, call.now;
    var (d, v) := Spend(c, b, now);
    var all, ws := calls + [call], vs + [v];
    hide Gain, LeftSince, Wait;
    forall m | 0 <= m < |calls| && calls[m].key == key
      ensures LeftSince(c, all, ws, key, m, now) == LeftSince(c, calls, vs, key, m, b.last) + Gain(c, b.last, now) - if v.ok then 1.0 else 0.0
      ensures LeftSince(c, calls, vs, key, m, now) == LeftSince(c, calls, vs, key, m, b.last) + Gain(c, b.last, now)
    {
      LeftNext(c, calls, vs, call, v, key, m, b.last, now);
      LeftLater(c, calls, vs, key, m, b.last, now);
    }
    LeftNow(c, calls, vs, call, v, key);
    var z :| 0 <= z < |calls| && calls[z].key == key && b.tokens == LeftSince(c, calls, vs, key, z, b.last);
    var low := if Level(c, b, now) < c.burst then z else |calls|;
    assert all[low].key == key && d.tokens == LeftSince(c, all, ws, key, low, d.last);
    forall m | 0 <= m < |all| && all[m].key == key ensures d.tokens <= LeftSince(c, all, ws, key, m, d.last) {
      if m < |calls| { assert all[m] == calls[m]; }
    }
  }

  lemma LeftLater(c: Config, calls: seq<Call>, vs: seq<Verdict>, key: string, m: nat, was: int, now: int)
    requires |vs| == |calls| && m < |calls|
    ensures LeftSince(c, calls, vs, key, m, now) == LeftSince(c, calls, vs, key, m, was) + Gain(c, was, now)
  {
    hide Gain;
    GainAdds(c, calls[m].now, was, now);
  }

  /** A call of another key takes nothing. */
  lemma OthersTakeNothing(c: Config, calls: seq<Call>, vs: seq<Verdict>, call: Call, v: Verdict, key: string, b: Bucket)
    requires |vs| == |calls| && HoldsLeast(c, calls, vs, key, b) && call.key != key
    ensures HoldsLeast(c, calls + [call], vs + [v], key, b)
  {
    hide Gain, LeftSince;
    var all, ws := calls + [call], vs + [v];
    forall m | 0 <= m < |calls| ensures LeftSince(c, all, ws, key, m, b.last) == LeftSince(c, calls, vs, key, m, b.last) {
      LeftNext(c, calls, vs, call, v, key, m, b.last, b.last);
      assert Gain(c, b.last, b.last) == 0.0 by { NoGain(c, b.last); }
    }
    var z :| 0 <= z < |calls| && calls[z].key == key && b.tokens == LeftSince(c, calls, vs, key, z, b.last);
    assert all[z] == calls[z];
    forall m | 0 <= m < |all| && all[m].key == key ensures b.tokens <= LeftSince(c, all, ws, key, m, b.last) {
      assert m < |calls|;
      assert all[m] == calls[m];
    }
  }

  lemma NoGain(c: Config, t: int)
    ensures Gain(c, t, t) == 0.0
  {
  }

  /** A key's first call finds the whole burst. */
  lemma FirstSpends(c: Config, calls: seq<Call>, vs: seq<Verdict>, call: Call)
    requires Sane(c) && |vs| == |calls| && forall m :: 0 <= m < |calls| ==> calls[m].key != call.key
    ensures var (d, v) := Spend(c, Bucket(c.burst, call.now), call.now);
            HoldsLeast(c, calls + [call], vs + [v], call.key, d) && v.ok
  {
    var (d, v) := Spend(c, Bucket(c.burst, call.now), call.now);
    NoGain(c, call.now);
    hide Gain, LeftSince;
    LeftNow(c, calls, vs, call, v, call.key);
    var all := calls + [call];
    assert all[|calls|] == call;
    assert forall m :: 0 <= m < |calls| ==> all[m] == calls[m];
  }

  predicate Called(calls: seq<Call>, key: string) {
    exists m :: 0 <= m < |calls| && calls[m].key == key
  }

  /** Every bucket of the never-sweeping limiter holds the least of what is left. */
  lemma {:induction false} PlainHoldsLeast(c: Config, calls: seq<Call>, key: string)
    requires Sane(c)
    ensures key in PlainKeys(c, calls) <==> Called(calls, key)
    ensures key in PlainKeys(c, calls) ==> HoldsLeast(c, calls, PlainVerdicts(c, calls), key, PlainKeys(c, calls)[key])
  {
    if calls != [] {
      hide Spend, HoldsLeast;
      var n := |calls| - 1;
      var init, call := calls[..n], calls[n];
      var keys, vs := PlainKeys(c, init), PlainVerdicts(c, init);
      PlainHoldsLeast(c, init, key);
      assert calls == init + [call];
      var v := Plain(c, keys, call).1;
      assert PlainVerdicts(c, calls) == vs + [v];
      CalledNext(init, call, key);
      if call.key != key {
        if key in keys { OthersTakeNothing(c, init, vs, call, v, key, keys[key]); }
      } else if key in keys {
        SpendsLeast(c, init, vs, call, keys[key]);
      } else {
        FirstSpends(c, init, vs, call);
      }
    }
  }

  lemma CalledNext(calls: seq<Call>, call: Call, key: string)
    ensures Called(calls + [call], key) <==> Called(calls, key) || call.key == key
  {
    var all := calls + [call];
    assert all[|calls|] == call;
    if Called(calls, key) {
      var m :| 0 <= m < |calls| && calls[m].key == key;
      assert all[m].key == key;
    }
    if Called(all, key) {
      var m :| 0 <= m < |all| && all[m].key == key;
      assert m < |calls| ==> calls[m].key == key;
    }
  }

  /** Calls per second times the seconds between two instants. */
  function RateTimesTime(c: Config, from: int, to: int): real {
    (to - from) as real / 1_000_000_000.0 * c.rps
  }

  /** Counted from the m-th call on, one more stays within the burst plus the rate times the time since then. */
  predicate Fits(c: Config, calls: seq<Call>, vs: seq<Verdict>, m: nat, call: Call)
    requires |vs| == |calls| && m < |calls|
  {
    (AdmittedFrom(calls, vs, call.key, m) + 1) as real <= c.burst + RateTimesTime(c, calls[m].now, call.now)
  }

  lemma GainIs(c: Config, from: int, to: int)
    ensures Gain(c, from, to) == RateTimesTime(c, from, to)
  {
  }

  lemma FitsIs(c: Config, calls: seq<Call>, vs: seq<Verdict>, m: nat, call: Call)
    requires |vs| == |calls| && m < |calls|
    ensures Fits(c, calls, vs, m, call) <==> LeftSince(c, calls, vs, call.key, m, call.now) >= 1.0
  {
    hide AdmittedFrom, Gain, RateTimesTime;
    GainIs(c, calls[m].now, call.now);
  }

  /**
   The exact rule. A call is let through if and only if, counted from each earlier call of its key on, the calls let
   through together with this one stay within the burst plus the rate times the time since then.
   */
  lemma {:induction false} AdmittedExactly(c: Config, calls: seq<Call>, n: nat)
    requires Sane(c) && Timely(calls) && n < |calls|
    ensures Verdicts(c, calls)[n].ok <==>
              forall m :: 0 <= m < n && calls[m].key == calls[n].key ==>
                Fits(c, calls[..n], Verdicts(c, calls[..n]), m, calls[n])
  {
    hide Spend, HoldsLeast, Fits, LeftSince, Verdicts, PlainVerdicts, PlainKeys, Timely;
    var init, call := calls[..n], calls[n];
    SweepIsUnobservable(c, calls);
    TimelyPrefix(calls, n);
    SweepIsUnobservable(c, init);
    VerdictAt(c, calls, n);
    var keys, vs := PlainKeys(c, init), PlainVerdicts(c, init);
    PlainHoldsLeast(c, init, call.key);
    assert forall m :: 0 <= m < n ==> init[m] == calls[m];
    if call.key in keys {
      SpendsLeast(c, init, vs, call, keys[call.key]);
      forall m | 0 <= m < n ensures Fits(c, init, vs, m, call) <==> LeftSince(c, init, vs, call.key, m, call.now) >= 1.0 {
        FitsIs(c, init, vs, m, call);
      }
    } else {
      FirstSpends(c, init, vs, call);
      assert forall m :: 0 <= m < n ==> calls[m].key != call.key;
    }
  }

  /** A key has its whole burst at once: a call is let through while fewer than the burst were let through before it. */
  lemma {:induction false} BurstPromised(c: Config, calls: seq<Call>, n: nat)
    requires Sane(c) && Timely(calls) && n < |calls|
    requires (AdmittedFrom(calls[..n], Verdicts(c, calls[..n]), calls[n].key, 0) + 1) as real <= c.burst
    ensures Verdicts(c, calls)[n].ok
  {
    hide Verdicts;
    AdmittedExactly(c, calls, n);
    var init, vs, call := calls[..n], Verdicts(c, calls[..n]), calls[n];
    forall m | 0 <= m < n ensures Fits(c, init, vs, m, call) {
      FewerLater(init, vs, call.key, m);
      GainGrows(c, init[m].now, call.now);
      GainIs(c, init[m].now, call.now);
    }
  }

  lemma {:induction false} FewerLater(calls: seq<Call>, vs: seq<Verdict>, key: string, m: nat)
    requires |vs| == |calls|
    ensures AdmittedFrom(calls, vs, key, m) <= AdmittedFrom(calls, vs, key, 0)
  {
    if calls != [] { FewerLater(calls[..|calls| - 1], vs[..|vs| - 1], key, m); }
  }

  lemma TimelyPrefix(calls: seq<Call>, n: nat)
    requires Timely(calls) && n <= |calls|
    ensures Timely(calls[..n])
  {
  }

  // ---- the Retry-After header ----

  /** `max(int(retry.Seconds()+0.5), 1)`: the wait rounded to the nearest second, and at least one. */
  function RetryAfter(wait: int): int
    requires wait >= 0
  {
    var s := (wait as real / SECOND as real + 0.5).Floor;
    if s < 1 then 1 else s
  }

  lemma RetryAfterIs(wait: int)
    requires wait >= 0
    ensures var s := (wait + SECOND / 2) / SECOND; RetryAfter(wait) == if s < 1 then 1 else s
  {
    var n := wait + SECOND / 2;
    assert wait as real / SECOND as real + 0.5 == n as real / SECOND as real;
    var q := n / SECOND;
    assert q * SECOND <= n < (q + 1) * SECOND;
    assert q as real <= n as real / SECOND as real < q as real + 1.0;
  }

  /** A wait of 1.4 seconds is announced as one second. */
  lemma RetryAfterTooEarly()
    ensures RetryAfter(1_400_000_000) == 1
  {
    RetryAfterIs(1_400_000_000);
  }

  /** Rounding to the nearest second can tell a client to come back too early; this is when it does not. */
  lemma RetryAfterCoversExactly(wait: int)
    requires wait >= 0
    ensures RetryAfter(wait) * SECOND >= wait
       <==> wait <= SECOND || wait % SECOND == 0 || wait % SECOND >= SECOND / 2
  {
    RetryAfterIs(wait);
    var q, r := wait / SECOND, wait % SECOND;
    assert wait == q * SECOND + r;
    assert (wait + SECOND / 2) / SECOND == if r >= SECOND / 2 then q + 1 else q;
  }
}
