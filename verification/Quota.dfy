/**
 The sliding-window quota tracker of config/quota.go. Time is an explicit argument, in nanoseconds.
 A stored list stands for a Go slice; `pruneEvents` compacts the slice's array in place.
 */
module Quota {

  const WINDOW: int := 60_000_000_000

  datatype TokenEvent = TokenEvent(at: int, tokens: int)

  /** The events after the cutoff, in order. */
  function Pruned(evs: seq<TokenEvent>, cutoff: int): (r: seq<TokenEvent>)
    ensures |r| <= |evs|
  {
    if evs == [] then []
    else Pruned(evs[..|evs| - 1], cutoff) + if evs[|evs| - 1].at > cutoff then [evs[|evs| - 1]] else []
  }

  function PrunedTimes(ts: seq<int>, cutoff: int): (r: seq<int>)
    ensures |r| <= |ts|
  {
    if ts == [] then []
    else PrunedTimes(ts[..|ts| - 1], cutoff) + if ts[|ts| - 1] > cutoff then [ts[|ts| - 1]] else []
  }

  /** What the old slice shows after an in-place prune whose result was not stored: same length, shifted front. */
  function Compacted(evs: seq<TokenEvent>, cutoff: int): (r: seq<TokenEvent>)
    ensures |r| == |evs|
  {
    Pruned(evs, cutoff) + evs[|Pruned(evs, cutoff)|..]
  }

  function CompactedTimes(ts: seq<int>, cutoff: int): (r: seq<int>)
    ensures |r| == |ts|
  {
    PrunedTimes(ts, cutoff) + ts[|PrunedTimes(ts, cutoff)|..]
  }

  function Sum(evs: seq<TokenEvent>): int {
    if evs == [] then 0 else Sum(evs[..|evs| - 1]) + evs[|evs| - 1].tokens
  }

  method PruneEvents(evs: seq<TokenEvent>, cutoff: int) returns (valid: seq<TokenEvent>)
    ensures valid == Pruned(evs, cutoff)
  {
    valid := [];
    var i := 0;
    while i < |evs|
      invariant 0 <= i <= |evs|
      invariant valid == Pruned(evs[..i], cutoff)
    {
      assert evs[..i + 1][..i] == evs[..i];
      if evs[i].at > cutoff {
        valid := valid + [evs[i]];
      }
      i := i + 1;
    }
    assert evs[..i] == evs;
  }

  method PruneTimes(ts: seq<int>, cutoff: int) returns (valid: seq<int>)
    ensures valid == PrunedTimes(ts, cutoff)
  {
    valid := [];
    var i := 0;
    while i < |ts|
      invariant 0 <= i <= |ts|
      invariant valid == PrunedTimes(ts[..i], cutoff)
    {
      assert ts[..i + 1][..i] == ts[..i];
      if ts[i] > cutoff {
        valid := valid + [ts[i]];
      }
      i := i + 1;
    }
    assert ts[..i] == ts;
  }

  method SumEvents(evs: seq<TokenEvent>) returns (used: int)
    ensures used == Sum(evs)
  {
    used := 0;
    var i := 0;
    while i < |evs|
      invariant 0 <= i <= |evs|
      invariant used == Sum(evs[..i])
    {
      assert evs[..i + 1][..i] == evs[..i];
      used := used + evs[i].tokens;
      i := i + 1;
    }
    assert evs[..i] == evs;
  }

  // ---- The tracker's state as a value

  datatype Limits = Limits(tpm: int, rpm: int)  // 0 = unlimited

  datatype Tracker = Tracker(tokens: map<string, seq<TokenEvent>>, requests: map<string, seq<int>>, reserved: map<string, int>)

  const Empty: Tracker := Tracker(map[], map[], map[])

  function Events(t: Tracker, id: string): seq<TokenEvent> {
    if id in t.tokens then t.tokens[id] else []
  }

  function Requests(t: Tracker, id: string): seq<int> {
    if id in t.requests then t.requests[id] else []
  }

  function Reserved(t: Tracker, id: string): int {
    if id in t.reserved then t.reserved[id] else 0
  }

  function Allowed(t: Tracker, id: string, lim: Limits, now: int): (Tracker, bool) {
    var cutoff := now - WINDOW;
    if lim.tpm <= 0 && lim.rpm <= 0 then (t, true)
    else
      var reqs := PrunedTimes(Requests(t, id), cutoff);
      var t1 := if lim.rpm > 0 then t.(requests := t.requests[id := reqs]) else t;
      if lim.rpm > 0 && |reqs| >= lim.rpm then (t1, false)
      else if lim.tpm <= 0 then (t1, true)
      else
        var evs := Pruned(Events(t, id), cutoff);
        (t1.(tokens := t1.tokens[id := evs]), Sum(evs) < lim.tpm)
  }

  function RequestRecorded(t: Tracker, id: string, now: int): Tracker {
    t.(requests := t.requests[id := PrunedTimes(Requests(t, id), now - WINDOW) + [now]])
  }

  function Reserving(t: Tracker, id: string, lim: Limits, estimate: int, now: int): (Tracker, bool) {
    if estimate <= 0 || lim.tpm <= 0 then (t, true)
    else
      var evs := Pruned(Events(t, id), now - WINDOW);
      var t1 := t.(tokens := t.tokens[id := evs]);
      if Sum(evs) + Reserved(t, id) + estimate > lim.tpm then (t1, false)
      else (t1.(reserved := t.reserved[id := Reserved(t, id) + estimate]), true)
  }

  function Completed(t: Tracker, id: string, reservedTokens: int, actual: int, now: int): Tracker {
    var left := Reserved(t, id) - reservedTokens;
    var t1 := if reservedTokens > 0 then t.(reserved := t.reserved[id := if left < 0 then 0 else left]) else t;
    if actual > 0 then t1.(tokens := t1.tokens[id := Pruned(Events(t, id), now - WINDOW) + [TokenEvent(now, actual)]])
    else t1
  }

  /** Usage prunes the stored arrays in place and keeps the old slices. */
  function UsageSeen(t: Tracker, id: string, now: int): Tracker {
    var t1 := if id in t.tokens then t.(tokens := t.tokens[id := Compacted(t.tokens[id], now - WINDOW)]) else t;
    if id in t.requests then t1.(requests := t.requests[id := CompactedTimes(t.requests[id], now - WINDOW)]) else t1
  }

  class QuotaTracker {
    const limits: string -> Limits
    var tokens: map<string, seq<TokenEvent>>
    var requests: map<string, seq<int>>
    var reserved: map<string, int>

    ghost function Abs(): Tracker
      reads this
    {
      Tracker(tokens, requests, reserved)
    }

    constructor (limits: string -> Limits)
      ensures this.limits == limits && Abs() == Empty
    {
      this.limits := limits;
      tokens, requests, reserved := map[], map[], map[];
    }

    method TokenList(id: string) returns (r: seq<TokenEvent>)
      ensures r == Events(Abs(), id)
    {
      r := if id in tokens then tokens[id] else [];
    }

    method RequestList(id: string) returns (r: seq<int>)
      ensures r == Requests(Abs(), id)
    {
      r := if id in requests then requests[id] else [];
    }

    method Allow(id: string, now: int) returns (ok: bool)
      modifies this`tokens, this`requests
      ensures (Abs(), ok) == Allowed(old(Abs()), id, limits(id), now)
    {
      hide Pruned, PrunedTimes, Sum;
      var lim := limits(id);
      if lim.tpm <= 0 && lim.rpm <= 0 {
        return true;
      }
      var cutoff := now - WINDOW;
      if lim.rpm > 0 {
        var list := RequestList(id);
        var reqs := PruneTimes(list, cutoff);
        requests := requests[id := reqs];
        if |reqs| >= lim.rpm {
          return false;
        }
      }
      if lim.tpm > 0 {
        var list := TokenList(id);
        var evs := PruneEvents(list, cutoff);
        tokens := tokens[id := evs];
        var used := SumEvents(evs);
        if used >= lim.tpm {
          return false;
        }
      }
      return true;
    }

    method RecordRequest(id: string, now: int)
      modifies this`requests
      ensures Abs() == RequestRecorded(old(Abs()), id, now)
    {
      var list := RequestList(id);
      var kept := PruneTimes(list, now - WINDOW);
      requests := requests[id := kept + [now]];
    }

    method Reserve(id: string, estimate: int, now: int) returns (ok: bool)
      modifies this`tokens, this`reserved
      ensures (Abs(), ok) == Reserving(old(Abs()), id, limits(id), estimate, now)
    {
      hide Pruned, Sum;
      if estimate <= 0 {
        return true;
      }
      var lim := limits(id);
      if lim.tpm <= 0 {
        return true;
      }
      var list := TokenList(id);
      var evs := PruneEvents(list, now - WINDOW);
      tokens := tokens[id := evs];
      var used := SumEvents(evs);
      var held := if id in reserved then reserved[id] else 0;
      if used + held + estimate > lim.tpm {
        return false;
      }
      reserved := reserved[id := held + estimate];
      return true;
    }

    method Complete(id: string, reservedTokens: int, actual: int, now: int)
      modifies this`tokens, this`reserved
      ensures Abs() == Completed(old(Abs()), id, reservedTokens, actual, now)
    {
      if reservedTokens > 0 {
        var left := (if id in reserved then reserved[id] else 0) - reservedTokens;
        reserved := reserved[id := left];
        if reserved[id] < 0 {
          reserved := reserved[id := 0];
        }
      }
      if actual > 0 {
        var list := TokenList(id);
        var kept := PruneEvents(list, now - WINDOW);
        tokens := tokens[id := kept + [TokenEvent(now, actual)]];
      }
    }

    method Usage(id: string, now: int) returns (used: int, count: nat)
      modifies this`tokens, this`requests
      ensures Abs() == UsageSeen(old(Abs()), id, now)
      ensures used == Sum(Pruned(Events(old(Abs()), id), now - WINDOW))
      ensures count == |PrunedTimes(Requests(old(Abs()), id), now - WINDOW)|
    {
      hide Pruned, PrunedTimes, Sum;
      var list := TokenList(id);
      var evs := PruneEvents(list, now - WINDOW);
      if id in tokens {
        tokens := tokens[id := evs + list[|evs|..]];
      }
      used := SumEvents(evs);
      var times := RequestList(id);
      var kept := PruneTimes(times, now - WINDOW);
      if id in requests {
        requests := requests[id := kept + times[|kept|..]];
      }
      count := |kept|;
    }
  }

  // ---- The window

  /** Tokens of the events still inside the window at time `now`. */
  function Live(evs: seq<TokenEvent>, now: int): int {
    Sum(Pruned(evs, now - WINDOW))
  }

  predicate Positive(evs: seq<TokenEvent>) {
    forall i :: 0 <= i < |evs| ==> evs[i].tokens > 0
  }

  lemma {:induction false} PrunedAppend(a: seq<TokenEvent>, b: seq<TokenEvent>, cutoff: int)
    ensures Pruned(a + b, cutoff) == Pruned(a, cutoff) + Pruned(b, cutoff)
  {
    if b == [] {
      assert a + b == a;
    } else {
      var n := |b| - 1;
      assert (a + b)[..|a + b| - 1] == a + b[..n] && (a + b)[|a + b| - 1] == b[n];
      PrunedAppend(a, b[..n], cutoff);
    }
  }

  lemma {:induction false} SumAppend(a: seq<TokenEvent>, b: seq<TokenEvent>)
    ensures Sum(a + b) == Sum(a) + Sum(b)
  {
    if b == [] {
      assert a + b == a;
    } else {
      var n := |b| - 1;
      assert (a + b)[..|a + b| - 1] == a + b[..n] && (a + b)[|a + b| - 1] == b[n];
      SumAppend(a, b[..n]);
    }
  }

  /** Pruning twice is pruning at the later cutoff, so a prune now loses nothing a later window would count. */
  lemma {:induction false} PrunedTwice(evs: seq<TokenEvent>, early: int, late: int)
    requires early <= late
    ensures Pruned(Pruned(evs, early), late) == Pruned(evs, late)
  {
    if evs != [] {
      var n := |evs| - 1;
      PrunedTwice(evs[..n], early, late);
      if evs[n].at > early {
        PrunedAppend(Pruned(evs[..n], early), [evs[n]], late);
        assert [evs[n]][..0] == [];
      } else {
        assert Pruned(evs[..n], early) + [] == Pruned(evs[..n], early);
        assert Pruned(evs[..n], late) + [] == Pruned(evs[..n], late);
      }
    }
  }

  lemma {:induction false} PrunedPositive(evs: seq<TokenEvent>, cutoff: int)
    requires Positive(evs)
    ensures Positive(Pruned(evs, cutoff))
  {
    if evs != [] { PrunedPositive(evs[..|evs| - 1], cutoff); }
  }

  lemma {:induction false} SumNonNegative(evs: seq<TokenEvent>)
    requires Positive(evs)
    ensures Sum(evs) >= 0 && (evs != [] ==> Sum(evs) > 0)
  {
    if evs != [] { SumNonNegative(evs[..|evs| - 1]); }
  }

  /** Window usage only falls as time passes. */
  lemma {:induction false} LiveFalls(evs: seq<TokenEvent>, now: int, later: int)
    requires now <= later && Positive(evs)
    ensures Live(evs, later) <= Live(evs, now)
  {
    if evs != [] {
      var n := |evs| - 1;
      LiveFalls(evs[..n], now, later);
      SumSnoc(Pruned(evs[..n], now - WINDOW), evs[n]);
      SumSnoc(Pruned(evs[..n], later - WINDOW), evs[n]);
    }
  }

  lemma {:induction false} SumSnoc(evs: seq<TokenEvent>, e: TokenEvent)
    ensures Sum(evs + [e]) == Sum(evs) + e.tokens && Sum(evs + []) == Sum(evs)
  {
    assert (evs + [e])[..|evs|] == evs;
    assert evs + [] == evs;
  }

  lemma LiveOfPruned(evs: seq<TokenEvent>, now: int, later: int)
    requires now <= later
    ensures Live(Pruned(evs, now - WINDOW), later) == Live(evs, later)
  {
    PrunedTwice(evs, now - WINDOW, later - WINDOW);
  }

  lemma LiveSnoc(evs: seq<TokenEvent>, e: TokenEvent, now: int)
    ensures Live(evs + [e], now) == Live(evs, now) + if e.at > now - WINDOW then e.tokens else 0
  {
    PrunedAppend(evs, [e], now - WINDOW);
    assert [e][..0] == [];
    SumSnoc(Pruned(evs, now - WINDOW), e);
  }

  /** The compacted slice still holds every live event, so it never under-counts. */
  lemma LiveOfCompacted(evs: seq<TokenEvent>, now: int, later: int)
    requires now <= later && Positive(evs)
    ensures Live(Compacted(evs, now - WINDOW), later) >= Live(evs, later)
    ensures Positive(Compacted(evs, now - WINDOW))
  {
    var p := Pruned(evs, now - WINDOW);
    var rest := evs[|p|..];
    PrunedAppend(p, rest, later - WINDOW);
    SumAppend(Pruned(p, later - WINDOW), Pruned(rest, later - WINDOW));
    LiveOfPruned(evs, now, later);
    PrunedPositive(evs, now - WINDOW);
    PrunedPositive(rest, later - WINDOW);
    SumNonNegative(Pruned(rest, later - WINDOW));
  }

  /** Reading the usage adds the live events behind the compacted front to every later count. */
  lemma UsageOverCount(evs: seq<TokenEvent>, now: int)
    ensures Live(Compacted(evs, now - WINDOW), now) == Live(evs, now) + Live(evs[|Pruned(evs, now - WINDOW)|..], now)
  {
    var p := Pruned(evs, now - WINDOW);
    PrunedAppend(p, evs[|p|..], now - WINDOW);
    PrunedTwice(evs, now - WINDOW, now - WINDOW);
    SumAppend(p, Pruned(evs[|p|..], now - WINDOW));
  }

  /** No event is newer than the last one. A usage read keeps this, though it does not keep a list in time order. */
  predicate NewestLast(evs: seq<TokenEvent>) {
    forall i :: 0 <= i < |evs| ==> evs[i].at <= evs[|evs| - 1].at
  }

  lemma {:induction false} PrunedFrom(evs: seq<TokenEvent>, cutoff: int)
    ensures forall e :: e in Pruned(evs, cutoff) <==> e in evs && e.at > cutoff
  {
    if evs != [] {
      PrunedFrom(evs[..|evs| - 1], cutoff);
      assert evs == evs[..|evs| - 1] + [evs[|evs| - 1]];
    }
  }

  lemma {:induction false} LastIsLive(evs: seq<TokenEvent>, cutoff: int)
    requires NewestLast(evs) && Pruned(evs, cutoff) != []
    ensures evs != [] && evs[|evs| - 1].at > cutoff
    ensures var p := Pruned(evs, cutoff); p[|p| - 1] == evs[|evs| - 1]
  {
    PrunedFrom(evs, cutoff);
    var e := Pruned(evs, cutoff)[0];
    assert e in Pruned(evs, cutoff);
    var i :| 0 <= i < |evs| && evs[i] == e;
  }

  lemma {:induction false} PrunedNewestLast(evs: seq<TokenEvent>, cutoff: int)
    requires NewestLast(evs)
    ensures NewestLast(Pruned(evs, cutoff))
  {
    var p := Pruned(evs, cutoff);
    if p != [] {
      LastIsLive(evs, cutoff);
      PrunedFrom(evs, cutoff);
      forall i | 0 <= i < |p| ensures p[i].at <= p[|p| - 1].at {
        assert p[i] in p;
        var j :| 0 <= j < |evs| && evs[j] == p[i];
      }
    }
  }

  /** What a usage read leaves behind holds old events only, the newest still last. */
  lemma CompactedNewestLast(evs: seq<TokenEvent>, cutoff: int)
    requires NewestLast(evs)
    ensures NewestLast(Compacted(evs, cutoff)) && forall e :: e in Compacted(evs, cutoff) ==> e in evs
  {
    PrunedFrom(evs, cutoff);
    var p, c := Pruned(evs, cutoff), Compacted(evs, cutoff);
    var rest := evs[|p|..];
    assert c == p + rest;
    if |p| == |evs| {
      PrunedNothing(evs, cutoff);
      assert c == evs;
    } else {
      assert c[|c| - 1] == evs[|evs| - 1];
      forall i | 0 <= i < |c| ensures c[i] in evs && c[i].at <= c[|c| - 1].at {
        if i < |p| {
          assert c[i] == p[i] && p[i] in p;
        } else {
          assert c[i] == evs[i];
        }
        var j :| 0 <= j < |evs| && evs[j] == c[i];
      }
    }
  }

  lemma {:induction false} PrunedNothing(evs: seq<TokenEvent>, cutoff: int)
    requires |Pruned(evs, cutoff)| == |evs|
    ensures Pruned(evs, cutoff) == evs
  {
    if evs != [] { PrunedNothing(evs[..|evs| - 1], cutoff); }
  }

  /**
   The promise that reading usage does not change it is false of the code. It holds, for a list whose newest event is
   last, as every stored list is, exactly when the window has expired all of its events or none.
   */
  lemma UsageHarmlessExactly(evs: seq<TokenEvent>, now: int)
    requires NewestLast(evs) && Positive(evs)
    ensures Live(Compacted(evs, now - WINDOW), now) == Live(evs, now)
       <==> Pruned(evs, now - WINDOW) == [] || Pruned(evs, now - WINDOW) == evs
  {
    var cutoff := now - WINDOW;
    var p := Pruned(evs, cutoff);
    var rest := evs[|p|..];
    UsageOverCount(evs, now);
    if p == [] {
      assert rest == evs;
    } else if |p| == |evs| {
      PrunedNothing(evs, cutoff);
      assert rest == [];
    } else {
      LastIsLive(evs, cutoff);
      var n := |rest| - 1;
      assert rest[n] == evs[|evs| - 1];
      assert Pruned(rest, cutoff) == Pruned(rest[..n], cutoff) + [rest[n]];
      PrunedPositive(rest, cutoff);
      SumNonNegative(Pruned(rest, cutoff));
    }
  }

  /** One expired and one live event: after a read, the live one counts twice. */
  lemma UsageCountsTwice()
    ensures var evs := [TokenEvent(0, 5), TokenEvent(WINDOW, 7)];
            Live(evs, WINDOW + 1) == 7 && Live(Compacted(evs, 1), WINDOW + 1) == 14
  {
    var evs := [TokenEvent(0, 5), TokenEvent(WINDOW, 7)];
    assert evs[..1] == [TokenEvent(0, 5)] && [TokenEvent(0, 5)][..0] == [];
    assert Pruned(evs[..1], 1) == [];
    assert Pruned(evs, 1) == [TokenEvent(WINDOW, 7)];
    var c := [TokenEvent(WINDOW, 7), TokenEvent(WINDOW, 7)];
    assert Compacted(evs, 1) == c;
    assert c[..1] == [TokenEvent(WINDOW, 7)] && [TokenEvent(WINDOW, 7)][..0] == [];
    assert Pruned(c[..1], 1) == [TokenEvent(WINDOW, 7)];
    assert Pruned(c, 1) == c;
    assert Sum(c[..1]) == 7;
  }

  predicate InTimeOrder(evs: seq<TokenEvent>) {
    forall i, j :: 0 <= i < j < |evs| ==> evs[i].at <= evs[j].at
  }

  /** Two expired and two live events in time order: a read leaves them out of order. */
  lemma UsageBreaksOrder()
    ensures var evs := [TokenEvent(0, 5), TokenEvent(1, 5), TokenEvent(WINDOW, 7), TokenEvent(WINDOW + 1, 8)];
            && InTimeOrder(evs) && !InTimeOrder(Compacted(evs, 2))
            && Compacted(evs, 2) == [evs[2], evs[3], evs[2], evs[3]]
  {
    var a, b, c, d := TokenEvent(0, 5), TokenEvent(1, 5), TokenEvent(WINDOW, 7), TokenEvent(WINDOW + 1, 8);
    var evs := [a, b, c, d];
    assert evs[..3] == [a, b, c] && [a, b, c][..2] == [a, b] && [a, b][..1] == [a] && [a][..0] == [];
    assert Pruned([a], 2) == [] && Pruned([a, b], 2) == [] && Pruned([a, b, c], 2) == [c];
    assert Pruned(evs, 2) == [c, d];
    var r := Compacted(evs, 2);
    assert r == [c, d, c, d];
    assert r[1].at > r[2].at;
  }
}
