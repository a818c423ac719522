/**
 The failure-driven cooldown of config/ratelimit.go. Times and durations are nanoseconds; `over` is what the
 per-server override lookup answers at that moment (zero or less when there is none).
 */
module Cooldown {
  import opened Wrappers

  const SECOND: int := 1_000_000_000
  const HOUR: int := 3600 * SECOND

  datatype Kind = Immediate | Server | Client

  datatype Entry = Entry(at: int, kind: Kind)

  datatype State = State(
    failures: map<string, seq<Entry>>,
    cooldown: map<string, int>,
    reason: map<string, string>,
    maxFails: int,
    maxFails4xx: int,
    window: int,
    length: int)

  datatype Op =
    | Fail(id: string, now: int, status: int, hints: seq<int>, over: int)
    | Succeed(id: string)
    | Clear(id: string)
    | Tune(maxFails: int, length: int)

  /** `classifyFailure`. */
  function Classify(status: int): Kind {
    if status == 429 || status == 401 || status == 403 then Immediate
    else if status == 0 then Server
    else if status >= 500 then Server
    else Client
  }

  function StatusText(status: int): string {
    if status == 429 then "Too Many Requests" else if status == 401 then "Unauthorized" else "Forbidden"
  }

  /** `clampHint`: zero stands for no hint. */
  function ClampHint(hints: seq<int>): (r: int)
    ensures r == 0 || SECOND <= r <= HOUR
    ensures r == 0 <==> hints == [] || hints[0] <= 0
    ensures hints != [] && SECOND <= hints[0] <= HOUR ==> r == hints[0]
    ensures hints != [] && 0 < hints[0] < SECOND ==> r == SECOND
    ensures hints != [] && hints[0] > HOUR ==> r == HOUR
  {
    if hints == [] then 0
    else if hints[0] <= 0 then 0
    else if hints[0] < SECOND then SECOND
    else if hints[0] > HOUR then HOUR
    else hints[0]
  }

  function Threshold(st: State, kind: Kind): int {
    if kind.Client? then st.maxFails4xx else st.maxFails
  }

  /** The entries after the cutoff, in order. */
  function Kept(es: seq<Entry>, cutoff: int): seq<Entry> {
    if es == [] then []
    else Kept(es[..|es| - 1], cutoff) + if es[|es| - 1].at > cutoff then [es[|es| - 1]] else []
  }

  function CountKind(es: seq<Entry>, kind: Kind): nat {
    if es == [] then 0
    else CountKind(es[..|es| - 1], kind) + if es[|es| - 1].kind == kind then 1 else 0
  }

  function Entries(st: State, id: string): seq<Entry> {
    if id in st.failures then st.failures[id] else []
  }

  /** `cooldownDuration` and the hint that may replace the global value. */
  function Length(global: int, kind: Kind, hints: seq<int>, over: int): (r: int)
    ensures over > 0 ==> r == over
    ensures over <= 0 && kind.Immediate? && ClampHint(hints) > 0 ==> r == ClampHint(hints)
    ensures over <= 0 && (!kind.Immediate? || ClampHint(hints) == 0) ==> r == global
  {
    var dur := if over > 0 then over else global;
    if kind.Immediate? && ClampHint(hints) > 0 && !(over > 0) then ClampHint(hints) else dur
  }

  /** The state after a failure, and whether it put the server into cooldown. */
  function Failed(st: State, op: Op): (State, bool)
    requires op.Fail?
  {
    var kind := Classify(op.status);
    var valid := Kept(Entries(st, op.id), op.now - st.window) + [Entry(op.now, kind)];
    var noted := st.(failures := st.failures[op.id := valid]);
    if (kind.Immediate? || CountKind(valid, kind) >= Threshold(st, kind))
       && (op.id !in st.cooldown || op.now > st.cooldown[op.id])
    then
      (noted.(cooldown := st.cooldown[op.id := op.now + Length(st.length, kind, op.hints, op.over)],
              reason := st.reason[op.id := if kind.Immediate? then "status " + StatusText(op.status) else "failures"]),
       true)
    else (noted, false)
  }

  function Cleared(st: State, id: string): State {
    st.(failures := st.failures - {id}, cooldown := st.cooldown - {id}, reason := st.reason - {id})
  }

  function Tuned(st: State, maxFails: int, length: int): State {
    var t := if maxFails > 0 then st.(maxFails := maxFails, maxFails4xx := maxFails * 2) else st;
    if length > 0 then t.(length := length) else t
  }

  function Step(st: State, op: Op): State {
    match op
    case Fail(_, _, _, _, _) => Failed(st, op).0
    case Succeed(id) => Cleared(st, id)
    case Clear(id) => Cleared(st, id)
    case Tune(maxFails, length) => Tuned(st, maxFails, length)
  }

  predicate Skips(st: State, id: string, now: int) {
    id in st.cooldown && now < st.cooldown[id]
  }

  class RateLimiter {
    var failures: map<string, seq<Entry>>
    var cooldown: map<string, int>
    var reason: map<string, string>
    var maxFails: int
    var maxFails4xx: int
    const window: int
    var length: int

    function Value(): State
      reads this
    {
      State(failures, cooldown, reason, maxFails, maxFails4xx, window, length)
    }

    constructor (maxFails: int, window: int, length: int)
      ensures Value() == Fresh(maxFails, window, length)
    {
      this.failures, this.cooldown, this.reason := map[], map[], map[];
      this.maxFails, this.maxFails4xx, this.window, this.length := maxFails, maxFails * 2, window, length;
    }

    method SetThresholds(maxFails: int, length: int)
      modifies this
      ensures Value() == Tuned(old(Value()), maxFails, length)
    {
      if maxFails > 0 {
        this.maxFails := maxFails;
        this.maxFails4xx := maxFails * 2;
      }
      if length > 0 {
        this.length := length;
      }
    }

    method ShouldSkip(id: string, now: int) returns (skip: bool)
      ensures skip <==> Skips(Value(), id, now)
    {
      if id !in cooldown {
        return false;
      }
      return now < cooldown[id];
    }

    method RecordSuccess(id: string)
      modifies this
      ensures Value() == Cleared(old(Value()), id)
    {
      failures := failures - {id};
      cooldown := cooldown - {id};
      reason := reason - {id};
    }

    method ClearCooldown(id: string)
      modifies this
      ensures Value() == Cleared(old(Value()), id)
    {
      cooldown := cooldown - {id};
      reason := reason - {id};
      failures := failures - {id};
    }

    method RecordFailure(id: string, now: int, status: int, hints: seq<int>, over: int) returns (cooled: bool)
      modifies this
      ensures (Value(), cooled) == Failed(old(Value()), Fail(id, now, status, hints, over))
    {
      hide Kept, CountKind, Classify, ClampHint, StatusText;
      var kind := Classify(status);
      var entries := if id in failures then failures[id] else [];
      var valid := Prune(entries, now - window);
      valid := valid + [Entry(now, kind)];
      failures := failures[id := valid];
      var threshold := if kind.Client? then maxFails4xx else maxFails;
      var count := Tally(valid, kind);
      if kind.Immediate? || count >= threshold {
        if id !in cooldown || now > cooldown[id] {
          var why := "failures";
          var dur := if over > 0 then over else length;
          if kind.Immediate? {
            why := "status " + StatusText(status);
            if ClampHint(hints) > 0 && !(over > 0) {
              dur := ClampHint(hints);
            }
          }
          cooldown := cooldown[id := now + dur];
          reason := reason[id := why];
          return true;
        }
      }
      return false;
    }
  }

  method Prune(es: seq<Entry>, cutoff: int) returns (valid: seq<Entry>)
    ensures valid == Kept(es, cutoff)
  {
    valid := [];
    for i := 0 to |es|
      invariant valid == Kept(es[..i], cutoff)
    {
      assert es[..i + 1][..i] == es[..i];
      if es[i].at > cutoff {
        valid := valid + [es[i]];
      }
    }
    assert es[..|es|] == es;
  }

  method Tally(es: seq<Entry>, kind: Kind) returns (count: nat)
    ensures count == CountKind(es, kind)
  {
    count := 0;
    for i := 0 to |es|
      invariant count == CountKind(es[..i], kind)
    {
      assert es[..i + 1][..i] == es[..i];
      if es[i].kind == kind {
        count := count + 1;
      }
    }
    assert es[..|es|] == es;
  }

  // ---- runs, and the same decisions made on the whole history ----

  function Fresh(maxFails: int, window: int, length: int): State {
    State(map[], map[], map[], maxFails, maxFails * 2, window, length)
  }

  function Run(st: State, ops: seq<Op>): State {
    if ops == [] then st else Step(Run(st, ops[..|ops| - 1]), ops[|ops| - 1])
  }

  /** Failures come with a clock that does not go back. */
  predicate Timely(ops: seq<Op>) {
    forall i, j :: 0 <= i < j < |ops| && ops[i].Fail? && ops[j].Fail? ==> ops[i].now <= ops[j].now
  }

  predicate Clears(op: Op, id: string) {
    (op.Succeed? || op.Clear?) && op.id == id
  }

  /** Every failure of the server since it was last cleared, none forgotten. */
  function Since(ops: seq<Op>, id: string): seq<Entry> {
    if ops == [] then []
    else
      var op, before := ops[|ops| - 1], Since(ops[..|ops| - 1], id);
      if Clears(op, id) then []
      else if op.Fail? && op.id == id then before + [Entry(op.now, Classify(op.status))]
      else before
  }

  /** The thresholds and the global length that the run has tuned to. */
  function MaxFails(ops: seq<Op>, initial: int): int {
    if ops == [] then initial
    else
      var op := ops[|ops| - 1];
      if op.Tune? && op.maxFails > 0 then op.maxFails else MaxFails(ops[..|ops| - 1], initial)
  }

  function Global(ops: seq<Op>, initial: int): int {
    if ops == [] then initial
    else
      var op := ops[|ops| - 1];
      if op.Tune? && op.length > 0 then op.length else Global(ops[..|ops| - 1], initial)
  }

  /** Whether this failure, with the whole history in view, is one too many. */
  predicate Trips(st: State, ops: seq<Op>)
    requires ops != [] && ops[|ops| - 1].Fail?
  {
    var op := ops[|ops| - 1];
    var kind := Classify(op.status);
    var limit := MaxFails(ops, st.maxFails) * if kind.Client? then 2 else 1;
    kind.Immediate? || CountKind(Seen(Since(ops, op.id), st.window), kind) >= limit
  }

  /** The failure that ends `ops` starts a cooldown: it is one too many and no earlier cooldown is unexpired. */
  predicate Cools(st: State, ops: seq<Op>)
    requires ops != [] && ops[|ops| - 1].Fail?
    decreases |ops|, 0
  {
    var op := ops[|ops| - 1];
    var before := Until(st, ops[..|ops| - 1], op.id);
    Trips(st, ops) && (before.None? || op.now > before.value)
  }

  /** When the server's latest cooldown since it was last cleared ends. */
  function Until(st: State, ops: seq<Op>, id: string): Option<int>
    decreases |ops|, 1
  {
    if ops == [] then None
    else
      var op, init := ops[|ops| - 1], ops[..|ops| - 1];
      if Clears(op, id) then None
      else if op.Fail? && op.id == id && Cools(st, ops)
      then Some(op.now + Length(Global(init, st.length), Classify(op.status), op.hints, op.over))
      else Until(st, init, id)
  }

  lemma {:induction false} KeptSnoc(es: seq<Entry>, e: Entry, cutoff: int)
    ensures Kept(es + [e], cutoff) == Kept(es, cutoff) + if e.at > cutoff then [e] else []
  {
    assert (es + [e])[..|es|] == es;
  }

  lemma {:induction false} KeptTwice(es: seq<Entry>, c: int, d: int)
    requires c <= d
    ensures Kept(Kept(es, c), d) == Kept(es, d)
  {
    if es != [] {
      var init, last := es[..|es| - 1], es[|es| - 1];
      KeptTwice(init, c, d);
      if last.at > c {
        KeptSnoc(Kept(init, c), last, d);
      } else {
        assert Kept(es, c) == Kept(init, c) && Kept(es, d) == Kept(init, d);
      }
    }
  }

  /** The history's newest entry is one of the run's failures. */
  lemma {:induction false} NewestIsOp(ops: seq<Op>, id: string)
    requires Since(ops, id) != []
    ensures var es := Since(ops, id); exists i :: 0 <= i < |ops| && ops[i].Fail? && ops[i].now == es[|es| - 1].at
  {
    var init, op := ops[..|ops| - 1], ops[|ops| - 1];
    if op.Fail? && op.id == id {
      assert ops[|ops| - 1].now == op.now;
    } else {
      NewestIsOp(init, id);
      var es := Since(ops, id);
      var i :| 0 <= i < |init| && init[i].Fail? && init[i].now == es[|es| - 1].at;
      assert ops[i] == init[i];
    }
  }

  /** What the newest failure sees: itself and the earlier failures inside its window. */
  function Seen(full: seq<Entry>, window: int): seq<Entry> {
    if full == [] then []
    else Kept(full[..|full| - 1], full[|full| - 1].at - window) + [full[|full| - 1]]
  }

  lemma {:induction false} SeenSnoc(full: seq<Entry>, window: int, e: Entry)
    ensures Seen(full + [e], window) == Kept(full, e.at - window) + [e]
  {
    assert (full + [e])[..|full|] == full;
  }

  lemma {:induction false} PruneAgain(full: seq<Entry>, window: int, e: Entry)
    requires full != [] ==> full[|full| - 1].at <= e.at
    ensures Kept(Seen(full, window), e.at - window) + [e] == Seen(full + [e], window)
  {
    hide Kept;
    var cut := e.at - window;
    SeenSnoc(full, window, e);
    if full != [] {
      var init, last := full[..|full| - 1], full[|full| - 1];
      assert full == init + [last];
      KeptSnoc(init, last, cut);
      KeptSnoc(Kept(init, last.at - window), last, cut);
      KeptTwice(init, last.at - window, cut);
    }
  }

  lemma StepEntries(st: State, op: Op, id: string)
    ensures Step(st, op).window == st.window
    ensures Entries(Step(st, op), id) ==
      if Clears(op, id) then []
      else if op.Fail? && op.id == id
      then Kept(Entries(st, id), op.now - st.window) + [Entry(op.now, Classify(op.status))]
      else Entries(st, id)
  {
    hide Kept, CountKind, Length, StatusText, Classify;
  }

  /** The list kept for a server is the whole history since its last clear, cut at the newest failure's window. */
  lemma {:induction false} PrunedIsHistory(st: State, ops: seq<Op>, id: string)
    requires st.failures == map[] && Timely(ops)
    ensures Entries(Run(st, ops), id) == Seen(Since(ops, id), st.window)
    ensures Run(st, ops).window == st.window
  {
    if ops != [] {
      hide Kept, Classify, Seen, Step;
      var init, op := ops[..|ops| - 1], ops[|ops| - 1];
      TimelyInit(ops);
      PrunedIsHistory(st, init, id);
      StepEntries(Run(st, init), op, id);
      if Clears(op, id) {
        SeenNothing(st.window);
      } else if op.Fail? && op.id == id {
        if Since(init, id) != [] {
          NewestIsOp(init, id);
        }
        PruneAgain(Since(init, id), st.window, Entry(op.now, Classify(op.status)));
      }
    } else {
      SeenNothing(st.window);
    }
  }

  lemma SeenNothing(window: int)
    ensures Seen([], window) == []
  {
  }

  lemma TimelyInit(ops: seq<Op>)
    requires ops != [] && Timely(ops)
    ensures Timely(ops[..|ops| - 1])
  {
  }

  lemma {:induction false} Tuning(st: State, ops: seq<Op>)
    requires st.maxFails4xx == st.maxFails * 2
    ensures var r := Run(st, ops);
            && r.maxFails == MaxFails(ops, st.maxFails) && r.maxFails4xx == 2 * MaxFails(ops, st.maxFails)
            && r.length == Global(ops, st.length)
  {
    if ops != [] {
      hide Kept, CountKind, Length, StatusText;
      Tuning(st, ops[..|ops| - 1]);
    }
  }

  function Cooling(st: State, id: string): Option<int> {
    if id in st.cooldown then Some(st.cooldown[id]) else None
  }

  /** One failure in terms of the list it finds. */
  lemma FailedIs(st: State, op: Op)
    requires op.Fail?
    ensures var kind, before := Classify(op.status), Cooling(st, op.id);
            var count := CountKind(Entries(Step(st, op), op.id), kind);
            Failed(st, op).1 <==> (kind.Immediate? || count >= Threshold(st, kind))
                                  && (before.None? || op.now > before.value)
  {
    hide Kept, CountKind, Length, StatusText, Classify;
  }

  lemma StepCooling(st: State, op: Op, id: string)
    ensures Cooling(Step(st, op), id) ==
      if Clears(op, id) then None
      else if op.Fail? && op.id == id && Failed(st, op).1
      then Some(op.now + Length(st.length, Classify(op.status), op.hints, op.over))
      else Cooling(st, id)
  {
    hide Kept, CountKind, Length, StatusText, Classify;
  }

  lemma {:induction false} TripsIs(st: State, ops: seq<Op>)
    requires st.failures == map[] && st.maxFails4xx == st.maxFails * 2 && Timely(ops)
    requires ops != [] && ops[|ops| - 1].Fail?
    ensures var op := ops[|ops| - 1];
            var r, kind := Run(st, ops[..|ops| - 1]), Classify(op.status);
            Trips(st, ops) <==>
              kind.Immediate? || CountKind(Entries(Step(r, op), op.id), kind) >= Threshold(r, kind)
  {
    hide Classify, CountKind, Step, Seen, Since, Timely, Entries;
    var op := ops[|ops| - 1];
    PrunedIsHistory(st, ops, op.id);
    Tuning(st, ops[..|ops| - 1]);
  }

  lemma {:induction false} RunNext(st: State, ops: seq<Op>)
    requires ops != []
    ensures Run(st, ops) == Step(Run(st, ops[..|ops| - 1]), ops[|ops| - 1])
  {
  }

  lemma UntilIs(st: State, ops: seq<Op>, id: string)
    requires ops != []
    ensures var op, init := ops[|ops| - 1], ops[..|ops| - 1];
            Until(st, ops, id) ==
              if Clears(op, id) then None
              else if op.Fail? && op.id == id && Cools(st, ops)
              then Some(op.now + Length(Global(init, st.length), Classify(op.status), op.hints, op.over))
              else Until(st, init, id)
  {
  }

  lemma {:induction false} CoolsIs(st: State, ops: seq<Op>)
    requires ops != [] && ops[|ops| - 1].Fail?
    ensures var op := ops[|ops| - 1];
            var before := Until(st, ops[..|ops| - 1], op.id);
            Cools(st, ops) <==> Trips(st, ops) && (before.None? || op.now > before.value)
  {
  }

  /** The pruning limiter decides as one that forgets nothing, and its cooldowns end when that one's do. */
  lemma {:induction false} RefinesHistory(st: State, ops: seq<Op>, id: string)
    requires st.failures == map[] && st.cooldown == map[]
    requires st.maxFails4xx == st.maxFails * 2 && Timely(ops)
    ensures Cooling(Run(st, ops), id) == Until(st, ops, id)
    ensures ops != [] && ops[|ops| - 1].Fail? ==>
              (Failed(Run(st, ops[..|ops| - 1]), ops[|ops| - 1]).1 <==> Cools(st, ops))
  {
    if ops != [] {
      hide Classify, Length, Trips, Step, Failed, CountKind, Entries, Timely, Run, Until, Cools, Cooling, Threshold,
           MaxFails, Global;
      var init, op := ops[..|ops| - 1], ops[|ops| - 1];
      var r := Run(st, init);
      RunNext(st, ops);
      UntilIs(st, ops, id);
      TimelyInit(ops);
      RefinesHistory(st, init, id);
      StepCooling(r, op, id);
      Tuning(st, init);
      if op.Fail? {
        RefinesHistory(st, init, op.id);
        TripsIs(st, ops);
        FailedIs(r, op);
        CoolsIs(st, ops);
      }
    }
  }

  // ---- what a caller sees over a whole run ----

  /** The i-th operation puts the server into cooldown. */
  predicate Starts(st: State, ops: seq<Op>, i: int, id: string) {
    0 <= i < |ops| && ops[i].Fail? && ops[i].id == id && Cools(st, ops[..i + 1])
  }

  /** When the cooldown that the i-th operation starts ends. */
  function End(st: State, ops: seq<Op>, i: int): int
    requires 0 <= i < |ops| && ops[i].Fail?
  {
    ops[i].now + Length(Global(ops[..i], st.length), Classify(ops[i].status), ops[i].hints, ops[i].over)
  }

  predicate Uncleared(ops: seq<Op>, i: int, j: int, id: string) {
    forall k :: i < k < j && 0 <= k < |ops| ==> !Clears(ops[k], id)
  }

  lemma {:induction false} UntilNext(st: State, ops: seq<Op>, j: nat, id: string)
    requires j < |ops|
    ensures Until(st, ops[..j + 1], id) ==
      if Clears(ops[j], id) then None
      else if Starts(st, ops, j, id) then Some(End(st, ops, j))
      else Until(st, ops[..j], id)
  {
    hide Length, Classify, Global, Trips;
    assert ops[..j + 1][..j] == ops[..j];
  }

  /** A started cooldown stands until it is cleared or a failure comes after its end. */
  lemma {:induction false} Stands(st: State, ops: seq<Op>, i: nat, j: nat, id: string)
    requires i < j <= |ops| && Starts(st, ops, i, id) && Uncleared(ops, i, j, id)
    ensures Until(st, ops[..j], id) == Some(End(st, ops, i))
         || exists k :: i < k < j && ops[k].Fail? && ops[k].now > End(st, ops, i)
    decreases j
  {
    hide End, Until;
    UntilNext(st, ops, j - 1, id);
    if i < j - 1 {
      Stands(st, ops, i, j - 1, id);
      if Starts(st, ops, j - 1, id) && Until(st, ops[..j - 1], id) == Some(End(st, ops, i)) {
        assert ops[..j][..j - 1] == ops[..j - 1];
        assert ops[j - 1].now > End(st, ops, i);
      }
    }
  }

  /** No failure moves an unexpired cooldown: of two starts without a clear between, the later is past the end. */
  lemma CooldownsDisjoint(st: State, ops: seq<Op>, i: nat, j: nat, id: string)
    requires Timely(ops) && i < j && Starts(st, ops, i, id) && Starts(st, ops, j, id) && Uncleared(ops, i, j, id)
    ensures ops[j].now > End(st, ops, i)
  {
    hide End, Until;
    Stands(st, ops, i, j, id);
    if Until(st, ops[..j], id) == Some(End(st, ops, i)) {
      assert ops[..j + 1][..j] == ops[..j];
    }
  }

  predicate Announced(st: State, ops: seq<Op>, i: int, id: string, t: int) {
    Starts(st, ops, i, id) && Uncleared(ops, i, |ops|, id) && t < End(st, ops, i)
  }

  lemma {:induction false} LatestStart(st: State, ops: seq<Op>, j: nat, id: string) returns (i: nat)
    requires j <= |ops| && Until(st, ops[..j], id).Some?
    ensures i < j && Starts(st, ops, i, id) && Uncleared(ops, i, j, id)
    ensures Until(st, ops[..j], id) == Some(End(st, ops, i))
  {
    if j == 0 {
      assert false;
    }
    UntilNext(st, ops, j - 1, id);
    hide End, Until;
    if Starts(st, ops, j - 1, id) {
      i := j - 1;
    } else {
      i := LatestStart(st, ops, j - 1, id);
    }
  }

  /** A server is skipped exactly inside a cooldown that some failure started and nothing has cleared since. */
  lemma {:induction false} SkipsExactly(st: State, ops: seq<Op>, id: string, t: int)
    requires st.failures == map[] && st.cooldown == map[] && st.maxFails4xx == st.maxFails * 2 && Timely(ops)
    requires forall k :: 0 <= k < |ops| && ops[k].Fail? ==> ops[k].now <= t
    ensures Skips(Run(st, ops), id, t) <==> exists i :: Announced(st, ops, i, id, t)
  {
    hide End, Until, Run, Starts;
    RefinesHistory(st, ops, id);
    assert ops[..|ops|] == ops;
    if Skips(Run(st, ops), id, t) {
      var i := LatestStart(st, ops, |ops|, id);
      assert Announced(st, ops, i, id, t);
    }
    forall i | Announced(st, ops, i, id, t) ensures Skips(Run(st, ops), id, t) {
      assert 0 <= i < |ops| && ops[i].Fail? by {
        StartsAt(st, ops, i, id);
      }
      Stands(st, ops, i, |ops|, id);
    }
  }

  lemma StartsAt(st: State, ops: seq<Op>, i: int, id: string)
    requires Starts(st, ops, i, id)
    ensures 0 <= i < |ops| && ops[i].Fail? && ops[i].id == id
  {
  }

  /** The classes of a failure, by its status; no answer at all has status 0. */
  predicate OfClass(status: int, kind: Kind) {
    match kind
    case Immediate => status == 429 || status == 401 || status == 403
    case Server => status == 0 || status >= 500
    case Client => status != 0 && status < 500 && status != 429 && status != 401 && status != 403
  }

  /** The failures of a class after the cutoff that nothing has cleared since, by their places in the run. */
  function FailuresSince(ops: seq<Op>, id: string, kind: Kind, cutoff: int): set<int> {
    set i | 0 <= i < |ops| && ops[i].Fail? && ops[i].id == id && OfClass(ops[i].status, kind)
            && ops[i].now > cutoff && Uncleared(ops, i, |ops|, id)
  }

  lemma UnclearedNext(ops: seq<Op>, i: nat, id: string)
    requires ops != [] && i < |ops| - 1
    ensures var n := |ops| - 1;
            Uncleared(ops, i, n + 1, id) <==> Uncleared(ops[..n], i, n, id) && !Clears(ops[n], id)
  {
    var n := |ops| - 1;
    assert forall k :: 0 <= k < n ==> ops[..n][k] == ops[k];
    if Uncleared(ops[..n], i, n, id) && !Clears(ops[n], id) {
      forall k | i < k < n + 1 && 0 <= k < |ops| ensures !Clears(ops[k], id) {
        if k < n { assert !Clears(ops[..n][k], id); }
      }
    }
    if Uncleared(ops, i, n + 1, id) {
      forall k | i < k < n && 0 <= k < n ensures !Clears(ops[..n][k], id) {
        assert !Clears(ops[k], id);
      }
    }
  }

  lemma FailuresNext(ops: seq<Op>, id: string, kind: Kind, cutoff: int)
    requires ops != []
    ensures var n, op := |ops| - 1, ops[|ops| - 1];
            FailuresSince(ops, id, kind, cutoff) ==
              if Clears(op, id) then {}
              else FailuresSince(ops[..n], id, kind, cutoff)
                   + if op.Fail? && op.id == id && OfClass(op.status, kind) && op.now > cutoff then {n} else {}
  {
    hide OfClass;
    var n := |ops| - 1;
    var all, init := FailuresSince(ops, id, kind, cutoff), FailuresSince(ops[..n], id, kind, cutoff);
    forall i: int | 0 <= i < n ensures i in all <==> i in init && !Clears(ops[n], id) {
      assert ops[..n][i] == ops[i];
      UnclearedNext(ops, i, id);
    }
    assert Uncleared(ops, n, |ops|, id);
    hide Uncleared;
    assert forall i :: i in init ==> 0 <= i < n;
    assert forall i :: i in all ==> 0 <= i <= n;
  }

  lemma {:induction false} HistoryCount(ops: seq<Op>, id: string, kind: Kind, cutoff: int)
    ensures CountKind(Kept(Since(ops, id), cutoff), kind) == |FailuresSince(ops, id, kind, cutoff)|
  {
    hide FailuresSince, Kept, CountKind, OfClass, Clears;
    NoFailures(id, kind, cutoff);
    if ops != [] {
      var n, op := |ops| - 1, ops[|ops| - 1];
      var f := FailuresSince(ops[..n], id, kind, cutoff);
      HistoryCount(ops[..n], id, kind, cutoff);
      FailuresNext(ops, id, kind, cutoff);
      NotYet(ops, id, kind, cutoff);
      assert |f + {n}| == |f| + 1 && f + {} == f;
      if !Clears(op, id) && op.Fail? && op.id == id { CountNext(Since(ops[..n], id), op, kind, cutoff); }
    }
  }

  lemma ClassIs(status: int, kind: Kind)
    ensures OfClass(status, kind) <==> Classify(status) == kind
  {
  }

  lemma {:induction false} CountNext(es: seq<Entry>, op: Op, kind: Kind, cutoff: int)
    requires op.Fail?
    ensures CountKind(Kept(es + [Entry(op.now, Classify(op.status))], cutoff), kind)
         == CountKind(Kept(es, cutoff), kind) + if OfClass(op.status, kind) && op.now > cutoff then 1 else 0
  {
    hide Kept, CountKind, OfClass, Classify;
    var e := Entry(op.now, Classify(op.status));
    ClassIs(op.status, kind);
    KeptSnoc(es, e, cutoff);
    CountSnoc(Kept(es, cutoff), e, kind);
    assert Kept(es, cutoff) + [] == Kept(es, cutoff);
  }

  lemma {:induction false} NoFailures(id: string, kind: Kind, cutoff: int)
    ensures FailuresSince([], id, kind, cutoff) == {} && CountKind(Kept([], cutoff), kind) == 0
  {
  }

  lemma NotYet(ops: seq<Op>, id: string, kind: Kind, cutoff: int)
    requires ops != []
    ensures |ops| - 1 !in FailuresSince(ops[..|ops| - 1], id, kind, cutoff)
  {
  }

  lemma {:induction false} CountSnoc(es: seq<Entry>, e: Entry, kind: Kind)
    ensures CountKind(es + [e], kind) == CountKind(es, kind) + if e.kind == kind then 1 else 0
  {
    assert (es + [e])[..|es|] == es;
  }

  /**
   When a failure is one too many, in statuses and times: a 429, a 401 or a 403 at once; a missing answer or a 5xx when,
   this one included, as many of them as the threshold fall into the window and nothing has cleared them since; any other
   status at twice the threshold.
   */
  lemma {:induction false} TripsExactly(st: State, ops: seq<Op>, kind: Kind)
    requires ops != [] && ops[|ops| - 1].Fail? && OfClass(ops[|ops| - 1].status, kind)
    ensures var op := ops[|ops| - 1];
            Trips(st, ops) <==>
              || kind == Immediate
              || |FailuresSince(ops[..|ops| - 1], op.id, kind, op.now - st.window)| + 1
                 >= MaxFails(ops, st.maxFails) * (if kind == Client then 2 else 1)
  {
    hide FailuresSince, Kept, CountKind, MaxFails;
    var op, init := ops[|ops| - 1], ops[..|ops| - 1];
    assert Classify(op.status) == kind;
    hide Classify, OfClass;
    var full, e := Since(init, op.id), Entry(op.now, kind);
    assert Since(ops, op.id) == full + [e];
    SeenSnoc(full, st.window, e);
    CountSnoc(Kept(full, op.now - st.window), e, kind);
    HistoryCount(init, op.id, kind, op.now - st.window);
  }

  /** At the very end of a cooldown the server is no longer skipped, yet a failure does not start the next one. */
  lemma FreeButNotCooledExactly(st: State, op: Op)
    requires op.Fail? && OneTooMany(st, op)
    ensures !Skips(st, op.id, op.now) && !Failed(st, op).1 <==> Cooling(st, op.id) == Some(op.now)
  {
    hide Kept, CountKind, Classify, Length, StatusText;
  }

  /** The failure is immediate, or reaches the threshold of its kind. */
  predicate OneTooMany(st: State, op: Op)
    requires op.Fail?
  {
    var kind := Classify(op.status);
    var valid := Kept(Entries(st, op.id), op.now - st.window) + [Entry(op.now, kind)];
    kind.Immediate? || CountKind(valid, kind) >= Threshold(st, kind)
  }

  /** A cooldown that ends at 5, and a 429 at 5. */
  lemma FreeAtTheEnd(st: State)
    requires st.cooldown == map["a" := 5]
    ensures !Skips(st, "a", 5) && !Failed(st, Fail("a", 5, 429, [], 0)).1
  {
    hide Kept, CountKind, Length, StatusText;
  }
}
