/** The attempt and retry loop of `Router.Handle` in router/router.go, over the outcome classes of one proxied send. */
module AttemptLoop {
  import opened Wrappers

  /** How one send to a backend ended. */
  datatype Outcome =
    | Served(status: int)
    | ClientGone
    | MidStream(status: int)
    | Buffered(status: int)       // a 429 or 5xx answer held back
    | Transport(refused: bool)    // no answer; refused: nothing is listening

  predicate Ends(o: Outcome) { o.Served? || o.ClientGone? || o.MidStream? }

  /** An attempt as the loop finds it: its gates, its refusals, and what its sends would do. */
  datatype Attempt = Attempt(
    unhealthy: bool, cooling: bool, window: int, maxParallel: int, inflight: int, overQuota: bool,
    planRefused: bool, rewriteFails: bool, convertRefused: bool,
    estimate: int, reserveOk: bool,
    outcome: nat -> Outcome, goneInBackoff: nat -> bool)

  datatype Event =
    | Skip(i: nat)
    | Refuse(i: nat)
    | Open(i: nat)
    | Send(i: nat, retry: nat, outcome: Outcome)
    | Teardown(i: nat)

  datatype Answer =
    | ServedBy(i: nat, status: int)
    | Gone                              // the client left: nothing is answered
    | BrokenBy(i: nat, status: int)     // mid-stream
    | RewriteError
    | Refusal(i: nat)                   // 400
    | BackendAnswer(i: nat, status: int)
    | BadGateway                        // 502

  // ---- Retry budgets

  const DEFAULT_RETRIES := 10
  const MAX_CLIENT_RETRIES := 100

  function Min(a: int, b: int): int { if a < b then a else b }
  function Max(a: int, b: int): int { if a < b then b else a }

  function SameServerRetries(refused: bool, configured: int): int {
    if refused then Min(configured, 0) else configured
  }

  function BufferedAnswerRetries(status: int, configured: int, isExplicit: bool): int {
    if status == 429 then 0 else if isExplicit then configured else 0
  }

  /** X-Router-Retries after strconv.Atoi: None when absent or unparseable. */
  function ClientRetries(header: Option<int>): Option<int> {
    match header
    case None => None
    case Some(n) => if n < 0 then None else Some(Min(n, MAX_CLIENT_RETRIES))
  }

  datatype Budget = Budget(retries: int, isExplicit: bool)

  function BudgetOf(ruleRetries: int, header: Option<int>): Budget {
    match ClientRetries(header)
    case Some(n) => Budget(n, true)
    case None => Budget(if ruleRetries == 0 then DEFAULT_RETRIES else ruleRetries, ruleRetries != 0)
  }

  function RetriesLeft(o: Outcome, b: Budget): int {
    match o
    case Buffered(s) => BufferedAnswerRetries(s, b.retries, b.isExplicit)
    case Transport(refused) => SameServerRetries(refused, b.retries)
    case _ => 0
  }

  predicate ContextOverflows(window: int, bodyLen: nat) {
    window > 0 && bodyLen / 4 > window
  }

  /** The gates that only skip: health, cooldown, context window, parallel cap, quota. */
  predicate SoftGated(a: Attempt, bodyLen: nat) {
    || a.unhealthy || a.cooling || ContextOverflows(a.window, bodyLen)
    || (a.maxParallel > 0 && a.inflight >= a.maxParallel) || a.overQuota
  }

  predicate ReservationBlocked(a: Attempt) { a.estimate > 0 && !a.reserveOk }

  // ---- The loop as a function

  datatype Tried = Tried(trace: seq<Event>, ended: Option<Answer>)

  /** The retry loop on one server, from a given retry on. */
  function Sends(a: Attempt, i: nat, retry: nat, b: Budget): Tried
    decreases Max(0, b.retries) - retry
  {
    var o := a.outcome(retry);
    var sent := Send(i, retry, o);
    match o
    case Served(s) => Tried([sent, Teardown(i)], Some(ServedBy(i, s)))
    case ClientGone => Tried([sent, Teardown(i)], Some(Gone))
    case MidStream(s) => Tried([sent, Teardown(i)], Some(BrokenBy(i, s)))
    case _ =>
      if retry < RetriesLeft(o, b) then
        if a.goneInBackoff(retry) then Tried([sent, Teardown(i)], Some(Gone))
        else
          var more := Sends(a, i, retry + 1, b);
          Tried([sent] + more.trace, more.ended)
      else Tried([sent, Teardown(i)], None)
  }

  /** The attempts from `i` on. */
  function Walk(attempts: seq<Attempt>, i: nat, bodyLen: nat, b: Budget): Tried
    requires i <= |attempts|
    decreases |attempts| - i
  {
    if i == |attempts| then Tried([], None)
    else
      var a, last := attempts[i], i == |attempts| - 1;
      if SoftGated(a, bodyLen) && !last then Then([Skip(i)], Walk(attempts, i + 1, bodyLen, b))
      else if a.planRefused then
        if last then Tried([Refuse(i)], Some(Refusal(i))) else Then([Refuse(i)], Walk(attempts, i + 1, bodyLen, b))
      else if a.rewriteFails then Tried([], Some(RewriteError))
      else if a.convertRefused then
        if last then Tried([Refuse(i)], Some(Refusal(i))) else Then([Refuse(i)], Walk(attempts, i + 1, bodyLen, b))
      else if ReservationBlocked(a) && !last then Then([Skip(i)], Walk(attempts, i + 1, bodyLen, b))
      else
        var s := Sends(a, i, 0, b);
        if s.ended.Some? then Tried([Open(i)] + s.trace, s.ended)
        else Then([Open(i)] + s.trace, Walk(attempts, i + 1, bodyLen, b))
  }

  function Then(head: seq<Event>, rest: Tried): Tried {
    Tried(head + rest.trace, rest.ended)
  }

  /** The last held-back backend answer of a trace. */
  function LastBuffered(trace: seq<Event>): Option<(nat, int)> {
    if trace == [] then None
    else match trace[|trace| - 1]
      case Send(i, _, Buffered(s)) => Some((i, s))
      case _ => LastBuffered(trace[..|trace| - 1])
  }

  function AnswerOf(t: Tried): Answer {
    match t.ended
    case Some(x) => x
    case None =>
      match LastBuffered(t.trace)
      case Some((i, s)) => BackendAnswer(i, s)
      case None => BadGateway
  }

  // ---- The loop as written

  /** One server's sends. `lastAnswer` is the loop's variable, carried in and out. */
  method TryServer(a: Attempt, i: nat, b: Budget, lastAnswer: Option<(nat, int)>)
      returns (trace: seq<Event>, ended: Option<Answer>, last': Option<(nat, int)>)
    ensures Tried(trace, ended) == Sends(a, i, 0, b)
    ensures last' == if LastBuffered(trace).Some? then LastBuffered(trace) else lastAnswer
  {
    hide LastBuffered, Sends;
    trace, ended, last' := [], None, lastAnswer;
    NothingBuffered();
    var retry := 0;
    while true
      invariant retry <= Max(0, b.retries)
      invariant Then(trace, Sends(a, i, retry, b)) == Sends(a, i, 0, b)
      invariant last' == if LastBuffered(trace).Some? then LastBuffered(trace) else lastAnswer
      decreases Max(0, b.retries) - retry
    {
      var o := a.outcome(retry);
      SendsNext(a, i, retry, b);
      LastBufferedSnoc(trace, Send(i, retry, o));
      LastBufferedSnoc(trace + [Send(i, retry, o)], Teardown(i));
      assert trace + [Send(i, retry, o), Teardown(i)] == trace + [Send(i, retry, o)] + [Teardown(i)];
      if o.Served? {
        trace, ended := trace + [Send(i, retry, o)] + [Teardown(i)], Some(ServedBy(i, o.status));
        return;
      }
      if o.ClientGone? {
        trace, ended := trace + [Send(i, retry, o)] + [Teardown(i)], Some(Gone);
        return;
      }
      if o.MidStream? {
        trace, ended := trace + [Send(i, retry, o)] + [Teardown(i)], Some(BrokenBy(i, o.status));
        return;
      }
      var left := 0;
      if o.Transport? {
        left := SameServerRetries(o.refused, b.retries);
      } else {
        left := BufferedAnswerRetries(o.status, b.retries, b.isExplicit);
        last' := Some((i, o.status));
      }
      if retry < left {
        if a.goneInBackoff(retry) {
          trace, ended := trace + [Send(i, retry, o)] + [Teardown(i)], Some(Gone);
          return;
        }
        MoveOver(trace, Send(i, retry, o), Sends(a, i, retry + 1, b));
        trace := trace + [Send(i, retry, o)];
        retry := retry + 1;
        continue;
      }
      trace := trace + [Send(i, retry, o)] + [Teardown(i)];
      return;
    }
  }

  lemma NothingBuffered()
    ensures LastBuffered([]) == None
  {
  }

  lemma SendsNext(a: Attempt, i: nat, retry: nat, b: Budget)
    ensures var o := a.outcome(retry);
            var sent, end := Send(i, retry, o), [Send(i, retry, o), Teardown(i)];
            Sends(a, i, retry, b) ==
              match o
              case Served(s) => Tried(end, Some(ServedBy(i, s)))
              case ClientGone => Tried(end, Some(Gone))
              case MidStream(s) => Tried(end, Some(BrokenBy(i, s)))
              case _ =>
                if retry >= RetriesLeft(o, b) then Tried(end, None)
                else if a.goneInBackoff(retry) then Tried(end, Some(Gone))
                else Tried([sent] + Sends(a, i, retry + 1, b).trace, Sends(a, i, retry + 1, b).ended)
  {
  }

  lemma {:induction false} LastBufferedSnoc(trace: seq<Event>, e: Event)
    ensures LastBuffered(trace + [e])
         == (match e case Send(i, _, Buffered(s)) => Some((i, s)) case _ => LastBuffered(trace))
  {
    assert (trace + [e])[..|trace|] == trace;
  }

  lemma {:induction false} LastBufferedAppend(a: seq<Event>, b: seq<Event>)
    ensures LastBuffered(a + b) == if LastBuffered(b).Some? then LastBuffered(b) else LastBuffered(a)
  {
    if b == [] {
      assert a + b == a;
    } else {
      var n := |b| - 1;
      assert a + b == (a + b[..n]) + [b[n]];
      LastBufferedSnoc(a + b[..n], b[n]);
      LastBufferedAppend(a, b[..n]);
    }
  }

  lemma MoveOver(trace: seq<Event>, e: Event, more: Tried)
    ensures Then(trace, Tried([e] + more.trace, more.ended)) == Then(trace + [e], more)
  {
    assert trace + ([e] + more.trace) == trace + [e] + more.trace;
  }

  method Handle(attempts: seq<Attempt>, bodyLen: nat, ruleRetries: int, header: Option<int>)
      returns (trace: seq<Event>, answer: Answer)
    ensures var w := Walk(attempts, 0, bodyLen, BudgetOf(ruleRetries, header));
            trace == w.trace && answer == AnswerOf(w)
  {
    hide Sends, LastBuffered;
    ghost var b := BudgetOf(ruleRetries, header);
    trace := [];
    var lastAnswer: Option<(nat, int)> := None;
    var refusal: Option<nat> := None;
    NothingBuffered();
    var i := 0;
    while i < |attempts|
      invariant 0 <= i <= |attempts|
      invariant refusal == None
      invariant lastAnswer == LastBuffered(trace)
      invariant Then(trace, Walk(attempts, i, bodyLen, b)) == Walk(attempts, 0, bodyLen, b)
    {
      var a := attempts[i];
      ghost var rest := Walk(attempts, i + 1, bodyLen, b);
      LastBufferedSnoc(trace, Skip(i));
      LastBufferedSnoc(trace, Refuse(i));
      Shift(trace, [Skip(i)], rest);
      Shift(trace, [Refuse(i)], rest);
      if a.unhealthy && i < |attempts| - 1 {
        trace := trace + [Skip(i)]; i := i + 1; continue;
      }
      if a.cooling && i < |attempts| - 1 {
        trace := trace + [Skip(i)]; i := i + 1; continue;
      }
      if i < |attempts| - 1 && ContextOverflows(a.window, bodyLen) {
        trace := trace + [Skip(i)]; i := i + 1; continue;
      }
      if i < |attempts| - 1 && a.maxParallel > 0 && a.inflight >= a.maxParallel {
        trace := trace + [Skip(i)]; i := i + 1; continue;
      }
      if a.overQuota && i < |attempts| - 1 {
        trace := trace + [Skip(i)]; i := i + 1; continue;
      }
      if a.planRefused {
        trace := trace + [Refuse(i)];
        if i < |attempts| - 1 {
          i := i + 1; continue;
        }
        refusal := Some(i);
        break;
      }
      if a.rewriteFails {
        assert trace + [] == trace;
        return trace, RewriteError;
      }
      if a.convertRefused {
        trace := trace + [Refuse(i)];
        if i < |attempts| - 1 {
          i := i + 1; continue;
        }
        refusal := Some(i);
        break;
      }
      if a.estimate > 0 && !a.reserveOk && i < |attempts| - 1 {
        trace := trace + [Skip(i)]; i := i + 1; continue;
      }
      var budget := BudgetOf(ruleRetries, header);
      var sent, ended, last' := TryServer(a, i, budget, lastAnswer);
      LastBufferedSnoc(trace, Open(i));
      LastBufferedAppend(trace + [Open(i)], sent);
      Shift(trace, [Open(i)] + sent, rest);
      assert trace + ([Open(i)] + sent) == trace + [Open(i)] + sent;
      lastAnswer := last';
      trace := trace + [Open(i)] + sent;
      if ended.Some? {
        return trace, ended.value;
      }
      i := i + 1;
    }
    if refusal.Some? {
      return trace, Refusal(refusal.value);
    }
    assert trace + [] == trace;
    if lastAnswer.Some? {
      return trace, BackendAnswer(lastAnswer.value.0, lastAnswer.value.1);
    }
    return trace, BadGateway;
  }

  lemma Shift(trace: seq<Event>, head: seq<Event>, rest: Tried)
    ensures Then(trace, Then(head, rest)) == Then(trace + head, rest)
  {
    assert trace + (head + rest.trace) == trace + head + rest.trace;
  }
}
