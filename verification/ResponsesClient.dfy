/**
 A client of the Responses stream: it accepts an event only where the item lifecycle allows it,
 accumulates each item from its deltas, and checks every `.done` value against what it accumulated.
 */
module ResponsesClient {
  import opened Wrappers
  import opened ResponsesSpec

  datatype Phase = Added | Streaming | ValueDone | PartClosed | Done
  datatype RItem = RItem(value: ItemValue, phase: Phase)

  /** What has been read, sequence numbers aside. `ok`: ended by a completed or incomplete response. */
  datatype View = View(stage: nat, items: seq<RItem>, ended: bool, ok: bool, marked: bool)
  datatype Client = Client(n: int, view: View)

  const Fresh: Client := Client(0, View(0, [], false, false, false))

  predicate EmptyItem(x: ItemValue) {
    match x
    case MessageItem(t) => t == ""
    case ReasoningItem(t) => t == ""
    case CallItem(_, _, a) => a == ""
  }

  predicate AllDone(items: seq<RItem>) {
    forall i :: 0 <= i < |items| ==> items[i].phase == Done
  }

  datatype ItemKind = Messages | Reasonings | Calls

  function KindOf(x: ItemValue): ItemKind {
    match x case MessageItem(_) => Messages case ReasoningItem(_) => Reasonings case CallItem(_, _, _) => Calls
  }

  /** The values of one kind, in output_index order. */
  function Select(items: seq<RItem>, k: ItemKind): seq<ItemValue> {
    if items == [] then []
    else Select(items[..|items| - 1], k)
         + if KindOf(items[|items| - 1].value) == k then [items[|items| - 1].value] else []
  }

  /** The `output` a terminal response object must carry. */
  function Output(items: seq<RItem>): seq<ItemValue> {
    Select(items, Reasonings) + Select(items, Messages) + Select(items, Calls)
  }

  /** Item `oi` has the given kind and phase. */
  predicate At(v: View, oi: int, k: ItemKind, p: Phase) {
    0 <= oi < |v.items| && KindOf(v.items[oi].value) == k && v.items[oi].phase == p
  }

  function Put(v: View, oi: int, x: ItemValue, p: Phase): View
    requires 0 <= oi < |v.items|
  {
    v.(items := v.items[oi := RItem(x, p)])
  }

  function AcceptBody(v: View, b: Body): Option<View> {
    if v.ended then None
    else match b
      case Created(_, _) => if v.stage == 0 then Some(v.(stage := 1)) else None
      case InProgress(_, _) => if v.stage == 1 then Some(v.(stage := 2)) else None
      case ItemAdded(oi, x) =>
        if v.stage == 2 && oi == |v.items| && EmptyItem(x) then Some(v.(items := v.items + [RItem(x, Added)])) else None
      case PartAdded(oi) =>
        if At(v, oi, Messages, Added) then Some(Put(v, oi, v.items[oi].value, Streaming)) else None
      case TextDelta(oi, s) =>
        if At(v, oi, Messages, Streaming) then Some(Put(v, oi, MessageItem(v.items[oi].value.text + s), Streaming)) else None
      case TextDone(oi, s) =>
        if At(v, oi, Messages, Streaming) && v.items[oi].value.text == s
        then Some(Put(v, oi, v.items[oi].value, ValueDone)) else None
      case PartDone(oi, s) =>
        if At(v, oi, Messages, ValueDone) && v.items[oi].value.text == s
        then Some(Put(v, oi, v.items[oi].value, PartClosed)) else None
      case ReasoningDelta(oi, s) =>
        if At(v, oi, Reasonings, Added) then Some(Put(v, oi, ReasoningItem(v.items[oi].value.text + s), Added)) else None
      case ReasoningDone(oi, s) =>
        if At(v, oi, Reasonings, Added) && v.items[oi].value.text == s
        then Some(Put(v, oi, v.items[oi].value, ValueDone)) else None
      case ArgsDelta(oi, id, s) =>
        if At(v, oi, Calls, Added) && v.items[oi].value.callId == id
        then Some(Put(v, oi, v.items[oi].value.(args := v.items[oi].value.args + s), Added)) else None
      case ArgsDone(oi, id, s) =>
        if At(v, oi, Calls, Added) && v.items[oi].value.callId == id && v.items[oi].value.args == s
        then Some(Put(v, oi, v.items[oi].value, ValueDone)) else None
      case ItemDone(oi, x) =>
        if 0 <= oi < |v.items| && v.items[oi] == RItem(x, if x.MessageItem? then PartClosed else ValueDone)
        then Some(Put(v, oi, x, Done)) else None
      case Terminal(status, output, _, _, _) =>
        if v.stage == 2 && output == Output(v.items) && (status.Failed? || AllDone(v.items))
        then Some(v.(ended := true, ok := !status.Failed?)) else None
      case ErrorBody(_, _) => Some(v.(ended := true))
  }

  function Accept(c: Client, e: Event): Option<Client> {
    match e
    case Forwarded(_) => Some(c)
    case DoneMark => if c.view.ok && !c.view.marked then Some(c.(view := c.view.(marked := true))) else None
    case Ev(n, b) =>
      if n != c.n + 1 then None
      else match AcceptBody(c.view, b)
        case None => None
        case Some(v) => Some(Client(n, v))
  }

  function AcceptAll(c: Client, evs: seq<Event>): Option<Client> {
    if evs == [] then Some(c)
    else match AcceptAll(c, evs[..|evs| - 1])
      case None => None
      case Some(d) => Accept(d, evs[|evs| - 1])
  }

  lemma {:induction false} AcceptAppend(c: Client, a: seq<Event>, b: seq<Event>)
    ensures AcceptAll(c, a + b) == match AcceptAll(c, a) case None => None case Some(d) => AcceptAll(d, b)
  {
    hide Accept;
    if b == [] {
      assert a + b == a;
    } else {
      var n := |b| - 1;
      assert (a + b)[..|a + b| - 1] == a + b[..n] && (a + b)[|a + b| - 1] == b[n];
      AcceptAppend(c, a, b[..n]);
    }
  }

  lemma {:induction false} AcceptOne(c: Client, e: Event)
    ensures AcceptAll(c, [e]) == Accept(c, e)
  {
    assert [e][..0] == [];
  }

  /** Bodies alone, without numbers. */
  function Reads(v: View, bodies: seq<Body>): Option<View> {
    if bodies == [] then Some(v)
    else match Reads(v, bodies[..|bodies| - 1])
      case None => None
      case Some(w) => AcceptBody(w, bodies[|bodies| - 1])
  }

  lemma {:induction false} ReadsAppend(v: View, a: seq<Body>, b: seq<Body>)
    ensures Reads(v, a + b) == match Reads(v, a) case None => None case Some(w) => Reads(w, b)
  {
    hide AcceptBody;
    if b == [] {
      assert a + b == a;
    } else {
      var n := |b| - 1;
      assert (a + b)[..|a + b| - 1] == a + b[..n] && (a + b)[|a + b| - 1] == b[n];
      ReadsAppend(v, a, b[..n]);
    }
  }

  lemma {:induction false} ReadsOne(v: View, b: Body)
    ensures Reads(v, [b]) == AcceptBody(v, b)
  {
    assert [b][..0] == [];
  }

  lemma {:induction false} ReadsTwo(v: View, a: Body, b: Body)
    ensures Reads(v, [a, b]) == match AcceptBody(v, a) case None => None case Some(w) => AcceptBody(w, b)
  {
    hide AcceptBody;
    assert [a, b] == [a] + [b];
    ReadsAppend(v, [a], [b]);
    ReadsOne(v, a);
    if AcceptBody(v, a).Some? { ReadsOne(AcceptBody(v, a).value, b); }
  }

  /** Numbering from the client's count is always in step. */
  lemma {:induction false} NumberedReads(c: Client, bodies: seq<Body>)
    ensures AcceptAll(c, Numbered(c.n, bodies))
         == match Reads(c.view, bodies) case None => None case Some(v) => Some(Client(c.n + |bodies|, v))
  {
    hide AcceptBody;
    var evs := Numbered(c.n, bodies);
    if bodies != [] {
      var n := |bodies| - 1;
      assert evs[..n] == Numbered(c.n, bodies[..n]);
      NumberedReads(c, bodies[..n]);
    }
  }

  // ---- Output depends on values only

  predicate SameValues(a: seq<RItem>, b: seq<RItem>) {
    |a| == |b| && forall i :: 0 <= i < |a| ==> a[i].value == b[i].value
  }

  lemma {:induction false} SelectSame(a: seq<RItem>, b: seq<RItem>, k: ItemKind)
    requires SameValues(a, b)
    ensures Select(a, k) == Select(b, k)
  {
    if a != [] { SelectSame(a[..|a| - 1], b[..|b| - 1], k); }
  }

  lemma {:induction false} SelectNone(a: seq<RItem>, k: ItemKind)
    requires forall i :: 0 <= i < |a| ==> KindOf(a[i].value) != k
    ensures Select(a, k) == []
  {
    if a != [] { SelectNone(a[..|a| - 1], k); }
  }

  lemma {:induction false} SelectOnly(a: seq<RItem>, k: ItemKind, at: nat)
    requires at < |a| && forall i :: 0 <= i < |a| ==> (KindOf(a[i].value) == k <==> i == at)
    ensures Select(a, k) == [a[at].value]
  {
    var n := |a| - 1;
    if at == n { SelectNone(a[..n], k); } else { SelectOnly(a[..n], k, at); }
  }
}
