/**
 A client of the Anthropic stream: it accepts an authored event only where the streaming protocol
 allows it, and accumulates the content blocks. It knows nothing of the emitter.
 */
module MessagesClient {
  import opened Wrappers
  import opened Bytes
  import opened ChatStream
  import opened MessagesSpec

  datatype Block = Block(kind: BlockKind, content: string, open: bool)
  datatype Client = Client(started: bool, stopped: bool, failed: bool, blocks: seq<Block>)

  const Fresh: Client := Client(false, false, false, [])

  predicate AllClosed(blocks: seq<Block>) {
    forall i :: 0 <= i < |blocks| ==> !blocks[i].open
  }

  predicate NoProseOpen(blocks: seq<Block>) {
    forall i :: 0 <= i < |blocks| && blocks[i].open ==> blocks[i].kind.ToolUse?
  }

  predicate Fits(kind: BlockKind, d: Delta) {
    match d
    case TextDelta(_) => kind.TextBlock?
    case ThinkingDelta(_) => kind.ThinkingBlock?
    case InputJson(_) => kind.ToolUse?
  }

  predicate OpenAt(blocks: seq<Block>, i: int) {
    0 <= i < |blocks| && blocks[i].open
  }

  function Appended(blocks: seq<Block>, i: int, s: string): (r: seq<Block>)
    requires 0 <= i < |blocks|
  {
    blocks[i := blocks[i].(content := blocks[i].content + s)]
  }

  function Closed(blocks: seq<Block>, i: int): (r: seq<Block>)
    requires 0 <= i < |blocks|
  {
    blocks[i := blocks[i].(open := false)]
  }

  /** The client's next state, None when the event is out of place. Forwarded frames are not authored here. */
  function Accept(c: Client, e: Event): Option<Client> {
    if e.Forwarded? then Some(c)
    else if c.failed || c.stopped then None
    else match e
      case MessageStart(_, _, _) =>
        if c.started then None else Some(c.(started := true))
      case BlockStart(i, k) =>
        if c.started && i == |c.blocks| && (k.ToolUse? || NoProseOpen(c.blocks))
        then Some(c.(blocks := c.blocks + [Block(k, "", true)])) else None
      case BlockDelta(i, d) =>
        if OpenAt(c.blocks, i) && Fits(c.blocks[i].kind, d)
        then Some(c.(blocks := Appended(c.blocks, i, d.s))) else None
      case BlockStop(i) =>
        if OpenAt(c.blocks, i) then Some(c.(blocks := Closed(c.blocks, i))) else None
      case MessageDelta(_, _, _) =>
        if c.started && AllClosed(c.blocks) then Some(c) else None
      case MessageStop =>
        if c.started && AllClosed(c.blocks) then Some(c.(stopped := true)) else None
      case ErrorEvent(_, _) => Some(c.(failed := true))
      case Forwarded(_) => Some(c)
  }

  function AcceptAll(c: Client, evs: seq<Event>): Option<Client> {
    if evs == [] then Some(c)
    else match AcceptAll(c, evs[..|evs| - 1])
      case None => None
      case Some(d) => Accept(d, evs[|evs| - 1])
  }

  lemma {:induction false} AcceptAppend(c: Client, a: seq<Event>, b: seq<Event>)
    ensures AcceptAll(c, a + b) == match AcceptAll(c, a) case None => None case Some(d) => AcceptAll(d, b)
  {
    hide Accept;
    if b == [] {
      assert a + b == a;
    } else {
      var n := |b| - 1;
      assert (a + b)[..|a + b| - 1] == a + b[..n] && (a + b)[|a + b| - 1] == b[n];
      AcceptAppend(c, a, b[..n]);
    }
  }

  lemma {:induction false} AcceptOne(c: Client, e: Event)
    ensures AcceptAll(c, [e]) == Accept(c, e)
  {
    assert [e][..0] == [];
  }

  lemma {:induction false} AcceptTwo(c: Client, e: Event, f: Event)
    ensures AcceptAll(c, [e, f]) == match Accept(c, e) case None => None case Some(d) => Accept(d, f)
  {
    hide Accept;
    assert [e, f] == [e] + [f];
    AcceptAppend(c, [e], [f]);
    AcceptOne(c, e);
    if Accept(c, e).Some? { AcceptOne(Accept(c, e).value, f); }
  }

  // ---- What the client reads

  /** The text of all blocks of one prose kind, in block order. */
  function ReadProse(blocks: seq<Block>, k: Kind): string {
    if blocks == [] then ""
    else ReadProse(blocks[..|blocks| - 1], k)
         + if blocks[|blocks| - 1].kind == StartOf(k) then blocks[|blocks| - 1].content else ""
  }

  datatype Call = Call(id: string, name: string, args: string)

  /** The calls of the tool blocks assigned to index `i`, in block order. */
  function ReadCalls(blocks: seq<Block>, owner: seq<int>, i: int): seq<Call>
    requires |owner| == |blocks|
  {
    if blocks == [] then []
    else
      var n := |blocks| - 1;
      ReadCalls(blocks[..n], owner[..n], i)
      + if blocks[n].kind.ToolUse? && owner[n] == i
        then [Call(blocks[n].kind.id, blocks[n].kind.name, blocks[n].content)] else []
  }

  /** Only kinds and contents are read. */
  predicate SameText(a: seq<Block>, b: seq<Block>) {
    |a| == |b| && forall i :: 0 <= i < |a| ==> a[i].kind == b[i].kind && a[i].content == b[i].content
  }

  lemma {:induction false} SameReading(a: seq<Block>, b: seq<Block>, owner: seq<int>, i: int, k: Kind)
    requires SameText(a, b) && |owner| == |a|
    ensures ReadProse(a, k) == ReadProse(b, k) && ReadCalls(a, owner, i) == ReadCalls(b, owner, i)
  {
    if a != [] {
      SameReading(a[..|a| - 1], b[..|b| - 1], owner[..|a| - 1], i, k);
    }
  }

  /** Text appended to the last prose block of its kind ends the prose. */
  lemma {:induction false} AppendProse(blocks: seq<Block>, at: nat, s: string, k: Kind)
    requires at < |blocks| && blocks[at].kind == StartOf(k)
    requires forall j :: at < j < |blocks| ==> blocks[j].kind.ToolUse?
    ensures ReadProse(Appended(blocks, at, s), k) == ReadProse(blocks, k) + s
  {
    var n, b := |blocks| - 1, Appended(blocks, at, s);
    if at == n {
      assert b[..n] == blocks[..n];
      Assoc(ReadProse(blocks[..n], k), blocks[n].content, s);
    } else {
      assert b[..n] == Appended(blocks[..n], at, s);
      AppendProse(blocks[..n], at, s, k);
      assert ReadProse(blocks[..n], k) + "" == ReadProse(blocks[..n], k);
    }
  }

  lemma {:induction false} AppendOtherProse(blocks: seq<Block>, at: nat, s: string, k: Kind)
    requires at < |blocks| && blocks[at].kind != StartOf(k)
    ensures ReadProse(Appended(blocks, at, s), k) == ReadProse(blocks, k)
  {
    var n, b := |blocks| - 1, Appended(blocks, at, s);
    if at == n {
      assert b[..n] == blocks[..n];
    } else {
      assert b[..n] == Appended(blocks[..n], at, s);
      AppendOtherProse(blocks[..n], at, s, k);
    }
  }

  /** Arguments appended to a block the index does not read change none of its calls. */
  lemma {:induction false} AppendOtherCall(blocks: seq<Block>, owner: seq<int>, at: nat, s: string, i: int)
    requires |owner| == |blocks| && at < |blocks| && !(blocks[at].kind.ToolUse? && owner[at] == i)
    ensures ReadCalls(Appended(blocks, at, s), owner, i) == ReadCalls(blocks, owner, i)
  {
    var n, b := |blocks| - 1, Appended(blocks, at, s);
    if at == n {
      assert b[..n] == blocks[..n];
    } else {
      assert b[..n] == Appended(blocks[..n], at, s);
      AppendOtherCall(blocks[..n], owner[..n], at, s, i);
    }
  }

  /** Arguments appended to the index's last block extend its last call. */
  lemma {:induction false} AppendCall(blocks: seq<Block>, owner: seq<int>, at: nat, s: string, i: int)
    requires |owner| == |blocks| && at < |blocks| && blocks[at].kind.ToolUse? && owner[at] == i
    requires forall j :: at < j < |blocks| && blocks[j].kind.ToolUse? ==> owner[j] != i
    ensures var cs := ReadCalls(blocks, owner, i);
            && cs != [] && cs[|cs| - 1].id == blocks[at].kind.id
            && ReadCalls(Appended(blocks, at, s), owner, i)
               == cs[..|cs| - 1] + [cs[|cs| - 1].(args := cs[|cs| - 1].args + s)]
  {
    var n, b := |blocks| - 1, Appended(blocks, at, s);
    if at == n {
      assert b[..n] == blocks[..n];
    } else {
      assert b[..n] == Appended(blocks[..n], at, s);
      AppendCall(blocks[..n], owner[..n], at, s, i);
      assert ReadCalls(blocks, owner, i) == ReadCalls(blocks[..n], owner[..n], i);
    }
  }

  lemma {:induction false} ReadNewBlock(blocks: seq<Block>, owner: seq<int>, b: Block, o: int, i: int, k: Kind)
    requires |owner| == |blocks|
    ensures ReadProse(blocks + [b], k) == ReadProse(blocks, k) + if b.kind == StartOf(k) then b.content else ""
    ensures ReadCalls(blocks + [b], owner + [o], i)
         == ReadCalls(blocks, owner, i)
            + if b.kind.ToolUse? && o == i then [Call(b.kind.id, b.kind.name, b.content)] else []
  {
    var bs, os := blocks + [b], owner + [o];
    assert bs[..|bs| - 1] == blocks && os[..|os| - 1] == owner;
  }
}
