/**
 Server-sent event framing: the scanner shared by proxy/streamusage.go and convert/stream.go
 (section 9.2 of the WHATWG HTML standard, restricted to three terminators), and the relay.
 */
module SseFraming {
  import opened Bytes

  const CRLF2: seq<byte> := [13, 10, 13, 10]
  const LF2: seq<byte> := [10, 10]
  const CR2: seq<byte> := [13, 13]

  /** The length of the terminator that starts at `i`, 0 when none does. */
  function TermLen(b: seq<byte>, i: int): nat {
    if i < 0 then 0
    else if i + 4 <= |b| && b[i] == 13 && b[i + 1] == 10 && b[i + 2] == 13 && b[i + 3] == 10 then 4
    else if i + 2 <= |b| && b[i] == 10 && b[i + 1] == 10 then 2
    else if i + 2 <= |b| && b[i] == 13 && b[i + 1] == 13 then 2
    else 0
  }

  /** Index of the leftmost terminator at or after `from`, -1 when there is none. */
  function TermFrom(b: seq<byte>, from: nat): (r: int)
    ensures r == -1 || (from <= r && TermLen(b, r) > 0 && r + TermLen(b, r) <= |b|)
    ensures forall j :: from <= j && TermLen(b, j) > 0 ==> 0 <= r <= j
    decreases |b| - from
  {
    if from >= |b| then -1 else if TermLen(b, from) > 0 then from else TermFrom(b, from + 1)
  }

  function FrameEnd(b: seq<byte>): int {
    TermFrom(b, 0)
  }

  lemma OccursExplicit(b: seq<byte>, i: int)
    ensures OccursAt(b, CRLF2, i) <==> TermLen(b, i) == 4
    ensures OccursAt(b, LF2, i) || OccursAt(b, CR2, i) <==> TermLen(b, i) == 2
  {
    assert OccursAt(b, CRLF2, i) ==>
        b[i + 0] == CRLF2[0] && b[i + 1] == CRLF2[1] && b[i + 2] == CRLF2[2] && b[i + 3] == CRLF2[3];
    assert OccursAt(b, LF2, i) ==> b[i + 0] == LF2[0] && b[i + 1] == LF2[1];
    assert OccursAt(b, CR2, i) ==> b[i + 0] == CR2[0] && b[i + 1] == CR2[1];
  }

  /** `frameEnd`: three searches, the leftmost hit wins. */
  method FindFrameEnd(b: seq<byte>) returns (best: int, size: nat)
    ensures best == FrameEnd(b)
    ensures best >= 0 ==> size == TermLen(b, best)
  {
    best, size := -1, 0;
    var terms := [CRLF2, LF2, CR2];
    var k := 0;
    while k < 3
      invariant 0 <= k <= 3
      invariant best == -1 || (best >= 0 && size == TermLen(b, best) > 0)
      invariant forall t, j :: 0 <= t < k && OccursAt(b, terms[t], j) ==> 0 <= best <= j
    {
      var i := IndexOf(b, terms[k]);
      OccursExplicit(b, i);
      if i >= 0 && (best < 0 || i < best) {
        best, size := i, |terms[k]|;
      }
      k := k + 1;
    }
    forall j | TermLen(b, j) > 0 ensures 0 <= best <= j {
      OccursExplicit(b, j);
      assert OccursAt(b, terms[0], j) || OccursAt(b, terms[1], j) || OccursAt(b, terms[2], j);
    }
  }

  /** A frame end that was found does not move when more bytes arrive. */
  lemma FrameEndStable(b: seq<byte>, x: seq<byte>)
    requires FrameEnd(b) >= 0
    ensures FrameEnd(b + x) == FrameEnd(b) && TermLen(b + x, FrameEnd(b)) == TermLen(b, FrameEnd(b))
  {
    var i, j := FrameEnd(b), FrameEnd(b + x);
    assert TermLen(b + x, i) == TermLen(b, i);
    assert j < i ==> TermLen(b, j) == TermLen(b + x, j);
  }

  // ---- A byte stream as frames and a tail

  datatype Frame = Frame(payload: seq<byte>, term: seq<byte>)

  datatype Framed = Framed(frames: seq<Frame>, rest: seq<byte>)

  function Split(b: seq<byte>): Framed
    decreases |b|
  {
    var i := FrameEnd(b);
    if i < 0 then Framed([], b)
    else
      var n := TermLen(b, i);
      var more := Split(b[i + n..]);
      Framed([Frame(b[..i], b[i..i + n])] + more.frames, more.rest)
  }

  /** Cutting the input anywhere gives the same frames and the same tail. */
  lemma {:induction false} SplitAppend(b: seq<byte>, x: seq<byte>)
    ensures var s, t := Split(b), Split(Split(b).rest + x);
            Split(b + x) == Framed(s.frames + t.frames, t.rest)
    decreases |b|
  {
    hide FrameEnd;
    var i := FrameEnd(b);
    if i < 0 {
      assert Split(b).frames + Split(b + x).frames == Split(b + x).frames;
    } else {
      FrameEndStable(b, x);
      var n := EndsWithin(b);
      var c := b[i + n..];
      assert (b + x)[i + n..] == c + x && (b + x)[..i] == b[..i] && (b + x)[i..i + n] == b[i..i + n];
      SplitAppend(c, x);
      var f := [Frame(b[..i], b[i..i + n])];
      assert f + (Split(c).frames + Split(Split(c).rest + x).frames)
          == (f + Split(c).frames) + Split(Split(c).rest + x).frames;
    }
  }

  lemma EndsWithin(b: seq<byte>) returns (n: nat)
    requires FrameEnd(b) >= 0
    ensures n == TermLen(b, FrameEnd(b)) > 0 && FrameEnd(b) + n <= |b|
  {
    n := TermLen(b, FrameEnd(b));
  }

  lemma {:induction false} SplitRestHasNoFrame(b: seq<byte>)
    ensures FrameEnd(Split(b).rest) < 0
    decreases |b|
  {
    hide FrameEnd;
    if FrameEnd(b) >= 0 {
      var n := EndsWithin(b);
      SplitRestHasNoFrame(b[FrameEnd(b) + n..]);
    }
  }

  /** A frame as the relay hands it over, terminator included, is one frame with nothing left. */
  predicate WellFramed(f: Frame) {
    Split(f.payload + f.term) == Framed([f], [])
  }

  lemma {:induction false} SplitWellFramed(b: seq<byte>)
    ensures forall f :: f in Split(b).frames ==> WellFramed(f)
    decreases |b|
  {
    hide FrameEnd;
    var i := FrameEnd(b);
    if i >= 0 {
      var n := EndsWithin(b);
      SplitWellFramed(b[i + n..]);
      FirstFrameAlone(b);
    }
  }

  lemma FirstFrameAlone(b: seq<byte>)
    requires FrameEnd(b) >= 0
    ensures var i := FrameEnd(b); WellFramed(Frame(b[..i], b[i..i + TermLen(b, i)]))
  {
    var i := FrameEnd(b);
    var n := TermLen(b, i);
    var c := b[..i + n];
    Rejoin(b, i, i + n);
    assert TermLen(c, i) == n;
    var j := FrameEnd(c);
    assert j < i ==> TermLen(b, j) > 0;
    assert j == i;
    assert c[i + n..] == [] && c[..i] == b[..i] && c[i..i + n] == b[i..i + n];
  }

  // ---- The relay

  /** What the relay writes for a list of frames: each with its terminator, stripped artifacts left out. */
  function Deliver(frames: seq<Frame>, strip: bool, artifact: seq<byte> -> bool): seq<seq<byte>> {
    if frames == [] then []
    else
      var f := frames[0].payload + frames[0].term;
      (if strip && artifact(f) then [] else [f]) + Deliver(frames[1..], strip, artifact)
  }

  predicate AnyStripped(frames: seq<Frame>, strip: bool, artifact: seq<byte> -> bool) {
    strip && exists f :: f in frames && artifact(f.payload + f.term)
  }

  class SseRelay {
    const strip: bool
    const artifact: seq<byte> -> bool  // isUsageArtifact
    const raw: bool
    var pending: seq<byte>
    var dropped: bool
    var delivered: seq<seq<byte>>  // one entry per write to the client

    constructor (strip: bool, artifact: seq<byte> -> bool, raw: bool)
      ensures this.strip == strip && this.artifact == artifact && this.raw == raw
      ensures pending == [] && !dropped && delivered == []
    {
      this.strip, this.artifact, this.raw := strip, artifact, raw;
      pending, dropped, delivered := [], false, [];
    }

    method Write(data: seq<byte>)
      modifies this
      ensures raw ==> delivered == old(delivered) + [data] && pending == old(pending) && dropped == old(dropped)
      ensures !raw ==>
                var s := Split(old(pending) + data);
                && pending == s.rest
                && delivered == old(delivered) + Deliver(s.frames, strip, artifact)
                && dropped == (old(dropped) || AnyStripped(s.frames, strip, artifact))
    {
      if raw {
        delivered := delivered + [data];
        return;
      }
      hide FrameEnd, TermLen, Split, Deliver, AnyStripped;
      pending := pending + data;
      DeliverNone(strip, artifact);
      ghost var whole := Split(pending);
      ghost var done: seq<Frame> := [];
      while true
        invariant whole == Framed(done + Split(pending).frames, Split(pending).rest)
        invariant delivered == old(delivered) + Deliver(done, strip, artifact)
        invariant dropped == (old(dropped) || AnyStripped(done, strip, artifact))
        decreases |pending|
      {
        var i, n := FindFrameEnd(pending);
        NextFrame(done, pending);
        if i < 0 {
          break;
        }
        var end := i + n;
        var frame := pending[..end];
        ghost var f := Frame(pending[..i], pending[i..end]);
        Rejoin(pending, i, end);
        DeliverSnoc(done, f, strip, artifact);
        ghost var sent := Deliver(done, strip, artifact);
        pending := pending[end..];
        done := done + [f];
        if strip && artifact(frame) {
          dropped := true;
          assert sent + [] == sent;
          continue;
        }
        Assoc(old(delivered), sent, [frame]);
        delivered := delivered + [frame];
      }
    }

    method Finish()
      modifies this
      ensures pending == [] && dropped == old(dropped)
      ensures delivered == old(delivered) + if old(pending) == [] then [] else [old(pending)]
    {
      if |pending| > 0 {
        delivered := delivered + [pending];
        pending := [];
      }
    }
  }

  /** One turn of the framing loop: either nothing is left to frame, or the first frame moves over. */
  lemma {:induction false} NextFrame(done: seq<Frame>, b: seq<byte>)
    ensures FrameEnd(b) < 0 ==> done + Split(b).frames == done && Split(b).rest == b
    ensures FrameEnd(b) >= 0 ==>
              var i := FrameEnd(b);
              var end := i + TermLen(b, i);
              && i < end <= |b|
              && Split(b).rest == Split(b[end..]).rest
              && done + Split(b).frames == done + [Frame(b[..i], b[i..end])] + Split(b[end..]).frames
  {
  }

  lemma Rejoin(b: seq<byte>, i: nat, end: nat)
    requires i <= end <= |b|
    ensures b[..end] == b[..i] + b[i..end]
  {
  }

  lemma {:induction false} DeliverNone(strip: bool, artifact: seq<byte> -> bool)
    ensures Deliver([], strip, artifact) == [] && !AnyStripped([], strip, artifact)
  {
  }

  lemma {:induction false} DeliverAppend(a: seq<Frame>, b: seq<Frame>, strip: bool, artifact: seq<byte> -> bool)
    ensures Deliver(a + b, strip, artifact) == Deliver(a, strip, artifact) + Deliver(b, strip, artifact)
  {
    if a == [] {
      assert a + b == b;
    } else {
      assert (a + b)[1..] == a[1..] + b;
      DeliverAppend(a[1..], b, strip, artifact);
    }
  }

  lemma {:induction false} DeliverSnoc(done: seq<Frame>, f: Frame, strip: bool, artifact: seq<byte> -> bool)
    ensures var g := f.payload + f.term;
            && Deliver(done + [f], strip, artifact)
               == Deliver(done, strip, artifact) + (if strip && artifact(g) then [] else [g])
            && AnyStripped(done + [f], strip, artifact)
               == (AnyStripped(done, strip, artifact) || (strip && artifact(g)))
  {
    DeliverAppend(done, [f], strip, artifact);
    assert f in done + [f];
  }
}
