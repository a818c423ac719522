/**
 The writer chain of a streamed answer, rewriter, relay, emitter: what each hands to the next
 does not depend on how the bytes were cut upstream.
 */
module StreamChain {
  import opened Bytes
  import opened JsonString
  import opened ModelStream
  import opened ModelSegmentation
  import opened SseFraming

  function TailWrite(rest: seq<byte>): seq<seq<byte>> {
    if rest == [] then [] else [rest]
  }

  /** Every write to the client over the relay's writes of `chunks` and its finish. */
  function Relay(pending: seq<byte>, chunks: seq<seq<byte>>, strip: bool, artifact: seq<byte> -> bool): seq<seq<byte>>
    decreases chunks
  {
    if chunks == [] then TailWrite(pending)
    else
      var s := Split(pending + chunks[0]);
      Deliver(s.frames, strip, artifact) + Relay(s.rest, chunks[1..], strip, artifact)
  }

  /** The same for the whole stream in one write. */
  function RelayWhole(b: seq<byte>, strip: bool, artifact: seq<byte> -> bool): seq<seq<byte>> {
    Deliver(Split(b).frames, strip, artifact) + TailWrite(Split(b).rest)
  }

  /** The client's deliveries depend only on the bytes, not on the writes they came in. */
  lemma {:induction false} RelayIndependent(pending: seq<byte>, chunks: seq<seq<byte>>,
                                            strip: bool, artifact: seq<byte> -> bool)
    requires FrameEnd(pending) < 0
    ensures Relay(pending, chunks, strip, artifact) == RelayWhole(pending + Concat(chunks), strip, artifact)
    decreases chunks
  {
    hide FrameEnd;
    if chunks == [] {
      assert pending + Concat(chunks) == pending;
      assert Split(pending) == Framed([], pending);
    } else {
      var b, x := pending + chunks[0], Concat(chunks[1..]);
      assert pending + Concat(chunks) == b + x;
      SplitRestHasNoFrame(b);
      RelayIndependent(Split(b).rest, chunks[1..], strip, artifact);
      SplitAppend(b, x);
      RelayTwo(b, x, strip, artifact);
    }
  }

  lemma {:induction false} RelayTwo(b: seq<byte>, x: seq<byte>, strip: bool, artifact: seq<byte> -> bool)
    ensures RelayWhole(b + x, strip, artifact)
         == Deliver(Split(b).frames, strip, artifact) + RelayWhole(Split(b).rest + x, strip, artifact)
  {
    hide Split, Deliver;
    SplitAppend(b, x);
    var s, t := Split(b), Split(Split(b).rest + x);
    DeliverAppend(s.frames, t.frames, strip, artifact);
    Assoc(Deliver(s.frames, strip, artifact), Deliver(t.frames, strip, artifact), TailWrite(t.rest));
  }

  lemma {:induction false} ConcatCons(f: seq<byte>, r: seq<seq<byte>>)
    ensures Concat([f] + r) == f + Concat(r)
  {
    assert ([f] + r)[1..] == r;
  }

  /** Without stripping, the relay passes every byte on, in order and once. */
  lemma {:induction false} RelayKeepsBytes(b: seq<byte>, artifact: seq<byte> -> bool)
    ensures Concat(RelayWhole(b, false, artifact)) == b
    decreases |b|
  {
    hide FrameEnd, TermLen, Split, Deliver, Concat;
    var i := FrameEnd(b);
    NextFrame([], b);
    if i < 0 {
      NothingDelivered(artifact);
      assert RelayWhole(b, false, artifact) == TailWrite(b);
      ConcatTail(b);
    } else {
      var end := i + TermLen(b, i);
      var c, f := b[end..], b[..i] + b[i..end];
      RelayKeepsBytes(c, artifact);
      var s := Split(c);
      var first := Frame(b[..i], b[i..end]);
      assert [] + [first] == [first] && [] + Split(b).frames == Split(b).frames;
      DeliverCons(first, s.frames, artifact);
      Assoc([f], Deliver(s.frames, false, artifact), TailWrite(s.rest));
      ConcatCons(f, RelayWhole(c, false, artifact));
      assert f + c == b;
    }
  }

  lemma NothingDelivered(artifact: seq<byte> -> bool)
    ensures Deliver([], false, artifact) == []
  {
  }

  lemma {:induction false} DeliverCons(f: Frame, frames: seq<Frame>, artifact: seq<byte> -> bool)
    ensures Deliver([f] + frames, false, artifact) == [f.payload + f.term] + Deliver(frames, false, artifact)
  {
    assert ([f] + frames)[1..] == frames;
  }

  lemma ConcatTail(b: seq<byte>)
    ensures Concat(TailWrite(b)) == b
  {
    assert b != [] ==> Concat([b]) == b + Concat([b][1..]) == b;
  }

  // ---- What an emitter sees

  /** The frames an emitter handles over the given writes, and the bytes it still buffers. */
  function Feed(buf: seq<byte>, chunks: seq<seq<byte>>): Framed
    decreases chunks
  {
    if chunks == [] then Framed([], buf)
    else
      var s := Split(buf + chunks[0]);
      var t := Feed(s.rest, chunks[1..]);
      Framed(s.frames + t.frames, t.rest)
  }

  /** For any split of the same bytes the emitter sees the same frame sequence and the same tail. */
  lemma {:induction false} FeedIndependent(buf: seq<byte>, chunks: seq<seq<byte>>)
    requires FrameEnd(buf) < 0
    ensures Feed(buf, chunks) == Split(buf + Concat(chunks))
    decreases chunks
  {
    hide FrameEnd;
    if chunks == [] {
      assert buf + Concat(chunks) == buf;
    } else {
      var b, x := buf + chunks[0], Concat(chunks[1..]);
      assert buf + Concat(chunks) == b + x;
      SplitRestHasNoFrame(b);
      FeedIndependent(Split(b).rest, chunks[1..]);
      SplitAppend(b, x);
    }
  }

  /** The frames the relay does not strip. */
  function Unstripped(frames: seq<Frame>, strip: bool, artifact: seq<byte> -> bool): seq<Frame> {
    if frames == [] then []
    else (if strip && artifact(frames[0].payload + frames[0].term) then [] else [frames[0]])
         + Unstripped(frames[1..], strip, artifact)
  }

  lemma {:induction false} FeedDeliveries(frames: seq<Frame>, rest: seq<byte>, strip: bool, artifact: seq<byte> -> bool)
    requires forall f :: f in frames ==> WellFramed(f)
    requires FrameEnd(rest) < 0
    ensures Feed([], Deliver(frames, strip, artifact) + TailWrite(rest))
         == Framed(Unstripped(frames, strip, artifact), rest)
  {
    hide FrameEnd;
    var d := Deliver(frames, strip, artifact) + TailWrite(rest);
    if frames == [] {
      assert d == TailWrite(rest);
      assert [] + rest == rest;
      assert Split(rest) == Framed([], rest);
      assert rest != [] ==> [rest][1..] == [];
    } else {
      var f, more := frames[0], Deliver(frames[1..], strip, artifact) + TailWrite(rest);
      FeedDeliveries(frames[1..], rest, strip, artifact);
      if strip && artifact(f.payload + f.term) {
        assert d == more;
        assert [] + Unstripped(frames[1..], strip, artifact) == Unstripped(frames[1..], strip, artifact);
      } else {
        Assoc([f.payload + f.term], Deliver(frames[1..], strip, artifact), TailWrite(rest));
        assert d == [f.payload + f.term] + more;
        assert d[1..] == more;
        assert WellFramed(f);
        assert [] + (f.payload + f.term) == f.payload + f.term;
      }
    }
  }

  /** Feeding an emitter the relay's deliveries equals feeding it the raw bytes, minus the stripped frames. */
  lemma {:induction false} RelayThenFeed(chunks: seq<seq<byte>>, strip: bool, artifact: seq<byte> -> bool)
    ensures var raw := Split(Concat(chunks));
            Feed([], Relay([], chunks, strip, artifact)) == Framed(Unstripped(raw.frames, strip, artifact), raw.rest)
  {
    hide Split, Deliver, Feed, Unstripped, WellFramed;
    var b := Concat(chunks);
    assert [] + b == b;
    RelayIndependent([], chunks, strip, artifact);
    SplitWellFramed(b);
    SplitRestHasNoFrame(b);
    FeedDeliveries(Split(b).frames, Split(b).rest, strip, artifact);
  }

  lemma {:induction false} UnstrippedAll(frames: seq<Frame>, artifact: seq<byte> -> bool)
    ensures Unstripped(frames, false, artifact) == frames
  {
    if frames != [] {
      UnstrippedAll(frames[1..], artifact);
      assert [frames[0]] + frames[1..] == frames;
    }
  }

  // ---- The rewriter in front

  /** The writes the rewriter makes downstream over the upstream writes of `chunks` and its Finish. */
  function RewriterWrites(carry: seq<byte>, chunks: seq<seq<byte>>, oldModel: seq<byte>, newModel: seq<byte>): seq<seq<byte>>
    decreases chunks
  {
    if chunks == [] then TailWrite(carry)
    else [Sent(carry, chunks[0], oldModel, newModel)]
         + RewriterWrites(Kept(carry, chunks[0], oldModel, newModel), chunks[1..], oldModel, newModel)
  }

  lemma {:induction false} RewriterWritesAre(carry: seq<byte>, chunks: seq<seq<byte>>,
                                             oldModel: seq<byte>, newModel: seq<byte>)
    ensures Concat(RewriterWrites(carry, chunks, oldModel, newModel)) == Relayed(carry, chunks, oldModel, newModel)
    decreases chunks
  {
    hide Sent, Kept;
    if chunks == [] {
      assert carry != [] ==> Concat([carry]) == carry + Concat([carry][1..]) == carry;
    } else {
      var kept := Kept(carry, chunks[0], oldModel, newModel);
      RewriterWritesAre(kept, chunks[1..], oldModel, newModel);
      assert RewriterWrites(carry, chunks, oldModel, newModel)[1..]
          == RewriterWrites(kept, chunks[1..], oldModel, newModel);
    }
  }

  /**
   The whole chain: for a separable stream the client's deliveries are the frames of the rewritten
   stream, whatever the upstream segmentation.
   */
  lemma {:induction false} ChainIndependent(chunks: seq<seq<byte>>, oldModel: seq<byte>, newModel: seq<byte>,
                         strip: bool, artifact: seq<byte> -> bool)
    requires PlainName(newModel) && Separable(Concat(chunks), Quoted(oldModel))
    ensures Relay([], RewriterWrites([], chunks, oldModel, newModel), strip, artifact)
         == RelayWhole(Rewritten(Concat(chunks), oldModel, newModel), strip, artifact)
  {
    hide Separable, Quoted, Split, Deliver, Relayed, Rewritten;
    SegmentationIndependent(chunks, oldModel, newModel);
    RewriterWritesAre([], chunks, oldModel, newModel);
    var w := RewriterWrites([], chunks, oldModel, newModel);
    assert [] + Concat(w) == Concat(w);
    RelayIndependent([], w, strip, artifact);
  }
}
