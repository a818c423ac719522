/**
 Segmentation independence of the model rewriter: however a separable stream is cut into
 writes, the bytes sent are those of a single pass over the whole stream.
 */
module ModelSegmentation {
  import opened Bytes
  import opened JsonString
  import opened ModelRewrite
  import opened ModelStream

  /** The rightmost token has no name character behind it, so the hold is decided there. */
  predicate LastClean(s: seq<byte>) {
    var k := LastToken(s);
    k >= 0 ==> !NameCharAfter(s, k)
  }

  lemma {:induction false} HoldIs(s: seq<byte>)
    requires LastClean(s)
    ensures var k := LastToken(s);
            Hold(s) == if k >= 0 && OpenAt(s, k) then |s| - k else PartialKey(s, 6)
  {
  }

  /** The held tail and the sent head of a rewritten buffer. */
  function Head(rw: seq<byte>): seq<byte> { rw[..|rw| - Hold(rw)] }
  function Tail(rw: seq<byte>): seq<byte> { rw[|rw| - Hold(rw)..] }

  /** Sending the head now and rewriting the tail with what follows equals one pass. */
  ghost predicate CutWell(b: seq<byte>, x: seq<byte>, pat: seq<byte>, rep: seq<byte>)
    requires pat != []
  {
    var rw := Rewrite(b, pat, rep);
    && LastClean(rw)
    && Head(rw) + Rewrite(Tail(rw) + x, pat, rep) == Rewrite(b + x, pat, rep)
    && Separable(Tail(rw) + x, pat)
  }

  /** An unchanged buffer cut at `m`, where the pass over the whole splits at `m` too. */
  lemma {:induction false} CutAt(b: seq<byte>, x: seq<byte>, m: nat, pat: seq<byte>, rep: seq<byte>)
    requires pat != [] && m <= |b| && Separable(b + x, pat)
    requires Rewrite(b, pat, rep) == b && LastClean(b) && Hold(b) == |b| - m
    requires Rewrite(b + x, pat, rep) == (b + x)[..m] + Rewrite((b + x)[m..], pat, rep)
    ensures CutWell(b, x, pat, rep)
  {
    hide Rewrite, Hold, LastClean, Separable;
    assert (b + x)[m..] == b[m..] + x && (b + x)[..m] == b[..m];
    SeparableSuffix(b + x, pat, m);
  }

  /** No token yet: only a partial key at the end can matter. */
  lemma NoToken(b: seq<byte>, x: seq<byte>, pat: seq<byte>, rep: seq<byte>)
    requires pat != [] && Separable(b + x, pat) && FirstToken(b) < 0
    ensures CutWell(b, x, pat, rep)
  {
    var h := PartialKey(b, 6);
    assert LastToken(b) < 0;
    HoldIs(b);
    NoTokenBefore(b, x);
    SkipPrefix(b + x, |b| - h, pat, rep);
    assert Rewrite(b, pat, rep) == b;
    CutAt(b, x, |b| - h, pat, rep);
  }

  lemma {:induction false} NoTokenBefore(b: seq<byte>, x: seq<byte>)
    requires FirstToken(b) < 0
    ensures forall j :: TokenAt(b + x, j) ==> |b| - PartialKey(b, 6) <= j
  {
    hide PartialKey, FirstToken;
    var s, m := b + x, |b| - PartialKey(b, 6);
    forall j | TokenAt(s, j) ensures m <= j {
      if j < m {
        var q := |b| - j;
        assert !TokenAt(b, j);
        assert q <= 6;
        KeyPrefix(s, j, q);
        assert false;
      }
    }
  }

  lemma KeyPrefix(s: seq<byte>, j: nat, q: nat)
    requires TokenAt(s, j) && q <= 7
    ensures s[j..j + q] == KEY[..q]
  {
  }

  /** The last token's value is still open: everything from that token on is held. */
  lemma {:induction false} OpenTail(b: seq<byte>, x: seq<byte>, k: nat, pat: seq<byte>, rep: seq<byte>)
    requires pat != [] && Separable(b + x, pat)
    requires FirstToken(b) == k && Rewrite(b, pat, rep) == b
    requires var j := LastToken(b);
             j >= 0 && OpenAt(b, j) && (ValueStart(b, k) < 0 || j < ValueStart(b, k))
    ensures CutWell(b, x, pat, rep)
  {
    hide Rewrite, FirstToken, LastToken, ValueStart, OpenAt, HoldWithin;
    var s, j := b + x, LastToken(b);
    SeparablePrefix(b, x, pat);
    assert SeparateAt(b, pat, j);
    HoldIs(b);
    assert TokenAt(s, k) && TokenAt(s, j);
    assert SeparateAt(s, pat, k) && SeparateAt(s, pat, j);
    FirstTokenGrow(b, x);
    ValueStartGrow(b, x, k);
    SkipToGap(s, k, j, pat, rep);
    CutAt(b, x, j, pat, rep);
  }

  lemma FirstTokenGrow(b: seq<byte>, x: seq<byte>)
    requires FirstToken(b) >= 0
    ensures FirstToken(b + x) == FirstToken(b)
  {
    hide FirstToken;
    var k, f := FirstToken(b), FirstToken(b + x);
    assert TokenAt(b + x, k);
    assert f < k ==> TokenAt(b, f);
  }

  /** A token at or after `p - 1` closes any string scanned from `p`. */
  lemma {:induction false} TokenCloses(s: seq<byte>, p: nat, k: nat)
    requires TokenAt(s, k) && p <= k + 1
    ensures StringEnd(s, p) >= 0
    decreases k + 1 - p
  {
    if p <= k {
      if s[p] == BACKSLASH {
        TokenCloses(s, p + 2, k);
      } else if s[p] != QUOTE {
        TokenCloses(s, p + 1, k);
      }
    } else {
      assert StringEnd(s, k + 3) == StringEnd(s, k + 4) == StringEnd(s, k + 5) == StringEnd(s, k + 6) == k + 6;
      assert StringEnd(s, k + 1) == StringEnd(s, k + 2) == StringEnd(s, k + 3);
    }
  }

  /** A prefix that is settled does not disturb the cut of the rest. */
  lemma {:induction false} PrefixCut(b: seq<byte>, x: seq<byte>, m: nat, p: seq<byte>, pat: seq<byte>, rep: seq<byte>)
    requires pat != [] && m <= |b|
    requires var r := Rewrite(b[m..], pat, rep);
             && Rewrite(b, pat, rep) == p + r && LastClean(p + r) && Hold(p + r) == Hold(r)
    requires Rewrite(b + x, pat, rep) == p + Rewrite(b[m..] + x, pat, rep)
    requires CutWell(b[m..], x, pat, rep)
    ensures CutWell(b, x, pat, rep)
  {
    hide Rewrite, Hold, LastClean, Separable;
    var r := Rewrite(b[m..], pat, rep);
    assert Tail(p + r) == Tail(r);
    assert Head(p + r) == p + Head(r);
    Assoc(p, Head(r), Rewrite(Tail(r) + x, pat, rep));
  }

  /** The hold is decided at the last token, so a prefix in front of one changes nothing. */
  lemma HoldOfSuffix(p: seq<byte>, r: seq<byte>)
    requires LastClean(r) && LastToken(r) >= 0
    ensures LastClean(p + r) && Hold(p + r) == Hold(r)
  {
    hide LastToken, HoldWithin, PartialKey, ValueStart, OpenAt, Hold;
    LastTokenShift(p, r);
    OpenShift(p, r, LastToken(r));
    HoldIs(r);
    HoldIs(p + r);
    PartialOfSuffix(p, r, 6);
  }

  lemma OpenShift(p: seq<byte>, r: seq<byte>, k: nat)
    requires k + 7 <= |r|
    ensures OpenAt(p + r, |p| + k) == OpenAt(r, k)
  {
    hide ValueStart, StringEnd;
    var s := p + r;
    assert s[|p|..] == r;
    ValueStartShift(s, |p|, k);
    var v := ValueStart(r, k);
    if v >= 0 { StringEndShift(s, |p|, v + 1); }
  }

  lemma LastTokenShift(p: seq<byte>, r: seq<byte>)
    requires LastToken(r) >= 0
    ensures LastToken(p + r) == |p| + LastToken(r)
  {
    hide LastToken;
    var s, k, l := p + r, LastToken(r), LastToken(p + r);
    assert TokenAt(s, |p| + k);
    assert l >= |p| ==> TokenAt(r, l - |p|);
  }

  lemma {:induction false} StringEndShift(s: seq<byte>, m: nat, p: nat)
    requires m <= |s|
    ensures StringEnd(s, m + p) == if StringEnd(s[m..], p) < 0 then -1 else m + StringEnd(s[m..], p)
    decreases |s| - p
  {
    if m + p < |s| {
      if s[m + p] == BACKSLASH {
        StringEndShift(s, m, p + 2);
      } else if s[m + p] != QUOTE {
        StringEndShift(s, m, p + 1);
      }
    }
  }

  lemma {:induction false} PartialOfSuffix(p: seq<byte>, r: seq<byte>, l: nat)
    requires l <= 6 && l <= |r|
    ensures PartialKey(p + r, l) == PartialKey(r, l)
  {
    if l > 0 {
      assert (p + r)[|p + r| - l..] == r[|r| - l..];
      PartialOfSuffix(p, r, l - 1);
    }
  }

  /** The value is no string: the scan moves on to it. */
  lemma NonString(b: seq<byte>, x: seq<byte>, k: nat, v: nat, pat: seq<byte>, rep: seq<byte>)
    requires pat != [] && Separable(b + x, pat)
    requires FirstToken(b) == k && ValueStart(b, k) == v && (v == |b| || b[v] != QUOTE)
    requires CutWell(b[v..], x, pat, rep)
    ensures CutWell(b, x, pat, rep)
  {
    hide FirstToken, ValueStart, LastClean, Hold, Separable, CutWell, Scan, LastToken;
    if v == |b| {
      NoTokenNoRewrite(b[v..], pat, rep);
      EndScan(b, x, k, pat);
    } else {
      ScanGrow(b, x, k, v, pat);
    }
    var r := Rewrite(b[v..], pat, rep);
    if FirstToken(b[v..]) < 0 {
      NoTokenNoRewrite(b[v..], pat, rep);
      assert b[..v] + b[v..] == b;
      LastTokenBefore(b, k, v);
      OpenTail(b, x, k, pat, rep);
    } else {
      FirstTokenKept(b[v..], pat, rep);
      KeptClean(b[v..], x, pat, rep);
      HoldOfSuffix(b[..v], r);
      SkipBoth(b, x, v, pat, rep);
      PrefixCut(b, x, v, b[..v], pat, rep);
    }
  }

  lemma EndScan(b: seq<byte>, x: seq<byte>, k: nat, pat: seq<byte>)
    requires pat != [] && Separable(b + x, pat) && FirstToken(b) == k && ValueStart(b, k) == |b|
    ensures Scan(b, pat) == Skip(|b|)
  {
    hide FirstToken, ValueStart;
    SeparablePrefix(b, x, pat);
    assert SeparateAt(b, pat, k);
  }

  lemma {:induction false} KeptClean(b: seq<byte>, x: seq<byte>, pat: seq<byte>, rep: seq<byte>)
    requires pat != [] && CutWell(b, x, pat, rep)
    ensures LastClean(Rewrite(b, pat, rep))
  {
  }

  lemma {:induction false} NoTokenNoRewrite(s: seq<byte>, pat: seq<byte>, rep: seq<byte>)
    requires pat != [] && FirstToken(s) < 0
    ensures Rewrite(s, pat, rep) == s && LastToken(s) < 0
  {
  }

  /** With no token from `v` on, the last token stands in front of the value. */
  lemma LastTokenBefore(b: seq<byte>, k: nat, v: nat)
    requires FirstToken(b) == k && ValueStart(b, k) == v && FirstToken(b[v..]) < 0
    ensures var j := LastToken(b); k <= j < v && ValueStart(b, j) == v
  {
    hide FirstToken, LastToken, ValueStart;
    var j := LastToken(b);
    assert j >= v ==> TokenAt(b[v..], j - v);
    GapToken(b, k, j);
  }

  /** The first token of a buffer survives the pass. */
  lemma {:induction false} FirstTokenKept(s: seq<byte>, pat: seq<byte>, rep: seq<byte>)
    requires pat != [] && FirstToken(s) >= 0
    ensures TokenAt(Rewrite(s, pat, rep), FirstToken(s))
  {
    hide FirstToken, ValueStart;
    var k, rw := FirstToken(s), Rewrite(s, pat, rep);
    assert k + 7 <= |rw| && rw[..k + 7] == s[..k + 7];
    assert TokenAt(rw[..k + 7], k);
  }

  /** The step at a value inside the buffer is the step the whole stream takes there. */
  lemma ScanGrow(b: seq<byte>, x: seq<byte>, k: nat, v: nat, pat: seq<byte>)
    requires pat != [] && Separable(b + x, pat)
    requires FirstToken(b) == k && ValueStart(b, k) == v < |b|
    ensures Scan(b + x, pat) == if b[v] != QUOTE then Skip(v)
                                else if OccursAt(b + x, pat, v) then Replace(v) else Skip(v + 1)
    ensures Scan(b, pat) == if b[v] != QUOTE then Skip(v)
                            else if OccursAt(b, pat, v) then Replace(v) else Skip(v + 1)
  {
    hide FirstToken, ValueStart, OccursAt;
    FirstTokenGrow(b, x);
    ValueStartGrow(b, x, k);
    assert TokenAt(b + x, k);
    assert SeparateAt(b + x, pat, k);
  }

  lemma {:induction false} SkipBoth(b: seq<byte>, x: seq<byte>, n: nat, pat: seq<byte>, rep: seq<byte>)
    requires pat != [] && n <= |b| && Scan(b + x, pat) == Skip(n)
    ensures Rewrite(b + x, pat, rep) == b[..n] + Rewrite(b[n..] + x, pat, rep)
  {
    hide Scan;
    assert (b + x)[n..] == b[n..] + x && (b + x)[..n] == b[..n];
  }

  /** The value is a string still open at the end of the buffer. */
  lemma {:induction false} Unclosed(b: seq<byte>, x: seq<byte>, k: nat, v: nat, name: seq<byte>, rep: seq<byte>)
    requires Separable(b + x, Quoted(name))
    requires FirstToken(b) == k && ValueStart(b, k) == v < |b| && b[v] == QUOTE && StringEnd(b, v + 1) < 0
    ensures CutWell(b, x, Quoted(name), rep)
  {
    hide FirstToken, ValueStart, LastToken, Separable, CutWell, Scan, StringEnd, OccursAt, Quoted;
    var pat := Quoted(name);
    ScanGrow(b, x, k, v, pat);
    if OccursAt(b, pat, v) {
      ScanStopsAtClosingQuote(b, v, name);
      assert false;
    }
    NoTokenInOpenString(b, v);
    NoTokenNoRewrite(b[v + 1..], pat, rep);
    assert b[..v + 1] + b[v + 1..] == b;
    LastTokenBefore(b, k, v);
    OpenTail(b, x, k, pat, rep);
  }

  lemma NoTokenInOpenString(b: seq<byte>, v: nat)
    requires v < |b| && StringEnd(b, v + 1) < 0
    ensures FirstToken(b[v..]) < 0 && FirstToken(b[v + 1..]) < 0
  {
    hide FirstToken, StringEnd;
    var f, g := FirstToken(b[v..]), FirstToken(b[v + 1..]);
    if f >= 0 { TokenCloses(b, v + 1, v + f); }
    if g >= 0 { TokenCloses(b, v + 1, v + 1 + g); }
  }

  /** The value is a closed string that is not the old name. */
  lemma {:induction false} Mismatch(b: seq<byte>, x: seq<byte>, k: nat, v: nat, name: seq<byte>, rep: seq<byte>)
    requires Separable(b + x, Quoted(name))
    requires FirstToken(b) == k && ValueStart(b, k) == v < |b| && b[v] == QUOTE
    requires StringEnd(b, v + 1) >= 0 && !OccursAt(b, Quoted(name), v)
    requires CutWell(b[v + 1..], x, Quoted(name), rep)
    ensures CutWell(b, x, Quoted(name), rep)
  {
    hide FirstToken, ValueStart, LastToken, LastClean, Hold, Separable, CutWell, Scan, StringEnd;
    var pat, n := Quoted(name), v + 1;
    var r := Rewrite(b[n..], pat, rep);
    ScanGrow(b, x, k, v, pat);
    StillMismatch(b, x, v, name);
    SkipBoth(b, x, n, pat, rep);
    if FirstToken(b[n..]) >= 0 {
      FirstTokenKept(b[n..], pat, rep);
      KeptClean(b[n..], x, pat, rep);
      HoldOfSuffix(b[..n], r);
    } else {
      NoTokenNoRewrite(b[n..], pat, rep);
      assert b[..n] + b[n..] == b;
      ClosedHold(b, x, k, v, pat);
    }
    PrefixCut(b, x, n, b[..n], pat, rep);
  }

  lemma {:induction false} StillMismatch(b: seq<byte>, x: seq<byte>, v: nat, name: seq<byte>)
    requires v < |b| && StringEnd(b, v + 1) >= 0 && !OccursAt(b, Quoted(name), v)
    ensures !OccursAt(b + x, Quoted(name), v)
  {
    hide StringEnd, Quoted;
    StringEndStable(b, x, v + 1);
    if OccursAt(b + x, Quoted(name), v) {
      ScanStopsAtClosingQuote(b + x, v, name);
      assert false;
    }
  }

  /** A closed value with no token behind it: only a partial key can be held. */
  lemma {:induction false} ClosedHold(b: seq<byte>, x: seq<byte>, k: nat, v: nat, pat: seq<byte>)
    requires pat != [] && Separable(b + x, pat)
    requires FirstToken(b) == k && ValueStart(b, k) == v < |b| && b[v] == QUOTE
    requires StringEnd(b, v + 1) >= 0 && FirstToken(b[v + 1..]) < 0
    ensures LastClean(b) && Hold(b) == Hold(b[v + 1..])
  {
    hide FirstToken, ValueStart, StringEnd, LastToken, HoldWithin, PartialKey, Separable, Hold, LastClean;
    SeparablePrefix(b, x, pat);
    ClosedIsPartial(b, k, v, pat);
    NoTokenHold(b[v + 1..]);
    PartialBehindQuote(b, v + 1, StringEnd(b, v + 1));
  }

  /** A closed last value leaves only a key to hold. */
  lemma {:induction false} ClosedIsPartial(b: seq<byte>, k: nat, v: nat, pat: seq<byte>)
    requires pat != [] && Separable(b, pat) && FirstToken(b) == k && ValueStart(b, k) == v < |b| && b[v] == QUOTE
    requires StringEnd(b, v + 1) >= 0 && FirstToken(b[v + 1..]) < 0
    ensures LastClean(b) && Hold(b) == PartialKey(b, 6)
  {
    hide FirstToken, ValueStart, StringEnd, LastToken, HoldWithin, PartialKey, Separable, Hold;
    NoTokenFromValue(b, k, v, pat);
    LastTokenBefore(b, k, v);
    LastTokenClean(b, pat);
    HoldIs(b);
  }

  lemma LastTokenClean(b: seq<byte>, pat: seq<byte>)
    requires Separable(b, pat)
    ensures LastClean(b)
  {
    hide LastToken;
    var j := LastToken(b);
    assert j >= 0 ==> SeparateAt(b, pat, j);
  }

  lemma NoTokenFromValue(b: seq<byte>, k: nat, v: nat, pat: seq<byte>)
    requires Separable(b, pat) && TokenAt(b, k)
    requires ValueStart(b, k) == v < |b| && FirstToken(b[v + 1..]) < 0
    ensures FirstToken(b[v..]) < 0
  {
    hide FirstToken, ValueStart;
    assert SeparateAt(b, pat, k);
    var f := FirstToken(b[v..]);
    assert f == 0 ==> TokenAt(b, v);
    assert f > 0 ==> TokenAt(b[v + 1..], f - 1);
  }

  /** A partial key holds a single quote, so it can not reach back over another one. */
  lemma {:induction false} PartialBehindQuote(s: seq<byte>, m: nat, q: nat)
    requires m <= q < |s| && s[q] == QUOTE
    ensures PartialKey(s, 6) == PartialKey(s[m..], 6)
  {
    hide PartialKey;
    var l, t := PartialKey(s, 6), s[m..];
    StartsPastQuote(s, l, q);
    var r := PartialKey(t, 6);
    SameTail(s, m, l);
    SameTail(s, m, r);
  }

  lemma SameTail(s: seq<byte>, m: nat, l: nat)
    requires m <= |s| && l <= |s| - m
    ensures s[m..][|s| - m - l..] == s[|s| - l..]
  {
  }

  /** An open key does not reach back over a quote. */
  lemma StartsPastQuote(s: seq<byte>, l: nat, q: nat)
    requires l <= 6 && l <= |s| && s[|s| - l..] == KEY[..l] && q < |s| && s[q] == QUOTE
    ensures l <= |s| - q
  {
    var key := s[|s| - l..];
    forall i | |s| - l < i < |s| ensures s[i] != QUOTE {
      var j := i - (|s| - l);
      assert s[i] == key[j] == KEY[..l][j] == KEY[j];
    }
  }

  // ---- A replaced value

  /** The client's name brings no `"model"` token into the stream. */
  ghost predicate PlainName(name: seq<byte>) {
    forall j :: !TokenAt(Quoted(name), j)
  }

  lemma {:induction false} EscapeOfPlain(s: seq<byte>)
    requires forall i :: 0 <= i < |s| ==> s[i] >= 32 && s[i] != QUOTE && s[i] != BACKSLASH
    ensures Escape(s) == s
  {
    if s != [] { EscapeOfPlain(s[1..]); }
  }

  /** No token starts in the replacement, unless at its closing quote. */
  lemma NoTokenInReplacement(s: seq<byte>, v: nat, name: seq<byte>, l: nat)
    requires PlainName(name) && OccursAt(s, Quoted(name), v)
    requires v <= l < v + |Quoted(name)| - 1
    ensures !TokenAt(s, l)
  {
    hide Quoted;
    var rep := Quoted(name);
    InteriorByte(s, v, rep, |rep| - 1);
    assert s[v..v + |rep|] == rep by { SliceOccurs(s, 0, rep, v); }
    assert TokenAt(s, l) && l + 7 <= v + |rep| ==> TokenAt(rep, l - v);
  }

  lemma InteriorByte(s: seq<byte>, v: nat, rep: seq<byte>, i: nat)
    requires OccursAt(s, rep, v)
    ensures i < |rep| ==> s[v + i] == rep[i]
  {
  }

  lemma ValueStartSame(a: seq<byte>, b: seq<byte>, k: nat, v: nat)
    requires k + 7 <= v < |a| && v < |b| && a[..v + 1] == b[..v + 1]
    requires ValueStart(a, k) == v
    ensures ValueStart(b, k) == v
  {
    assert forall i :: 0 <= i <= v ==> a[i] == a[..v + 1][i] == b[i];
    var c := ColonFrom(a, k + 7);
    assert ColonFrom(b, k + 7) == c;
    var w := SkipWhitespace(b, c + 1);
  }

  /** The last token of a buffer whose final value was just replaced, with no token behind it. */
  lemma LastTokenReplaced(b: seq<byte>, k: nat, v: nat, pat: seq<byte>, name: seq<byte>)
    requires PlainName(name) && |pat| >= 2 && pat[0] == pat[|pat| - 1] == QUOTE
    requires Separable(b, pat) && FirstToken(b) == k && ValueStart(b, k) == v && OccursAt(b, pat, v)
    requires FirstToken(b[v + |pat|..]) < 0
    ensures var s := b[..v] + Quoted(name) + b[v + |pat|..];
            LastClean(s) && Hold(s) == PartialKey(s, 6)
  {
    hide FirstToken, LastToken, ValueStart, HoldWithin, PartialKey, StringEnd, Quoted, Separable, OccursAt;
    var rep, n := Quoted(name), v + |pat|;
    PatEnds(b, pat, v);
    var s := b[..v] + rep + b[n..];
    assert OccursAt(s, rep, v) by { InMiddle(b[..v], rep, b[n..]); }
    assert s[..v + 1] == b[..v + 1];
    ValueStartSame(b, s, k, v);
    assert TokenAt(s, k) by { TokenSame(b, s, k, v); }
    var l := LastToken(s);
    BehindReplacement(b, k, v, pat, name, l);
    GapToken(s, k, l);
    TokenBeforeValue(s, l);
    assert TokenAt(b, l) by { TokenSame(s, b, l, v); }
    CleanAt(b, pat, l);
    ScanStopsAtClosingQuote(s, v, name);
    HoldIs(s);
  }

  lemma InMiddle(a: seq<byte>, b: seq<byte>, c: seq<byte>)
    ensures OccursAt(a + b + c, b, |a|)
  {
  }

  lemma PatEnds(b: seq<byte>, pat: seq<byte>, v: nat)
    requires |pat| >= 2 && pat[0] == pat[|pat| - 1] == QUOTE && OccursAt(b, pat, v)
    ensures v + |pat| <= |b| && b[v] == b[v + |pat| - 1] == QUOTE
  {
    assert b[v + 0] == pat[0] && b[v + (|pat| - 1)] == pat[|pat| - 1];
  }

  lemma CleanAt(b: seq<byte>, pat: seq<byte>, l: nat)
    requires Separable(b, pat) && TokenAt(b, l)
    ensures !NameCharAfter(b, l)
  {
    assert SeparateAt(b, pat, l);
  }

  lemma TokenSame(a: seq<byte>, b: seq<byte>, k: nat, v: nat)
    requires TokenAt(a, k) && k + 7 <= v < |a| && v < |b| && a[..v + 1] == b[..v + 1]
    ensures TokenAt(b, k)
    ensures NameCharAfter(a, k) == NameCharAfter(b, k)
  {
    assert forall i :: 0 <= i <= v ==> a[i] == a[..v + 1][i] == b[i];
  }

  lemma TokenBeforeValue(s: seq<byte>, l: nat)
    requires TokenAt(s, l)
    ensures ValueStart(s, l) >= 0 ==> l + 7 <= ValueStart(s, l)
  {
  }

  /** No token of the rewritten buffer starts at or after the replaced value. */
  lemma BehindReplacement(b: seq<byte>, k: nat, v: nat, pat: seq<byte>, name: seq<byte>, l: int)
    requires PlainName(name) && |pat| >= 2 && pat[0] == pat[|pat| - 1] == QUOTE
    requires Separable(b, pat) && FirstToken(b) == k && ValueStart(b, k) == v && OccursAt(b, pat, v)
    requires FirstToken(b[v + |pat|..]) < 0
    requires TokenAt(b[..v] + Quoted(name) + b[v + |pat|..], l)
    ensures l < v
  {
    hide FirstToken, ValueStart, Quoted, OccursAt;
    var rep, n := Quoted(name), v + |pat|;
    PatEnds(b, pat, v);
    var s, p := b[..v] + rep + b[n..], v + |rep|;
    assert SeparateAt(b, pat, k);
    var t := b[n..];
    assert l >= p ==> TokenAt(t, l - p);
    assert l == p - 1 ==> TokenAt(b, n - 1);
    if v <= l < p - 1 {
      InMiddle(b[..v], rep, b[n..]);
      NoTokenInReplacement(s, v, name, l);
    }
  }

  /** The value is the old name: it is replaced, and what is held starts behind it or at its closing quote. */
  lemma Match(b: seq<byte>, x: seq<byte>, k: nat, v: nat, pat: seq<byte>, name: seq<byte>)
    requires PlainName(name) && |pat| >= 2 && pat[0] == pat[|pat| - 1] == QUOTE
    requires Separable(b + x, pat) && FirstToken(b) == k && ValueStart(b, k) == v < |b| && OccursAt(b, pat, v)
    requires CutWell(b[v + |pat|..], x, pat, Quoted(name))
    ensures CutWell(b, x, pat, Quoted(name))
  {
    hide FirstToken, LastToken, ValueStart, Scan, Hold, LastClean, CutWell, Separable, Quoted, OccursAt, PartialKey, Rewrite;
    var n, rep := v + |pat|, Quoted(name);
    PatEnds(b, pat, v);
    var p, t := b[..v] + rep, b[n..];
    var r := Rewrite(t, pat, rep);
    ReplaceBoth(b, x, k, v, pat, rep);
    if FirstToken(t) >= 0 {
      FirstTokenKept(t, pat, rep);
      KeptClean(t, x, pat, rep);
      HoldOfSuffix(p, r);
      PrefixCut(b, x, n, p, pat, rep);
    } else {
      NoTokenNoRewrite(t, pat, rep);
      SeparablePrefix(b, x, pat);
      LastTokenReplaced(b, k, v, pat, name);
      NoTokenHold(t);
      PartialAtQuote(p, t);
      if Hold(p + t) == Hold(t) {
        PrefixCut(b, x, n, p, pat, rep);
      } else {
        HeldFromClosingQuote(b, x, k, v, pat, rep);
      }
    }
  }

  lemma {:induction false} ReplaceBoth(b: seq<byte>, x: seq<byte>, k: nat, v: nat, pat: seq<byte>, rep: seq<byte>)
    requires pat != [] && Separable(b + x, pat)
    requires FirstToken(b) == k && ValueStart(b, k) == v < |b| && b[v] == QUOTE && OccursAt(b, pat, v)
    ensures v + |pat| <= |b|
    ensures Rewrite(b, pat, rep) == b[..v] + rep + Rewrite(b[v + |pat|..], pat, rep)
    ensures Rewrite(b + x, pat, rep) == b[..v] + rep + Rewrite(b[v + |pat|..] + x, pat, rep)
  {
    OccursGrow(b, x, pat, v);
    hide FirstToken, ValueStart, Scan, Separable, OccursAt, Rewrite, TokenAt;
    ScanGrow(b, x, k, v, pat);
    ReplaceStepAt(b, v, pat, rep);
    ReplaceStepGrown(b, x, v, pat, rep);
  }

  lemma {:induction false} ReplaceStepGrown(b: seq<byte>, x: seq<byte>, v: nat, pat: seq<byte>, rep: seq<byte>)
    requires pat != [] && v + |pat| <= |b| && Scan(b + x, pat) == Replace(v)
    ensures Rewrite(b + x, pat, rep) == b[..v] + rep + Rewrite(b[v + |pat|..] + x, pat, rep)
  {
    hide Scan, Rewrite;
    ReplaceStepAt(b + x, v, pat, rep);
    AppendSlices(b, x, v, v + |pat|);
  }

  lemma AppendSlices(b: seq<byte>, x: seq<byte>, v: nat, n: nat)
    requires v <= |b| && n <= |b|
    ensures (b + x)[n..] == b[n..] + x && (b + x)[..v] == b[..v]
  {
  }

  lemma {:induction false} ReplaceStepAt(s: seq<byte>, v: nat, pat: seq<byte>, rep: seq<byte>)
    requires pat != [] && v + |pat| <= |s| && Scan(s, pat) == Replace(v)
    ensures Rewrite(s, pat, rep) == s[..v] + rep + Rewrite(s[v + |pat|..], pat, rep)
  {
    hide Scan;
  }

  lemma OccursGrow(b: seq<byte>, x: seq<byte>, pat: seq<byte>, v: nat)
    requires OccursAt(b, pat, v)
    ensures OccursAt(b + x, pat, v) && v + |pat| <= |b|
  {
  }

  lemma {:induction false} NoTokenHold(t: seq<byte>)
    requires FirstToken(t) < 0
    ensures LastClean(t) && Hold(t) == PartialKey(t, 6)
  {
    hide FirstToken, LastToken, PartialKey;
    assert LastToken(t) < 0;
    HoldIs(t);
  }

  /** Behind a closing quote the partial key is that of the rest, or it starts at the quote itself. */
  lemma {:induction false} PartialAtQuote(p: seq<byte>, t: seq<byte>)
    requires p != [] && p[|p| - 1] == QUOTE
    ensures PartialKey(p + t, 6) == PartialKey(t, 6) || PartialKey(p + t, 6) == |t| + 1
  {
    hide PartialKey;
    var s := p + t;
    var l := PartialKey(s, 6);
    assert s[|p| - 1] == QUOTE;
    StartsPastQuote(s, l, |p| - 1);
    if l <= |t| {
      var r := PartialKey(t, 6);
      assert t[|t| - l..] == s[|s| - l..];
      assert t[|t| - r..] == s[|s| - r..];
    }
  }

  lemma HeldFromClosingQuote(b: seq<byte>, x: seq<byte>, k: nat, v: nat, pat: seq<byte>, rep: seq<byte>)
    requires |pat| >= 2 && pat[0] == pat[|pat| - 1] == QUOTE && rep != [] && rep[|rep| - 1] == QUOTE
    requires Separable(b + x, pat) && FirstToken(b) == k && ValueStart(b, k) == v < |b|
    requires OccursAt(b, pat, v) && v + |pat| <= |b|
    requires var p, t := b[..v] + rep, b[v + |pat|..];
             && Rewrite(b, pat, rep) == p + t && LastClean(p + t) && Hold(p + t) == |t| + 1
             && Rewrite(b + x, pat, rep) == p + Rewrite(t + x, pat, rep)
    ensures CutWell(b, x, pat, rep)
  {
    hide FirstToken, LastToken, ValueStart, Rewrite, Hold, LastClean, Separable, OccursAt;
    var n, p, s := v + |pat|, b[..v] + rep, b + x;
    var t := b[n..];
    PatEnds(b, pat, v);
    var u := s[n - 1..];
    assert u == [QUOTE] + t + x;
    SeparableSuffix(s, pat, n - 1);
    NoTokenAtClosingQuote(b, x, k, v, pat);
    assert !TokenAt(u, 0);
    SkipPrefix(u, 1, pat, rep);
    assert u[..1] == [QUOTE] && u[1..] == t + x;
    assert Tail(p + t) == [QUOTE] + t;
    assert Head(p + t) + [QUOTE] == p;
    Assoc(Head(p + t), [QUOTE], Rewrite(t + x, pat, rep));
  }

  lemma NoTokenAtClosingQuote(b: seq<byte>, x: seq<byte>, k: nat, v: nat, pat: seq<byte>)
    requires pat != [] && Separable(b + x, pat) && FirstToken(b) == k && ValueStart(b, k) == v < |b|
    requires OccursAt(b, pat, v)
    ensures !TokenAt(b + x, v + |pat| - 1)
  {
    hide FirstToken, ValueStart;
    ValueStartGrow(b, x, k);
    OccursGrow(b, x, pat, v);
    assert TokenAt(b + x, k);
    assert SeparateAt(b + x, pat, k);
  }

  // ---- The main results

  /** One write: send the head, keep the tail, and nothing of the whole-stream pass is lost. */
  lemma {:induction false} HoldStep(b: seq<byte>, x: seq<byte>, oldModel: seq<byte>, newModel: seq<byte>)
    requires PlainName(newModel) && Separable(b + x, Quoted(oldModel))
    ensures CutWell(b, x, Quoted(oldModel), Quoted(newModel))
    decreases |b|
  {
    hide FirstToken, ValueStart, StringEnd, OccursAt, Quoted, CutWell, Separable;
    var pat, rep, k := Quoted(oldModel), Quoted(newModel), FirstToken(b);
    if k < 0 {
      NoToken(b, x, pat, rep);
      return;
    }
    var v := ValueStart(b, k);
    if v < 0 {
      NoColon(b, x, k, pat, rep);
    } else if v == |b| || b[v] != QUOTE {
      HoldStepRest(b, x, v, pat);
      HoldStep(b[v..], x, oldModel, newModel);
      NonString(b, x, k, v, pat, rep);
    } else if StringEnd(b, v + 1) < 0 {
      Unclosed(b, x, k, v, oldModel, rep);
    } else if OccursAt(b, pat, v) {
      PatEnds(b, pat, v);
      HoldStepRest(b, x, v + |pat|, pat);
      HoldStep(b[v + |pat|..], x, oldModel, newModel);
      Match(b, x, k, v, pat, newModel);
    } else {
      HoldStepRest(b, x, v + 1, pat);
      HoldStep(b[v + 1..], x, oldModel, newModel);
      Mismatch(b, x, k, v, oldModel, rep);
    }
  }

  lemma HoldStepRest(b: seq<byte>, x: seq<byte>, n: nat, pat: seq<byte>)
    requires pat != [] && n <= |b| && Separable(b + x, pat)
    ensures Separable(b[n..] + x, pat)
  {
    SeparableSuffix(b + x, pat, n);
    assert (b + x)[n..] == b[n..] + x;
  }

  lemma NoColon(b: seq<byte>, x: seq<byte>, k: nat, pat: seq<byte>, rep: seq<byte>)
    requires pat != [] && Separable(b + x, pat) && FirstToken(b) == k && ValueStart(b, k) < 0
    ensures CutWell(b, x, pat, rep)
  {
    hide FirstToken, LastToken, ValueStart, CutWell;
    SeparablePrefix(b, x, pat);
    assert SeparateAt(b, pat, k);
    assert Scan(b, pat) == Stop;
    GapToken(b, k, LastToken(b));
    OpenTail(b, x, k, pat, rep);
  }

  /** Nothing in the held tail is still to be rewritten when the stream ends there. */
  lemma {:induction false} TailIsFinal(b: seq<byte>, oldModel: seq<byte>, newModel: seq<byte>)
    requires PlainName(newModel) && Separable(b, Quoted(oldModel))
    ensures var pat, rep := Quoted(oldModel), Quoted(newModel);
            var rw := Rewrite(b, pat, rep);
            Rewrite(Tail(rw), pat, rep) == Tail(rw)
  {
    hide Rewrite, Hold, Quoted, LastClean, Separable;
    var pat, rep := Quoted(oldModel), Quoted(newModel);
    var rw := Rewrite(b, pat, rep);
    assert b + [] == b && Tail(rw) + [] == Tail(rw);
    HoldStep(b, [], oldModel, newModel);
    assert Head(rw) + Tail(rw) == rw;
    assert (Head(rw) + Rewrite(Tail(rw), pat, rep))[|Head(rw)|..] == (Head(rw) + Tail(rw))[|Head(rw)|..];
  }

  lemma {:induction false} RelayedFrom(carry: seq<byte>, chunks: seq<seq<byte>>,
                                       oldModel: seq<byte>, newModel: seq<byte>)
    requires oldModel != [] && newModel != [] && PlainName(newModel)
    requires Separable(carry + Concat(chunks), Quoted(oldModel))
    requires Rewrite(carry, Quoted(oldModel), Quoted(newModel)) == carry
    ensures Relayed(carry, chunks, oldModel, newModel)
         == Rewrite(carry + Concat(chunks), Quoted(oldModel), Quoted(newModel))
    decreases chunks
  {
    hide Rewrite, Hold, Quoted, LastClean, Separable;
    if chunks == [] {
      assert carry + Concat(chunks) == carry;
    } else {
      var b, x := carry + chunks[0], Concat(chunks[1..]);
      assert carry + Concat(chunks) == b + x;
      HoldStep(b, x, oldModel, newModel);
      SeparablePrefix(b, x, Quoted(oldModel));
      TailIsFinal(b, oldModel, newModel);
      RelayedFrom(Tail(Rewrite(b, Quoted(oldModel), Quoted(newModel))), chunks[1..], oldModel, newModel);
    }
  }

  /**
   Segmentation independence: for a separable stream and a plain new name, the bytes sent over
   any split into writes plus Finish are the single-pass rewrite of the concatenation.
   */
  lemma {:induction false} SegmentationIndependent(chunks: seq<seq<byte>>, oldModel: seq<byte>, newModel: seq<byte>)
    requires PlainName(newModel) && Separable(Concat(chunks), Quoted(oldModel))
    ensures Relayed([], chunks, oldModel, newModel) == Rewritten(Concat(chunks), oldModel, newModel)
  {
    hide Separable;
    assert [] + Concat(chunks) == Concat(chunks);
    if oldModel == [] || newModel == [] {
      UnrewrittenFrom([], chunks, oldModel, newModel);
    } else {
      RewriteShort([], 0, Quoted(oldModel), Quoted(newModel));
      RelayedFrom([], chunks, oldModel, newModel);
    }
  }

  /** With a missing name the writer only delays bytes. */
  lemma {:induction false} UnrewrittenFrom(carry: seq<byte>, chunks: seq<seq<byte>>,
                                           oldModel: seq<byte>, newModel: seq<byte>)
    requires oldModel == [] || newModel == []
    ensures Relayed(carry, chunks, oldModel, newModel) == carry + Concat(chunks)
    decreases chunks
  {
    hide Hold;
    if chunks == [] {
      assert carry + Concat(chunks) == carry;
    } else {
      var b := carry + chunks[0];
      UnrewrittenFrom(Tail(b), chunks[1..], oldModel, newModel);
      Assoc(Head(b), Tail(b), Concat(chunks[1..]));
      Assoc(carry, chunks[0], Concat(chunks[1..]));
      assert Head(b) + Tail(b) == b;
    }
  }
}
