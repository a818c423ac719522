/** What a single pass of the model rewriter changes: an edit script over the input. */
module ModelEdits {
  import opened Bytes
  import opened JsonString
  import opened ModelRewrite
  import opened ModelStream
  import opened ModelSegmentation

  /** The spans of `len` bytes lie between `from` and `to`, disjoint and in order. */
  predicate Ordered(spans: seq<nat>, len: nat, from: nat, to: nat) {
    if spans == [] then from <= to
    else from <= spans[0] && spans[0] + len <= to && Ordered(spans[1..], len, spans[0] + len, to)
  }

  /** The input from `from` on, with the span of `len` bytes at each listed index replaced by `rep`. */
  function Splice(s: seq<byte>, spans: seq<nat>, len: nat, rep: seq<byte>, from: nat): seq<byte>
    requires from <= |s| && Ordered(spans, len, from, |s|)
  {
    if spans == [] then s[from..]
    else s[from..spans[0]] + rep + Splice(s, spans[1..], len, rep, spans[0] + len)
  }

  /** Some `"model"` token that is a whole key name has its value at `v`. */
  ghost predicate ValueOfToken(s: seq<byte>, v: nat) {
    exists k :: TokenAt(s, k) && !NameCharAfter(s, k) && ValueStart(s, k) == v
  }

  predicate Blank(b: byte) { b == 32 || b == 9 || b == 10 || b == 13 }

  predicate NameByte(b: byte) {
    || 'a' as int <= b <= 'z' as int || 'A' as int <= b <= 'Z' as int || '0' as int <= b <= '9' as int
    || b == '_' as int || b == '-' as int
  }

  /** `"model"` at `k`, no name character behind it, its first later colon at `c`, then spaces, tabs and line ends up to `v`. */
  predicate KeyAndValue(s: seq<byte>, k: int, c: int, v: int) {
    && OccursAt(s, KEY, k) && (k + 7 < |s| ==> !NameByte(s[k + 7]))
    && k + 7 <= c < v <= |s| && s[c] == ':' as int && (forall j :: k + 7 <= j < c ==> s[j] != ':' as int)
    && (forall j :: c < j < v ==> Blank(s[j])) && (v < |s| ==> !Blank(s[v]))
  }

  lemma ByteClasses(b: byte)
    ensures Blank(b) == IsWhitespace(b) && NameByte(b) == IsNameChar(b)
  {
  }

  /** Where a token's value stands, byte by byte. */
  lemma ValueExactly(s: seq<byte>, v: nat)
    ensures ValueOfToken(s, v) <==> exists k, c :: KeyAndValue(s, k, c, v)
  {
    hide KeyAndValue, NameCharAfter, ValueStart;
    if ValueOfToken(s, v) {
      var k :| TokenAt(s, k) && !NameCharAfter(s, k) && ValueStart(s, k) == v;
      assert KeyAndValue(s, k, ColonFrom(s, k + 7), v) by { ValueFound(s, k, v); }
    }
    if k, c :| KeyAndValue(s, k, c, v) {
      ValueStands(s, k, c, v);
    }
  }

  lemma {:induction false} ValueFound(s: seq<byte>, k: nat, v: nat)
    requires TokenAt(s, k) && !NameCharAfter(s, k) && ValueStart(s, k) == v
    ensures KeyAndValue(s, k, ColonFrom(s, k + 7), v)
  {
    hide TokenAt, OccursAt, IsNameChar, NameByte, IsWhitespace, Blank, ColonFrom, SkipWhitespace;
    TokenInside(s, k);
    forall j | 0 <= j < |s| ensures Blank(s[j]) == IsWhitespace(s[j]) && NameByte(s[j]) == IsNameChar(s[j]) {
      ByteClasses(s[j]);
    }
  }

  lemma TokenInside(s: seq<byte>, k: int)
    ensures TokenAt(s, k) <==> OccursAt(s, KEY, k)
    ensures TokenAt(s, k) ==> 0 <= k && k + 7 <= |s|
  {
    TokenIsKey(s, k);
  }

  lemma ValueStands(s: seq<byte>, k: int, c: int, v: nat)
    requires KeyAndValue(s, k, c, v)
    ensures TokenAt(s, k) && 0 <= k && k + 7 <= |s| && !NameCharAfter(s, k) && ValueStart(s, k) == v
  {
    hide TokenAt, OccursAt, IsNameChar, NameByte, Blank, ColonFrom, SkipWhitespace;
    TokenInside(s, k);
    if k + 7 < |s| { ByteClasses(s[k + 7]); }
    assert ColonFrom(s, k + 7) == c;
    SkipsTo(s, c + 1, v);
  }

  lemma {:induction false} SkipsTo(s: seq<byte>, p: nat, v: nat)
    requires p <= v <= |s| && (forall j :: p <= j < v ==> Blank(s[j])) && (v < |s| ==> !Blank(s[v]))
    ensures SkipWhitespace(s, p) == v
    decreases v - p
  {
    if p < v { SkipsTo(s, p + 1, v); }
  }

  /** Extending the copied prefix to the left. */
  lemma {:induction false} SpliceFromLower(s: seq<byte>, spans: seq<nat>, len: nat, rep: seq<byte>, from: nat, lower: nat)
    requires lower <= from <= |s| && Ordered(spans, len, from, |s|)
    ensures Ordered(spans, len, lower, |s|)
    ensures Splice(s, spans, len, rep, lower) == s[lower..from] + Splice(s, spans, len, rep, from)
  {
    if spans == [] {
      assert s[lower..] == s[lower..from] + s[from..];
    } else {
      var r := Splice(s, spans[1..], len, rep, spans[0] + len);
      assert s[lower..spans[0]] == s[lower..from] + s[from..spans[0]];
      Assoc(s[lower..from], s[from..spans[0]], rep);
      Assoc(s[lower..from], s[from..spans[0]] + rep, r);
    }
  }

  lemma {:induction false} SpliceCons(s: seq<byte>, v: nat, spans: seq<nat>, len: nat, rep: seq<byte>, from: nat)
    requires from <= v && v + len <= |s| && Ordered(spans, len, v + len, |s|)
    ensures Ordered([v] + spans, len, from, |s|)
    ensures Splice(s, [v] + spans, len, rep, from) == s[from..v] + rep + Splice(s, spans, len, rep, v + len)
  {
    assert ([v] + spans)[1..] == spans;
  }

  /** The pass from `from` on is the splice of its spans. */
  lemma {:induction false} RewriteIsSplice(s: seq<byte>, from: nat, pat: seq<byte>, rep: seq<byte>)
    requires pat != [] && from <= |s|
    ensures Ordered(Spans(s, from, pat), |pat|, from, |s|)
    ensures Rewrite(s[from..], pat, rep) == Splice(s, Spans(s, from, pat), |pat|, rep, from)
    decreases |s| - from
  {
    hide Scan, Splice, Ordered;
    var t := s[from..];
    match Scan(t, pat)
    case Stop =>
      SpliceNone(s, |pat|, rep, from);
    case Skip(n) =>
      RewriteIsSplice(s, from + n, pat, rep);
      SliceTwice(s, from, n);
      SpliceFromLower(s, Spans(s, from + n, pat), |pat|, rep, from + n, from);
    case Replace(v) =>
      var m := from + v + |pat|;
      RewriteIsSplice(s, m, pat, rep);
      SliceTwice(s, from, v);
      SliceTwice(s, from, v + |pat|);
      SpliceCons(s, from + v, Spans(s, m, pat), |pat|, rep, from);
  }

  lemma SliceTwice(s: seq<byte>, from: nat, n: nat)
    requires from + n <= |s|
    ensures s[from..][n..] == s[from + n..] && s[from..][..n] == s[from..from + n]
  {
  }

  lemma {:induction false} SpliceNone(s: seq<byte>, len: nat, rep: seq<byte>, from: nat)
    requires from <= |s|
    ensures Ordered([], len, from, |s|) && Splice(s, [], len, rep, from) == s[from..]
  {
  }

  lemma {:induction false} SpansAreValues(s: seq<byte>, from: nat, pat: seq<byte>, v: nat)
    requires pat != [] && from <= |s| && v in Spans(s, from, pat)
    ensures OccursAt(s, pat, v) && ValueOfToken(s, v)
    decreases |s| - from
  {
    hide Scan, ValueOfToken, OccursAt;
    match Scan(s[from..], pat)
    case Stop =>
    case Skip(n) =>
      SpansAreValues(s, from + n, pat, v);
    case Replace(w) =>
      if v == from + w {
        ReplacedValue(s, from, pat);
      } else {
        SpansAreValues(s, from + w + |pat|, pat, v);
      }
  }

  lemma ReplacedValue(s: seq<byte>, from: nat, pat: seq<byte>)
    requires pat != [] && from <= |s| && Scan(s[from..], pat).Replace?
    ensures var v := from + Scan(s[from..], pat).at;
            OccursAt(s, pat, v) && ValueOfToken(s, v)
  {
    hide ValueStart, FirstToken;
    var t := s[from..];
    var k, v := FirstToken(t), Scan(t, pat).at;
    OccursShift(s, from, pat, from + v);
    ValueStartShift(s, from, k);
    assert TokenAt(s, from + k) && !NameCharAfter(s, from + k);
  }

  lemma {:induction false} SpliceLength(s: seq<byte>, spans: seq<nat>, len: nat, rep: seq<byte>, from: nat)
    requires from <= |s| && Ordered(spans, len, from, |s|)
    ensures |Splice(s, spans, len, rep, from)| == |s| - from + |spans| * (|rep| - len)
  {
    if spans != [] {
      SpliceLength(s, spans[1..], len, rep, spans[0] + len);
      assert |spans| * (|rep| - len) == (|spans| - 1) * (|rep| - len) + (|rep| - len);
    }
  }

  /**
   The pass is a pure edit script, for every input: the output is the input with disjoint ordered
   spans, each the quoted old name as the value of a `"model"` token, replaced by the quoted new name.
   */
  lemma {:induction false} EditScript(data: seq<byte>, oldModel: seq<byte>, newModel: seq<byte>)
    ensures var pat, rep := Quoted(oldModel), Quoted(newModel);
            var spans, out := Spans(data, 0, pat), Rewrite(data, pat, rep);
            && Ordered(spans, |pat|, 0, |data|)
            && out == Splice(data, spans, |pat|, rep, 0)
            && (forall v :: v in spans ==> OccursAt(data, pat, v) && ValueOfToken(data, v))
            && |out| == |data| + |spans| * (|rep| - |pat|)
  {
    hide Rewrite, Splice, Spans, Quoted, ValueOfToken, OccursAt;
    var pat, rep := Quoted(oldModel), Quoted(newModel);
    assert data[0..] == data;
    RewriteIsSplice(data, 0, pat, rep);
    SpliceLength(data, Spans(data, 0, pat), |pat|, rep, 0);
    forall v | v in Spans(data, 0, pat) ensures OccursAt(data, pat, v) && ValueOfToken(data, v) {
      SpansAreValues(data, 0, pat, v);
    }
  }

  // ---- Which values are replaced

  lemma TokenOutside(s: seq<byte>, oldModel: seq<byte>, w: nat, k: nat)
    requires PlainName(oldModel) && OccursAt(s, Quoted(oldModel), w)
    requires TokenAt(s, k) && w < k && k != w + |Quoted(oldModel)| - 1
    ensures k >= w + |Quoted(oldModel)|
  {
    if k < w + |Quoted(oldModel)| {
      NoTokenInReplacement(s, w, oldModel, k);
    }
  }

  /** From a scan position on, every old name that is a value of a later token is replaced. */
  lemma {:induction false} EveryValueReplaced(s: seq<byte>, from: nat, oldModel: seq<byte>, k: nat, v: nat)
    requires PlainName(oldModel) && Separable(s, Quoted(oldModel))
    requires from <= k && TokenAt(s, k) && ValueStart(s, k) == v && OccursAt(s, Quoted(oldModel), v)
    ensures v in Spans(s, from, Quoted(oldModel))
    decreases |s| - from
  {
    hide FirstToken, ValueStart, OccursAt, Quoted, Separable, Scan, PlainName;
    var pat := Quoted(oldModel);
    var f := FirstFrom(s, from, k, pat);
    var w := ValueStart(s, f);
    GapToken(s, f, k);
    PatEnds(s, pat, v);
    if k >= w {
      if s[w] != QUOTE {
        EveryValueReplaced(s, w, oldModel, k, v);
      } else if OccursAt(s, pat, w) {
        TokenOutside(s, oldModel, w, k);
        EveryValueReplaced(s, w + |pat|, oldModel, k, v);
      } else {
        EveryValueReplaced(s, w + 1, oldModel, k, v);
      }
    }
  }

  /** The first token at or after a scan position, and the step the scanner takes there. */
  lemma FirstFrom(s: seq<byte>, from: nat, k: nat, pat: seq<byte>) returns (f: nat)
    requires pat != [] && Separable(s, pat) && from <= k && TokenAt(s, k)
    ensures from <= f <= k && TokenAt(s, f)
    ensures var w := ValueStart(s, f);
            0 <= w < |s| ==>
              && !TokenAt(s, w) && (OccursAt(s, pat, w) ==> !TokenAt(s, w + |pat| - 1))
              && Scan(s[from..], pat) == if s[w] != QUOTE then Skip(w - from)
                                         else if OccursAt(s, pat, w) then Replace(w - from)
                                         else Skip(w + 1 - from)
  {
    hide FirstToken, ValueStart, OccursAt;
    var t := s[from..];
    assert TokenAt(t, k - from);
    f := from + FirstToken(t);
    assert TokenAt(s, f);
    assert SeparateAt(s, pat, f);
    ValueStartShift(s, from, f - from);
    var w := ValueStart(s, f);
    if w >= 0 { OccursShift(s, from, pat, w); }
  }

  /**
   On a separable stream, and for an old name whose quoted form holds no token, the replaced spans are
   exactly the old names that are values of a token.
   */
  lemma {:induction false} SpansExactly(s: seq<byte>, oldModel: seq<byte>, v: nat)
    requires PlainName(oldModel) && Separable(s, Quoted(oldModel))
    ensures v in Spans(s, 0, Quoted(oldModel)) <==> OccursAt(s, Quoted(oldModel), v) && ValueOfToken(s, v)
  {
    hide Quoted, OccursAt, Spans, ValueStart, Separable, PlainName;
    if v in Spans(s, 0, Quoted(oldModel)) {
      SpansAreValues(s, 0, Quoted(oldModel), v);
    }
    if OccursAt(s, Quoted(oldModel), v) && ValueOfToken(s, v) {
      var k :| TokenAt(s, k) && !NameCharAfter(s, k) && ValueStart(s, k) == v;
      EveryValueReplaced(s, 0, oldModel, k, v);
    }
  }
}
