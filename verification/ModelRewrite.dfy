/**
 The model-name rewriter of proxy/proxy.go: `replaceJSONModelValue`, `pendingModelHold` and
 the held-tail writer `modelRewriteWriter`.
 */
module ModelRewrite {
  import opened Bytes
  import opened JsonString

  /** The bytes of `model`, and the token `"model"` the scanner looks for. */
  const MODEL: seq<byte> := [109, 111, 100, 101, 108]
  const KEY: seq<byte> := [34, 109, 111, 100, 101, 108, 34]

  predicate IsNameChar(b: byte) {
    97 <= b <= 122 || 65 <= b <= 90 || 48 <= b <= 57 || b == 95 || b == 45
  }

  predicate IsWhitespace(b: byte) {
    b == SPACE || b == TAB || b == LF || b == CR
  }

  predicate TokenAt(s: seq<byte>, k: int) {
    0 <= k <= |s| - 7
    && s[k] == 34 && s[k + 1] == 109 && s[k + 2] == 111 && s[k + 3] == 100
    && s[k + 4] == 101 && s[k + 5] == 108 && s[k + 6] == 34
  }

  lemma TokenIsKey(s: seq<byte>, k: int)
    ensures TokenAt(s, k) <==> OccursAt(s, KEY, k)
  {
    if OccursAt(s, KEY, k) {
      assert s[k + 0] == KEY[0] && s[k + 1] == KEY[1] && s[k + 2] == KEY[2] && s[k + 3] == KEY[3];
      assert s[k + 4] == KEY[4] && s[k + 5] == KEY[5] && s[k + 6] == KEY[6];
    }
  }

  function FirstToken(s: seq<byte>): (r: int)
    ensures r == -1 || TokenAt(s, r)
    ensures forall j :: TokenAt(s, j) ==> 0 <= r <= j
  {
    var r := IndexOf(s, KEY);
    TokenIsKey(s, r);
    assert forall j :: TokenAt(s, j) ==> 0 <= r <= j by {
      forall j | TokenAt(s, j) ensures 0 <= r <= j { TokenIsKey(s, j); }
    }
    r
  }

  function LastToken(s: seq<byte>): (r: int)
    ensures r == -1 || TokenAt(s, r)
    ensures forall j :: TokenAt(s, j) ==> j <= r
  {
    var r := LastIndexOf(s, KEY);
    TokenIsKey(s, r);
    assert forall j :: TokenAt(s, j) ==> j <= r by {
      forall j | TokenAt(s, j) ensures j <= r { TokenIsKey(s, j); }
    }
    r
  }

  /** The first colon at or after `p`, -1 when there is none. */
  function ColonFrom(s: seq<byte>, p: nat): (r: int)
    ensures r == -1 || (p <= r < |s| && s[r] == COLON)
    ensures forall j :: p <= j < |s| && s[j] == COLON ==> 0 <= r <= j
    decreases |s| - p
  {
    if p >= |s| then -1 else if s[p] == COLON then p else ColonFrom(s, p + 1)
  }

  function SkipWhitespace(s: seq<byte>, p: nat): (r: nat)
    requires p <= |s|
    ensures p <= r <= |s|
    ensures forall j :: p <= j < r ==> IsWhitespace(s[j])
    ensures r == |s| || !IsWhitespace(s[r])
    decreases |s| - p
  {
    if p < |s| && IsWhitespace(s[p]) then SkipWhitespace(s, p + 1) else p
  }

  /** Where the value of the token at `k` starts: past the first later colon and whitespace; -1 without a colon. */
  function ValueStart(s: seq<byte>, k: nat): (v: int)
    requires k + 7 <= |s|
    ensures v == -1 || k + 8 <= v <= |s|
  {
    var c := ColonFrom(s, k + 7);
    if c < 0 then -1 else SkipWhitespace(s, c + 1)
  }

  predicate NameCharAfter(s: seq<byte>, k: nat)
    requires k + 7 <= |s|
  {
    k + 7 < |s| && IsNameChar(s[k + 7])
  }

  // ---- One pass over a whole buffer

  /** What the scanner does at the first token of the unscanned suffix. */
  datatype Step = Stop | Skip(n: nat) | Replace(at: nat)

  function Scan(s: seq<byte>, pat: seq<byte>): (r: Step)
    requires pat != []
    ensures r.Skip? ==> 7 <= r.n <= |s|
    ensures r.Replace? ==> r.at + |pat| <= |s|
  {
    var k := FirstToken(s);
    if k < 0 then Stop
    else if NameCharAfter(s, k) then Skip(k + 7)
    else
      var v := ValueStart(s, k);
      if v < 0 then Stop
      else if v == |s| || s[v] != QUOTE then Skip(v)
      else if OccursAt(s, pat, v) then Replace(v)
      else Skip(v + 1)
  }

  /** The rewritten buffer, by recursion on the unscanned suffix. */
  function Rewrite(s: seq<byte>, pat: seq<byte>, rep: seq<byte>): seq<byte>
    requires pat != []
    decreases |s|
  {
    match Scan(s, pat)
    case Stop => s
    case Skip(n) => s[..n] + Rewrite(s[n..], pat, rep)
    case Replace(v) => s[..v] + rep + Rewrite(s[v + |pat|..], pat, rep)
  }

  /** The start indices of the values the pass replaces when it scans from `from`, in order. */
  function Spans(s: seq<byte>, from: nat, pat: seq<byte>): seq<nat>
    requires pat != [] && from <= |s|
    decreases |s| - from
  {
    match Scan(s[from..], pat)
    case Stop => []
    case Skip(n) => Spans(s, from + n, pat)
    case Replace(v) => [from + v] + Spans(s, from + v + |pat|, pat)
  }

  /** A pattern that does not fit can not be replaced anywhere in the rest. */
  lemma {:induction false} RewriteShort(s: seq<byte>, from: nat, pat: seq<byte>, rep: seq<byte>)
    requires pat != [] && from <= |s| && |s| - from < |pat|
    ensures Rewrite(s[from..], pat, rep) == s[from..] && Spans(s, from, pat) == []
    decreases |s| - from
  {
    hide Scan;
    var t := s[from..];
    match Scan(t, pat)
    case Stop =>
    case Skip(n) =>
      RewriteShort(s, from + n, pat, rep);
      assert t[n..] == s[from + n..];
      assert t[..n] + t[n..] == t;
  }

  method PastWhitespace(data: seq<byte>, p: nat) returns (r: nat)
    requires p <= |data|
    ensures r == SkipWhitespace(data, p)
  {
    r := p;
    while r < |data| && IsWhitespace(data[r])
      invariant p <= r <= |data|
      invariant SkipWhitespace(data, r) == SkipWhitespace(data, p)
    {
      r := r + 1;
    }
  }

  /** The body of the scanning loop up to its decision; the early exit on a pattern that does not fit loses nothing. */
  method Decide(data: seq<byte>, scan: nat, oldModel: seq<byte>, ghost rep: seq<byte>) returns (st: Step)
    requires scan <= |data|
    ensures !st.Stop? ==> st == Scan(data[scan..], Quoted(oldModel))
    ensures st.Stop? ==> Rewrite(data[scan..], Quoted(oldModel), rep) == data[scan..]
                         && Spans(data, scan, Quoted(oldModel)) == []
  {
    hide Scan, Rewrite, Spans, Quoted, FirstToken, ColonFrom, SkipWhitespace, IsNameChar, ScanKey, ScanValue;
    StopIsFinal(data, scan, Quoted(oldModel), rep);
    ScanIsKey(data, scan, Quoted(oldModel));
    var keyIdx := FirstToken(data[scan..]);
    KeyCases(data, scan, keyIdx, Quoted(oldModel));
    if keyIdx < 0 {
      return Stop;
    }
    var endOfKey := scan + keyIdx + 7;
    if endOfKey < |data| && IsNameChar(data[endOfKey]) {
      return Skip(keyIdx + 7);
    }
    var colonIdx := ColonFrom(data, endOfKey);
    if colonIdx < 0 {
      return Stop;
    }
    var valueStart := PastWhitespace(data, colonIdx + 1);
    st := DecideValue(data, scan, valueStart, oldModel, rep);
  }

  /** The decision at the start of a value. */
  method DecideValue(data: seq<byte>, scan: nat, valueStart: nat, oldModel: seq<byte>, ghost rep: seq<byte>)
      returns (st: Step)
    requires scan <= valueStart <= |data|
    requires Scan(data[scan..], Quoted(oldModel)) == ScanValue(data, scan, valueStart, Quoted(oldModel))
    ensures !st.Stop? ==> st == Scan(data[scan..], Quoted(oldModel))
    ensures st.Stop? ==> Rewrite(data[scan..], Quoted(oldModel), rep) == data[scan..]
                         && Spans(data, scan, Quoted(oldModel)) == []
  {
    hide Scan, Rewrite, Spans, Quoted;
    if valueStart >= |data| || data[valueStart] != QUOTE {
      return Skip(valueStart - scan);
    }
    var escOld := EscapeJSONString(oldModel);
    var pattern := [QUOTE] + escOld + [QUOTE];
    assert pattern == Quoted(oldModel) by { QuotedIs(oldModel); }
    if valueStart + |pattern| > |data| {
      UnfitIsFinal(data, scan, pattern, rep, valueStart + 1 - scan);
      return Stop;
    }
    if data[valueStart..valueStart + |pattern|] != pattern {
      return Skip(valueStart + 1 - scan);
    }
    return Replace(valueStart - scan);
  }

  /** The scan's decision for a token at `k` behind the scan position, in positions of the whole buffer. */
  function ScanKey(data: seq<byte>, scan: nat, k: int, pat: seq<byte>): Step
    requires scan <= |data| && (k >= 0 ==> k <= |data| - scan - 7)
  {
    if k < 0 then Stop
    else
      var e := scan + k + 7;
      if e < |data| && IsNameChar(data[e]) then Skip(k + 7)
      else
        var c := ColonFrom(data, e);
        if c < 0 then Stop else ScanValue(data, scan, SkipWhitespace(data, c + 1), pat)
  }

  /** Its decision for a value that starts at `v`. */
  function ScanValue(data: seq<byte>, scan: nat, v: nat, pat: seq<byte>): Step
    requires scan <= v <= |data|
  {
    if v == |data| || data[v] != QUOTE then Skip(v - scan)
    else if v + |pat| <= |data| && data[v..v + |pat|] == pat then Replace(v - scan)
    else Skip(v + 1 - scan)
  }

  lemma {:induction false} KeyCases(data: seq<byte>, scan: nat, k: int, pat: seq<byte>)
    requires scan <= |data| && (k >= 0 ==> k <= |data| - scan - 7)
    ensures k < 0 ==> ScanKey(data, scan, k, pat) == Stop
    ensures k >= 0 ==>
              var e := scan + k + 7;
              if e < |data| && IsNameChar(data[e]) then ScanKey(data, scan, k, pat) == Skip(k + 7)
              else
                var c := ColonFrom(data, e);
                ScanKey(data, scan, k, pat) ==
                  if c < 0 then Stop else ScanValue(data, scan, SkipWhitespace(data, c + 1), pat)
  {
    hide ScanValue, ColonFrom, SkipWhitespace, IsNameChar;
  }

  lemma ScanIsKey(data: seq<byte>, scan: nat, pat: seq<byte>)
    requires scan <= |data| && pat != []
    ensures FirstToken(data[scan..]) >= 0 ==> FirstToken(data[scan..]) <= |data| - scan - 7
    ensures Scan(data[scan..], pat) == ScanKey(data, scan, FirstToken(data[scan..]), pat)
  {
    hide Scan, FirstToken, ValueStart, ColonFrom, SkipWhitespace, IsNameChar, ScanValue;
    var t := data[scan..];
    ScanCases(t, pat);
    var k := FirstToken(t);
    if k >= 0 {
      ValueStartShift(data, scan, k);
      var v := ValueStart(t, k);
      if v >= 0 {
        ValueCases(data, scan, v, pat);
      }
    }
  }

  lemma ValueCases(data: seq<byte>, scan: nat, v: nat, pat: seq<byte>)
    requires scan + v <= |data|
    ensures var s := data[scan..];
            ScanValue(data, scan, scan + v, pat) ==
              if v == |s| || s[v] != QUOTE then Skip(v) else if OccursAt(s, pat, v) then Replace(v) else Skip(v + 1)
  {
    hide OccursAt;
    OccursHere(data, scan, pat, scan + v);
  }

  lemma OccursHere(data: seq<byte>, scan: nat, pat: seq<byte>, v: nat)
    requires scan <= v <= |data|
    ensures OccursAt(data[scan..], pat, v - scan) <==> v + |pat| <= |data| && data[v..v + |pat|] == pat
  {
    if v + |pat| <= |data| {
      SliceOccurs(data, scan, pat, v);
    }
  }

  lemma ScanCases(s: seq<byte>, pat: seq<byte>)
    requires pat != []
    ensures var k := FirstToken(s);
            && (k < 0 ==> Scan(s, pat).Stop?)
            && (k >= 0 && NameCharAfter(s, k) ==> Scan(s, pat) == Skip(k + 7))
            && (k >= 0 && !NameCharAfter(s, k) ==>
                  var v := ValueStart(s, k);
                  && (v < 0 ==> Scan(s, pat).Stop?)
                  && (v >= 0 ==>
                        Scan(s, pat) == if v == |s| || s[v] != QUOTE then Skip(v)
                                        else if OccursAt(s, pat, v) then Replace(v) else Skip(v + 1)))
  {
  }

  lemma {:induction false} QuotedIs(name: seq<byte>)
    ensures Quoted(name) == [QUOTE] + Escape(name) + [QUOTE]
  {
  }

  lemma {:induction false} StopIsFinal(s: seq<byte>, from: nat, pat: seq<byte>, rep: seq<byte>)
    requires pat != [] && from <= |s|
    ensures Scan(s[from..], pat).Stop? ==> Rewrite(s[from..], pat, rep) == s[from..] && Spans(s, from, pat) == []
  {
    hide Scan;
  }

  lemma {:induction false} UnfitIsFinal(s: seq<byte>, from: nat, pat: seq<byte>, rep: seq<byte>, n: nat)
    requires pat != [] && from <= |s| && Scan(s[from..], pat) == Skip(n) && |s| - from - n < |pat|
    ensures Rewrite(s[from..], pat, rep) == s[from..] && Spans(s, from, pat) == []
  {
    hide Scan;
    var t := s[from..];
    RewriteShort(s, from + n, pat, rep);
    assert t[n..] == s[from + n..];
    assert t[..n] + t[n..] == t;
  }

  lemma SliceOccurs(s: seq<byte>, m: nat, pat: seq<byte>, at: nat)
    requires m <= at <= at + |pat| <= |s|
    ensures s[at..at + |pat|] == pat <==> OccursAt(s[m..], pat, at - m)
  {
    if s[at..at + |pat|] == pat {
      forall i | 0 <= i < |pat| ensures s[m..][at - m + i] == pat[i] {
        assert s[at..at + |pat|][i] == pat[i];
      }
    }
    if OccursAt(s[m..], pat, at - m) {
      forall i | 0 <= i < |pat| ensures s[at + i] == pat[i] {
        assert s[m..][at - m + i] == pat[i];
      }
    }
  }

  /** `replaceJSONModelValue`: two cursors, `scan` for the search and `start` for the unappended tail. */
  method ReplaceJSONModelValue(data: seq<byte>, oldModel: seq<byte>, newModel: seq<byte>)
      returns (result: seq<byte>, replacements: nat)
    ensures result == Rewrite(data, Quoted(oldModel), Quoted(newModel))
    ensures replacements == |Spans(data, 0, Quoted(oldModel))|
  {
    hide Scan, Rewrite, Spans;
    ghost var pat, rep := Quoted(oldModel), Quoted(newModel);
    replacements := 0;
    result := [];
    var start, scan := 0, 0;
    while true
      invariant 0 <= start <= scan <= |data|
      invariant result + (data[start..scan] + Rewrite(data[scan..], pat, rep)) == Rewrite(data, pat, rep)
      invariant replacements + |Spans(data, scan, pat)| == |Spans(data, 0, pat)|
      invariant replacements == 0 ==> result == [] && start == 0
      decreases |data| - scan
    {
      var step := Decide(data, scan, oldModel, rep);
      match step {
        case Stop =>
          break;
        case Skip(n) =>
          SkipStep(data, start, scan, n, pat, rep);
          scan := scan + n;
        case Replace(v) =>
          ReplaceStep(result, data, start, scan, v, pat, rep);
          var escNew := EscapeJSONString(newModel);
          result := result + data[start..scan + v] + ([QUOTE] + escNew + [QUOTE]);
          start := scan + v + |Quoted(oldModel)|;
          scan := start;
          replacements := replacements + 1;
      }
    }
    assert data[start..scan] + data[scan..] == data[start..];
    if replacements == 0 {
      return data, 0;
    }
    result := result + data[start..];
  }

  lemma {:induction false} SkipStep(data: seq<byte>, start: nat, scan: nat, n: nat, pat: seq<byte>, rep: seq<byte>)
    requires pat != [] && start <= scan <= |data|
    requires Scan(data[scan..], pat) == Skip(n)
    ensures data[start..scan] + Rewrite(data[scan..], pat, rep)
         == data[start..scan + n] + Rewrite(data[scan + n..], pat, rep)
    ensures Spans(data, scan, pat) == Spans(data, scan + n, pat)
  {
    hide Scan;
    var t, r := data[scan..], Rewrite(data[scan + n..], pat, rep);
    assert t[n..] == data[scan + n..];
    assert Rewrite(t, pat, rep) == t[..n] + r;
    assert data[start..scan] + t[..n] == data[start..scan + n];
    assert data[start..scan] + (t[..n] + r) == (data[start..scan] + t[..n]) + r;
  }

  lemma {:induction false} ReplaceStep(done: seq<byte>, data: seq<byte>, start: nat, scan: nat, v: nat, pat: seq<byte>, rep: seq<byte>)
    requires pat != [] && start <= scan <= |data|
    requires Scan(data[scan..], pat) == Replace(v)
    ensures var next := scan + v + |pat|;
            && done + (data[start..scan] + Rewrite(data[scan..], pat, rep))
            == done + data[start..scan + v] + rep + (data[next..next] + Rewrite(data[next..], pat, rep))
            && |Spans(data, scan, pat)| == 1 + |Spans(data, next, pat)|
  {
    hide Scan;
    var next := scan + v + |pat|;
    var t, r := data[scan..], Rewrite(data[next..], pat, rep);
    assert t[v + |pat|..] == data[next..];
    assert Rewrite(t, pat, rep) == t[..v] + rep + r;
    assert data[start..scan] + t[..v] == data[start..scan + v];
    Regroup(done, data[start..scan], t[..v], rep, r);
    assert data[next..next] + r == r;
  }

  lemma Regroup(a: seq<byte>, b: seq<byte>, c: seq<byte>, d: seq<byte>, e: seq<byte>)
    ensures a + (b + (c + d + e)) == a + (b + c) + d + e
  {
  }

  // ---- The searches look only forward, so they commute with taking a suffix

  lemma {:induction false} ColonShift(s: seq<byte>, m: nat, p: nat)
    requires m + p <= |s|
    ensures ColonFrom(s, m + p) == (if ColonFrom(s[m..], p) < 0 then -1 else m + ColonFrom(s[m..], p))
  {
    var a, b := ColonFrom(s, m + p), ColonFrom(s[m..], p);
    assert a >= 0 ==> s[m..][a - m] == COLON;
    assert b >= 0 ==> s[m + b] == COLON;
  }

  lemma {:induction false} SkipShift(s: seq<byte>, m: nat, p: nat)
    requires m + p <= |s|
    ensures SkipWhitespace(s, m + p) == m + SkipWhitespace(s[m..], p)
    decreases |s| - p
  {
    if m + p < |s| && IsWhitespace(s[m + p]) {
      SkipShift(s, m, p + 1);
    }
  }

  lemma {:induction false} ValueStartShift(s: seq<byte>, m: nat, k: nat)
    requires m + k + 7 <= |s|
    ensures ValueStart(s, m + k) == (if ValueStart(s[m..], k) < 0 then -1 else m + ValueStart(s[m..], k))
    ensures var c := ColonFrom(s, m + k + 7);
            ValueStart(s, m + k) == if c < 0 then -1 else SkipWhitespace(s, c + 1)
  {
    ColonShift(s, m, k + 7);
    var c := ColonFrom(s[m..], k + 7);
    if c >= 0 { SkipShift(s, m, c + 1); }
  }
}
