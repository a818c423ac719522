/**
 Streams on which the held-tail rewriter does depend on where the stream is cut: one for each
 clause of `ModelStream.SeparateAt`. The names that break it are in `ModelNames`.
 */
module ModelCuts {
  import opened Bytes
  import opened JsonString
  import opened ModelRewrite
  import opened ModelStream
  import opened ModelSegmentation

  const A: seq<byte> := [97]
  const B: seq<byte> := [98]
  const QA: seq<byte> := [34, 97, 34]  // "a"
  const QB: seq<byte> := [34, 98, 34]  // "b"

  lemma QuotedLetter(c: byte)
    requires 97 <= c <= 122
    ensures Quoted([c]) == [34, c, 34]
  {
    assert Escape([c]) == [c] by { EscapeOfPlain([c]); }
  }

  /** Two writes and Finish: the head of the first pass, then the pass over the tail with the second chunk. */
  lemma {:induction false} TwoWrites(c1: seq<byte>, c2: seq<byte>, oldModel: seq<byte>, newModel: seq<byte>)
    requires oldModel != [] && newModel != []
    ensures var pat, rep := Quoted(oldModel), Quoted(newModel);
            var rw := Rewrite(c1, pat, rep);
            Relayed([], [c1, c2], oldModel, newModel) == Head(rw) + Rewrite(Tail(rw) + c2, pat, rep)
  {
    hide Rewrite, Hold, Quoted;
    var pat, rep := Quoted(oldModel), Quoted(newModel);
    assert [] + c1 == c1;
    var rw := Rewrite(c1, pat, rep);
    var last := Rewrite(Tail(rw) + c2, pat, rep);
    assert [c1, c2][1..] == [c2] && [c2][1..] == [];
    assert Relayed(Tail(rw), [c2], oldModel, newModel) == Head(last) + Tail(last) == last;
  }

  /** A stream that starts with `"model"`, and the value behind its first colon. */
  lemma FirstIsAt0(s: seq<byte>, c: nat)
    requires TokenAt(s, 0) && 7 <= c < |s| - 1 && s[c] == COLON && !IsWhitespace(s[c + 1])
    requires forall i :: 7 <= i < c ==> s[i] != COLON
    ensures FirstToken(s) == 0 && ValueStart(s, 0) == c + 1
  {
  }

  lemma NoTokenIn(s: seq<byte>)
    requires forall k :: 0 <= k <= |s| - 7 ==> s[k] != 34 || s[k + 1] != 109
    ensures FirstToken(s) < 0
  {
  }

  /** The first value is a closed string other than "a", and no token follows: nothing changes. */
  lemma {:induction false} Unchanged(s: seq<byte>, c: nat)
    requires TokenAt(s, 0) && 7 <= c < |s| - 2 && s[c] == COLON && s[c + 1] == QUOTE && s[c + 2] != 97
    requires forall i :: 7 <= i < c ==> s[i] != COLON
    requires forall k :: c + 2 <= k < |s| - 1 ==> s[k] != 34 || s[k + 1] != 109
    requires !IsNameChar(s[7])
    ensures Rewrite(s, QA, QB) == s
  {
    assert Scan(s, QA) == Skip(c + 2) by {
      hide FirstToken, ValueStart, OccursAt;
      FirstIsAt0(s, c);
      OtherLetter(s, c + 1);
    }
    hide Scan, Rewrite;
    Tokenless(s[c + 2..]);
    SkipToUnchanged(s, c + 2);
  }

  lemma {:induction false} SkipToUnchanged(s: seq<byte>, n: nat)
    requires n <= |s| && Scan(s, QA) == Skip(n) && Rewrite(s[n..], QA, QB) == s[n..]
    ensures Rewrite(s, QA, QB) == s
  {
    hide Scan;
    assert s[..n] + s[n..] == s;
  }

  lemma OtherLetter(s: seq<byte>, v: nat)
    requires v + 1 < |s| && s[v + 1] != 97
    ensures !OccursAt(s, QA, v)
  {
    if OccursAt(s, QA, v) { InteriorByte(s, v, QA, 1); }
  }

  /** The first value is "a": it is replaced. */
  lemma {:induction false} FirstReplaced(s: seq<byte>, c: nat, rep: seq<byte>)
    requires TokenAt(s, 0) && 7 <= c < |s| - 3 && s[c] == COLON
    requires s[c + 1] == 34 && s[c + 2] == 97 && s[c + 3] == 34
    requires forall i :: 7 <= i < c ==> s[i] != COLON
    requires !IsNameChar(s[7])
    ensures Rewrite(s, QA, rep) == s[..c + 1] + rep + Rewrite(s[c + 4..], QA, rep)
  {
    FirstIsAt0(s, c);
    assert Scan(s, QA) == Replace(c + 1);
  }

  /** A buffer that ends in a token holds that token. */
  lemma HoldsLastToken(s: seq<byte>)
    requires |s| >= 7 && TokenAt(s, |s| - 7)
    ensures Head(s) == s[..|s| - 7] && Tail(s) == s[|s| - 7..]
  {
    hide LastToken, HoldWithin;
    assert LastToken(s) == |s| - 7;
    HoldIs(s);
  }

  // `"model":"model"` then `,"x":"a"`
  const V1: seq<byte> := [34, 109, 111, 100, 101, 108, 34, 58, 34, 109, 111, 100, 101, 108, 34]
  const V2: seq<byte> := [44, 34, 120, 34, 58, 34, 97, 34]

  /** A token that is itself a value: held and taken for a key when the stream is cut behind it. */
  lemma TokenAsValue()
    ensures Relayed([], [V1, V2], A, B) != Rewritten(V1 + V2, A, B)
  {
    hide Rewrite, Hold, FirstToken, Relayed, Quoted;
    var s, t := V1 + V2, KEY + V2;
    QuotedLetter(97);
    QuotedLetter(98);
    TwoWrites(V1, V2, A, B);
    ValueUnchanged();
    ValueHeld();
    KeyTaken(t);
    LetterAt(V1[..8], t[..12], Rewrite(t[15..], QA, QB), 21);
    assert s[21] == 97;
  }

  lemma ValueHeld()
    ensures Head(V1) == V1[..8] && Tail(V1) == KEY
  {
    hide Hold;
    HoldsLastToken(V1);
    assert V1[8..] == KEY;
  }

  lemma {:induction false} KeyTaken(t: seq<byte>)
    requires t == KEY + V2
    ensures Rewrite(t, QA, QB) == t[..12] + QB + Rewrite(t[15..], QA, QB)
  {
    hide Rewrite;
    FirstReplaced(t, 11, QB);
  }

  lemma ValueUnchanged()
    ensures Rewrite(V1 + V2, QA, QB) == V1 + V2 && Rewrite(V1, QA, QB) == V1
  {
    hide Rewrite;
    Unchanged(V1 + V2, 7);
    Unchanged(V1, 7);
  }

  lemma LetterAt(a: seq<byte>, b: seq<byte>, c: seq<byte>, i: nat)
    requires i == |a| + |b| + 1
    ensures |a + (b + QB + c)| > i && (a + (b + QB + c))[i] == 98
  {
  }

  // `"model":"a"` then `model":"a"`
  const Q1: seq<byte> := [34, 109, 111, 100, 101, 108, 34, 58, 34, 97, 34]
  const Q2: seq<byte> := [109, 111, 100, 101, 108, 34, 58, 34, 97, 34]

  /** A token that starts at the closing quote of a replaced value: found only when the stream is cut there. */
  lemma TokenAtClosingQuote()
    ensures Relayed([], [Q1, Q2], A, B) != Rewritten(Q1 + Q2, A, B)
  {
    hide Rewrite, Hold, FirstToken, Relayed, Quoted;
    var s, t := Q1 + Q2, [QUOTE] + Q2;
    QuotedLetter(97);
    QuotedLetter(98);
    TwoWrites(Q1, Q2, A, B);
    FirstReplaced(s, 7, QB);
    assert s[11..] == Q2;
    Tokenless(Q2);
    FirstReplaced(Q1, 7, QB);
    assert Q1[11..] == [];
    Tokenless([]);
    var rw := Q1[..8] + QB;
    assert rw == s[..8] + QB && rw + [] == rw;
    HoldsClosingQuote(rw);
    FirstReplaced(t, 7, QB);
    var out := rw[..10] + (t[..8] + QB + Rewrite(t[11..], QA, QB));
    var one := s[..8] + QB + Q2;
    assert out[19] == 98 && one[19] == 97;
  }

  lemma {:induction false} Tokenless(s: seq<byte>, rep: seq<byte> := QB)
    requires forall k :: 0 <= k < |s| - 1 ==> s[k] != 34 || s[k + 1] != 109
    ensures Rewrite(s, QA, rep) == s
  {
    NoTokenIn(s);
  }

  lemma HoldsClosingQuote(rw: seq<byte>)
    requires rw == [34, 109, 111, 100, 101, 108, 34, 58, 34, 98, 34]
    ensures Head(rw) == rw[..10] && Tail(rw) == [QUOTE]
  {
    hide HoldWithin, PartialKey;
    FirstIsAt0(rw, 7);
    assert LastToken(rw) == 0;
    assert StringEnd(rw, 9) == 10;
    HoldIs(rw);
    assert rw[|rw| - 1..] == KEY[..1];
    var l := PartialKey(rw, 6);
    StartsPastQuote(rw, l, 10);
  }

  // `"model" "model"x` then `:"a"`
  const N1: seq<byte> := [34, 109, 111, 100, 101, 108, 34, 32, 34, 109, 111, 100, 101, 108, 34, 120]
  const N2: seq<byte> := [58, 34, 97, 34]

  /**
   A name character behind a later token: the hold is measured on the shortened buffer but taken
   from the end of the whole one, so the open key in front is sent on without its value.
   */
  lemma NameCharBehindToken()
    ensures Relayed([], [N1, N2], A, B) != Rewritten(N1 + N2, A, B)
  {
    hide Rewrite, Hold, FirstToken, Relayed, Quoted;
    var s, t := N1 + N2, N1[8..] + N2;
    QuotedLetter(97);
    QuotedLetter(98);
    TwoWrites(N1, N2, A, B);
    FirstReplaced(s, 16, QB);
    NoColonUnchanged(N1);
    HoldsTooLittle();
    SkippedName(t);
    var out := N1[..8] + t;
    var one := s[..17] + QB + Rewrite(s[20..], QA, QB);
    assert out[18] == 97 && one[18] == 98;
  }

  lemma {:induction false} NoColonUnchanged(s: seq<byte>)
    requires TokenAt(s, 0) && |s| > 7 && !IsNameChar(s[7]) && COLON !in s
    ensures Rewrite(s, QA, QB) == s
  {
    assert FirstToken(s) == 0;
    assert ColonFrom(s, 7) < 0;
  }

  lemma HoldsTooLittle()
    ensures Head(N1) == N1[..8] && Tail(N1) == N1[8..]
  {
    hide LastToken, PartialKey, ValueStart;
    assert TokenAt(N1, 8) && LastToken(N1) == 8 && NameCharAfter(N1, 8);
    var b := N1[..8];
    assert TokenAt(b, 0) && LastToken(b) == 0 && ColonFrom(b, 7) < 0;
    assert ValueStart(b, 0) < 0 by { NoColonNoValue(b); }
    assert HoldWithin(b, N1) == 8;
  }

  lemma {:induction false} NoColonNoValue(b: seq<byte>)
    requires |b| >= 7 && ColonFrom(b, 7) < 0
    ensures ValueStart(b, 0) < 0
  {
  }

  lemma {:induction false} SkippedName(t: seq<byte>)
    requires TokenAt(t, 0) && |t| > 7 && IsNameChar(t[7])
    requires forall k :: 7 <= k < |t| - 1 ==> t[k] != 34 || t[k + 1] != 109
    ensures Rewrite(t, QA, QB) == t
  {
    assert FirstToken(t) == 0;
    assert Scan(t, QA) == Skip(7);
    NoTokenIn(t[7..]);
    assert t[..7] + t[7..] == t;
  }
}
