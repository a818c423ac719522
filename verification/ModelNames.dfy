/**
 The client's model name: for which names the held-tail rewriter is independent of the segmentation.
 */
module ModelNames {
  import opened Bytes
  import opened JsonString
  import opened ModelRewrite
  import opened ModelStream
  import opened ModelSegmentation
  import opened ModelCuts

  // `:"a"` behind `"model":"a"`
  const C2: seq<byte> := [58, 34, 97, 34]

  lemma SeparableInput()
    ensures Separable(Q1 + C2, QA)
  {
    hide OccursAt;
    var s := Q1 + C2;
    forall k | TokenAt(s, k) ensures SeparateAt(s, QA, k) {
      assert k == 0;
      FirstIsAt0(s, 7);
    }
  }

  /** The quoted form of the client's name holds a token: the replacement is held and taken for a key. */
  lemma {:induction false} ReplacementIsToken(name: seq<byte>, j: int)
    requires TokenAt(Quoted(name), j)
    ensures Separable(Q1 + C2, Quoted(A))
    ensures Relayed([], [Q1, C2], A, name) != Rewritten(Q1 + C2, A, name)
  {
    hide Rewrite, Hold, FirstToken, Relayed, Quoted, Separable;
    var s, t, rep := Q1 + C2, KEY + C2, Quoted(name);
    QuotedLetter(97);
    SeparableInput();
    TokenEndsName(name, j);
    NothingQuoted();
    TwoWrites(Q1, C2, A, name);
    FirstReplaced(s, 7, rep);
    assert s[11..] == C2;
    Tokenless(C2, rep);
    FirstReplaced(Q1, 7, rep);
    assert Q1[11..] == [];
    Tokenless([], rep);
    var rw := Q1[..8] + rep;
    assert rw + [] == rw && rw == s[..8] + rep;
    HeldReplacement(rep);
    FirstReplaced(t, 7, rep);
    var out, one := Head(rw) + (t[..8] + rep + Rewrite(t[11..], QA, rep)), rw + C2;
    assert |out| > |one|;
  }

  /** A replacement that ends in a token is held from that token on. */
  lemma HeldReplacement(rep: seq<byte>)
    requires |rep| >= 7 && rep[|rep| - 7..] == KEY
    ensures var rw := Q1[..8] + rep; Tail(rw) == KEY && |Head(rw)| == |rw| - 7
  {
    hide Hold;
    var rw := Q1[..8] + rep;
    assert rw[|rw| - 7..] == KEY;
    assert TokenAt(rw[|rw| - 7..], 0);
    HoldsLastToken(rw);
  }

  lemma NothingQuoted()
    ensures Quoted([]) == [QUOTE, QUOTE]
  {
  }

  lemma {:induction false} EscapeSnoc(s: seq<byte>, c: byte)
    ensures Escape(s + [c]) == Escape(s) + EscapeByte(c)
  {
    hide EscapeByte;
    if s == [] {
      assert [] + [c] == [c] && [c][1..] == [];
      assert EscapeByte(c) + [] == EscapeByte(c) == [] + EscapeByte(c);
    } else {
      assert (s + [c])[1..] == s[1..] + [c];
      EscapeSnoc(s[1..], c);
      Assoc(EscapeByte(s[0]), Escape(s[1..]), EscapeByte(c));
    }
  }

  lemma {:induction false} Unsnoc(s: seq<byte>)
    requires s != []
    ensures var n := |s| - 1; Escape(s) == Escape(s[..n]) + EscapeByte(s[n])
  {
    var n := |s| - 1;
    assert s == s[..n] + [s[n]];
    EscapeSnoc(s[..n], s[n]);
  }

  /** What an escaped byte can end in. */
  lemma EscapeByteEnds(c: byte)
    ensures var x := EscapeByte(c);
            && x != [] && (|x| == 1 ==> x == [c] && c != QUOTE)
            && (|x| >= 2 ==> x[|x| - 2] in {BACKSLASH, 48, 49})
            && (x[|x| - 1] == QUOTE ==> c == QUOTE)
            && (forall i :: 0 <= i < |x| && x[i] == QUOTE ==> i == 1 && x[0] == BACKSLASH)
  {
  }

  lemma JoinEnds(a: seq<byte>, x: seq<byte>)
    requires x != []
    ensures var e := a + x;
            && e[|e| - 1] == x[|x| - 1] && (|x| >= 2 ==> e[|e| - 2] == x[|x| - 2])
            && e[..|a|] == a && e[|a|..] == x
  {
  }

  /** A quote in an escaped name stands behind a backslash. */
  lemma {:induction false} QuotesGuarded(s: seq<byte>, i: nat)
    requires i < |Escape(s)| && Escape(s)[i] == QUOTE
    ensures i > 0 && Escape(s)[i - 1] == BACKSLASH
  {
    var n := |s| - 1;
    assert s == s[..n] + [s[n]];
    EscapeSnoc(s[..n], s[n]);
    EscapeByteEnds(s[n]);
    var a, x := Escape(s[..n]), EscapeByte(s[n]);
    hide Escape, EscapeByte;
    assert Escape(s) == a + x;
    if i < |a| {
      QuotesGuarded(s[..n], i);
      assert (a + x)[i - 1] == a[i - 1];
    } else {
      assert x[i - |a|] == QUOTE;
      assert (a + x)[i - 1] == x[0];
    }
  }

  /** A token in a quoted name ends with it. */
  lemma TokenEndsName(name: seq<byte>, j: int)
    requires TokenAt(Quoted(name), j)
    ensures j == |Quoted(name)| - 7 && Quoted(name)[j..] == KEY
  {
    hide Escape;
    var e, rep := Escape(name), Quoted(name);
    assert forall i :: 0 < i <= |e| ==> rep[i] == e[i - 1];
    if j + 6 <= |e| {
      QuotesGuarded(name, j + 5);
    }
  }

  /** A last byte behind neither a backslash nor a digit of an escape is the name's own. */
  lemma {:induction false} LastByte(name: seq<byte>)
    requires var e := Escape(name); e != [] && (|e| > 1 ==> e[|e| - 2] !in {BACKSLASH, 48, 49})
    ensures name != []
    ensures var e, n := Escape(name), |name| - 1; name[n] == e[|e| - 1] && Escape(name[..n]) == e[..|e| - 1]
  {
    if name == [] {
      assert false;
    }
    hide Escape, EscapeByte;
    var n := |name| - 1;
    Unsnoc(name);
    EscapeByteEnds(name[n]);
    JoinEnds(Escape(name[..n]), EscapeByte(name[n]));
  }

  predicate Letters(w: seq<byte>) {
    forall i :: 0 <= i < |w| ==> 97 <= w[i] <= 122
  }

  lemma BeforeLast(p: seq<byte>, w: seq<byte>)
    requires w != [] && Letters(w) && (p != [] ==> p[|p| - 1] == QUOTE)
    ensures var e := p + w;
            && (|e| > 1 ==> e[|e| - 2] !in {BACKSLASH, 48, 49})
            && e[|e| - 1] == w[|w| - 1] && e[..|e| - 1] == p + w[..|w| - 1]
  {
  }

  lemma SuffixSnoc(init: seq<byte>, x: byte, k: nat)
    requires k <= |init|
    ensures var s := init + [x];
            s[..|s| - (k + 1)] == init[..|init| - k] && s[|s| - (k + 1)..] == init[|init| - k..] + [x]
  {
  }

  /** Plain letters at the end of an escaped name, behind a quote or nothing, are the name's own. */
  lemma {:induction false} PeelLetters(name: seq<byte>, p: seq<byte>, w: seq<byte>)
    requires Escape(name) == p + w && Letters(w) && (p != [] ==> p[|p| - 1] == QUOTE)
    ensures |name| >= |w| && name[|name| - |w|..] == w && Escape(name[..|name| - |w|]) == p
    decreases |w|
  {
    hide Escape;
    if w == [] {
      assert p + w == p && name[..|name|] == name;
    } else {
      var m := |w| - 1;
      BeforeLast(p, w);
      LastByte(name);
      var init := name[..|name| - 1];
      PeelLetters(init, p, w[..m]);
      assert name == init + [w[m]] && w == w[..m] + [w[m]];
      SuffixSnoc(init, w[m], m);
    }
  }

  /** The name is `model`, or ends in a quote and `model`. */
  predicate EndsInModel(name: seq<byte>) {
    name == MODEL || (|name| >= 6 && name[|name| - 5..] == MODEL && name[|name| - 6] == QUOTE)
  }

  lemma {:induction false} EscapedModel(rest: seq<byte>)
    ensures Escape(rest + MODEL) == Escape(rest) + MODEL
    decreases rest
  {
    if rest == [] {
      assert [] + MODEL == MODEL;
      EscapeOfPlain(MODEL);
    } else {
      hide EscapeByte;
      assert (rest + MODEL)[1..] == rest[1..] + MODEL;
      EscapedModel(rest[1..]);
      Assoc(EscapeByte(rest[0]), Escape(rest[1..]), MODEL);
    }
  }

  lemma TokenSuffix(p: seq<byte>)
    ensures TokenAt(p + KEY, |p|)
  {
  }

  lemma ModelBehindQuote(y: seq<byte>)
    ensures !PlainName(y + [QUOTE] + MODEL)
  {
    EscapedModel(y + [QUOTE]);
    EscapeSnoc(y, QUOTE);
    assert EscapeByte(QUOTE) == [BACKSLASH, QUOTE];
    hide Escape;
    RegroupKey(Escape(y));
    var p := [QUOTE] + Escape(y) + [BACKSLASH];
    TokenSuffix(p);
    assert Quoted(y + [QUOTE] + MODEL) == p + KEY;
    assert TokenAt(Quoted(y + [QUOTE] + MODEL), |p|);
  }

  lemma ModelAtEnd(name: seq<byte>)
    requires EndsInModel(name)
    ensures !PlainName(name)
  {
    hide PlainName, Quoted;
    if name == MODEL {
      ModelAlone();
    } else {
      var y := name[..|name| - 6];
      assert name == y + [QUOTE] + MODEL;
      ModelBehindQuote(y);
    }
  }

  lemma ModelAlone()
    ensures !PlainName(MODEL)
  {
    EscapeOfPlain(MODEL);
    assert Quoted(MODEL) == [] + KEY;
    TokenSuffix([]);
  }

  lemma RegroupKey(y: seq<byte>)
    ensures [QUOTE] + (y + [BACKSLASH, QUOTE] + MODEL) + [QUOTE] == ([QUOTE] + y + [BACKSLASH]) + KEY
  {
  }

  lemma {:induction false} LastIsQuote(name: seq<byte>)
    requires name != [] && Escape(name) != [] && Escape(name)[|Escape(name)| - 1] == QUOTE
    ensures name[|name| - 1] == QUOTE
  {
    hide Escape, EscapeByte;
    var n := |name| - 1;
    Unsnoc(name);
    EscapeByteEnds(name[n]);
    JoinEnds(Escape(name[..n]), EscapeByte(name[n]));
  }

  lemma TokenTail(e: seq<byte>)
    requires TokenAt([QUOTE] + e + [QUOTE], |e| - 5)
    ensures e[|e| - 5..] == MODEL && (|e| > 5 ==> e[|e| - 6] == QUOTE)
  {
    var rep, m := [QUOTE] + e + [QUOTE], |e| - 5;
    assert rep[m + 1..m + 6] == e[m..];
    assert m > 0 ==> rep[m] == e[m - 1];
  }

  lemma PeelModel(name: seq<byte>, p: seq<byte>) returns (rest: seq<byte>)
    requires Escape(name) == p + MODEL && (p != [] ==> p[|p| - 1] == QUOTE)
    ensures name == rest + MODEL && Escape(rest) == p
  {
    hide Escape, Letters;
    ModelIsLetters();
    PeelLetters(name, p, MODEL);
    rest := name[..|name| - |MODEL|];
  }

  lemma {:induction false} EscapedEnds(name: seq<byte>, p: seq<byte>)
    requires Escape(name) == p + MODEL && (p != [] ==> p[|p| - 1] == QUOTE)
    ensures EndsInModel(name)
  {
    hide Escape, EndsInModel;
    var rest := PeelModel(name, p);
    if rest != [] {
      EscapeNonEmpty(rest);
      LastIsQuote(rest);
    }
    EndsIs(rest);
  }

  lemma TokenIsModel(name: seq<byte>, j: int)
    requires TokenAt(Quoted(name), j)
    ensures EndsInModel(name)
  {
    TokenEndsName(name, j);
    hide Escape, EndsInModel, TokenAt;
    var e := Escape(name);
    TokenTail(e);
    assert e == e[..|e| - 5] + MODEL;
    EscapedEnds(name, e[..|e| - 5]);
  }

  lemma ModelIsLetters()
    ensures Letters(MODEL)
  {
  }

  lemma EndsIs(rest: seq<byte>)
    requires rest != [] ==> rest[|rest| - 1] == QUOTE
    ensures EndsInModel(rest + MODEL)
  {
    var name := rest + MODEL;
    assert rest == [] ==> name == MODEL;
    assert name[|name| - 5..] == MODEL;
  }

  lemma {:induction false} EscapeNonEmpty(s: seq<byte>)
    requires s != []
    ensures Escape(s) != []
  {
  }

  /** Which names are plain, read off the name itself. */
  lemma PlainNameExactly(name: seq<byte>)
    ensures PlainName(name) <==> !EndsInModel(name)
  {
    hide Quoted;
    if !PlainName(name) {
      var j :| TokenAt(Quoted(name), j);
      TokenIsModel(name, j);
    } else if EndsInModel(name) {
      ModelAtEnd(name);
    }
  }

  /** The rewriter to a name is independent of the segmentation of every separable stream if and only if it is plain. */
  lemma {:induction false} NameExactly(name: seq<byte>)
    ensures PlainName(name) <==>
              forall chunks, oldModel :: Separable(Concat(chunks), Quoted(oldModel)) ==>
                Relayed([], chunks, oldModel, name) == Rewritten(Concat(chunks), oldModel, name)
  {
    hide Relayed, Rewritten, Quoted, Separable;
    if PlainName(name) {
      forall chunks, oldModel | Separable(Concat(chunks), Quoted(oldModel))
        ensures Relayed([], chunks, oldModel, name) == Rewritten(Concat(chunks), oldModel, name)
      {
        SegmentationIndependent(chunks, oldModel, name);
      }
    } else {
      var j :| TokenAt(Quoted(name), j);
      ReplacementIsToken(name, j);
      assert Concat([Q1, C2]) == Q1 + C2 by { ConcatTwo(Q1, C2); }
      assert Separable(Concat([Q1, C2]), Quoted(A));
    }
  }

  lemma ConcatTwo(a: seq<byte>, b: seq<byte>)
    ensures Concat([a, b]) == a + b
  {
    assert [a, b][1..] == [b] && [b][1..] == [];
    assert Concat([b]) == b + [] == b;
  }
}
