/** The JSON string helpers of proxy/proxy.go: escaping and the scan for a closing quote. */
module JsonString {
  import opened Wrappers
  import opened Bytes

  /** The lower-case hexadecimal digit of a nibble. */
  function Hex(n: nat): byte
    requires n < 16
  {
    if n < 10 then 48 + n else 97 + n - 10
  }

  function EscapeByte(c: byte): (r: seq<byte>)
    ensures r != []
  {
    if c == QUOTE then [BACKSLASH, QUOTE]
    else if c == BACKSLASH then [BACKSLASH, BACKSLASH]
    else if c == LF then [BACKSLASH, 110]
    else if c == CR then [BACKSLASH, 114]
    else if c == TAB then [BACKSLASH, 116]
    else if c == 8 then [BACKSLASH, 98]
    else if c == 12 then [BACKSLASH, 102]
    else if c < 32 then [BACKSLASH, 117, 48, 48, Hex(c / 16), Hex(c % 16)]
    else [c]
  }

  function Escape(s: seq<byte>): seq<byte> {
    if s == [] then [] else EscapeByte(s[0]) + Escape(s[1..])
  }

  /** `"` + escaped name + `"`: the bytes the rewriter looks for and writes. */
  function Quoted(name: seq<byte>): (r: seq<byte>)
    ensures |r| >= 2 && r[0] == r[|r| - 1] == QUOTE
  {
    [QUOTE] + Escape(name) + [QUOTE]
  }

  method EscapeJSONString(s: seq<byte>) returns (b: seq<byte>)
    ensures b == Escape(s)
  {
    b := [];
    var i := 0;
    while i < |s|
      invariant 0 <= i <= |s|
      invariant b + Escape(s[i..]) == Escape(s)
    {
      assert s[i..][0] == s[i] && s[i..][1..] == s[i + 1..];
      b := b + EscapeByte(s[i]);
      i := i + 1;
    }
  }

  /** Index of the first unescaped quote at or after `pos`, -1 when there is none. */
  function StringEnd(data: seq<byte>, pos: nat): (r: int)
    ensures r == -1 || (pos <= r < |data| && data[r] == QUOTE)
    decreases |data| - pos
  {
    if pos >= |data| then -1
    else if data[pos] == BACKSLASH then StringEnd(data, pos + 2)
    else if data[pos] == QUOTE then pos
    else StringEnd(data, pos + 1)
  }

  method FindJSONStringEnd(data: seq<byte>, start: nat) returns (r: int)
    ensures r == StringEnd(data, start)
  {
    var pos := start;
    while pos < |data|
      invariant StringEnd(data, pos) == StringEnd(data, start)
    {
      if data[pos] == BACKSLASH {
        pos := pos + 2;
        continue;
      }
      if data[pos] == QUOTE {
        return pos;
      }
      pos := pos + 1;
    }
    return -1;
  }

  // ---- The decoder of section 7 of RFC 8259, on the escapes a single byte can need

  function HexValue(b: byte): (r: Option<nat>)
    ensures r.Some? ==> r.value < 16
  {
    if 48 <= b <= 57 then Some(b - 48)
    else if 97 <= b <= 102 then Some(b - 97 + 10)
    else if 65 <= b <= 70 then Some(b - 65 + 10)
    else None
  }

  /** One unit of a JSON string body: the byte it denotes and how many bytes it spans. */
  function DecodeUnit(b: seq<byte>): (r: Option<(byte, nat)>)
    requires b != []
    ensures r.Some? ==> 0 < r.value.1 <= |b|
  {
    if b[0] == QUOTE || b[0] < 32 then None
    else if b[0] != BACKSLASH then Some((b[0], 1))
    else if |b| < 2 then None
    else if b[1] == QUOTE || b[1] == BACKSLASH || b[1] == 47 then Some((b[1], 2))
    else if b[1] == 98 then Some((8, 2))
    else if b[1] == 102 then Some((12, 2))
    else if b[1] == 110 then Some((LF, 2))
    else if b[1] == 114 then Some((CR, 2))
    else if b[1] == 116 then Some((TAB, 2))
    else if b[1] == 117 && |b| >= 6 && b[2] == 48 && b[3] == 48 then
      match (HexValue(b[4]), HexValue(b[5]))
      case (Some(hi), Some(lo)) => if hi < 8 then Some((16 * hi + lo, 6)) else None
      case _ => None
    else None
  }

  function Decode(b: seq<byte>): Option<seq<byte>> {
    if b == [] then Some([])
    else match DecodeUnit(b)
      case None => None
      case Some((c, n)) =>
        match Decode(b[n..])
        case None => None
        case Some(rest) => Some([c] + rest)
  }

  lemma DecodeUnitOfEscape(c: byte, rest: seq<byte>)
    ensures DecodeUnit(EscapeByte(c) + rest) == Some((c, |EscapeByte(c)|))
  {
  }

  /** Decoding an escaped name gives the name back, for every byte string. */
  lemma {:induction false} DecodeEscape(s: seq<byte>)
    ensures Decode(Escape(s)) == Some(s)
  {
    if s != [] {
      var e := EscapeByte(s[0]);
      DecodeUnitOfEscape(s[0], Escape(s[1..]));
      assert (e + Escape(s[1..]))[|e|..] == Escape(s[1..]);
      DecodeEscape(s[1..]);
      assert [s[0]] + s[1..] == s;
    }
  }

  lemma {:induction false} EscapeCons(name: seq<byte>)
    requires name != []
    ensures Escape(name) == EscapeByte(name[0]) + Escape(name[1..])
  {
  }

  lemma NothingEscaped()
    ensures Escape([]) == []
  {
  }

  /** The scan walks over an escaped name without stopping in it. */
  lemma {:induction false} ScanOverEscape(data: seq<byte>, pos: nat, name: seq<byte>)
    requires OccursAt(data, Escape(name), pos)
    ensures StringEnd(data, pos) == StringEnd(data, pos + |Escape(name)|)
    decreases |name|
  {
    hide StringEnd, EscapeByte, OccursAt, Escape;
    if name == [] {
      NothingEscaped();
    } else {
      EscapeCons(name);
      OccursSplit(data, EscapeByte(name[0]), Escape(name[1..]), pos);
      var next := pos + |EscapeByte(name[0])|;
      ScanOverEscapedByte(data, pos, name[0]);
      ScanOverEscape(data, next, name[1..]);
      assert pos + |Escape(name)| == next + |Escape(name[1..])|;
    }
  }

  lemma ScanOverEscapedByte(data: seq<byte>, pos: nat, c: byte)
    requires OccursAt(data, EscapeByte(c), pos)
    ensures StringEnd(data, pos) == StringEnd(data, pos + |EscapeByte(c)|)
  {
    var e := EscapeByte(c);
    assert data[pos] == e[0];
    if |e| == 6 {
      assert e[1] == 117 && e[2] == 48 && e[3] == 48;
      assert e[4] != QUOTE && e[4] != BACKSLASH && e[5] != QUOTE && e[5] != BACKSLASH;
      assert data[pos + 2] == e[2] && data[pos + 3] == e[3] && data[pos + 4] == e[4] && data[pos + 5] == e[5];
      calc {
        StringEnd(data, pos);
        StringEnd(data, pos + 2);
        StringEnd(data, pos + 3);
        StringEnd(data, pos + 4);
        StringEnd(data, pos + 5);
        StringEnd(data, pos + 6);
      }
    }
  }

  /** On a quoted name followed by anything, the scan stops exactly at the added closing quote. */
  lemma {:induction false} ScanStopsAtClosingQuote(data: seq<byte>, at: nat, name: seq<byte>)
    requires OccursAt(data, Quoted(name), at)
    ensures StringEnd(data, at + 1) == at + |Quoted(name)| - 1
  {
    var q := Quoted(name);
    OccursSplit(data, [QUOTE] + Escape(name), [QUOTE], at);
    OccursSplit(data, [QUOTE], Escape(name), at);
    ScanOverEscape(data, at + 1, name);
    assert data[at + |q| - 1] == q[|q| - 1] == QUOTE;
  }

  /** A closing quote that was found stays where it is when more bytes arrive. */
  lemma {:induction false} StringEndStable(data: seq<byte>, more: seq<byte>, pos: nat)
    requires StringEnd(data, pos) >= 0
    ensures StringEnd(data + more, pos) == StringEnd(data, pos)
    decreases |data| - pos
  {
    if data[pos] == BACKSLASH {
      StringEndStable(data, more, pos + 2);
    } else if data[pos] != QUOTE {
      StringEndStable(data, more, pos + 1);
    }
  }
}
