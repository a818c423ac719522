/** Byte strings and the two searches of Go's `bytes` package that the relay uses. */
module Bytes {

  type byte = x: int | 0 <= x < 256

  const TAB: byte := 9
  const LF: byte := 10
  const CR: byte := 13
  const SPACE: byte := 32
  const QUOTE: byte := 34
  const COLON: byte := 58
  const BACKSLASH: byte := 92

  /** The separator `sep` stands in `s` at index `at`. */
  predicate OccursAt(s: seq<byte>, sep: seq<byte>, at: int) {
    0 <= at <= |s| - |sep| && forall i :: 0 <= i < |sep| ==> s[at + i] == sep[i]
  }

  /** bytes.Index: the leftmost occurrence of a non-empty separator, -1 when there is none. */
  function IndexOf(s: seq<byte>, sep: seq<byte>): (r: int)
    requires sep != []
    ensures r == -1 || OccursAt(s, sep, r)
    ensures forall j :: OccursAt(s, sep, j) ==> 0 <= r <= j
  {
    if |s| < |sep| then -1
    else if OccursAt(s, sep, 0) then 0
    else
      var r := IndexOf(s[1..], sep);
      assert forall j :: OccursAt(s, sep, j) ==> OccursAt(s[1..], sep, j - 1);
      if r < 0 then -1 else r + 1
  }

  /** bytes.LastIndex: the rightmost occurrence of a non-empty separator, -1 when there is none. */
  function LastIndexOf(s: seq<byte>, sep: seq<byte>): (r: int)
    requires sep != []
    ensures r == -1 || OccursAt(s, sep, r)
    ensures forall j :: OccursAt(s, sep, j) ==> j <= r
  {
    if |s| < |sep| then -1
    else if OccursAt(s, sep, |s| - |sep|) then |s| - |sep|
    else
      assert forall j :: OccursAt(s, sep, j) ==> OccursAt(s[..|s| - 1], sep, j);
      LastIndexOf(s[..|s| - 1], sep)
  }

  lemma OccursSplit(s: seq<byte>, a: seq<byte>, b: seq<byte>, at: int)
    requires OccursAt(s, a + b, at)
    ensures OccursAt(s, a, at) && OccursAt(s, b, at + |a|)
  {
    assert forall i :: 0 <= i < |a| ==> (a + b)[i] == a[i];
    forall i | 0 <= i < |b|
      ensures s[at + |a| + i] == b[i]
    {
      assert (a + b)[|a| + i] == b[i];
    }
  }

  lemma Assoc<T>(a: seq<T>, b: seq<T>, c: seq<T>)
    ensures a + b + c == a + (b + c)
  {
  }

  /** The concatenation of a list of chunks. */
  function Concat(chunks: seq<seq<byte>>): seq<byte> {
    if chunks == [] then [] else chunks[0] + Concat(chunks[1..])
  }
}
