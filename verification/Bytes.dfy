/** Byte strings, and the two searches the URI and form code is built from. */
module Bytes {
  type Byte = b: int | 0 <= b < 256
  type Bytes = seq<Byte>

  const SPACE: Byte := 32
  const HASH: Byte := 35
  const PERCENT: Byte := 37
  const AMPERSAND: Byte := 38
  const STAR: Byte := 42
  const PLUS: Byte := 43
  const SLASH: Byte := 47
  const EQUALS: Byte := 61
  const QUESTION: Byte := 63

  /** The bytes of an ASCII text. */
  function Ascii(s: string): (r: Bytes)
    requires forall i :: 0 <= i < |s| ==> s[i] as int < 128
    ensures |r| == |s| && forall i :: 0 <= i < |s| ==> r[i] == s[i] as int
  {
    if s == [] then [] else [s[0] as int] + Ascii(s[1..])
  }

  /** The position of the first `b` in `s`, or the length of `s`. */
  function Find(s: Bytes, b: Byte): (i: nat)
    ensures i <= |s|
    ensures b !in s[..i]
    ensures i < |s| ==> s[i] == b
  {
    if s == [] || s[0] == b then 0 else 1 + Find(s[1..], b)
  }

  /** What comes before the first `b`. */
  function Before(s: Bytes, b: Byte): (r: Bytes)
    ensures b !in r
  {
    s[..Find(s, b)]
  }

  /** What comes after the first `b`; empty when there is none. */
  function After(s: Bytes, b: Byte): (r: Bytes)
    ensures s != [] ==> |r| < |s|
  {
    var i := Find(s, b);
    if i < |s| then s[i + 1..] else []
  }

  /** A text is what comes before and after its first `b`; without a `b` it all comes before. */
  lemma SplitOff(s: Bytes, b: Byte)
    ensures b in s ==> s == Before(s, b) + [b] + After(s, b)
    ensures b !in s ==> Before(s, b) == s && After(s, b) == []
  {
  }

  lemma {:induction false} FindFirst(s: Bytes, b: Byte, k: nat)
    requires k < |s| && s[k] == b
    requires b !in s[..k]
    ensures Find(s, b) == k
  {
    if k > 0 {
      assert s[0] == s[..k][0];
      assert forall i :: 0 <= i < k - 1 ==> s[1..][i] == s[..k][i + 1];
      FindFirst(s[1..], b, k - 1);
    }
  }

  /** Splitting at a separator that the left part does not hold gives the parts back. */
  lemma SplitAt(left: Bytes, b: Byte, right: Bytes)
    requires b !in left
    ensures Before(left + [b] + right, b) == left
    ensures After(left + [b] + right, b) == right
  {
    var s := left + [b] + right;
    assert left == s[..|left|];
    FindFirst(s, b, |left|);
  }
}
