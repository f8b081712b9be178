/**
 The application/x-www-form-urlencoded codec of the WHATWG URL Standard, sections 5.1
 (parsing) and 5.2 (serializing), over bytes.
 */
module FormCodec {
  import opened Bytes

  type Pair = (Bytes, Bytes)

  /** Bytes the serializer leaves as they are: ASCII letters and digits, `*`, `-`, `.` and `_`. */
  predicate Unreserved(b: Byte) {
    || b == STAR || b == 45 || b == 46 || b == 95
    || 48 <= b <= 57 || 65 <= b <= 90 || 97 <= b <= 122
  }

  function HexDigit(n: nat): Byte
    requires n < 16
  {
    if n < 10 then 48 + n else 55 + n
  }

  predicate IsHex(b: Byte) {
    48 <= b <= 57 || 65 <= b <= 70 || 97 <= b <= 102
  }

  function HexValue(b: Byte): (n: nat)
    requires IsHex(b)
    ensures n < 16
  {
    if b <= 57 then b - 48 else if b <= 70 then b - 55 else b - 87
  }

  function EncodeByte(b: Byte): Bytes {
    if Unreserved(b) then [b]
    else if b == SPACE then [PLUS]
    else [PERCENT, HexDigit(b / 16), HexDigit(b % 16)]
  }

  function Encode(s: Bytes): Bytes {
    if s == [] then [] else EncodeByte(s[0]) + Encode(s[1..])
  }

  function Decode(s: Bytes): Bytes {
    if s == [] then []
    else if s[0] == PLUS then [SPACE] + Decode(s[1..])
    else if s[0] == PERCENT && |s| >= 3 && IsHex(s[1]) && IsHex(s[2]) then
      [16 * HexValue(s[1]) + HexValue(s[2])] + Decode(s[3..])
    else [s[0]] + Decode(s[1..])
  }

  function SerializePair(p: Pair): Bytes {
    Encode(p.0) + [EQUALS] + Encode(p.1)
  }

  function Serialize(ps: seq<Pair>): Bytes {
    if ps == [] then []
    else if |ps| == 1 then SerializePair(ps[0])
    else SerializePair(ps[0]) + [AMPERSAND] + Serialize(ps[1..])
  }

  function ParsePair(s: Bytes): Pair {
    (Decode(Before(s, EQUALS)), Decode(After(s, EQUALS)))
  }

  function ParseSegment(s: Bytes): seq<Pair> {
    if s == [] then [] else [ParsePair(s)]
  }

  /** Empty segments between `&` are skipped; a segment without `=` is a name with an empty value. */
  function Parse(s: Bytes): seq<Pair>
    decreases |s|
  {
    if s == [] then []
    else
      ParseSegment(Before(s, AMPERSAND)) + Parse(After(s, AMPERSAND))
  }

  /** Bytes that serialized text may hold. */
  predicate FormByte(b: Byte) {
    Unreserved(b) || b == PLUS || b == PERCENT || b == EQUALS || b == AMPERSAND
  }

  /** Encoding never emits the two delimiters, so segments cannot run together. */
  lemma {:induction false} EncodeIsClean(s: Bytes)
    ensures forall b <- Encode(s) :: FormByte(b) && b != EQUALS && b != AMPERSAND
  {
    if s != [] {
      EncodeIsClean(s[1..]);
      assert forall b <- EncodeByte(s[0]) :: FormByte(b) && b != EQUALS && b != AMPERSAND;
    }
  }

  lemma DecodeEncodedByte(b: Byte, rest: Bytes)
    ensures Decode(EncodeByte(b) + rest) == [b] + Decode(rest)
  {
    var e := EncodeByte(b) + rest;
    if Unreserved(b) || b == SPACE {
      assert e[1..] == rest;
    } else {
      var high, low := HexDigit(b / 16), HexDigit(b % 16);
      assert e[0] == PERCENT && e[1] == high && e[2] == low && e[3..] == rest;
      assert HexValue(high) == b / 16 && HexValue(low) == b % 16;
    }
  }

  lemma {:induction false} DecodeEncode(s: Bytes)
    ensures Decode(Encode(s)) == s
  {
    if s != [] {
      DecodeEncodedByte(s[0], Encode(s[1..]));
      DecodeEncode(s[1..]);
    }
  }

  lemma ParseSerializedPair(p: Pair)
    ensures ParsePair(SerializePair(p)) == p
    ensures SerializePair(p) != []
    ensures AMPERSAND !in SerializePair(p)
    ensures forall b <- SerializePair(p) :: FormByte(b)
  {
    EncodeIsClean(p.0);
    EncodeIsClean(p.1);
    SplitAt(Encode(p.0), EQUALS, Encode(p.1));
    DecodeEncode(p.0);
    DecodeEncode(p.1);
  }

  /** Section 5.2 then section 5.1 is the identity on every list of pairs, empty strings included. */
  lemma {:induction false} RoundTrip(ps: seq<Pair>)
    ensures Parse(Serialize(ps)) == ps
  {
    if ps != [] {
      var first := SerializePair(ps[0]);
      ParseSerializedPair(ps[0]);
      if |ps| == 1 {
        ParseOnly(first);
      } else {
        SplitAt(first, AMPERSAND, Serialize(ps[1..]));
        RoundTrip(ps[1..]);
      }
    }
  }

  lemma {:induction false} SerializedText(ps: seq<Pair>)
    ensures Serialize(ps) == [] <==> ps == []
    ensures forall b <- Serialize(ps) :: FormByte(b) && b != QUESTION && b != HASH
  {
    if ps != [] {
      ParseSerializedPair(ps[0]);
      SerializedText(ps[1..]);
    }
  }

  lemma ParseFirst(segment: Bytes, rest: Bytes)
    requires AMPERSAND !in segment
    ensures Parse(segment + [AMPERSAND] + rest) == ParseSegment(segment) + Parse(rest)
  {
    SplitAt(segment, AMPERSAND, rest);
  }

  lemma ParseOnly(segment: Bytes)
    requires AMPERSAND !in segment
    ensures Parse(segment) == ParseSegment(segment)
  {
    SplitOff(segment, AMPERSAND);
  }

  lemma Regroup<T>(a: seq<T>, b: seq<T>, c: seq<T>)
    ensures a + (b + c) == a + b + c
  {
  }

  /** Putting the same first segment in front of two texts. */
  lemma ParseBehindSegment(head: Bytes, tail: Bytes, rest: Bytes, more: seq<Pair>)
    requires AMPERSAND !in head
    requires Parse(rest) == Parse(tail) + more
    ensures Parse(head + [AMPERSAND] + rest) == Parse(head + [AMPERSAND] + tail) + more
  {
    ParseFirst(head, tail);
    ParseFirst(head, rest);
    Regroup(ParseSegment(head), Parse(tail), more);
  }

  lemma JoinedTail(a: Bytes, b: Bytes)
    requires AMPERSAND in a
    ensures a + [AMPERSAND] + b == Before(a, AMPERSAND) + [AMPERSAND] + (After(a, AMPERSAND) + [AMPERSAND] + b)
    ensures a == Before(a, AMPERSAND) + [AMPERSAND] + After(a, AMPERSAND)
  {
    SplitOff(a, AMPERSAND);
  }

  lemma {:induction false} ParseJoinedTo(a: Bytes, b: Bytes, joined: Bytes)
    requires joined == a + [AMPERSAND] + b
    ensures Parse(joined) == Parse(a) + Parse(b)
    decreases |a|
  {
    if AMPERSAND in a {
      var tail := After(a, AMPERSAND);
      var rest := tail + [AMPERSAND] + b;
      ParseJoinedTo(tail, b, rest);
      JoinedTail(a, b);
      ParseBehindSegment(Before(a, AMPERSAND), tail, rest, Parse(b));
    } else {
      ParseOnly(a);
      ParseFirst(a, b);
    }
  }

  /** Joining two texts with `&` joins what they decode to, whatever the texts are. */
  lemma ParseJoined(a: Bytes, b: Bytes)
    ensures Parse(a + [AMPERSAND] + b) == Parse(a) + Parse(b)
  {
    ParseJoinedTo(a, b, a + [AMPERSAND] + b);
  }

  // ---- Parsing of arbitrary text ----

  /** A segment without `=` is a name with an empty value. */
  lemma ParseName(s: Bytes)
    requires s != [] && AMPERSAND !in s && EQUALS !in s
    ensures Parse(s) == [(Decode(s), [])]
  {
    ParseOnly(s);
    SplitOff(s, EQUALS);
  }

  /** A segment with an `=` is what stands on either side of the first one. */
  lemma ParseNameAndValue(name: Bytes, value: Bytes)
    requires AMPERSAND !in name && AMPERSAND !in value && EQUALS !in name
    ensures Parse(name + [EQUALS] + value) == [(Decode(name), Decode(value))]
  {
    ParseOnly(name + [EQUALS] + value);
    SplitAt(name, EQUALS, value);
  }

  /** Empty segments give nothing, wherever they stand. */
  lemma EmptySegments(s: Bytes)
    ensures Parse([]) == []
    ensures Parse([AMPERSAND] + s) == Parse(s) == Parse(s + [AMPERSAND])
  {
    ParseJoined([], s);
    assert [] + [AMPERSAND] + s == [AMPERSAND] + s && Parse([]) + Parse(s) == Parse(s);
    ParseJoined(s, []);
    assert s + [AMPERSAND] + [] == s + [AMPERSAND] && Parse(s) + Parse([]) == Parse(s);
  }

  /** `digit` is a hexadecimal digit of either case for `n`. */
  predicate HexDigitFor(digit: Byte, n: nat) {
    || (n < 10 && digit == '0' as int + n)
    || (10 <= n < 16 && (digit == 'A' as int + n - 10 || digit == 'a' as int + n - 10))
  }

  /** `+` stands for a space. */
  lemma DecodePlus(rest: Bytes)
    ensures Decode(['+' as int] + rest) == [' ' as int] + Decode(rest)
  {
    assert (['+' as int] + rest)[1..] == rest;
  }

  lemma HexDigitValue(digit: Byte, n: nat)
    requires HexDigitFor(digit, n)
    ensures IsHex(digit) && HexValue(digit) == n
  {
  }

  lemma DecodeTriple(s: Bytes)
    requires |s| >= 3 && s[0] == PERCENT && IsHex(s[1]) && IsHex(s[2])
    ensures Decode(s) == [16 * HexValue(s[1]) + HexValue(s[2])] + Decode(s[3..])
  {
  }

  /** `%` and two hexadecimal digits stand for one byte. */
  lemma DecodeEscape(s: Bytes, h: nat, l: nat)
    requires |s| >= 3 && s[0] == '%' as int && HexDigitFor(s[1], h) && HexDigitFor(s[2], l)
    ensures Decode(s) == [16 * h + l] + Decode(s[3..])
  {
    HexDigitValue(s[1], h);
    HexDigitValue(s[2], l);
    DecodeTriple(s);
  }

  /** The text starts with a `%` and two hexadecimal digits. */
  predicate Escaped(s: Bytes) {
    && |s| >= 3 && s[0] == '%' as int
    && (exists h: nat | h < 16 :: HexDigitFor(s[1], h)) && (exists l: nat | l < 16 :: HexDigitFor(s[2], l))
  }

  /** Any other byte stays as it is, a `%` without two digits behind it included. */
  lemma DecodeOther(b: Byte, rest: Bytes)
    requires b != '+' as int && !Escaped([b] + rest)
    ensures Decode([b] + rest) == [b] + Decode(rest)
  {
    var s := [b] + rest;
    assert s[1..] == rest;
    if |s| >= 3 {
      HexDigitHasValue(s[1]);
      HexDigitHasValue(s[2]);
    }
  }

  lemma HexDigitHasValue(digit: Byte)
    ensures IsHex(digit) ==> exists n: nat | n < 16 :: HexDigitFor(digit, n)
  {
    if IsHex(digit) {
      assert HexDigitFor(digit, HexValue(digit));
    }
  }

  lemma DecodeNothing()
    ensures Decode([]) == []
  {
  }

  // ---- The text that serializing gives ----

  /** Letters, digits and `*-._`. */
  predicate FormLetter(b: Byte) {
    || 'a' as int <= b <= 'z' as int || 'A' as int <= b <= 'Z' as int || '0' as int <= b <= '9' as int
    || b == '*' as int || b == '-' as int || b == '.' as int || b == '_' as int
  }

  /** Each byte is encoded by itself: as it is, as `+`, or as `%` and two upper-case hexadecimal digits. */
  lemma {:induction false} EncodeBytewise(a: Bytes, b: Bytes)
    ensures Encode(a + b) == Encode(a) + Encode(b)
  {
    if a == [] {
      assert a + b == b;
    } else {
      assert (a + b)[1..] == a[1..] + b;
      EncodeBytewise(a[1..], b);
    }
  }

  lemma EncodeOne(b: Byte)
    ensures FormLetter(b) ==> Encode([b]) == [b]
    ensures b == ' ' as int ==> Encode([b]) == ['+' as int]
  {
    assert Encode([b]) == EncodeByte(b) + Encode([]);
  }

  lemma EncodeEscape(b: Byte) returns (high: Byte, low: Byte)
    requires !FormLetter(b) && b != ' ' as int
    ensures Encode([b]) == ['%' as int, high, low]
    ensures HexDigitFor(high, b / 16) && HexDigitFor(low, b % 16) && high < 'a' as int && low < 'a' as int
  {
    assert Encode([b]) == EncodeByte(b) + Encode([]);
    high, low := HexDigit(b / 16), HexDigit(b % 16);
  }
}
