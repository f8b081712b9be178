/** IPv4 addresses as dotted text, and which addresses' texts occur in that of another. */
module AddressText {
  import opened Ports

  const ADDRESSES := 0x1_0000_0000

  /** The four bytes of an address, the most significant first. */
  datatype Quad = Quad(a: nat, b: nat, c: nat, d: nat)

  function QuadOf(ip: nat): Quad {
    Quad(ip / 256 / 256 / 256 % 256, ip / 256 / 256 % 256, ip / 256 % 256, ip % 256)
  }

  function Number(q: Quad): nat {
    256 * (256 * (256 * q.a + q.b) + q.c) + q.d
  }

  predicate InRange(q: Quad) {
    q.a < 256 && q.b < 256 && q.c < 256 && q.d < 256
  }

  lemma Shifted(high: nat, low: nat)
    requires low < 256
    ensures (256 * high + low) / 256 == high && (256 * high + low) % 256 == low
  {
  }

  lemma NumberOfQuad(ip: nat)
    requires ip < ADDRESSES
    ensures InRange(QuadOf(ip)) && Number(QuadOf(ip)) == ip
  {
    assert ip / 256 / 256 / 256 < 256;
  }

  lemma QuadOfNumber(q: Quad)
    requires InRange(q)
    ensures Number(q) < ADDRESSES && QuadOf(Number(q)) == q
  {
    Shifted(256 * (256 * q.a + q.b) + q.c, q.d);
    Shifted(256 * q.a + q.b, q.c);
    Shifted(q.a, q.b);
  }

  function Dot(text: string, rest: string): string {
    text + "." + rest
  }

  function Dotted(ip: nat): string {
    var q := QuadOf(ip);
    Dot(Decimal(q.a), Dot(Decimal(q.b), Dot(Decimal(q.c), Decimal(q.d))))
  }

  /** An address with its prefix length. */
  function WithPrefix(ip: nat, prefix: nat): string {
    Dotted(ip) + "/" + Decimal(prefix)
  }

  /** Whether `part` occurs somewhere in `text`. */
  predicate Contains(text: string, part: string) {
    part <= text || (text != [] && Contains(text[1..], part))
  }

  predicate EndsWith<T(==)>(text: seq<T>, part: seq<T>) {
    |part| <= |text| && text[|text| - |part|..] == part
  }

  predicate DotFree(text: string) {
    '.' !in text
  }

  function Dots(text: string): nat {
    if text == [] then 0 else (if text[0] == '.' then 1 else 0) + Dots(text[1..])
  }

  // ---- Where one text can occur in another ----

  lemma NoDotInside(x: string, r: string, i: nat)
    requires DotFree(x) && i < |x|
    ensures Dot(x, r)[i] != '.'
  {
    assert Dot(x, r)[i] == x[i] && x[i] in x;
  }

  lemma PrefixOfDot(x: string, r: string, y: string, s: string)
    requires DotFree(x) && DotFree(y)
    ensures Dot(y, s) <= Dot(x, r) <==> x == y && s <= r
  {
    var text, part := Dot(x, r), Dot(y, s);
    assert text[|x|] == '.' && part[|y|] == '.';
    assert text[|x| + 1..] == r && part[|y| + 1..] == s;
    assert text[..|x|] == x && part[..|y|] == y;
    if |y| < |x| {
      NoDotInside(x, r, |y|);
    } else if |x| < |y| {
      NoDotInside(y, s, |x|);
    } else {
      assert part <= text ==> text[..|y|] == part[..|y|];
    }
  }

  lemma EndsWithStep(x: string, y: string)
    requires x != []
    ensures EndsWith(x, y) <==> x == y || EndsWith(x[1..], y)
  {
    if |y| < |x| {
      assert x[1..][|x| - 1 - |y|..] == x[|x| - |y|..];
    }
  }

  /** A text with a dot occurs at the first dot of another, or behind it. */
  lemma {:induction false} OccursAtDot(x: string, r: string, y: string, s: string)
    requires DotFree(x) && DotFree(y)
    ensures Contains(Dot(x, r), Dot(y, s)) <==> (EndsWith(x, y) && s <= r) || Contains(r, Dot(y, s))
  {
    PrefixOfDot(x, r, y, s);
    if x == [] {
      assert Dot(x, r)[1..] == r;
    } else {
      assert Dot(x, r)[1..] == Dot(x[1..], r);
      OccursAtDot(x[1..], r, y, s);
      EndsWithStep(x, y);
    }
  }

  lemma {:induction false} DotsOfDot(x: string, r: string)
    requires DotFree(x)
    ensures Dots(Dot(x, r)) == 1 + Dots(r)
  {
    if x == [] {
      assert Dot(x, r)[1..] == r;
    } else {
      assert Dot(x, r)[1..] == Dot(x[1..], r);
      DotsOfDot(x[1..], r);
    }
  }

  lemma {:induction false} DotsOfPrefix(text: string, part: string)
    requires part <= text
    ensures Dots(part) <= Dots(text)
  {
    if part != [] {
      assert part[1..] <= text[1..];
      DotsOfPrefix(text[1..], part[1..]);
    }
  }

  lemma {:induction false} ContainedDots(text: string, part: string)
    requires Contains(text, part)
    ensures Dots(part) <= Dots(text)
  {
    if part <= text {
      DotsOfPrefix(text, part);
    } else {
      ContainedDots(text[1..], part);
    }
  }

  lemma {:induction false} DotFreeHasNoDots(text: string)
    requires DotFree(text)
    ensures Dots(text) == 0
  {
    if text != [] {
      DotFreeHasNoDots(text[1..]);
    }
  }

  /** Texts with three dots each can only meet dot on dot. */
  lemma DotOnDot(x0: string, x1: string, x2: string, x3: string, y0: string, y1: string, y2: string, y3: string)
    requires DotFree(x0) && DotFree(x1) && DotFree(x2) && DotFree(x3)
    requires DotFree(y0) && DotFree(y1) && DotFree(y2) && DotFree(y3)
    ensures Contains(Dot(x0, Dot(x1, Dot(x2, x3))), Dot(y0, Dot(y1, Dot(y2, y3))))
            <==> EndsWith(x0, y0) && y1 == x1 && y2 == x2 && y3 <= x3
  {
    var r, s := Dot(x1, Dot(x2, x3)), Dot(y1, Dot(y2, y3));
    OccursAtDot(x0, r, y0, s);
    if Contains(r, Dot(y0, s)) {
      ContainedDots(r, Dot(y0, s));
      TwoDots(x1, x2, x3);
      TwoDots(y1, y2, y3);
      DotsOfDot(y0, s);
      assert false;
    }
    PrefixOfDot(x1, Dot(x2, x3), y1, Dot(y2, y3));
    PrefixOfDot(x2, x3, y2, y3);
  }

  lemma TwoDots(x1: string, x2: string, x3: string)
    requires DotFree(x1) && DotFree(x2) && DotFree(x3)
    ensures Dots(Dot(x1, Dot(x2, x3))) == 2
  {
    DotsOfDot(x1, Dot(x2, x3));
    DotsOfDot(x2, x3);
    DotFreeHasNoDots(x3);
  }

  // ---- Decimal numbers ----

  lemma DecimalIsDigits(n: nat)
    ensures DotFree(Decimal(n)) && '/' !in Decimal(n)
  {
    DecimalRoundTrip(n);
  }

  lemma DecimalInjective(m: nat, n: nat)
    ensures Decimal(m) == Decimal(n) <==> m == n
  {
    DecimalRoundTrip(m);
    DecimalRoundTrip(n);
  }

  lemma PrefixBeforeSlash(x: string, tail: string, y: string)
    requires '/' !in y
    ensures y <= x + "/" + tail <==> y <= x
  {
    var text := x + "/" + tail;
    assert text[|x|] == '/';
    if |x| < |y| {
      assert y[|x|] in y;
    } else {
      assert text[..|y|] == x[..|y|];
    }
  }

  lemma SlashAtEnd(x0: string, x1: string, x2: string, x3: string, tail: string)
    ensures Dot(x0, Dot(x1, Dot(x2, x3))) + "/" + tail == Dot(x0, Dot(x1, Dot(x2, x3 + "/" + tail)))
  {
  }

  /**
   Addresses whose text occurs in that of `moved`: equal middle bytes, the first byte a decimal suffix of
   the moved one, the last byte a decimal prefix of it.
   */
  predicate Lookalike(moved: nat, source: nat) {
    var m, s := QuadOf(moved), QuadOf(source);
    && EndsWith(Decimal(m.a), Decimal(s.a)) && s.b == m.b && s.c == m.c && Decimal(s.d) <= Decimal(m.d)
  }

  lemma OccursIff(moved: nat, prefix: nat, source: nat)
    ensures Contains(WithPrefix(moved, prefix), Dotted(source)) <==> Lookalike(moved, source)
  {
    var m, s := QuadOf(moved), QuadOf(source);
    OccursInText(Decimal(m.a), Decimal(m.b), Decimal(m.c), Decimal(m.d), Decimal(prefix),
                 Decimal(s.a), Decimal(s.b), Decimal(s.c), Decimal(s.d)) by {
      DecimalIsDigits(m.a); DecimalIsDigits(m.b); DecimalIsDigits(m.c); DecimalIsDigits(m.d); DecimalIsDigits(prefix);
      DecimalIsDigits(s.a); DecimalIsDigits(s.b); DecimalIsDigits(s.c); DecimalIsDigits(s.d);
    }
    DecimalInjective(m.b, s.b);
    DecimalInjective(m.c, s.c);
  }

  lemma OccursInText(x0: string, x1: string, x2: string, x3: string, tail: string,
                     y0: string, y1: string, y2: string, y3: string)
    requires DotFree(x0) && DotFree(x1) && DotFree(x2) && DotFree(x3) && DotFree(tail)
    requires DotFree(y0) && DotFree(y1) && DotFree(y2) && DotFree(y3) && '/' !in y3
    ensures Contains(Dot(x0, Dot(x1, Dot(x2, x3))) + "/" + tail, Dot(y0, Dot(y1, Dot(y2, y3))))
            <==> EndsWith(x0, y0) && y1 == x1 && y2 == x2 && y3 <= x3
  {
    SlashAtEnd(x0, x1, x2, x3, tail);
    DotOnDot(x0, x1, x2, x3 + "/" + tail, y0, y1, y2, y3);
    PrefixBeforeSlash(x3, tail, y3);
  }

  // ---- When only the moved address itself is found ----

  lemma LastDigit(n: nat)
    requires n >= 10
    ensures EndsWith(Decimal(n), Decimal(n % 10)) && n % 10 != n
    ensures Decimal(n / 10) <= Decimal(n) && n / 10 != n
  {
  }

  lemma OneDigit(n: nat, m: nat)
    requires n < 10
    ensures EndsWith(Decimal(n), Decimal(m)) || Decimal(m) <= Decimal(n) ==> m == n
  {
    DecimalRoundTrip(m);
    assert |Decimal(n)| == 1;
    if EndsWith(Decimal(n), Decimal(m)) || Decimal(m) <= Decimal(n) {
      assert Decimal(m) == Decimal(n);
      DecimalInjective(m, n);
    }
  }

  /** Another address that is taken for `moved` when its first or last byte has more than one digit. */
  function Impostor(moved: nat): nat {
    var m := QuadOf(moved);
    Number(if m.a >= 10 then m.(a := m.a % 10) else m.(d := m.d / 10))
  }

  lemma ImpostorIsTaken(moved: nat)
    requires moved < ADDRESSES
    requires QuadOf(moved).a >= 10 || QuadOf(moved).d >= 10
    ensures var other := Impostor(moved); other < ADDRESSES && other != moved && Lookalike(moved, other)
  {
    var m := QuadOf(moved);
    var q := if m.a >= 10 then m.(a := m.a % 10) else m.(d := m.d / 10);
    NumberOfQuad(moved);
    QuadOfNumber(q);
    LastDigit(if m.a >= 10 then m.a else m.d);
  }

  /** No other address is taken for `moved` if and only if its first and last byte have one digit each. */
  lemma NoLookalikeIff(moved: nat)
    requires moved < ADDRESSES
    ensures (forall source: nat :: source < ADDRESSES && Lookalike(moved, source) ==> source == moved)
            <==> QuadOf(moved).a < 10 && QuadOf(moved).d < 10
  {
    var m := QuadOf(moved);
    if m.a < 10 && m.d < 10 {
      forall source: nat | source < ADDRESSES && Lookalike(moved, source) ensures source == moved {
        OneDigit(m.a, QuadOf(source).a);
        OneDigit(m.d, QuadOf(source).d);
        NumberOfQuad(source);
        NumberOfQuad(moved);
      }
    } else {
      ImpostorIsTaken(moved);
    }
  }
}
