/** The controller's port choices: a free listen port, and the comma-joined list of proxied ports. */
module Ports {
  import opened Wrappers

  type Port = p: int | 0 <= p < 65536

  const FIRST_CANDIDATE: Port := 1025
  /** The search stops before this port. */
  const LAST_PORT: Port := 65535

  /** The integers from `low` up to, but not including, `high`. */
  function Range(low: int, high: int): (r: set<int>)
    ensures forall p :: p in r <==> low <= p < high
    ensures |r| == if low <= high then high - low else 0
    decreases high - low
  {
    if low < high then Range(low, high - 1) + {high - 1} else {}
  }

  lemma SubsetSize<T>(a: set<T>, b: set<T>)
    requires a <= b
    ensures |a| <= |b|
  {
    assert b == a + (b - a);
  }

  function Distinct(ports: seq<Port>): set<int> {
    set p | p in ports
  }

  lemma {:induction false} DistinctAtMostLength(ports: seq<Port>)
    ensures |Distinct(ports)| <= |ports|
  {
    if ports != [] {
      var rest := ports[..|ports| - 1];
      DistinctAtMostLength(rest);
      assert Distinct(ports) == Distinct(rest) + {ports[|ports| - 1]};
    }
  }

  /** If all ports from 1025 up to `high` are listed, the list has that many distinct ports. */
  lemma ListedRange(ports: seq<Port>, high: int)
    requires FIRST_CANDIDATE <= high
    requires forall p :: FIRST_CANDIDATE <= p < high ==> p in ports
    ensures high - FIRST_CANDIDATE <= |Distinct(ports)| <= |ports|
  {
    SubsetSize(Range(FIRST_CANDIDATE, high), Distinct(ports));
    DistinctAtMostLength(ports);
  }

  /**
   The least candidate that is not listed. It lies within the number of distinct listed ports of the
   first candidate, and there is none exactly when all 64510 candidates are listed.
   */
  method GetFreePort(ports: Option<seq<Port>>) returns (r: Option<Port>)
    ensures r.Some? ==> 1025 <= r.value < 65535 && r.value !in ports.GetOr([])
    ensures r.Some? ==> forall p :: 1025 <= p < r.value ==> p in ports.GetOr([])
    ensures r.Some? ==> r.value <= 1025 + |Distinct(ports.GetOr([]))|
    ensures r.None? <==> forall p :: 1025 <= p < 65535 ==> p in ports.GetOr([])
    ensures |ports.GetOr([])| < 64510 ==> r.Some?
  {
    for port := FIRST_CANDIDATE to LAST_PORT
      invariant forall p :: FIRST_CANDIDATE <= p < port ==> p in ports.GetOr([])
    {
      if ports.None? || port !in ports.value {
        ListedRange(ports.GetOr([]), port);
        return Some(port);
      }
    }
    ListedRange(ports.GetOr([]), LAST_PORT);
    return None;
  }

  // ---- Port lists as text ----

  predicate IsDigit(c: char) {
    '0' <= c <= '9'
  }

  function Decimal(n: nat): string {
    var digit := ['0' + (n % 10) as char];
    if n < 10 then digit else Decimal(n / 10) + digit
  }

  /** The number a text denotes, if it is a non-empty run of digits. */
  function ParseDecimal(s: string): Option<nat> {
    if s == [] || !IsDigit(s[|s| - 1]) then None
    else
      var digit := (s[|s| - 1] - '0') as nat;
      if |s| == 1 then Some(digit)
      else
        match ParseDecimal(s[..|s| - 1])
        case Some(n) => Some(10 * n + digit)
        case None => None
  }

  lemma {:induction false} DecimalRoundTrip(n: nat)
    ensures Decimal(n) != [] && forall c <- Decimal(n) :: IsDigit(c)
    ensures ParseDecimal(Decimal(n)) == Some(n)
  {
    var s := Decimal(n);
    if n >= 10 {
      DecimalRoundTrip(n / 10);
      assert s[..|s| - 1] == Decimal(n / 10);
    }
  }

  /** The proxied ports as one text, decimal numbers joined by commas. */
  function JoinPorts(ports: seq<Port>): string {
    if ports == [] then ""
    else if |ports| == 1 then Decimal(ports[0])
    else Decimal(ports[0]) + "," + JoinPorts(ports[1..])
  }

  function CommaAt(s: string): (i: nat)
    ensures i <= |s|
    ensures forall j :: 0 <= j < i ==> s[j] != ','
    ensures i < |s| ==> s[i] == ','
  {
    if s == [] || s[0] == ',' then 0 else 1 + CommaAt(s[1..])
  }

  /** The ports a comma-separated text lists, if every item is a number. */
  function ParsePorts(s: string): Option<seq<nat>>
    decreases |s|
  {
    var i := CommaAt(s);
    match ParseDecimal(s[..i])
    case None => None
    case Some(n) =>
      if i == |s| then Some([n])
      else
        match ParsePorts(s[i + 1..])
        case None => None
        case Some(rest) => Some([n] + rest)
  }

  lemma {:induction false} CommaAfterDigits(digits: string, rest: string)
    requires forall c <- digits :: IsDigit(c)
    ensures CommaAt(digits + "," + rest) == |digits|
    ensures CommaAt(digits) == |digits|
  {
    var s := digits + "," + rest;
    assert s[|digits|] == ',';
    assert forall j :: 0 <= j < |digits| ==> s[j] == digits[j] && digits[j] in digits;
  }

  lemma ParseFirstPort(port: Port, rest: string)
    ensures ParsePorts(Decimal(port) + "," + rest) ==
            match ParsePorts(rest)
            case None => None
            case Some(more) => Some([port] + more)
    ensures ParsePorts(Decimal(port)) == Some([port])
  {
    var first := Decimal(port);
    DecimalRoundTrip(port);
    CommaAfterDigits(first, rest);
    var s := first + "," + rest;
    assert s[..|first|] == first && s[|first| + 1..] == rest;
    assert first[..|first|] == first;
  }

  /** Every non-empty port list is recovered from its joined text; the empty text lists no ports. */
  lemma {:induction false} PortsRoundTrip(ports: seq<Port>)
    ensures ParsePorts(JoinPorts(ports)) == if ports == [] then None else Some(ports)
  {
    if ports == [] {
      assert CommaAt("") == 0;
    } else {
      var first, rest := ports[0], ports[1..];
      ParseFirstPort(first, JoinPorts(rest));
      assert ports == [first] + rest;
      if rest != [] {
        PortsRoundTrip(rest);
        assert JoinPorts(ports) == Decimal(first) + "," + JoinPorts(rest);
      } else {
        assert ports == [first];
      }
    }
  }
}
