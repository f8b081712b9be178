/**
 The request target and its three in-place rewrites. The `http` crate's rules are kept: text is cut
 at the first `#`, the query starts at the first `?`, some bytes are refused, a target without a
 path has no path-and-query part, and parts only recombine in certain shapes.
 */
module Uris {
  import opened Wrappers
  import opened Bytes
  import opened FormCodec

  datatype Scheme = Http | Https | Other(name: Bytes)

  /** `query` is present as soon as the text holds a `?`, even with nothing after it. */
  datatype PathAndQuery = PathAndQuery(raw: Bytes, query: Option<Bytes>) {
    function Text(): Bytes {
      raw + match query case Some(q) => [QUESTION] + q case None => []
    }

    function Path(): Bytes {
      if raw == [] then [SLASH] else raw
    }

    /** Printing puts a slash in front of text that starts with neither `/` nor `*`. */
    function Display(): Bytes {
      if Text() == [] then [SLASH]
      else if Text()[0] == SLASH || Text()[0] == STAR then Text()
      else [SLASH] + Text()
    }

    function Query(): Bytes {
      query.GetOr([])
    }

    /** What parsing can produce. */
    predicate Valid() {
      PathText(raw) && (query.Some? ==> QueryText(query.value))
    }
  }

  /** Bytes a path may hold; neither `?` nor `#` is among them. */
  predicate PathByte(b: Byte) {
    || b == 0x21 || b == 0x22 || 0x24 <= b <= 0x3B || b == 0x3D || 0x40 <= b <= 0x5F
    || 0x61 <= b <= 0x7E
  }

  predicate QueryByte(b: Byte) {
    b == 0x21 || 0x24 <= b <= 0x3B || b == 0x3D || 0x3F <= b <= 0x7E
  }

  predicate PathText(text: Bytes) {
    forall b <- text :: PathByte(b)
  }

  predicate QueryText(text: Bytes) {
    forall b <- text :: QueryByte(b)
  }

  /** The parser of path-and-query text. */
  function ParsePathAndQuery(text: Bytes): (r: Result<PathAndQuery>)
    ensures r.Ok? ==> r.value.Valid()
  {
    var kept := Before(text, HASH);
    var raw := Before(kept, QUESTION);
    var query := if QUESTION in kept then Some(After(kept, QUESTION)) else None;
    if PathText(raw) && (query.Some? ==> QueryText(query.value)) then Ok(PathAndQuery(raw, query)) else Err(InvalidUri)
  }

  datatype Parts = Parts(scheme: Option<Scheme>, authority: Option<Bytes>, pathAndQuery: Option<PathAndQuery>)

  datatype Uri = Uri(scheme: Option<Scheme>, authority: Option<Bytes>, pathAndQuery: PathAndQuery) {
    predicate HasPath() {
      pathAndQuery.Text() != [] || scheme.Some?
    }

    function Path(): Bytes {
      if HasPath() then pathAndQuery.Path() else []
    }

    function IntoParts(): Parts {
      Parts(scheme, authority, if HasPath() then Some(pathAndQuery) else None)
    }

    /** Origin form, section 3.2.1 of RFC 9112: an absolute path and perhaps a query. */
    ghost predicate OriginForm() {
      && scheme.None? && authority.None?
      && pathAndQuery.Valid()
      && pathAndQuery.raw != [] && pathAndQuery.raw[0] == SLASH
    }
  }

  function FromParts(parts: Parts): Result<Uri> {
    if parts.scheme.Some? && (parts.authority.None? || parts.pathAndQuery.None?) then Err(InvalidUri)
    else if parts.scheme.None? && parts.authority.Some? && parts.pathAndQuery.Some? then Err(InvalidUri)
    else Ok(Uri(parts.scheme, parts.authority, parts.pathAndQuery.GetOr(PathAndQuery([], None))))
  }

  function WithPathAndQuery(uri: Uri, text: Bytes): Result<Uri> {
    match ParsePathAndQuery(text)
    case Ok(paq) => FromParts(uri.IntoParts().(pathAndQuery := Some(paq)))
    case Err(e) => Err(e)
  }

  // ---- The rewrites ----

  function ReplacePath(uri: Uri, path: Option<Bytes>): Result<Uri> {
    match path
    case None => Ok(uri)
    case Some(p) =>
      var target := if p == [] then [SLASH] else p;
      match uri.IntoParts().pathAndQuery
      case None => FromParts(uri.IntoParts())
      case Some(prior) =>
        WithPathAndQuery(uri, if prior.query.Some? then target + [QUESTION] + prior.query.value else target)
  }

  /** A hash map built from a list of pairs: the last value given for a key stays. */
  function LastWins(ps: seq<Pair>): map<Bytes, Bytes> {
    if ps == [] then map[] else LastWins(ps[..|ps| - 1])[ps[|ps| - 1].0 := ps[|ps| - 1].1]
  }

  /** `ps` lists the entries of `m`, each key once, in some order. */
  ghost predicate Lists(ps: seq<Pair>, m: map<Bytes, Bytes>) {
    && (forall i, j :: 0 <= i < j < |ps| ==> ps[i].0 != ps[j].0)
    && (forall i :: 0 <= i < |ps| ==> ps[i].0 in m && m[ps[i].0] == ps[i].1)
    && (forall k <- m :: exists i :: 0 <= i < |ps| && ps[i].0 == k)
  }

  /**
   The order in which a hash map yields its entries. It depends on the seed of that one map, so two
   equal maps with different seeds may be listed differently.
   */
  type HashOrder = (nat, map<Bytes, Bytes>) -> seq<Pair>

  ghost predicate Fair(order: HashOrder) {
    forall seed, m :: Lists(order(seed, m), m)
  }

  function ReplaceQueries(uri: Uri, queries: Option<map<Bytes, Bytes>>, order: HashOrder, seed: nat): Result<Uri> {
    match queries
    case None => Ok(uri)
    case Some(qs) =>
      var paq := uri.IntoParts().pathAndQuery;
      var merged := LastWins(Parse(if paq.Some? then paq.value.Query() else [])) + qs;
      var path := if paq.Some? then paq.value.Path() else [SLASH];
      var text := Serialize(order(seed, merged));
      WithPathAndQuery(uri, if text == [] then path else path + [QUESTION] + text)
  }

  function AppendQueries(uri: Uri, queries: Option<Bytes>): Result<Uri> {
    if queries.GetOr([]) == [] then Ok(uri)
    else
      WithPathAndQuery(uri,
        match uri.IntoParts().pathAndQuery
        case None => [SLASH, QUESTION] + queries.value
        case Some(prior) => prior.Display() + [if prior.query.Some? then AMPERSAND else QUESTION] + queries.value)
  }
}
