/** What the three URI rewrites do to path, query and the decoded query pairs. */
module UriLaws {
  import opened Wrappers
  import opened Bytes
  import opened FormCodec
  import opened Uris

  /** The parts of a URI recombine with any path: both or neither of scheme and authority are there. */
  ghost predicate Joins(uri: Uri) {
    uri.pathAndQuery.Valid() && (uri.scheme.Some? <==> uri.authority.Some?)
  }

  /**
   A URI with a path that recombines: origin form, any other non-empty path without scheme and
   authority, or absolute form.
   */
  ghost predicate Settled(uri: Uri) {
    Joins(uri) && uri.pathAndQuery.raw != []
  }

  /** Appending prints the old text, which gives a path without a leading `/` (or `*`) one. */
  function Slashed(raw: Bytes): Bytes {
    if raw != [] && (raw[0] == SLASH || raw[0] == STAR) then raw else [SLASH] + raw
  }

  predicate Plain(text: Bytes) {
    QUESTION !in text && HASH !in text
  }

  /** The bytes of a path are the visible ones of ASCII but five; a query may hold `?` and a backquote as well, but no double quote. */
  lemma VisibleBytes(b: Byte)
    ensures PathByte(b) <==> ' ' as int < b <= '~' as int && b != '#' as int && b != '<' as int && b != '>' as int
                             && b != '?' as int && b != '`' as int
    ensures QueryByte(b) <==> ' ' as int < b <= '~' as int && b != '#' as int && b != '<' as int && b != '>' as int
                              && b != '"' as int
  {
  }

  // ---- Parsing of assembled text ----

  lemma BeforeAbsent(s: Bytes, b: Byte)
    requires b !in s
    ensures Before(s, b) == s
  {
    SplitOff(s, b);
  }

  lemma ParseBare(path: Bytes)
    requires Plain(path)
    ensures ParsePathAndQuery(path) ==
            if PathText(path) then Ok(PathAndQuery(path, None)) else Err(InvalidUri)
  {
    BeforeAbsent(path, HASH);
    BeforeAbsent(path, QUESTION);
  }

  lemma ParseWithQuery(path: Bytes, query: Bytes)
    requires Plain(path) && HASH !in query
    ensures ParsePathAndQuery(path + [QUESTION] + query) ==
            if PathText(path) && QueryText(query)
            then Ok(PathAndQuery(path, Some(query))) else Err(InvalidUri)
  {
    var text := path + [QUESTION] + query;
    BeforeAbsent(text, HASH);
    SplitAt(path, QUESTION, query);
  }

  lemma ValidHasNoDelimiters(paq: PathAndQuery)
    requires paq.Valid()
    ensures Plain(paq.raw) && HASH !in paq.Query()
  {
  }

  lemma FormTextIsQueryText(ps: seq<Pair>)
    ensures QueryText(Serialize(ps))
    ensures HASH !in Serialize(ps)
  {
    SerializedText(ps);
  }

  /** Such a URI recombines with any path-and-query that parses. */
  lemma Recombines(uri: Uri, text: Bytes)
    requires Joins(uri)
    ensures WithPathAndQuery(uri, text) ==
            match ParsePathAndQuery(text)
            case Ok(paq) => Ok(uri.(pathAndQuery := paq))
            case Err(e) => Err(e)
  {
  }

  // ---- Path ----

  function Target(path: Bytes): Bytes {
    if path == [] then [SLASH] else path
  }

  /** Replacing the path of a settled URI by plain text changes the path and nothing else. */
  lemma ReplacePathExact(uri: Uri, path: Bytes)
    requires Settled(uri) && Plain(path)
    ensures ReplacePath(uri, Some(path)) ==
            if PathText(Target(path))
            then Ok(uri.(pathAndQuery := PathAndQuery(Target(path), uri.pathAndQuery.query)))
            else Err(InvalidUri)
  {
    ValidHasNoDelimiters(uri.pathAndQuery);
    ParseBare(Target(path));
    ParseWithQuery(Target(path), uri.pathAndQuery.Query());
  }

  /** What of a replacement path is looked at: the text before its first `#`. */
  function Kept(path: Bytes): Bytes {
    Before(Target(path), HASH)
  }

  /** The query a replacement path brings along: what follows the first `?` before any `#`. */
  function OwnQuery(path: Bytes): Option<Bytes> {
    if QUESTION in Kept(path) then Some(After(Kept(path), QUESTION)) else None
  }

  /** The query after a replacement. A `#` cuts off the old query, a `?` pushes it behind the new one. */
  function NewQuery(path: Bytes, prior: Option<Bytes>): Option<Bytes> {
    if HASH in path || prior.None? then OwnQuery(path)
    else if OwnQuery(path).Some? then Some(OwnQuery(path).value + [QUESTION] + prior.value)
    else prior
  }

  function NewPath(path: Bytes): Bytes {
    Before(Kept(path), QUESTION)
  }

  predicate Acceptable(path: Bytes) {
    PathText(NewPath(path)) && (OwnQuery(path).Some? ==> QueryText(OwnQuery(path).value))
  }

  lemma ParseCutAtHash(head: Bytes, tail: Bytes)
    requires HASH in head
    ensures ParsePathAndQuery(head + tail) == ParsePathAndQuery(head)
  {
    SplitOff(head, HASH);
    var kept, cut := Before(head, HASH), After(head, HASH);
    assert head + tail == kept + [HASH] + (cut + tail);
    SplitAt(kept, HASH, cut + tail);
  }

  lemma ParseOwn(path: Bytes)
    ensures ParsePathAndQuery(Target(path)) ==
            if Acceptable(path) then Ok(PathAndQuery(NewPath(path), OwnQuery(path))) else Err(InvalidUri)
  {
  }

  lemma ParsePushed(path: Bytes, prior: Bytes)
    requires HASH !in path && HASH !in prior && QUESTION in path && QueryText(prior)
    ensures ParsePathAndQuery(Target(path) + [QUESTION] + prior) ==
            if Acceptable(path)
            then Ok(PathAndQuery(NewPath(path), Some(OwnQuery(path).value + [QUESTION] + prior))) else Err(InvalidUri)
  {
    BeforeAbsent(path, HASH);
    SplitOff(path, QUESTION);
    var own := OwnQuery(path).value;
    var rest := own + [QUESTION] + prior;
    assert path + [QUESTION] + prior == NewPath(path) + [QUESTION] + rest;
    ParseWithQuery(NewPath(path), rest);
    assert QueryText(rest) <==> QueryText(own) by {
      assert forall b <- own :: b in rest;
    }
  }

  /** What a path replacement leaves, whatever the path. */
  lemma ReplacePathTotal(uri: Uri, path: Bytes)
    requires Joins(uri) && uri.HasPath()
    ensures ReplacePath(uri, Some(path)) ==
            if Acceptable(path)
            then Ok(uri.(pathAndQuery := PathAndQuery(NewPath(path), NewQuery(path, uri.pathAndQuery.query))))
            else Err(InvalidUri)
  {
    ValidHasNoDelimiters(uri.pathAndQuery);
    ParseOwn(path);
    var prior := uri.pathAndQuery.query;
    if prior.None? {
      Recombines(uri, Target(path));
    } else {
      Recombines(uri, Target(path) + [QUESTION] + prior.value);
      if HASH in path {
        assert Target(path) + [QUESTION] + prior.value == Target(path) + ([QUESTION] + prior.value);
        ParseCutAtHash(Target(path), [QUESTION] + prior.value);
      } else if QUESTION in path {
        ParsePushed(path, prior.value);
      } else {
        PlainParts(path);
        ParseWithQuery(Target(path), prior.value);
      }
    }
  }

  lemma PlainParts(path: Bytes)
    requires Plain(path)
    ensures NewPath(path) == Target(path) && OwnQuery(path) == None
  {
    BeforeAbsent(Target(path), HASH);
    BeforeAbsent(Target(path), QUESTION);
  }

  lemma QuestionIsOwn(path: Bytes)
    ensures HASH !in path ==> (OwnQuery(path).Some? <==> QUESTION in path)
  {
    if HASH !in path {
      BeforeAbsent(Target(path), HASH);
    }
  }

  /** Whether a replacement by the path leaves the query as it was. */
  predicate KeepsQuery(path: Bytes, prior: Option<Bytes>) {
    if HASH in path then OwnQuery(path) == prior else QUESTION !in path
  }

  /** The query stays as it was if and only if the path has no `?`, or a `#` and just that query of its own. */
  lemma QueryIntactIff(uri: Uri, path: Bytes)
    requires Settled(uri) && ReplacePath(uri, Some(path)).Ok?
    ensures ReplacePath(uri, Some(path)).value.pathAndQuery.query == uri.pathAndQuery.query
            <==> KeepsQuery(path, uri.pathAndQuery.query)
  {
    ReplacePathTotal(uri, path);
    QuestionIsOwn(path);
  }

  /** Different old queries show after a replacement unless a `#` cuts them off. */
  lemma NewQueryInjective(path: Bytes, a: Option<Bytes>, b: Option<Bytes>)
    ensures NewQuery(path, a) == NewQuery(path, b) <==> HASH in path || a == b
  {
    if HASH !in path && OwnQuery(path).Some? {
      var own := OwnQuery(path).value;
      if a.Some? {
        assert (own + [QUESTION] + a.value)[|own| + 1..] == a.value;
      }
      if b.Some? {
        assert (own + [QUESTION] + b.value)[|own| + 1..] == b.value;
      }
    }
  }

  /**
   Exactly when of two successive path replacements only the last remains visible: if the first leaves a URI
   with a path, the last must be refused, cut off the query, or find it as it was; if the first leaves none,
   the last has no effect, so it must be one that leaves none either.
   */
  lemma LastPathWinsIff(uri: Uri, first: Bytes, last: Bytes)
    requires Settled(uri) && ReplacePath(uri, Some(first)).Ok?
    ensures var once := ReplacePath(uri, Some(first)).value;
            var prior := uri.pathAndQuery.query;
            ReplacePath(once, Some(last)) == ReplacePath(uri, Some(last)) <==>
            if once.HasPath() then !Acceptable(last) || HASH in last || KeepsQuery(first, prior)
            else Acceptable(last) && NewPath(last) == [] && NewQuery(last, prior) == None
  {
    var once := ReplacePath(uri, Some(first)).value;
    ReplacePathTotal(uri, first);
    ReplacePathTotal(uri, last);
    QueryIntactIff(uri, first);
    if once.HasPath() {
      ReplacePathTotal(once, last);
      NewQueryInjective(last, once.pathAndQuery.query, uri.pathAndQuery.query);
    }
  }

  /** In particular plain paths: of two of them only the last remains visible. */
  lemma LastPathWins(uri: Uri, first: Bytes, last: Bytes)
    requires Settled(uri) && Plain(first) && Plain(last)
    requires ReplacePath(uri, Some(first)).Ok?
    ensures Settled(ReplacePath(uri, Some(first)).value)
    ensures ReplacePath(ReplacePath(uri, Some(first)).value, Some(last)) == ReplacePath(uri, Some(last))
  {
    ReplacePathExact(uri, first);
    LastPathWinsIff(uri, first, last);
  }

  /** Paths that leave nothing to a second application. */
  predicate Repeatable(path: Bytes) {
    HASH in path || QUESTION !in path
  }

  /** A path replacement is idempotent if and only if its path has a `#` or no `?`. */
  lemma ReplacePathIdempotentIff(uri: Uri, path: Bytes)
    requires Settled(uri) && ReplacePath(uri, Some(path)).Ok?
    ensures var once := ReplacePath(uri, Some(path)).value;
            ReplacePath(once, Some(path)) == Ok(once) <==> Repeatable(path)
  {
    var once := ReplacePath(uri, Some(path)).value;
    ReplacePathTotal(uri, path);
    QuestionIsOwn(path);
    if once.HasPath() {
      ReplacePathTotal(once, path);
    }
  }

  // ---- Query ----

  function Joined(prior: Option<Bytes>, more: Bytes): Bytes {
    if prior.Some? then prior.value + [AMPERSAND] + more else more
  }

  /** Printing the old text starts with its path, slash added, and keeps the query. */
  lemma DisplayedText(paq: PathAndQuery)
    requires paq.Valid()
    ensures paq.Display() == Slashed(paq.raw) + if paq.query.Some? then [QUESTION] + paq.query.value else []
  {
    if paq.raw != [] {
      assert paq.Text()[0] == paq.raw[0];
    }
  }

  lemma AppendText(uri: Uri, more: Bytes)
    requires Joins(uri) && more != []
    ensures AppendQueries(uri, Some(more)) ==
            WithPathAndQuery(uri, Slashed(uri.pathAndQuery.raw) + [QUESTION] + Joined(uri.pathAndQuery.query, more))
  {
    var paq := uri.pathAndQuery;
    DisplayedText(paq);
    if paq.query.Some? {
      assert paq.Display() + [AMPERSAND] + more == Slashed(paq.raw) + [QUESTION] + Joined(paq.query, more);
    } else {
      assert paq.Display() == Slashed(paq.raw);
      if !uri.HasPath() {
        assert [SLASH, QUESTION] == Slashed(paq.raw) + [QUESTION];
      }
    }
  }

  lemma JoinedBytes(prior: Option<Bytes>, more: Bytes)
    requires QueryText(prior.GetOr([]))
    ensures QueryText(Joined(prior, more)) <==> QueryText(more)
    ensures HASH in Joined(prior, more) <==> HASH in more
  {
    assert forall b <- more :: b in Joined(prior, more);
  }

  lemma AppendedTextParses(uri: Uri, more: Bytes)
    requires Joins(uri) && HASH !in more
    ensures ParsePathAndQuery(Slashed(uri.pathAndQuery.raw) + [QUESTION] + Joined(uri.pathAndQuery.query, more)) ==
            if QueryText(more)
            then Ok(PathAndQuery(Slashed(uri.pathAndQuery.raw), Some(Joined(uri.pathAndQuery.query, more))))
            else Err(InvalidUri)
  {
    var paq := uri.pathAndQuery;
    JoinedBytes(paq.query, more);
    ParseWithQuery(Slashed(paq.raw), Joined(paq.query, more));
  }

  /** Appending keeps the path, up to its leading slash, and extends the query text. */
  lemma AppendExact(uri: Uri, more: Bytes)
    requires Joins(uri)
    requires more != [] && HASH !in more
    ensures AppendQueries(uri, Some(more)) ==
            if QueryText(more)
            then Ok(uri.(pathAndQuery := PathAndQuery(Slashed(uri.pathAndQuery.raw), Some(Joined(uri.pathAndQuery.query, more)))))
            else Err(InvalidUri)
  {
    var text := Slashed(uri.pathAndQuery.raw) + [QUESTION] + Joined(uri.pathAndQuery.query, more);
    AppendText(uri, more);
    AppendedTextParses(uri, more);
    Recombines(uri, text);
  }

  /** Appending `a` and then `b` is appending `a&b`, failures included. */
  lemma AppendTwice(uri: Uri, a: Bytes, b: Bytes)
    requires Joins(uri)
    requires a != [] && b != [] && HASH !in a && HASH !in b
    ensures AppendQueries(uri, Some(a + [AMPERSAND] + b)) ==
            match AppendQueries(uri, Some(a))
            case Ok(once) => AppendQueries(once, Some(b))
            case Err(e) => Err(e)
  {
    var both := a + [AMPERSAND] + b;
    AppendExact(uri, a);
    AppendExact(uri, both);
    assert QueryText(both) <==> QueryText(a) && QueryText(b) by {
      assert forall x <- a + b :: x in both;
    }
    if AppendQueries(uri, Some(a)).Ok? {
      var once := AppendQueries(uri, Some(a)).value;
      AppendExact(once, b);
      JoinedTwice(uri.pathAndQuery.query, a, b);
    }
  }

  lemma JoinedTwice(prior: Option<Bytes>, a: Bytes, b: Bytes)
    ensures Joined(Some(Joined(prior, a)), b) == Joined(prior, a + [AMPERSAND] + b)
  {
  }

  /** Appending serialized pairs appends exactly those pairs, in order, to what the query decodes to. */
  lemma AppendDecoded(uri: Uri, ps: seq<Pair>)
    requires Joins(uri)
    ensures var r := AppendQueries(uri, Some(Serialize(ps)));
            && r.Ok? && Joins(r.value)
            && r.value.pathAndQuery.raw == (if ps == [] then uri.pathAndQuery.raw else Slashed(uri.pathAndQuery.raw))
            && (r.value.scheme, r.value.authority) == (uri.scheme, uri.authority)
            && Parse(r.value.pathAndQuery.Query()) == Parse(uri.pathAndQuery.Query()) + ps
  {
    SerializedText(ps);
    FormTextIsQueryText(ps);
    RoundTrip(ps);
    if ps == [] {
      assert Parse(uri.pathAndQuery.Query()) + ps == Parse(uri.pathAndQuery.Query());
    } else {
      AppendExact(uri, Serialize(ps));
      if uri.pathAndQuery.query.Some? {
        ParseJoined(uri.pathAndQuery.query.value, Serialize(ps));
      } else {
        assert Parse([]) + ps == ps;
      }
    }
  }

  function Overlaid(uri: Uri, qs: map<Bytes, Bytes>): map<Bytes, Bytes> {
    LastWins(Parse(uri.pathAndQuery.Query())) + qs
  }

  /** Overlaying succeeds, keeps the path, and the new query is the listed overlay, serialized. */
  lemma OverlayDecoded(uri: Uri, qs: map<Bytes, Bytes>, order: HashOrder, seed: nat)
    requires Joins(uri)
    ensures var r := ReplaceQueries(uri, Some(qs), order, seed);
            var listing := order(seed, Overlaid(uri, qs));
            && r.Ok? && Settled(r.value)
            && r.value.pathAndQuery.raw == uri.pathAndQuery.Path()
            && (r.value.scheme, r.value.authority) == (uri.scheme, uri.authority)
            && r.value.pathAndQuery.query == (if listing == [] then None else Some(Serialize(listing)))
            && Parse(r.value.pathAndQuery.Query()) == listing
  {
    var listing := order(seed, Overlaid(uri, qs));
    var path := uri.pathAndQuery.Path();
    OverlayText(uri, qs, order, seed);
    RoundTrip(listing);
    ParseListing(path, listing);
    Recombines(uri, ListingText(path, listing));
  }

  lemma OverlayText(uri: Uri, qs: map<Bytes, Bytes>, order: HashOrder, seed: nat)
    ensures ReplaceQueries(uri, Some(qs), order, seed) ==
            WithPathAndQuery(uri, ListingText(uri.pathAndQuery.Path(), order(seed, Overlaid(uri, qs))))
  {
  }

  /** A path with serialized pairs as its query. */
  function ListingText(path: Bytes, listing: seq<Pair>): Bytes {
    var text := Serialize(listing);
    if text == [] then path else path + [QUESTION] + text
  }

  lemma ParseListing(path: Bytes, listing: seq<Pair>)
    requires PathText(path)
    ensures ParsePathAndQuery(ListingText(path, listing)) ==
            Ok(PathAndQuery(path, if listing == [] then None else Some(Serialize(listing))))
  {
    SerializedText(listing);
    FormTextIsQueryText(listing);
    ParseBare(path);
    ParseWithQuery(path, Serialize(listing));
  }

  /** Collecting a listing of a map gives that map back. */
  lemma {:induction false} LastWinsOfListing(ps: seq<Pair>, m: map<Bytes, Bytes>)
    requires Lists(ps, m)
    ensures LastWins(ps) == m
  {
    if ps != [] {
      var rest, last := ps[..|ps| - 1], ps[|ps| - 1];
      ListsRest(ps, m);
      LastWinsOfListing(rest, m - {last.0});
      assert m == (m - {last.0})[last.0 := last.1];
    }
  }

  /** The value `LastWins` keeps is the one at the last position naming the key. */
  lemma {:induction false} LastWinsIsLast(ps: seq<Pair>, key: Bytes)
    ensures key in LastWins(ps) <==> exists i :: 0 <= i < |ps| && ps[i].0 == key
    ensures forall i :: 0 <= i < |ps| && ps[i].0 == key && (forall j :: i < j < |ps| ==> ps[j].0 != key)
                        ==> key in LastWins(ps) && LastWins(ps)[key] == ps[i].1
  {
    if ps != [] {
      var rest := ps[..|ps| - 1];
      LastWinsIsLast(rest, key);
      assert forall i :: 0 <= i < |rest| ==> rest[i] == ps[i];
      if i :| 0 <= i < |ps| && ps[i].0 == key {
        if i < |rest| {
          assert rest[i].0 == key;
        }
      }
    }
  }

  /** Overlaying the same pairs again changes nothing but possibly the order of the listing. */
  lemma OverlayStable(uri: Uri, qs: map<Bytes, Bytes>, order: HashOrder, seed: nat)
    requires Joins(uri) && Fair(order)
    ensures ReplaceQueries(uri, Some(qs), order, seed).Ok?
    ensures Overlaid(ReplaceQueries(uri, Some(qs), order, seed).value, qs) == Overlaid(uri, qs)
  {
    OverlayDecoded(uri, qs, order, seed);
    var merged := Overlaid(uri, qs);
    var listing := order(seed, merged);
    assert Lists(listing, merged);
    LastWinsOfListing(listing, merged);
    MergedTwice(LastWins(Parse(uri.pathAndQuery.Query())), qs);
  }

  lemma MergedTwice<K, V>(a: map<K, V>, b: map<K, V>)
    ensures a + b + b == a + b
  {
  }

  /** How often a pair occurs in a listing of `m`: once if `m` holds it, else never. */
  lemma {:induction false} ListingCounts(ps: seq<Pair>, m: map<Bytes, Bytes>, p: Pair)
    requires Lists(ps, m)
    ensures multiset(ps)[p] == if p.0 in m && m[p.0] == p.1 then 1 else 0
  {
    if ps != [] {
      var rest, last := ps[..|ps| - 1], ps[|ps| - 1];
      ListsRest(ps, m);
      ListingCounts(rest, m - {last.0}, p);
      assert ps == rest + [last];
    }
  }

  lemma ListsRest(ps: seq<Pair>, m: map<Bytes, Bytes>)
    requires Lists(ps, m) && ps != []
    ensures Lists(ps[..|ps| - 1], m - {ps[|ps| - 1].0})
  {
    var rest, last := ps[..|ps| - 1], ps[|ps| - 1];
    forall k <- m - {last.0} ensures exists i :: 0 <= i < |rest| && rest[i].0 == k {
      var i :| 0 <= i < |ps| && ps[i].0 == k;
      assert rest[i].0 == k;
    }
  }

  /** Two listings of one map are permutations of each other. */
  lemma ListingsPermute(a: seq<Pair>, b: seq<Pair>, m: map<Bytes, Bytes>)
    requires Lists(a, m) && Lists(b, m)
    ensures multiset(a) == multiset(b)
  {
    forall p ensures multiset(a)[p] == multiset(b)[p] {
      ListingCounts(a, m, p);
      ListingCounts(b, m, p);
    }
  }

  // ---- Scheme and authority ----

  predicate SameServer(r: Result<Uri>, uri: Uri) {
    r.Ok? ==> r.value.scheme == uri.scheme && r.value.authority == uri.authority
  }

  lemma SameServerAnyText(uri: Uri, text: Bytes)
    ensures SameServer(WithPathAndQuery(uri, text), uri)
  {
  }

  lemma PathKeepsServer(uri: Uri, path: Option<Bytes>)
    ensures SameServer(ReplacePath(uri, path), uri)
  {
    forall text ensures SameServer(WithPathAndQuery(uri, text), uri) {
      SameServerAnyText(uri, text);
    }
  }

  lemma OverlayKeepsServer(uri: Uri, qs: Option<map<Bytes, Bytes>>, order: HashOrder, seed: nat)
    ensures SameServer(ReplaceQueries(uri, qs, order, seed), uri)
  {
    forall text ensures SameServer(WithPathAndQuery(uri, text), uri) {
      SameServerAnyText(uri, text);
    }
  }

  lemma AppendKeepsServer(uri: Uri, more: Option<Bytes>)
    ensures SameServer(AppendQueries(uri, more), uri)
  {
    forall text ensures SameServer(WithPathAndQuery(uri, text), uri) {
      SameServerAnyText(uri, text);
    }
  }

  /** No rewrite that succeeds touches scheme or authority, whatever the URI. */
  lemma OnlyPathAndQueryChanges(uri: Uri, path: Option<Bytes>, qs: Option<map<Bytes, Bytes>>, more: Option<Bytes>,
                                order: HashOrder, seed: nat)
    ensures SameServer(ReplacePath(uri, path), uri)
    ensures SameServer(ReplaceQueries(uri, qs, order, seed), uri)
    ensures SameServer(AppendQueries(uri, more), uri)
  {
    PathKeepsServer(uri, path);
    OverlayKeepsServer(uri, qs, order, seed);
    AppendKeepsServer(uri, more);
  }

  // ---- Targets that do not recombine ----

  lemma HalfServerTakesNoPath(uri: Uri, text: Bytes)
    requires uri.scheme.Some? <==> uri.authority.None?
    ensures WithPathAndQuery(uri, text) == Err(InvalidUri)
  {
  }

  lemma HalfServerRefusesPath(uri: Uri, path: Bytes)
    requires uri.scheme.Some? <==> uri.authority.None?
    ensures ReplacePath(uri, Some(path)) ==
            if uri.scheme.None? && uri.pathAndQuery.Text() == [] then Ok(uri) else Err(InvalidUri)
  {
    if uri.HasPath() {
      var prior := uri.pathAndQuery.query;
      HalfServerTakesNoPath(uri, if prior.Some? then Target(path) + [QUESTION] + prior.value else Target(path));
    } else {
      assert uri.pathAndQuery == PathAndQuery([], None);
    }
  }

  lemma HalfServerRefusesOverlay(uri: Uri, qs: map<Bytes, Bytes>, order: HashOrder, seed: nat)
    requires uri.scheme.Some? <==> uri.authority.None?
    ensures ReplaceQueries(uri, Some(qs), order, seed) == Err(InvalidUri)
  {
    var paq := uri.IntoParts().pathAndQuery;
    var merged := LastWins(Parse(if paq.Some? then paq.value.Query() else [])) + qs;
    var path := if paq.Some? then paq.value.Path() else [SLASH];
    var text := Serialize(order(seed, merged));
    HalfServerTakesNoPath(uri, if text == [] then path else path + [QUESTION] + text);
  }

  lemma HalfServerRefusesMore(uri: Uri, more: Bytes)
    requires uri.scheme.Some? <==> uri.authority.None?
    ensures AppendQueries(uri, Some(more)) == if more == [] then Ok(uri) else Err(InvalidUri)
  {
    match uri.IntoParts().pathAndQuery
    case None => HalfServerTakesNoPath(uri, [SLASH, QUESTION] + more);
    case Some(prior) =>
      HalfServerTakesNoPath(uri, prior.Display() + [if prior.query.Some? then AMPERSAND else QUESTION] + more);
  }

  /**
   A target with an authority and no scheme, as CONNECT has it, refuses every rewrite that would give it a path
   or a query; only replacing the path it does not have leaves it alone. So does one with a scheme alone.
   */
  lemma HalfServerRefusesRewrites(uri: Uri, path: Bytes, qs: map<Bytes, Bytes>, more: Bytes, order: HashOrder, seed: nat)
    requires uri.scheme.Some? <==> uri.authority.None?
    ensures ReplacePath(uri, Some(path)) ==
            if uri.scheme.None? && uri.pathAndQuery.Text() == [] then Ok(uri) else Err(InvalidUri)
    ensures ReplaceQueries(uri, Some(qs), order, seed) == Err(InvalidUri)
    ensures AppendQueries(uri, Some(more)) == if more == [] then Ok(uri) else Err(InvalidUri)
  {
    HalfServerRefusesPath(uri, path);
    HalfServerRefusesOverlay(uri, qs, order, seed);
    HalfServerRefusesMore(uri, more);
  }
}
