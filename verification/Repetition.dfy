/**
 What an overlay of query pairs changes about a replacement path with a `?`: single requests may come out
 the same the second time, but not all requests do.
 */
module Repetition {
  import opened Wrappers
  import opened Bytes
  import opened FormCodec
  import opened Uris
  import opened UriLaws
  import opened Json
  import opened Action
  import opened ActionLaws

  /** Rewriting the URI a second time, if the first time succeeds, changes at most the order of query pairs. */
  ghost predicate Repeats(uri: Uri, actions: Actions, order: HashOrder, seed: nat, seed': nat) {
    UriAfter(uri, actions, order, seed).Ok? ==>
      var once := UriAfter(uri, actions, order, seed).value;
      var twice := UriAfter(once, actions, order, seed');
      twice.Ok? && SameUpToOrder(twice.value, once)
  }

  ghost predicate AlwaysRepeats(actions: Actions) {
    forall uri, order, seed, seed' | Settled(uri) && Fair(order) :: Repeats(uri, actions, order, seed, seed')
  }

  // ---- Keys that decoding can produce ----

  lemma {:induction false} DecodeShortens(s: Bytes)
    ensures |Decode(s)| <= |s|
  {
    if s == [] {
    } else if s[0] == PERCENT && |s| >= 3 && IsHex(s[1]) && IsHex(s[2]) {
      DecodeShortens(s[3..]);
    } else {
      DecodeShortens(s[1..]);
    }
  }

  lemma {:induction false} DecodeKeepsQuestionMark(s: Bytes)
    requires QUESTION in s
    ensures QUESTION in Decode(s)
  {
    if s[0] == PERCENT && |s| >= 3 && IsHex(s[1]) && IsHex(s[2]) {
      assert s == [s[0], s[1], s[2]] + s[3..];
      DecodeKeepsQuestionMark(s[3..]);
    } else if s[0] != QUESTION {
      assert s == [s[0]] + s[1..];
      DecodeKeepsQuestionMark(s[1..]);
    }
  }

  predicate HasKey(ps: seq<Pair>, key: Bytes) {
    exists i :: 0 <= i < |ps| && ps[i].0 == key
  }

  lemma HasKeyOfSum(a: seq<Pair>, b: seq<Pair>, key: Bytes)
    ensures HasKey(a + b, key) <==> HasKey(a, key) || HasKey(b, key)
  {
    if i :| 0 <= i < |a| && a[i].0 == key {
      assert (a + b)[i].0 == key;
    }
    if i :| 0 <= i < |b| && b[i].0 == key {
      assert (a + b)[|a| + i].0 == key;
    }
  }

  /** A segment that a `?` glues to `text` has a key out of `text`, or one with that `?` in it. */
  lemma GluedSegment(text: Bytes, encoded: Bytes, key: Bytes)
    requires AMPERSAND !in text && EQUALS !in encoded
    requires QUESTION !in key && |key| > |text|
    ensures ParsePair(text + [QUESTION] + encoded + [EQUALS]).0 != key
  {
    var segment := text + [QUESTION] + encoded + [EQUALS];
    if EQUALS in text {
      SplitOff(text, EQUALS);
      var name, rest := Before(text, EQUALS), After(text, EQUALS);
      assert segment == name + [EQUALS] + (rest + [QUESTION] + encoded + [EQUALS]);
      SplitAt(name, EQUALS, rest + [QUESTION] + encoded + [EQUALS]);
      DecodeShortens(name);
    } else {
      var name := text + [QUESTION] + encoded;
      assert segment == name + [EQUALS] + [];
      SplitAt(name, EQUALS, []);
      assert name[|text|] == QUESTION;
      DecodeKeepsQuestionMark(name);
    }
  }

  lemma ShortSegment(segment: Bytes, key: Bytes)
    requires |key| > |segment|
    ensures !HasKey(ParseSegment(segment), key)
  {
    DecodeShortens(Before(segment, EQUALS));
  }

  /** A long key without `?` cannot survive behind a `?`. */
  lemma {:induction false} KeyIsGone(text: Bytes, encoded: Bytes, key: Bytes)
    requires EQUALS !in encoded && AMPERSAND !in encoded
    requires QUESTION !in key && |key| > |text|
    ensures !HasKey(Parse(text + [QUESTION] + encoded + [EQUALS]), key)
    decreases |text|
  {
    var whole := text + [QUESTION] + encoded + [EQUALS];
    if AMPERSAND in text {
      SplitOff(text, AMPERSAND);
      var first, rest := Before(text, AMPERSAND), After(text, AMPERSAND);
      var tail := rest + [QUESTION] + encoded + [EQUALS];
      assert whole == first + [AMPERSAND] + tail;
      ParseFirst(first, tail);
      ShortSegment(first, key);
      KeyIsGone(rest, encoded, key);
      HasKeyOfSum(ParseSegment(first), Parse(tail), key);
    } else {
      ParseOnly(whole);
      GluedSegment(text, encoded, key);
    }
  }

  // ---- Fresh keys, and an order that lists one first ----

  function Letters(n: nat): Bytes {
    seq(n, _ => 97)
  }

  lemma ListsMore(key: Bytes, m: map<Bytes, Bytes>, rest: seq<Pair>)
    requires key in m && Lists(rest, m - {key})
    ensures Lists([(key, m[key])] + rest, m)
  {
    var ps := [(key, m[key])] + rest;
    forall k <- m ensures exists i :: 0 <= i < |ps| && ps[i].0 == k {
      if k == key {
        assert ps[0].0 == k;
      } else {
        assert k in m - {key};
        var i :| 0 <= i < |rest| && rest[i].0 == k;
        assert ps[i + 1].0 == k;
      }
    }
  }

  /** A listing of a map in some order. */
  ghost function Listing(m: map<Bytes, Bytes>): seq<Pair>
    decreases |m|
  {
    if m == map[] then []
    else
      var key :| key in m;
      assert (m - {key}).Keys == m.Keys - {key};
      [(key, m[key])] + Listing(m - {key})
  }

  lemma {:induction false} ListingLists(m: map<Bytes, Bytes>)
    ensures Lists(Listing(m), m)
    decreases |m|
  {
    if m != map[] {
      var key :| key in m && Listing(m) == [(key, m[key])] + Listing(m - {key});
      assert (m - {key}).Keys == m.Keys - {key};
      ListingLists(m - {key});
      ListsMore(key, m, Listing(m - {key}));
    }
  }

  /** An order that lists `key` first whenever the map has it. */
  ghost function ListFirst(key: Bytes): HashOrder {
    (seed: nat, m: map<Bytes, Bytes>) => if key in m then [(key, m[key])] + Listing(m - {key}) else Listing(m)
  }

  lemma ListFirstIsFair(key: Bytes)
    ensures Fair(ListFirst(key))
  {
    forall seed: nat, m: map<Bytes, Bytes> ensures Lists(ListFirst(key)(seed, m), m) {
      if key in m {
        ListingLists(m - {key});
        ListsMore(key, m, Listing(m - {key}));
      } else {
        ListingLists(m);
      }
    }
  }

  // ---- A request that does not repeat ----

  /** The pairs listed behind a key stay, the key itself does not. */
  lemma PushedPairs(tail: Bytes, key: Bytes, rest: seq<Pair>)
    requires QUESTION !in key && |key| > |tail| && !HasKey(rest, key)
    ensures !HasKey(Parse(tail + [QUESTION] + Serialize([(key, [])] + rest)), key)
  {
    var encoded := Encode(key);
    EncodeIsClean(key);
    var glued := tail + [QUESTION] + encoded + [EQUALS];
    KeyIsGone(tail, encoded, key);
    SerializedFirst(key, rest);
    Glued(tail, encoded, Serialize(rest));
    if rest != [] {
      ParseJoined(glued, Serialize(rest));
      RoundTrip(rest);
      HasKeyOfSum(Parse(glued), rest, key);
    }
  }

  lemma Glued(tail: Bytes, encoded: Bytes, more: Bytes)
    ensures tail + [QUESTION] + (encoded + [EQUALS]) == tail + [QUESTION] + encoded + [EQUALS]
    ensures tail + [QUESTION] + (encoded + [EQUALS] + [AMPERSAND] + more)
            == (tail + [QUESTION] + encoded + [EQUALS]) + [AMPERSAND] + more
  {
  }

  lemma SerializedFirst(key: Bytes, rest: seq<Pair>)
    ensures Serialize([(key, [])] + rest) ==
            if rest == [] then Encode(key) + [EQUALS] else Encode(key) + [EQUALS] + [AMPERSAND] + Serialize(rest)
  {
    assert SerializePair((key, [])) == Encode(key) + [EQUALS];
    assert ([(key, [])] + rest)[1..] == rest;
  }

  /** Pushed behind `?` and listed first, the key is missing from the query of the second application. */
  lemma PushedKeyIsLost(tail: Bytes, key: Bytes, rest: seq<Pair>, qs: map<Bytes, Bytes>)
    requires QUESTION !in key && |key| > |tail| && key !in qs && !HasKey(rest, key)
    ensures key !in LastWins(Parse(tail + [QUESTION] + Serialize([(key, [])] + rest))) + qs
  {
    PushedPairs(tail, key, rest);
    LastWinsIsLast(Parse(tail + [QUESTION] + Serialize([(key, [])] + rest)), key);
  }

  lemma {:induction false} LastWinsOfMore(ps: seq<Pair>, p: Pair)
    ensures LastWins(ps + [p]) == LastWins(ps)[p.0 := p.1]
  {
    assert (ps + [p])[..|ps|] == ps;
  }

  /** The first application keeps a key that a request brings along behind an `&`. */
  lemma BroughtKeyIsKept(tail: Bytes, key: Bytes, qs: map<Bytes, Bytes>)
    requires key !in qs
    ensures var merged := LastWins(Parse(tail + [QUESTION] + ([AMPERSAND] + Serialize([(key, [])])))) + qs;
            key in merged && merged[key] == []
  {
    var brought: seq<Pair> := [(key, [])];
    var before := tail + [QUESTION];
    assert before + ([AMPERSAND] + Serialize(brought)) == before + [AMPERSAND] + Serialize(brought);
    ParseJoined(before, Serialize(brought));
    RoundTrip(brought);
    LastWinsOfMore(Parse(before), (key, []));
  }

  /** The pairs after one application to a query that the path pushes behind its own. */
  function Round(tail: Bytes, query: Bytes, qs: map<Bytes, Bytes>): map<Bytes, Bytes> {
    LastWins(Parse(tail + [QUESTION] + query)) + qs
  }

  /** A rule with a path that brings its own query, and with an overlay. */
  predicate Pushes(actions: Actions, path: Bytes, qs: map<Bytes, Bytes>) {
    && Acceptable(path) && !Repeatable(path)
    && actions.Path() == Some(path) && actions.Overlay() == Some(qs) && actions.MoreQueries().GetOr([]) == []
  }

  /** One application of such a rule. */
  lemma PushedRound(uri: Uri, path: Bytes, qs: map<Bytes, Bytes>, query: Bytes, actions: Actions, order: HashOrder, seed: nat)
    requires Pushes(actions, path, qs)
    requires Settled(uri) && uri.pathAndQuery.query == Some(query)
    ensures var listing := order(seed, Round(OwnQuery(path).GetOr([]), query, qs));
            var r := UriAfter(uri, actions, order, seed);
            && r.Ok? && Settled(r.value) && Parse(r.value.pathAndQuery.Query()) == listing
            && r.value.pathAndQuery.query == (if listing == [] then None else Some(Serialize(listing)))
            && (r.value.scheme, r.value.authority) == (uri.scheme, uri.authority)
            && r.value.pathAndQuery.raw == Target(NewPath(path))
  {
    QuestionIsOwn(path);
    ReplacePathTotal(uri, path);
    OverlayDecoded(ReplacePath(uri, Some(path)).value, qs, order, seed);
  }

  lemma PairsDiffer(a: seq<Pair>, b: seq<Pair>, p: Pair)
    requires a != [] && a[0] == p && !HasKey(b, p.0)
    ensures multiset(a) != multiset(b)
  {
    assert p in multiset(a);
    assert p !in multiset(b);
  }

  lemma UnlistedKey(order: HashOrder, seed: nat, m: map<Bytes, Bytes>, key: Bytes)
    requires Fair(order) && key !in m
    ensures !HasKey(order(seed, m), key)
  {
    assert Lists(order(seed, m), m);
  }

  /** The first application lists the key that the request brings along. */
  lemma FirstListing(tail: Bytes, key: Bytes, qs: map<Bytes, Bytes>) returns (rest: seq<Pair>)
    requires key !in qs
    ensures var query := [AMPERSAND] + Serialize([(key, [])]);
            ListFirst(key)(0, Round(tail, query, qs)) == [(key, [])] + rest
    ensures !HasKey(rest, key)
  {
    var merged := Round(tail, [AMPERSAND] + Serialize([(key, [])]), qs);
    BroughtKeyIsKept(tail, key, qs);
    ListingLists(merged - {key});
    rest := Listing(merged - {key});
  }

  /** A request that brings along a key which the first application keeps and the second one loses. */
  lemma SecondApplicationDiffers(uri: Uri, path: Bytes, qs: map<Bytes, Bytes>, key: Bytes, actions: Actions)
    requires Pushes(actions, path, qs)
    requires QUESTION !in key && |key| > |OwnQuery(path).GetOr([])| && key !in qs
    requires Settled(uri) && uri.pathAndQuery.query == Some([AMPERSAND] + Serialize([(key, [])]))
    ensures !Repeats(uri, actions, ListFirst(key), 0, 0)
  {
    var order, tail := ListFirst(key), OwnQuery(path).GetOr([]);
    var rest := FirstListing(tail, key, qs);
    var listing := [(key, [])] + rest;
    PushedRound(uri, path, qs, uri.pathAndQuery.query.value, actions, order, 0);
    PushedRound(UriAfter(uri, actions, order, 0).value, path, qs, Serialize(listing), actions, order, 0);
    PushedKeyIsLost(tail, key, rest, qs);
    ListFirstIsFair(key);
    UnlistedKey(order, 0, Round(tail, Serialize(listing), qs), key);
    PairsDiffer(listing, order(0, Round(tail, Serialize(listing), qs)), (key, []));
  }

  lemma SomeRequestDiffers(actions: Actions) returns (uri: Uri, order: HashOrder)
    requires actions.Overlay().Some? && actions.MoreQueries().GetOr([]) == []
    requires !RepeatablePath(actions) && Acceptable(actions.Path().value)
    ensures Settled(uri) && Fair(order) && !Repeats(uri, actions, order, 0, 0)
  {
    var path, qs := actions.Path().value, actions.Overlay().value;
    var n := LongerThanAll(qs.Keys);
    var key := Letters(n + |OwnQuery(path).GetOr([])| + 1);
    var brought: seq<Pair> := [(key, [])];
    FormTextIsQueryText(brought);
    uri := Uri(None, None, PathAndQuery([SLASH], Some([AMPERSAND] + Serialize(brought))));
    order := ListFirst(key);
    ListFirstIsFair(key);
    SecondApplicationDiffers(uri, path, qs, key, actions);
  }

  /**
   With an overlay, a rule repeats on all requests under all hash orders if and only if its path has a `#` or
   no `?`, or is one that is refused anyway.
   */
  lemma OverlayRepeatsIff(actions: Actions)
    requires actions.Overlay().Some? && actions.MoreQueries().GetOr([]) == []
    ensures AlwaysRepeats(actions) <==>
            RepeatablePath(actions) || (actions.Path().Some? && !Acceptable(actions.Path().value))
  {
    if RepeatablePath(actions) {
      forall uri, order, seed: nat, seed': nat | Settled(uri) && Fair(order)
        ensures Repeats(uri, actions, order, seed, seed')
      {
        if UriAfter(uri, actions, order, seed).Ok? {
          UriStable(uri, actions, order, seed, seed');
        }
      }
    } else if !Acceptable(actions.Path().value) {
      forall uri, order, seed: nat, seed': nat | Settled(uri) && Fair(order)
        ensures Repeats(uri, actions, order, seed, seed')
      {
        ReplacePathTotal(uri, actions.Path().value);
      }
    } else {
      var uri, order := SomeRequestDiffers(actions);
      assert !Repeats(uri, actions, order, 0, 0);
    }
  }

  // ---- Whole requests ----

  /** Applying the rule a second time, if the first time succeeds, changes at most the order of query pairs. */
  ghost predicate RequestRepeats(m: RequestMessage, actions: Actions, codec: JsonCodec, order: HashOrder, seed: nat, seed': nat) {
    RequestAfter(m, actions, codec, order, seed).Ok? ==>
      var once := RequestAfter(m, actions, codec, order, seed).value;
      var twice := RequestAfter(once, actions, codec, order, seed');
      twice.Ok? && twice.value.(uri := once.uri) == once && SameUpToOrder(twice.value.uri, once.uri)
  }

  ghost predicate RuleAlwaysRepeats(actions: Actions, codec: JsonCodec) {
    forall m: RequestMessage, order, seed, seed' | Settled(m.uri) && Fair(order) ::
      RequestRepeats(m, actions, codec, order, seed, seed')
  }

  /** Rules that fail on every request: the path is refused, or the configured body is no JSON for the patch. */
  predicate AlwaysFails(actions: Actions, codec: JsonCodec) {
    || (actions.Path().Some? && !Acceptable(actions.Path().value))
    || (actions.BodyPatch().Some? && actions.NewBody().Some? && codec.ReadJson(FullBody(actions.NewBody().value)).Err?)
  }

  lemma FailsAlways(m: RequestMessage, actions: Actions, codec: JsonCodec, order: HashOrder, seed: nat)
    requires Settled(m.uri) && AlwaysFails(actions, codec)
    ensures RequestAfter(m, actions, codec, order, seed).Err?
  {
    if actions.Path().Some? {
      ReplacePathTotal(m.uri, actions.Path().value);
    }
  }

  /** A URI on which a rule does not repeat makes a whole request of that kind. */
  lemma RequestDiffers(uri: Uri, actions: Actions, codec: JsonCodec, order: HashOrder) returns (m: RequestMessage)
    requires OnlySets(actions) && codec.RoundTrips() && !AlwaysFails(actions, codec)
    requires !Repeats(uri, actions, order, 0, 0)
    ensures m.uri == uri && !RequestRepeats(m, actions, codec, order, 0, 0)
  {
    m := RequestMessage(uri, [], map[], FullBody(codec.render(Null)));
    ReadRendered(codec, Null);
  }

  /**
   A rule with an overlay is idempotent on all requests, under all hash orders and up to query order, if and only
   if its path has a `#` or no `?`, or it fails on every request.
   */
  lemma OverlayRuleRepeatsIff(actions: Actions, codec: JsonCodec)
    requires OnlySets(actions) && actions.Overlay().Some? && codec.RoundTrips()
    ensures RuleAlwaysRepeats(actions, codec) <==> RepeatablePath(actions) || AlwaysFails(actions, codec)
  {
    if AlwaysFails(actions, codec) {
      forall m: RequestMessage, order, seed: nat, seed': nat | Settled(m.uri) && Fair(order)
        ensures RequestRepeats(m, actions, codec, order, seed, seed')
      {
        FailsAlways(m, actions, codec, order, seed);
      }
    } else if RepeatablePath(actions) {
      forall m: RequestMessage, order, seed: nat, seed': nat | Settled(m.uri) && Fair(order)
        ensures RequestRepeats(m, actions, codec, order, seed, seed')
      {
        if RequestAfter(m, actions, codec, order, seed).Ok? {
          RequestRuleIdempotent(m, actions, codec, order, seed, seed');
        }
      }
    } else {
      var uri, order := SomeRequestDiffers(actions);
      var m := RequestDiffers(uri, actions, codec, order);
      assert !RequestRepeats(m, actions, codec, order, 0, 0);
    }
  }

  // ---- A request that does repeat ----

  lemma AllOverlaid(ps: seq<Pair>, qs: map<Bytes, Bytes>)
    requires forall p <- ps :: p.0 in qs
    ensures LastWins(ps) + qs == qs
  {
    forall key <- LastWins(ps) ensures key in qs {
      LastWinsIsLast(ps, key);
    }
  }

  /** A single segment with an `=` keeps its key when something is glued to it. */
  lemma GluedKey(text: Bytes, more: Bytes)
    requires EQUALS in text
    ensures ParsePair(text + more).0 == ParsePair(text).0
  {
    SplitOff(text, EQUALS);
    var name, rest := Before(text, EQUALS), After(text, EQUALS);
    assert text + more == name + [EQUALS] + (rest + more);
    SplitAt(name, EQUALS, rest + more);
  }

  lemma Joined3(a: Bytes, b: Bytes, c: Bytes)
    ensures a + [QUESTION] + (b + [AMPERSAND] + c) == a + ([QUESTION] + b) + [AMPERSAND] + c
    ensures a + [QUESTION] + b == a + ([QUESTION] + b)
  {
  }

  /** A serialized list glued to one segment: only its first pair is spoilt. */
  lemma GluedPairs(text: Bytes, listing: seq<Pair>)
    requires AMPERSAND !in text && listing != []
    ensures Parse(text + [QUESTION] + Serialize(listing)) ==
            [ParsePair(text + ([QUESTION] + SerializePair(listing[0])))] + listing[1..]
  {
    var first, rest := SerializePair(listing[0]), listing[1..];
    var glued := text + ([QUESTION] + first);
    ParseSerializedPair(listing[0]);
    ParseOnly(glued);
    Joined3(text, first, Serialize(rest));
    if rest != [] {
      ParseJoined(glued, Serialize(rest));
      RoundTrip(rest);
    }
  }

  /** If one segment makes up the path's own query and its key is overlaid, only overlaid pairs are left. */
  lemma OnlyOverlaidLeft(text: Bytes, qs: map<Bytes, Bytes>, order: HashOrder, seed: nat)
    requires Fair(order) && AMPERSAND !in text && EQUALS in text && ParsePair(text).0 in qs
    ensures LastWins(Parse(text)) + qs == qs
    ensures order(seed, qs) != [] && Round(text, Serialize(order(seed, qs)), qs) == qs
  {
    ParseOnly(text);
    AllOverlaid(Parse(text), qs);
    var listing := order(seed, qs);
    assert Lists(listing, qs);
    GluedPairs(text, listing);
    GluedKey(text, [QUESTION] + SerializePair(listing[0]));
    AllOverlaid(Parse(text + [QUESTION] + Serialize(listing)), qs);
  }

  lemma FirstRound(uri: Uri, path: Bytes, qs: map<Bytes, Bytes>, actions: Actions, order: HashOrder, seed: nat)
    requires Pushes(actions, path, qs)
    requires Settled(uri) && uri.pathAndQuery.query == None
    ensures var listing := order(seed, LastWins(Parse(OwnQuery(path).GetOr([]))) + qs);
            var r := UriAfter(uri, actions, order, seed);
            && r.Ok? && Settled(r.value) && Parse(r.value.pathAndQuery.Query()) == listing
            && r.value.pathAndQuery.query == (if listing == [] then None else Some(Serialize(listing)))
            && (r.value.scheme, r.value.authority) == (uri.scheme, uri.authority)
            && r.value.pathAndQuery.raw == Target(NewPath(path))
  {
    QuestionIsOwn(path);
    ReplacePathTotal(uri, path);
    OverlayDecoded(ReplacePath(uri, Some(path)).value, qs, order, seed);
  }

  /**
   An overlay can hide the damage: if the path's own query is one segment with an `=` whose key is overlaid
   and the request has no query, the second application gives the same pairs. `/a?k=1` with an overlay of `k`
   is such a rule.
   */
  lemma OverlayCanHide(uri: Uri, path: Bytes, qs: map<Bytes, Bytes>, actions: Actions, order: HashOrder, seed: nat, seed': nat)
    requires Fair(order) && Pushes(actions, path, qs)
    requires Settled(uri) && uri.pathAndQuery.query == None
    requires var own := OwnQuery(path).GetOr([]); AMPERSAND !in own && EQUALS in own && ParsePair(own).0 in qs
    ensures Repeats(uri, actions, order, seed, seed')
  {
    var own := OwnQuery(path).GetOr([]);
    OnlyOverlaidLeft(own, qs, order, seed);
    FirstRound(uri, path, qs, actions, order, seed);
    var once := UriAfter(uri, actions, order, seed).value;
    var query := Serialize(order(seed, qs));
    PushedRound(once, path, qs, query, actions, order, seed');
    assert Lists(order(seed, qs), qs) && Lists(order(seed', qs), qs);
    ListingsPermute(order(seed, qs), order(seed', qs), qs);
  }
}
