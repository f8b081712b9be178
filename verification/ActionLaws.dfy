/** What one rule promises: the decoded query, idempotence, Content-Length, and agreement of both directions. */
module ActionLaws {
  import opened Wrappers
  import opened Bytes
  import opened FormCodec
  import opened Uris
  import opened UriLaws
  import opened Json
  import opened Headers
  import opened Action

  /** The query a rule's own pairs are laid over: the old one, as far as the configured path leaves it. */
  function MovedQuery(uri: Uri, actions: Actions): Option<Bytes> {
    match actions.Path()
    case None => uri.pathAndQuery.query
    case Some(path) => NewQuery(path, uri.pathAndQuery.query)
  }

  function MovedPath(uri: Uri, actions: Actions): Bytes {
    match actions.Path()
    case None => uri.pathAndQuery.raw
    case Some(path) => NewPath(path)
  }

  /** The pairs a rule leaves before its own appended pairs. */
  function KeptPairs(uri: Uri, actions: Actions, order: HashOrder, seed: nat): seq<Pair> {
    var moved := Parse(MovedQuery(uri, actions).GetOr([]));
    match actions.Overlay()
    case None => moved
    case Some(qs) => order(seed, LastWins(moved) + qs)
  }

  lemma MovedUri(uri: Uri, actions: Actions)
    requires Settled(uri) && ReplacePath(uri, actions.Path()).Ok?
    ensures var moved := ReplacePath(uri, actions.Path()).value;
            && moved == uri.(pathAndQuery := PathAndQuery(MovedPath(uri, actions), MovedQuery(uri, actions)))
            && Joins(moved)
  {
    if actions.Path().Some? {
      ReplacePathTotal(uri, actions.Path().value);
    }
  }

  /** Path and overlay together: both survive, and the query decodes to the kept pairs. */
  lemma ReplacedUri(uri: Uri, actions: Actions, order: HashOrder, seed: nat)
    requires Settled(uri) && ReplacePath(uri, actions.Path()).Ok?
    ensures var moved := ReplacePath(uri, actions.Path()).value;
            var r := ReplaceQueries(moved, actions.Overlay(), order, seed);
            && r.Ok? && Joins(r.value)
            && r.value.pathAndQuery.raw == PathAfter(uri, actions, [])
            && (r.value.scheme, r.value.authority) == (uri.scheme, uri.authority)
            && Parse(r.value.pathAndQuery.Query()) == KeptPairs(uri, actions, order, seed)
  {
    MovedUri(uri, actions);
    var moved := ReplacePath(uri, actions.Path()).value;
    if actions.Overlay().Some? {
      OverlayDecoded(moved, actions.Overlay().value, order, seed);
    }
  }

  /**
   The path after a rule: the configured or the old one. An overlay puts a slash in the place of no path, and
   appending pairs puts one in front of a path that has none.
   */
  function PathAfter(uri: Uri, actions: Actions, pairs: seq<Pair>): Bytes {
    var moved := MovedPath(uri, actions);
    var raw := if moved == [] && actions.Overlay().Some? then [SLASH] else moved;
    if pairs == [] then raw else Slashed(raw)
  }

  /** Path and appended pairs together, before and after the query is looked at. */
  lemma AppendedUri(uri: Uri, actions: Actions, pairs: seq<Pair>, order: HashOrder, seed: nat)
    requires Settled(uri)
    requires actions.MoreQueries().GetOr([]) == Serialize(pairs)
    requires UriAfter(uri, actions, order, seed).Ok?
    ensures var r := UriAfter(uri, actions, order, seed).value;
            && Parse(r.pathAndQuery.Query()) == KeptPairs(uri, actions, order, seed) + pairs
            && (r.scheme, r.authority) == (uri.scheme, uri.authority)
            && r.pathAndQuery.raw == PathAfter(uri, actions, pairs)
  {
    ReplacedUri(uri, actions, order, seed);
    var moved := ReplacePath(uri, actions.Path()).value;
    var replaced := ReplaceQueries(moved, actions.Overlay(), order, seed).value;
    SerializedText(pairs);
    AppendDecoded(replaced, pairs);
  }

  /** Rewriting the URI fails exactly if a path with a bad byte is configured. */
  lemma RewriteSucceedsIff(uri: Uri, actions: Actions, pairs: seq<Pair>, order: HashOrder, seed: nat)
    requires Settled(uri)
    requires actions.MoreQueries().GetOr([]) == Serialize(pairs)
    ensures UriAfter(uri, actions, order, seed).Ok? <==> (actions.Path().Some? ==> Acceptable(actions.Path().value))
  {
    if actions.Path().Some? {
      ReplacePathTotal(uri, actions.Path().value);
    }
    if ReplacePath(uri, actions.Path()).Ok? {
      ReplacedUri(uri, actions, order, seed);
      SerializedText(pairs);
      var moved := ReplacePath(uri, actions.Path()).value;
      AppendDecoded(ReplaceQueries(moved, actions.Overlay(), order, seed).value, pairs);
    }
  }

  /**
   What a rule with this path, this overlay and these appended pairs makes of a URI. The query decodes to what
   the path leaves of the old one, or a duplicate-free listing of the last-wins map of that overlaid by the
   configured map, followed by exactly the pairs. The path is the configured or the old one; scheme and authority stay.
   */
  ghost predicate RewritesTo(prior: Uri, path: Option<Bytes>, overlay: Option<map<Bytes, Bytes>>, pairs: seq<Pair>, uri: Uri) {
    var query := if path.Some? then NewQuery(path.value, prior.pathAndQuery.query) else prior.pathAndQuery.query;
    var raw := if path.Some? then NewPath(path.value) else prior.pathAndQuery.raw;
    var put := if raw == [] && overlay.Some? then [SLASH] else raw;
    && (uri.scheme, uri.authority) == (prior.scheme, prior.authority)
    && uri.pathAndQuery.raw == (if pairs == [] then put else Slashed(put))
    && exists kept ::
         && Parse(uri.pathAndQuery.Query()) == kept + pairs
         && if overlay.Some? then Lists(kept, LastWins(Parse(query.GetOr([]))) + overlay.value) else kept == Parse(query.GetOr([]))
  }

  /** The text the rule's patch appends is the serialized form of these pairs. */
  predicate AppendsPairs(actions: Actions, pairs: seq<Pair>) {
    (if actions.patch.Some? then actions.patch.value.queries.GetOr([]) else []) == Serialize(pairs)
  }

  lemma UriRewritten(uri: Uri, actions: Actions, pairs: seq<Pair>, order: HashOrder, seed: nat)
    requires Settled(uri) && Fair(order) && AppendsPairs(actions, pairs)
    requires UriAfter(uri, actions, order, seed).Ok?
    ensures RewritesTo(uri, actions.Path(), actions.Overlay(), pairs, UriAfter(uri, actions, order, seed).value)
  {
    AppendedUri(uri, actions, pairs, order, seed);
    var kept := KeptPairs(uri, actions, order, seed);
    var moved := Parse(MovedQuery(uri, actions).GetOr([]));
    if actions.Overlay().Some? {
      assert Lists(order(seed, LastWins(moved) + actions.Overlay().value), LastWins(moved) + actions.Overlay().value);
    }
    assert Parse(UriAfter(uri, actions, order, seed).value.pathAndQuery.Query()) == kept + pairs;
  }

  /** The URI end to end, for every rule, read off its fields. */
  lemma QueryPipeline(m: RequestMessage, actions: Actions, pairs: seq<Pair>, codec: JsonCodec, order: HashOrder, seed: nat)
    requires Settled(m.uri) && Fair(order) && AppendsPairs(actions, pairs)
    requires RequestAfter(m, actions, codec, order, seed).Ok?
    ensures RewritesTo(m.uri,
                       if actions.replace.Some? then actions.replace.value.path else None,
                       if actions.replace.Some? then actions.replace.value.queries else None,
                       pairs, RequestAfter(m, actions, codec, order, seed).value.uri)
  {
    UriRewritten(m.uri, actions, pairs, order, seed);
  }

  /** The plain case: nothing but the overlay and the patch pairs touches the old query. */
  lemma PlainQueryPipeline(m: RequestMessage, actions: Actions, pairs: seq<Pair>, codec: JsonCodec, order: HashOrder, seed: nat)
    requires Settled(m.uri) && Fair(order) && AppendsPairs(actions, pairs)
    requires var path := if actions.replace.Some? then actions.replace.value.path else None;
             path.Some? ==> Plain(path.value)
    requires RequestAfter(m, actions, codec, order, seed).Ok?
    ensures var path := if actions.replace.Some? then actions.replace.value.path else None;
            var overlay := if actions.replace.Some? then actions.replace.value.queries else None;
            var uri := RequestAfter(m, actions, codec, order, seed).value.uri;
            var prior := Parse(m.uri.pathAndQuery.Query());
            && (overlay.None? ==> Parse(uri.pathAndQuery.Query()) == prior + pairs)
            && (overlay.Some? ==>
                  exists listing :: Lists(listing, LastWins(prior) + overlay.value)
                                    && Parse(uri.pathAndQuery.Query()) == listing + pairs)
            && uri.pathAndQuery.raw ==
               var raw := if path.Some? then Target(path.value) else m.uri.pathAndQuery.raw;
               if pairs == [] then raw else Slashed(raw)
  {
    QueryPipeline(m, actions, pairs, codec, order, seed);
    if actions.Path().Some? {
      PlainParts(actions.Path().value);
      QuestionIsOwn(actions.Path().value);
    }
  }

  // ---- Idempotence ----

  /** A rule that only sets things: no abort, no appended queries, no appended headers. */
  predicate OnlySets(actions: Actions) {
    !actions.abort && actions.MoreQueries().GetOr([]) == [] && actions.MoreHeaders() == map[]
  }

  lemma HeadersStable(prior: HeaderMap, actions: Actions)
    requires actions.MoreHeaders() == map[]
    ensures HeadersAfter(HeadersAfter(prior, actions), actions) == HeadersAfter(prior, actions)
  {
    var replaced, patched := actions.NewBody().Some?, actions.BodyPatch().Some?;
    var once := Fixed(prior, actions.NewHeaders(), CONTENT_LENGTH, replaced, patched);
    FixedTwice(prior, actions.NewHeaders(), CONTENT_LENGTH, replaced, patched);
    NothingConfigured(once);
  }

  lemma ReadRendered(codec: JsonCodec, v: Json)
    requires codec.RoundTrips()
    ensures codec.ReadJson(FullBody(codec.render(v))) == Ok(v)
  {
    var text := codec.render(v);
    assert codec.parse(text) == Some(v);
    assert Concat(FullBody(text).chunks) == text by {
      if text != [] {
        var chunks: seq<Bytes> := [text];
        assert chunks[..0] == [];
        assert Concat(chunks) == Concat([]) + text;
      }
    }
  }

  /** A body patch leaves the JSON of the configured body, or else of the old one, merged with the patch. */
  lemma PatchedBody(body: Body, actions: Actions, codec: JsonCodec)
    requires codec.RoundTrips() && actions.BodyPatch().Some?
    ensures var doc := if actions.NewBody().Some? then codec.ReadJson(FullBody(actions.NewBody().value)) else codec.ReadJson(body);
            var r := BodyAfter(body, actions, codec);
            && (r.Ok? <==> doc.Ok?)
            && (r.Ok? ==> codec.ReadJson(r.value) == Ok(Merge(doc.value, actions.BodyPatch().value)))
  {
    var doc := if actions.NewBody().Some? then codec.ReadJson(FullBody(actions.NewBody().value)) else codec.ReadJson(body);
    if doc.Ok? {
      ReadRendered(codec, Merge(doc.value, actions.BodyPatch().value));
    }
  }

  lemma BodyStable(body: Body, actions: Actions, codec: JsonCodec)
    requires codec.RoundTrips()
    requires BodyAfter(body, actions, codec).Ok?
    ensures BodyAfter(BodyAfter(body, actions, codec).value, actions, codec) == BodyAfter(body, actions, codec)
  {
    if actions.BodyPatch().Some? && actions.NewBody().None? {
      var doc := codec.ReadJson(body).value;
      ReadRendered(codec, Merge(doc, actions.BodyPatch().value));
      MergeIdempotent(doc, actions.BodyPatch().value);
    }
  }

  /** The path the rule configures, if any, is one that leaves nothing to a second application. */
  predicate RepeatablePath(actions: Actions) {
    actions.Path().Some? ==> Repeatable(actions.Path().value)
  }

  /** Two URIs that differ at most in the order of their query pairs. */
  predicate SameUpToOrder(a: Uri, b: Uri) {
    && (a.scheme, a.authority, a.pathAndQuery.raw) == (b.scheme, b.authority, b.pathAndQuery.raw)
    && multiset(Parse(a.pathAndQuery.Query())) == multiset(Parse(b.pathAndQuery.Query()))
  }

  /** Setting the same path again, after an overlay or not: the overlay starts from the same URI or from its own result. */
  lemma MovedAgain(uri: Uri, path: Bytes, once: Uri)
    requires Settled(uri) && Repeatable(path) && ReplacePath(uri, Some(path)).Ok?
    requires var moved := ReplacePath(uri, Some(path)).value;
             && Joins(once) && (once.scheme, once.authority) == (uri.scheme, uri.authority)
             && (once == moved || (Settled(once) && once.pathAndQuery.raw == moved.pathAndQuery.Path()))
    ensures ReplacePath(once, Some(path)) ==
            if HASH in path then ReplacePath(uri, Some(path)) else Ok(once)
  {
    ReplacePathTotal(uri, path);
    if once.HasPath() {
      ReplacePathTotal(once, path);
    }
    if HASH !in path {
      PlainParts(path);
    }
  }

  /** Overlays of URIs with equal paths that come to the same map differ at most in order. */
  lemma OverlaysAgree(a: Uri, b: Uri, qs: map<Bytes, Bytes>, order: HashOrder, seed: nat, seed': nat)
    requires Joins(a) && Joins(b) && Fair(order)
    requires (a.scheme, a.authority, a.pathAndQuery.Path()) == (b.scheme, b.authority, b.pathAndQuery.Path())
    requires Overlaid(a, qs) == Overlaid(b, qs)
    ensures var r, r' := ReplaceQueries(a, Some(qs), order, seed), ReplaceQueries(b, Some(qs), order, seed');
            r.Ok? && r'.Ok? && SameUpToOrder(r'.value, r.value)
  {
    OverlayDecoded(a, qs, order, seed);
    OverlayDecoded(b, qs, order, seed');
    var merged := Overlaid(a, qs);
    assert Lists(order(seed, merged), merged);
    assert Lists(order(seed', merged), merged);
    ListingsPermute(order(seed, merged), order(seed', merged), merged);
  }

  /** An overlay repeated on its result, or made anew, differs at most in order. */
  lemma OverlayAgain(moved: Uri, qs: map<Bytes, Bytes>, order: HashOrder, seed: nat, seed': nat)
    requires Joins(moved) && Fair(order)
    ensures ReplaceQueries(moved, Some(qs), order, seed).Ok?
    ensures var once := ReplaceQueries(moved, Some(qs), order, seed).value;
            var twice := ReplaceQueries(once, Some(qs), order, seed');
            var anew := ReplaceQueries(moved, Some(qs), order, seed');
            && Settled(once) && once.pathAndQuery.raw == moved.pathAndQuery.Path()
            && (once.scheme, once.authority) == (moved.scheme, moved.authority)
            && twice.Ok? && SameUpToOrder(twice.value, once)
            && anew.Ok? && SameUpToOrder(anew.value, once)
  {
    OverlayDecoded(moved, qs, order, seed);
    var once := ReplaceQueries(moved, Some(qs), order, seed).value;
    OverlaysAgree(moved, moved, qs, order, seed, seed');
    OverlayStable(moved, qs, order, seed);
    RepeatedOverlay(moved, once, qs, order, seed, seed');
  }

  lemma RepeatedOverlay(moved: Uri, once: Uri, qs: map<Bytes, Bytes>, order: HashOrder, seed: nat, seed': nat)
    requires Joins(moved) && Fair(order) && Settled(once)
    requires ReplaceQueries(moved, Some(qs), order, seed) == Ok(once)
    requires (once.scheme, once.authority, once.pathAndQuery.raw) == (moved.scheme, moved.authority, moved.pathAndQuery.Path())
    requires Overlaid(once, qs) == Overlaid(moved, qs)
    ensures var twice := ReplaceQueries(once, Some(qs), order, seed');
            twice.Ok? && SameUpToOrder(twice.value, once)
  {
    OverlaysAgree(moved, once, qs, order, seed, seed');
  }

  /** Path and overlay applied twice: the same URI up to the order of the listed query pairs. */
  lemma UriStable(uri: Uri, actions: Actions, order: HashOrder, seed: nat, seed': nat)
    requires Settled(uri) && RepeatablePath(actions) && Fair(order)
    requires actions.MoreQueries().GetOr([]) == []
    requires UriAfter(uri, actions, order, seed).Ok?
    ensures var once := UriAfter(uri, actions, order, seed).value;
            var twice := UriAfter(once, actions, order, seed');
            twice.Ok? && SameUpToOrder(twice.value, once) && (actions.Overlay().None? ==> twice.value == once)
  {
    var moved := ReplacePath(uri, actions.Path()).value;
    var once := UriAfter(uri, actions, order, seed).value;
    assert Joins(moved) by {
      if actions.Path().Some? {
        ReplacePathTotal(uri, actions.Path().value);
        MovedIsValid(uri, actions.Path().value);
      }
    }
    if actions.Overlay().Some? {
      OverlayAgain(moved, actions.Overlay().value, order, seed, seed');
    }
    if actions.Path().Some? {
      MovedAgain(uri, actions.Path().value, once);
    }
  }

  lemma MovedIsValid(uri: Uri, path: Bytes)
    requires Settled(uri) && ReplacePath(uri, Some(path)).Ok?
    ensures Joins(ReplacePath(uri, Some(path)).value)
    ensures (ReplacePath(uri, Some(path)).value.scheme, ReplacePath(uri, Some(path)).value.authority)
            == (uri.scheme, uri.authority)
  {
    ReplacePathTotal(uri, path);
  }

  /**
   A setting rule that succeeds once succeeds again and gives the same request up to query order, provided
   its path has a `#` or no `?`.
   */
  lemma RequestRuleIdempotent(m: RequestMessage, actions: Actions, codec: JsonCodec, order: HashOrder, seed: nat, seed': nat)
    requires Settled(m.uri) && RepeatablePath(actions) && OnlySets(actions)
    requires Fair(order) && codec.RoundTrips()
    requires RequestAfter(m, actions, codec, order, seed).Ok?
    ensures var once := RequestAfter(m, actions, codec, order, seed).value;
            var twice := RequestAfter(once, actions, codec, order, seed');
            && twice.Ok?
            && twice.value.(uri := once.uri) == once
            && SameUpToOrder(twice.value.uri, once.uri)
            && (actions.Overlay().None? ==> twice.value == once)
  {
    UriStable(m.uri, actions, order, seed, seed');
    HeadersStable(m.headers, actions);
    BodyStable(m.body, actions, codec);
  }

  /** Without an overlay that is exact: such a rule is idempotent if and only if its path has a `#` or no `?`. */
  lemma RequestRuleIdempotentIff(m: RequestMessage, actions: Actions, codec: JsonCodec, order: HashOrder, seed: nat, seed': nat)
    requires Settled(m.uri) && OnlySets(actions) && actions.Overlay().None?
    requires codec.RoundTrips()
    requires RequestAfter(m, actions, codec, order, seed).Ok?
    ensures var once := RequestAfter(m, actions, codec, order, seed);
            RequestAfter(once.value, actions, codec, order, seed') == once <==> RepeatablePath(actions)
  {
    HeadersStable(m.headers, actions);
    BodyStable(m.body, actions, codec);
    if actions.Path().Some? {
      ReplacePathIdempotentIff(m.uri, actions.Path().value);
    }
  }

  lemma ResponseRuleIdempotent(m: ResponseMessage, actions: Actions, codec: JsonCodec)
    requires OnlySets(actions) && codec.RoundTrips()
    requires ResponseAfter(m, actions, codec).Ok?
    ensures ResponseAfter(ResponseAfter(m, actions, codec).value, actions, codec) == ResponseAfter(m, actions, codec)
  {
    HeadersStable(m.headers, actions);
    BodyStable(m.body, actions, codec);
  }

  /**
   An input for the failing side: with the path `/a?b`, a request for `/x` becomes `/a?b` and then `/a?b?b`.
   */
  lemma QuestionMarkPathNotIdempotent(codec: JsonCodec, order: HashOrder)
    ensures var uri := Uri(None, None, PathAndQuery([SLASH, 120], None));
            var actions := Actions(false, None, Some(ReplaceAction(Some([SLASH, 97, QUESTION, 98]), None, None, None, None, None)), None);
            var once := UriAfter(uri, actions, order, 0);
            && uri.OriginForm() && OnlySets(actions)
            && once.Ok? && once.value.pathAndQuery == PathAndQuery([SLASH, 97], Some([98]))
            && var twice := UriAfter(once.value, actions, order, 0);
               twice.Ok? && twice.value.pathAndQuery == PathAndQuery([SLASH, 97], Some([98, QUESTION, 98]))
  {
    var path: Bytes := [SLASH, 97, QUESTION, 98];
    ParseWithQuery([SLASH, 97], [98]);
    assert path == [SLASH, 97] + [QUESTION] + [98];
    ParseWithQuery([SLASH, 97], [98, QUESTION, 98]);
    assert path + [QUESTION] + [98] == [SLASH, 97] + [QUESTION] + [98, QUESTION, 98];
  }

  // ---- What one rule sets, read off its fields ----

  lemma FullBodyContents(contents: Bytes)
    ensures Concat(FullBody(contents).chunks) == contents && !FullBody(contents).broken
  {
    if contents != [] {
      var chunks: seq<Bytes> := [contents];
      assert chunks[..0] == [];
      assert Concat(chunks) == Concat([]) + contents;
    }
  }

  /** The rule's replace half gives a body. */
  predicate ReplacesBody(actions: Actions, contents: Bytes) {
    actions.replace.Some? && actions.replace.value.body == Some(contents)
  }

  predicate KeepsBody(actions: Actions) {
    actions.replace.Some? ==> actions.replace.value.body.None?
  }

  predicate PatchesBody(actions: Actions, p: Json) {
    actions.patch.Some? && actions.patch.value.body == Some(p)
  }

  predicate PatchesNoBody(actions: Actions) {
    actions.patch.Some? ==> actions.patch.value.body.None?
  }

  /** What a body holds: its bytes, and whether they break off. */
  predicate Holds(body: Body, contents: Bytes) {
    Concat(body.chunks) == contents && !body.broken
  }

  /** The new body from the old one: replaced, then patched as JSON. */
  ghost predicate NewBodyFor(actions: Actions, codec: JsonCodec, before: Body, after: Body) {
    && (forall contents :: ReplacesBody(actions, contents) && PatchesNoBody(actions) ==> Holds(after, contents))
    && (KeepsBody(actions) && PatchesNoBody(actions) ==> after == before)
    && (forall p :: PatchesBody(actions, p) ==>
          exists doc, text ::
            && (forall contents :: ReplacesBody(actions, contents) ==> codec.parse(contents) == Some(doc))
            && (KeepsBody(actions) ==> !before.broken && codec.parse(Concat(before.chunks)) == Some(doc))
            && Holds(after, text) && codec.parse(text) == Some(Merge(doc, p)))
  }

  lemma BodyAfterRule(body: Body, actions: Actions, codec: JsonCodec)
    requires codec.RoundTrips() && BodyAfter(body, actions, codec).Ok?
    ensures NewBodyFor(actions, codec, body, BodyAfter(body, actions, codec).value)
  {
    var after := BodyAfter(body, actions, codec).value;
    if actions.NewBody().Some? {
      FullBodyContents(actions.NewBody().value);
    }
    forall p | PatchesBody(actions, p)
      ensures exists doc, text ::
                && (forall contents :: ReplacesBody(actions, contents) ==> codec.parse(contents) == Some(doc))
                && (KeepsBody(actions) ==> !body.broken && codec.parse(Concat(body.chunks)) == Some(doc))
                && Holds(after, text) && codec.parse(text) == Some(Merge(doc, p))
    {
      var base := if actions.NewBody().Some? then FullBody(actions.NewBody().value) else body;
      var doc := codec.ReadJson(base).value;
      var text := codec.render(Merge(doc, p));
      FullBodyContents(text);
      assert codec.parse(text) == Some(Merge(doc, p));
      assert Holds(after, text);
    }
  }

  predicate SetsVerb(actions: Actions, verb: Bytes) {
    actions.replace.Some? && actions.replace.value.verb == Some(verb)
  }

  predicate KeepsVerb(actions: Actions) {
    actions.replace.Some? ==> actions.replace.value.verb.None?
  }

  predicate SetsCode(actions: Actions, code: nat) {
    actions.replace.Some? && actions.replace.value.code == Some(code)
  }

  predicate KeepsCode(actions: Actions) {
    actions.replace.Some? ==> actions.replace.value.code.None?
  }

  /** Everything one rule does to a request besides its URI: method, body and every header. */
  lemma RequestRuleEffect(m: RequestMessage, actions: Actions, codec: JsonCodec, order: HashOrder, seed: nat)
    requires codec.RoundTrips() && RequestAfter(m, actions, codec, order, seed).Ok?
    ensures var r := RequestAfter(m, actions, codec, order, seed).value;
            && !actions.abort
            && (forall verb :: SetsVerb(actions, verb) ==> r.verb == verb)
            && (KeepsVerb(actions) ==> r.verb == m.verb)
            && NewBodyFor(actions, codec, m.body, r.body)
            && forall name :: Get(r.headers, name) == HeaderAfter(m.headers, actions, name)
  {
    BodyAfterRule(m.body, actions, codec);
    forall name ensures Get(HeadersAfter(m.headers, actions), name) == HeaderAfter(m.headers, actions, name) {
      HeaderClosedForm(m.headers, actions, name);
    }
  }

  /** The same of a response: status, body and every header. */
  lemma ResponseRuleEffect(m: ResponseMessage, actions: Actions, codec: JsonCodec)
    requires codec.RoundTrips() && ResponseAfter(m, actions, codec).Ok?
    ensures var r := ResponseAfter(m, actions, codec).value;
            && !actions.abort
            && (forall code :: SetsCode(actions, code) ==> r.status == code)
            && (KeepsCode(actions) ==> r.status == m.status)
            && NewBodyFor(actions, codec, m.body, r.body)
            && forall name :: Get(r.headers, name) == HeaderAfter(m.headers, actions, name)
  {
    BodyAfterRule(m.body, actions, codec);
    forall name ensures Get(HeadersAfter(m.headers, actions), name) == HeaderAfter(m.headers, actions, name) {
      HeaderClosedForm(m.headers, actions, name);
    }
  }

  /** The document that a body patch of the rule would be merged into cannot be read. */
  ghost predicate Unreadable(actions: Actions, codec: JsonCodec, body: Body) {
    && (exists p :: PatchesBody(actions, p))
    && (KeepsBody(actions) ==> body.broken || codec.parse(Concat(body.chunks)).None?)
    && (forall contents :: ReplacesBody(actions, contents) ==> codec.parse(contents).None?)
  }

  lemma UnreadableIff(actions: Actions, codec: JsonCodec, body: Body)
    ensures BodyAfter(body, actions, codec).Err? <==> Unreadable(actions, codec, body)
    ensures BodyAfter(body, actions, codec).Err? ==> BodyAfter(body, actions, codec).error == InvalidBody
  {
    if actions.NewBody().Some? {
      FullBodyContents(actions.NewBody().value);
      assert ReplacesBody(actions, actions.NewBody().value);
    }
    if actions.BodyPatch().Some? {
      assert PatchesBody(actions, actions.BodyPatch().value);
    }
  }

  /** Exactly when a rule fails on a request, and with which error: abort, then a bad path, then an unreadable body. */
  lemma RequestRuleFailsIff(m: RequestMessage, actions: Actions, pairs: seq<Pair>, codec: JsonCodec, order: HashOrder, seed: nat)
    requires Settled(m.uri) && actions.MoreQueries().GetOr([]) == Serialize(pairs)
    ensures var badPath := actions.replace.Some? && actions.replace.value.path.Some?
                           && !Acceptable(actions.replace.value.path.value);
            var r := RequestAfter(m, actions, codec, order, seed);
            && (r.Err? <==> actions.abort || badPath || Unreadable(actions, codec, m.body))
            && (r.Err? ==> r.error == if actions.abort then AbortApplied else if badPath then InvalidUri else InvalidBody)
  {
    RewriteSucceedsIff(m.uri, actions, pairs, order, seed);
    UnreadableIff(actions, codec, m.body);
    RewriteErrors(m.uri, actions, order, seed);
  }

  lemma RewriteErrors(uri: Uri, actions: Actions, order: HashOrder, seed: nat)
    ensures UriAfter(uri, actions, order, seed).Err? ==> UriAfter(uri, actions, order, seed).error == InvalidUri
  {
    forall u: Uri, text ensures WithPathAndQuery(u, text).Err? ==> WithPathAndQuery(u, text).error == InvalidUri {
      OnlyInvalid(u, text);
    }
  }

  lemma OnlyInvalid(uri: Uri, text: Bytes)
    ensures WithPathAndQuery(uri, text).Err? ==> WithPathAndQuery(uri, text).error == InvalidUri
  {
  }

  lemma ResponseRuleFailsIff(m: ResponseMessage, actions: Actions, codec: JsonCodec)
    ensures var r := ResponseAfter(m, actions, codec);
            && (r.Err? <==> actions.abort || Unreadable(actions, codec, m.body))
            && (r.Err? ==> r.error == if actions.abort then AbortApplied else InvalidBody)
  {
    UnreadableIff(actions, codec, m.body);
  }

  // ---- Content-Length, agreement ----

  predicate ConfiguresLength(actions: Actions) {
    Get(actions.NewHeaders(), CONTENT_LENGTH) != [] || Get(actions.MoreHeaders(), CONTENT_LENGTH) != []
  }

  lemma ContentLengthName()
    ensures |CONTENT_LENGTH| == 14 && forall i :: 0 <= i < 14 ==> CONTENT_LENGTH[i] == "content-length"[i] as int
  {
  }

  /** A rule that does not configure Content-Length drops it exactly when it changes the body. */
  lemma LengthAfterRule(prior: HeaderMap, actions: Actions)
    requires !ConfiguresLength(actions)
    ensures Get(HeadersAfter(prior, actions), CONTENT_LENGTH) ==
            if actions.TouchesBody() then [] else Get(prior, CONTENT_LENGTH)
  {
    HeaderClosedForm(prior, actions, CONTENT_LENGTH);
  }

  /** Corollary of the definitions: the same actions treat the headers and the body of a request and of a response alike. */
  lemma DirectionsAgree(req: RequestMessage, resp: ResponseMessage, actions: Actions,
                        codec: JsonCodec, order: HashOrder, seed: nat)
    requires (req.headers, req.body) == (resp.headers, resp.body)
    ensures var a, b := RequestAfter(req, actions, codec, order, seed), ResponseAfter(resp, actions, codec);
            && (a.Ok? <==> b.Ok? && UriAfter(req.uri, actions, order, seed).Ok?)
            && (a.Ok? ==> a.value.headers == b.value.headers && a.value.body == b.value.body)
  {
  }
}
