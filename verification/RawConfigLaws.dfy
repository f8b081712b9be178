/** From configured pairs to the message on the wire. */
module RawConfigLaws {
  import opened Wrappers
  import opened Bytes
  import opened FormCodec
  import opened Uris
  import opened UriLaws
  import opened Json
  import opened Headers
  import opened Action
  import opened ActionLaws
  import opened Selector
  import opened RawConfig

  function ConfiguredPairs(raw: RawActions): seq<Pair> {
    if raw.patch.Some? then raw.patch.value.queries.GetOr([]) else []
  }

  /**
   Path, overlay and query pairs configured for a rule arrive at the upstream as configured, whatever they are: in
   particular the query of the rewritten request ends with exactly the configured pairs, in order and with repetitions.
   */
  lemma ConfiguredPairsArrive(raw: RawActions, actions: Actions, m: RequestMessage,
                              syntax: Syntax, codec: JsonCodec, order: HashOrder, seed: nat, seed': nat)
    requires ActionsFrom(raw, syntax, codec, order, seed) == Ok(actions)
    requires Settled(m.uri) && Fair(order)
    requires RequestAfter(m, actions, codec, order, seed').Ok?
    ensures RewritesTo(m.uri,
                       if raw.replace.Some? then raw.replace.value.path else None,
                       if raw.replace.Some? then raw.replace.value.queries else None,
                       ConfiguredPairs(raw), RequestAfter(m, actions, codec, order, seed').value.uri)
  {
    QueryPipeline(m, actions, ConfiguredPairs(raw), codec, order, seed');
  }

  /** A patch header reaches the message once, as the value configured last, after the base values. */
  lemma ConfiguredHeaderArrives(raw: RawActions, actions: Actions, prior: HeaderMap, name: Name, i: nat,
                                syntax: Syntax, codec: JsonCodec, order: HashOrder, seed: nat)
    requires ActionsFrom(raw, syntax, codec, order, seed) == Ok(actions)
    requires raw.patch.Some? && raw.patch.value.headers.Some?
    requires var ps := raw.patch.value.headers.value;
             && i < |ps| && Lower(ps[i].0) == name
             && forall j :: i < j < |ps| ==> Lower(ps[j].0) != name
    ensures Get(HeadersAfter(prior, actions), name) ==
            HeaderBase(prior, actions, name) + [raw.patch.value.headers.value[i].1]
  {
    var ps := raw.patch.value.headers.value;
    HeaderClosedForm(prior, actions, name);
    LastConfiguredValue(ps, name);
    assert actions.MoreHeaders() == CollectInserted(ps);
  }

  /**
   A configured header map selects a message exactly when, for every entry, the value occurs among the
   message's values of that header, names compared without case. This holds for any entries, also for
   names that differ only in case.
   */
  lemma HeaderSelectionExact(m: map<Bytes, Bytes>, headers: HeaderMap, syntax: Syntax, order: HashOrder, seed: nat)
    requires Fair(order)
    requires TryFromHashMap(Some(m), syntax, order, seed).Ok?
    ensures Carries(headers, TryFromHashMap(Some(m), syntax, order, seed).value) <==>
            forall key <- m :: m[key] in Get(headers, Lower(key))
  {
    var ps := order(seed, m);
    var fields := CollectAppended(ps);
    assert Lists(ps, m);
    if Carries(headers, Some(fields)) {
      forall key <- m ensures m[key] in Get(headers, Lower(key)) {
        var i :| 0 <= i < |ps| && ps[i].0 == key;
        AppendedValues(ps, Lower(key));
        ValueMembers(ps, Lower(key), m[key]);
        assert m[key] in Get(fields, Lower(key));
      }
    }
    if forall key <- m :: m[key] in Get(headers, Lower(key)) {
      forall name <- fields, value <- fields[name] ensures value in Get(headers, name) {
        AppendedValues(ps, name);
        ValueMembers(ps, name, value);
        var i :| 0 <= i < |ps| && Lower(ps[i].0) == name && ps[i].1 == value;
        assert m[ps[i].0] == value;
      }
    }
  }

  // ---- What a rule that was read selects on and does ----

  /** Header names are compared with the letters A to Z in lower case. */
  lemma LowerCase(text: Bytes, i: nat)
    requires i < |text|
    ensures |Lower(text)| == |text|
    ensures 'A' as int <= text[i] <= 'Z' as int ==> Lower(text)[i] == text[i] - 'A' as int + 'a' as int
    ensures !('A' as int <= text[i] <= 'Z' as int) ==> Lower(text)[i] == text[i]
  {
  }

  /** Every configured entry occurs among the message's headers. */
  predicate Occur(configured: Option<map<Bytes, Bytes>>, headers: HeaderMap) {
    configured.Some? ==> forall key <- configured.value :: configured.value[key] in Get(headers, Lower(key))
  }

  lemma CarriesIff(configured: Option<map<Bytes, Bytes>>, headers: HeaderMap, syntax: Syntax, order: HashOrder, seed: nat)
    requires Fair(order) && TryFromHashMap(configured, syntax, order, seed).Ok?
    ensures Carries(headers, TryFromHashMap(configured, syntax, order, seed).value) <==> Occur(configured, headers)
  {
    if configured.Some? {
      HeaderSelectionExact(configured.value, headers, syntax, order, seed);
    }
  }

  /** A rule that was read selects requests and responses exactly as its entry says. */
  lemma RuleReadSelects(raw: RawRule, rule: Rule, syntax: Syntax, codec: JsonCodec, order: HashOrder, seed: nat,
                        port: nat, m: RequestMessage, response: ResponseMessage, wild: Wildcard)
    requires Fair(order) && RuleFrom(raw, syntax, codec, order, seed) == Ok(rule)
    ensures rule.target == raw.target
    ensures var s := raw.selector;
            var head :=
              && (s.port.Some? ==> s.port.value == port)
              && (s.path.Some? ==> wild(s.path.value, m.uri.Path()))
              && (s.verb.Some? ==> s.verb.value == m.verb)
              && Occur(s.requestHeaders, m.headers);
            && (SelectRequest(port, m, rule.selector, wild) <==> head)
            && (SelectResponse(port, m.uri, m.verb, m.headers, response, rule.selector, wild) <==>
                  && head
                  && (s.code.Some? ==> s.code.value == response.status)
                  && Occur(s.responseHeaders, response.headers))
  {
    CarriesIff(raw.selector.requestHeaders, m.headers, syntax, order, seed);
    CarriesIff(raw.selector.responseHeaders, response.headers, syntax, order, seed + 1);
  }

  /** The configured body as bytes. */
  predicate Gives(body: RawReplaceBody, syntax: Syntax, contents: Bytes) {
    match body
    case PlainText(text) => contents == text
    case Base64(encoded) => syntax.base64(encoded) == Some(contents)
  }

  /** Each entry of the map is among the values under its name, and is the only one if its name is not repeated. */
  ghost predicate HoldsEntries(configured: map<Bytes, Bytes>, headers: HeaderMap) {
    && Occur(Some(configured), headers)
    && forall key <- configured :: (forall other <- configured :: other != key ==> Lower(other) != Lower(key))
                                   ==> Get(headers, Lower(key)) == [configured[key]]
  }

  lemma ReadEntries(configured: map<Bytes, Bytes>, syntax: Syntax, order: HashOrder, seed: nat)
    requires Fair(order) && TryFromHashMap(Some(configured), syntax, order, seed).Ok?
    ensures HoldsEntries(configured, TryFromHashMap(Some(configured), syntax, order, seed).value.value)
  {
    var headers := TryFromHashMap(Some(configured), syntax, order, seed).value.value;
    CarriesIff(Some(configured), headers, syntax, order, seed);
    assert Carries(headers, Some(headers));
    forall key <- configured | forall other <- configured :: other != key ==> Lower(other) != Lower(key)
      ensures Get(headers, Lower(key)) == [configured[key]]
    {
      HashMapHeaders(configured, syntax, order, seed, key);
    }
  }

  ghost predicate ReplaceRead(raw: RawReplaceAction, r: ReplaceAction, syntax: Syntax) {
    && (r.path, r.verb, r.code, r.queries) == (raw.path, raw.verb, raw.code, raw.queries)
    && (r.body.Some? <==> raw.body.Some?) && (raw.body.Some? ==> Gives(raw.body.value, syntax, r.body.value))
    && (r.headers.Some? <==> raw.headers.Some?) && (raw.headers.Some? ==> HoldsEntries(raw.headers.value, r.headers.value))
  }

  /** Query pairs are read back from the stored text; under each header name stands the value configured last. */
  ghost predicate PatchRead(raw: RawPatchAction, p: PatchAction, codec: JsonCodec) {
    && (p.body.Some? <==> raw.body.Some?) && (raw.body.Some? ==> codec.parse(raw.body.value) == p.body)
    && (p.queries.Some? <==> raw.queries.Some?) && (raw.queries.Some? ==> Parse(p.queries.value) == raw.queries.value)
    && (p.headers.Some? <==> raw.headers.Some?)
    && (raw.headers.Some? ==>
          var ps := raw.headers.value;
          forall name ::
            && (Get(p.headers.value, name) == [] <==> forall q <- ps :: Lower(q.0) != name)
            && forall i :: 0 <= i < |ps| && Lower(ps[i].0) == name && (forall j :: i < j < |ps| ==> Lower(ps[j].0) != name)
                           ==> Get(p.headers.value, name) == [ps[i].1])
  }

  lemma PatchReads(raw: RawPatchAction, syntax: Syntax, codec: JsonCodec)
    requires PatchFrom(raw, syntax, codec).Ok?
    ensures PatchRead(raw, PatchFrom(raw, syntax, codec).value, codec)
  {
    if raw.queries.Some? {
      RoundTrip(raw.queries.value);
    }
    if raw.headers.Some? {
      forall name {
        LastConfiguredValue(raw.headers.value, name);
      }
    }
  }

  /** A rule that was read does exactly what its entry says. */
  lemma RuleReadActs(raw: RawRule, rule: Rule, syntax: Syntax, codec: JsonCodec, order: HashOrder, seed: nat)
    requires Fair(order) && RuleFrom(raw, syntax, codec, order, seed) == Ok(rule)
    ensures rule.actions.abort <==> raw.actions.abort == Some(true)
    ensures rule.actions.delay == raw.actions.delay
    ensures rule.actions.replace.Some? <==> raw.actions.replace.Some?
    ensures raw.actions.replace.Some? ==> ReplaceRead(raw.actions.replace.value, rule.actions.replace.value, syntax)
    ensures rule.actions.patch.Some? <==> raw.actions.patch.Some?
    ensures raw.actions.patch.Some? ==> PatchRead(raw.actions.patch.value, rule.actions.patch.value, codec)
  {
    if raw.actions.replace.Some? && raw.actions.replace.value.headers.Some? {
      ReadEntries(raw.actions.replace.value.headers.value, syntax, order, seed + 2);
    }
    if raw.actions.patch.Some? {
      PatchReads(raw.actions.patch.value, syntax, codec);
    }
  }

  predicate ValidEntries(configured: Option<map<Bytes, Bytes>>, syntax: Syntax) {
    configured.Some? ==>
      forall key <- configured.value :: syntax.headerName(key) && syntax.headerValue(configured.value[key])
  }

  lemma EntriesAcceptedIff(configured: Option<map<Bytes, Bytes>>, syntax: Syntax, order: HashOrder, seed: nat)
    requires Fair(order)
    ensures TryFromHashMap(configured, syntax, order, seed).Ok? <==> ValidEntries(configured, syntax)
  {
    if configured.Some? {
      var m := configured.value;
      var ps := order(seed, m);
      assert Lists(ps, m);
      if forall p <- ps :: ValidHeader(p, syntax) {
        forall key <- m ensures syntax.headerName(key) && syntax.headerValue(m[key]) {
          var i :| 0 <= i < |ps| && ps[i].0 == key;
          assert ValidHeader(ps[i], syntax);
        }
      }
    }
  }

  predicate ReadableReplace(raw: RawReplaceAction, syntax: Syntax) {
    && (raw.verb.Some? ==> syntax.verb(raw.verb.value))
    && (raw.body.Some? && raw.body.value.Base64? ==> syntax.base64(raw.body.value.encoded).Some?)
    && (raw.code.Some? ==> 100 <= raw.code.value <= 999)
    && ValidEntries(raw.headers, syntax)
  }

  predicate ReadablePatch(raw: RawPatchAction, syntax: Syntax, codec: JsonCodec) {
    && (raw.body.Some? ==> codec.parse(raw.body.value).Some?)
    && (raw.headers.Some? ==> forall p <- raw.headers.value :: syntax.headerName(p.0) && syntax.headerValue(p.1))
  }

  /** Exactly when an entry is read: methods, codes, headers, base64 and JSON are all well-formed. */
  lemma RuleReadIff(raw: RawRule, syntax: Syntax, codec: JsonCodec, order: HashOrder, seed: nat)
    requires Fair(order)
    ensures RuleFrom(raw, syntax, codec, order, seed).Ok? <==>
            && (raw.selector.verb.Some? ==> syntax.verb(raw.selector.verb.value))
            && (raw.selector.code.Some? ==> 100 <= raw.selector.code.value <= 999)
            && ValidEntries(raw.selector.requestHeaders, syntax) && ValidEntries(raw.selector.responseHeaders, syntax)
            && (raw.actions.replace.Some? ==> ReadableReplace(raw.actions.replace.value, syntax))
            && (raw.actions.patch.Some? ==> ReadablePatch(raw.actions.patch.value, syntax, codec))
  {
    EntriesAcceptedIff(raw.selector.requestHeaders, syntax, order, seed);
    EntriesAcceptedIff(raw.selector.responseHeaders, syntax, order, seed + 1);
    if raw.actions.replace.Some? {
      EntriesAcceptedIff(raw.actions.replace.value.headers, syntax, order, seed + 2);
    }
  }

  /** Corollary of the definitions: selecting on a response is selecting the request head and then its status and headers. */
  lemma ResponseSelection(port: nat, head: RequestMessage, response: ResponseMessage, s: Selector, wild: Wildcard)
    ensures SelectResponse(port, head.uri, head.verb, head.headers, response, s, wild) <==>
            && SelectRequest(port, head, s, wild)
            && (s.code.Some? ==> response.status == s.code.value)
            && Carries(response.headers, s.responseHeaders)
  {
  }

  // ---- Two body patches as one ----

  function BodyPatchOnly(p: Json): Actions {
    Actions(false, None, None, Some(PatchAction(Some(p), None, None)))
  }

  /** Two body-patch rules in a row act on every response as one rule with the composed patch. */
  lemma BodyPatchesCompose(m: ResponseMessage, first: Json, second: Json, codec: JsonCodec)
    requires codec.RoundTrips() && Composable(first, second)
    ensures ResponseAfter(m, BodyPatchOnly(Compose(first, second)), codec) ==
            match ResponseAfter(m, BodyPatchOnly(first), codec)
            case Err(e) => Err(e)
            case Ok(once) => ResponseAfter(once, BodyPatchOnly(second), codec)
  {
    NothingConfigured(m.headers);
    var bare := Remove(m.headers, CONTENT_LENGTH);
    NothingConfigured(bare);
    assert Remove(bare, CONTENT_LENGTH) == bare;
    match codec.ReadJson(m.body)
    case Err(_) =>
    case Ok(doc) =>
      ReadRendered(codec, Merge(doc, first));
      ComposeSound(doc, first, second);
  }
}
