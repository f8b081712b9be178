/** From the configuration as written to the actions and rules the proxy runs. */
module RawConfig {
  import opened Wrappers
  import opened Bytes
  import opened FormCodec
  import opened Uris
  import opened Headers
  import opened Action
  import opened Selector

  /** Which texts libraries accept as a header name, a header value or a method, and base64 decoding. */
  datatype Syntax = Syntax(
    headerName: Bytes -> bool,
    headerValue: Bytes -> bool,
    verb: Bytes -> bool,
    base64: Bytes -> Option<Bytes>)

  datatype RawPatchAction = RawPatchAction(
    body: Option<Bytes>,
    queries: Option<seq<Pair>>,
    headers: Option<seq<(Bytes, Bytes)>>)

  datatype RawReplaceBody = PlainText(text: Bytes) | Base64(encoded: Bytes)

  datatype RawReplaceAction = RawReplaceAction(
    path: Option<Bytes>,
    verb: Option<Bytes>,
    body: Option<RawReplaceBody>,
    code: Option<nat>,
    queries: Option<map<Bytes, Bytes>>,
    headers: Option<map<Bytes, Bytes>>)

  datatype RawActions = RawActions(
    abort: Option<bool>,
    delay: Option<nat>,
    replace: Option<RawReplaceAction>,
    patch: Option<RawPatchAction>)

  datatype RawSelector = RawSelector(
    port: Option<nat>,
    path: Option<Bytes>,
    verb: Option<Bytes>,
    code: Option<nat>,
    requestHeaders: Option<map<Bytes, Bytes>>,
    responseHeaders: Option<map<Bytes, Bytes>>)

  datatype RawRule = RawRule(target: Target, selector: RawSelector, actions: RawActions)

  // ---- Header lists and header maps ----

  function LowerByte(b: Byte): Byte {
    if 65 <= b <= 90 then b + 32 else b
  }

  /** Parsing a header name puts it in lower case. */
  function Lower(text: Bytes): Name {
    seq(|text|, i requires 0 <= i < |text| => LowerByte(text[i]))
  }

  predicate ValidHeader(p: (Bytes, Bytes), syntax: Syntax) {
    syntax.headerName(p.0) && syntax.headerValue(p.1)
  }

  /** Repeated names collapse: `insert` leaves the last value. */
  function CollectInserted(ps: seq<(Bytes, Bytes)>): HeaderMap {
    if ps == [] then map[]
    else Insert(CollectInserted(ps[..|ps| - 1]), Lower(ps[|ps| - 1].0), ps[|ps| - 1].1)
  }

  function CollectAppended(ps: seq<(Bytes, Bytes)>): HeaderMap {
    if ps == [] then map[]
    else Append(CollectAppended(ps[..|ps| - 1]), Lower(ps[|ps| - 1].0), ps[|ps| - 1].1)
  }

  method TryFromVec(ps: seq<(Bytes, Bytes)>, syntax: Syntax) returns (r: Result<HeaderMap>)
    ensures r == if forall p <- ps :: ValidHeader(p, syntax) then Ok(CollectInserted(ps)) else Err(InvalidConfig)
  {
    var h: HeaderMap := map[];
    for i := 0 to |ps|
      invariant forall p <- ps[..i] :: ValidHeader(p, syntax)
      invariant h == CollectInserted(ps[..i])
    {
      if !syntax.headerName(ps[i].0) || !syntax.headerValue(ps[i].1) {
        assert !ValidHeader(ps[i], syntax);
        return Err(InvalidConfig);
      }
      assert ps[..i + 1][..i] == ps[..i];
      h := Insert(h, Lower(ps[i].0), ps[i].1);
    }
    assert ps[..|ps|] == ps;
    return Ok(h);
  }

  /** Under every name stands exactly the value configured last for it, names compared without case. */
  lemma {:induction false} LastConfiguredValue(ps: seq<(Bytes, Bytes)>, name: Name)
    ensures Get(CollectInserted(ps), name) == [] <==> forall p <- ps :: Lower(p.0) != name
    ensures forall i :: 0 <= i < |ps| && Lower(ps[i].0) == name && (forall j :: i < j < |ps| ==> Lower(ps[j].0) != name)
                        ==> Get(CollectInserted(ps), name) == [ps[i].1]
  {
    if ps != [] {
      var rest, last := ps[..|ps| - 1], ps[|ps| - 1];
      LastConfiguredValue(rest, name);
      assert ps == rest + [last];
      if Lower(last.0) != name {
        assert forall j :: 0 <= j < |rest| ==> rest[j] == ps[j];
      }
    }
  }

  /** Under every name stand the values of its entries, in listing order. */
  function ValuesOf(ps: seq<(Bytes, Bytes)>, name: Name): seq<Value> {
    if ps == [] then []
    else ValuesOf(ps[..|ps| - 1], name) + if Lower(ps[|ps| - 1].0) == name then [ps[|ps| - 1].1] else []
  }

  lemma {:induction false} AppendedValues(ps: seq<(Bytes, Bytes)>, name: Name)
    ensures Get(CollectAppended(ps), name) == ValuesOf(ps, name)
  {
    if ps != [] {
      AppendedValues(ps[..|ps| - 1], name);
    }
  }

  lemma {:induction false} ValueMembers(ps: seq<(Bytes, Bytes)>, name: Name, value: Value)
    ensures value in ValuesOf(ps, name) <==> exists i :: 0 <= i < |ps| && Lower(ps[i].0) == name && ps[i].1 == value
  {
    if ps != [] {
      var rest, last := ps[..|ps| - 1], ps[|ps| - 1];
      ValueMembers(rest, name, value);
      if i :| 0 <= i < |ps| && Lower(ps[i].0) == name && ps[i].1 == value {
        if i < |rest| {
          assert Lower(rest[i].0) == name && rest[i].1 == value;
        }
      }
      if value in ValuesOf(rest, name) {
        var i :| 0 <= i < |rest| && Lower(rest[i].0) == name && rest[i].1 == value;
        assert Lower(ps[i].0) == name && ps[i].1 == value;
      }
      if Lower(last.0) == name && last.1 == value {
        assert Lower(ps[|rest|].0) == name && ps[|rest|].1 == value;
      }
    }
  }

  lemma {:induction false} SingleValue(ps: seq<(Bytes, Bytes)>, i: nat)
    requires i < |ps| && forall j :: 0 <= j < |ps| && j != i ==> Lower(ps[j].0) != Lower(ps[i].0)
    ensures ValuesOf(ps, Lower(ps[i].0)) == [ps[i].1]
  {
    var rest := ps[..|ps| - 1];
    if i < |rest| {
      SingleValue(rest, i);
    } else {
      NoValue(rest, Lower(ps[i].0));
    }
  }

  lemma {:induction false} NoValue(ps: seq<(Bytes, Bytes)>, name: Name)
    requires forall p <- ps :: Lower(p.0) != name
    ensures ValuesOf(ps, name) == []
  {
    if ps != [] {
      NoValue(ps[..|ps| - 1], name);
    }
  }

  function TryFromHashMap(headers: Option<map<Bytes, Bytes>>, syntax: Syntax, order: HashOrder, seed: nat)
    : Result<Option<HeaderMap>>
  {
    match headers
    case None => Ok(None)
    case Some(m) =>
      var ps := order(seed, m);
      if forall p <- ps :: ValidHeader(p, syntax) then Ok(Some(CollectAppended(ps))) else Err(InvalidConfig)
  }

  /** With names distinct ignoring case, each entry of the map is the only value under its name. */
  lemma HashMapHeaders(m: map<Bytes, Bytes>, syntax: Syntax, order: HashOrder, seed: nat, key: Bytes)
    requires Fair(order) && key in m
    requires forall other <- m :: other != key ==> Lower(other) != Lower(key)
    requires TryFromHashMap(Some(m), syntax, order, seed).Ok?
    ensures Get(TryFromHashMap(Some(m), syntax, order, seed).value.value, Lower(key)) == [m[key]]
  {
    var ps := order(seed, m);
    assert Lists(ps, m);
    var i :| 0 <= i < |ps| && ps[i].0 == key;
    SingleValue(ps, i);
    AppendedValues(ps, Lower(key));
  }

  // ---- Actions and rules ----

  function PatchFrom(raw: RawPatchAction, syntax: Syntax, codec: JsonCodec): Result<PatchAction> {
    if raw.body.Some? && codec.parse(raw.body.value).None? then Err(InvalidConfig)
    else if raw.headers.Some? && exists p <- raw.headers.value :: !ValidHeader(p, syntax) then Err(InvalidConfig)
    else
      Ok(PatchAction(
           if raw.body.Some? then codec.parse(raw.body.value) else None,
           if raw.queries.Some? then Some(Serialize(raw.queries.value)) else None,
           if raw.headers.Some? then Some(CollectInserted(raw.headers.value)) else None))
  }

  /** Status codes have three digits or more, below a thousand. */
  predicate ValidCode(code: Option<nat>) {
    code.Some? ==> 100 <= code.value < 1000
  }

  predicate ValidVerb(verb: Option<Bytes>, syntax: Syntax) {
    verb.Some? ==> syntax.verb(verb.value)
  }

  function ReplaceFrom(raw: RawReplaceAction, syntax: Syntax, order: HashOrder, seed: nat): Result<ReplaceAction> {
    var body := match raw.body
      case None => None
      case Some(PlainText(text)) => Some(text)
      case Some(Base64(encoded)) => syntax.base64(encoded);
    if !ValidVerb(raw.verb, syntax) || (raw.body.Some? && body.None?) || !ValidCode(raw.code) then Err(InvalidConfig)
    else
      match TryFromHashMap(raw.headers, syntax, order, seed)
      case Err(e) => Err(e)
      case Ok(headers) => Ok(ReplaceAction(raw.path, raw.verb, body, raw.code, raw.queries, headers))
  }

  function ActionsFrom(raw: RawActions, syntax: Syntax, codec: JsonCodec, order: HashOrder, seed: nat): Result<Actions> {
    if raw.replace.Some? && ReplaceFrom(raw.replace.value, syntax, order, seed).Err? then Err(InvalidConfig)
    else if raw.patch.Some? && PatchFrom(raw.patch.value, syntax, codec).Err? then Err(InvalidConfig)
    else
      Ok(Actions(
           raw.abort.GetOr(false),
           raw.delay,
           if raw.replace.Some? then Some(ReplaceFrom(raw.replace.value, syntax, order, seed).value) else None,
           if raw.patch.Some? then Some(PatchFrom(raw.patch.value, syntax, codec).value) else None))
  }

  function SelectorFrom(raw: RawSelector, syntax: Syntax, order: HashOrder, seed: nat): Result<Selector> {
    if !ValidVerb(raw.verb, syntax) || !ValidCode(raw.code) then Err(InvalidConfig)
    else
      match TryFromHashMap(raw.requestHeaders, syntax, order, seed)
      case Err(e) => Err(e)
      case Ok(requestHeaders) =>
        match TryFromHashMap(raw.responseHeaders, syntax, order, seed + 1)
        case Err(e) => Err(e)
        case Ok(responseHeaders) =>
          Ok(Selector(raw.port, raw.path, raw.verb, raw.code, requestHeaders, responseHeaders))
  }

  function RuleFrom(raw: RawRule, syntax: Syntax, codec: JsonCodec, order: HashOrder, seed: nat): Result<Rule> {
    match SelectorFrom(raw.selector, syntax, order, seed)
    case Err(e) => Err(e)
    case Ok(selector) =>
      match ActionsFrom(raw.actions, syntax, codec, order, seed + 2)
      case Err(e) => Err(e)
      case Ok(actions) => Ok(Rule(raw.target, selector, actions))
  }

  /** All rules in order, or the first failure. */
  function RulesFrom(raws: seq<RawRule>, syntax: Syntax, codec: JsonCodec, order: HashOrder, seed: nat): Result<seq<Rule>> {
    if raws == [] then Ok([])
    else
      var last := |raws| - 1;
      match RulesFrom(raws[..last], syntax, codec, order, seed)
      case Err(e) => Err(e)
      case Ok(rules) =>
        match RuleFrom(raws[last], syntax, codec, order, seed + 3 * last)
        case Err(e) => Err(e)
        case Ok(rule) => Ok(rules + [rule])
  }

  /** Every rule is read from the entry at its own position, and one bad entry refuses the whole list. */
  lemma {:induction false} RulesKeepPositions(raws: seq<RawRule>, syntax: Syntax, codec: JsonCodec, order: HashOrder, seed: nat)
    ensures var r := RulesFrom(raws, syntax, codec, order, seed);
            && (r.Ok? <==> forall i :: 0 <= i < |raws| ==> RuleFrom(raws[i], syntax, codec, order, seed + 3 * i).Ok?)
            && (r.Ok? ==> |r.value| == |raws|
                          && forall i :: 0 <= i < |raws| ==>
                               RuleFrom(raws[i], syntax, codec, order, seed + 3 * i) == Ok(r.value[i]))
  {
    if raws != [] {
      var init := raws[..|raws| - 1];
      RulesKeepPositions(init, syntax, codec, order, seed);
      assert forall i :: 0 <= i < |init| ==> raws[i] == init[i];
    }
  }
}
