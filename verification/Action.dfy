/** The chaos actions of one rule and their application to a request or a response. */
module Action {
  import opened Wrappers
  import opened Bytes
  import opened Uris
  import opened Json
  import opened Headers

  datatype PatchAction = PatchAction(body: Option<Json>, queries: Option<Bytes>, headers: Option<HeaderMap>)

  datatype ReplaceAction = ReplaceAction(
    path: Option<Bytes>,
    verb: Option<Bytes>,
    body: Option<Bytes>,
    code: Option<nat>,
    queries: Option<map<Bytes, Bytes>>,
    headers: Option<HeaderMap>)

  /** `delay` counts time units. */
  datatype Actions = Actions(
    abort: bool,
    delay: Option<nat>,
    replace: Option<ReplaceAction>,
    patch: Option<PatchAction>)
  {
    function Path(): Option<Bytes> { if replace.Some? then replace.value.path else None }
    function Overlay(): Option<map<Bytes, Bytes>> { if replace.Some? then replace.value.queries else None }
    function NewBody(): Option<Bytes> { if replace.Some? then replace.value.body else None }
    function NewHeaders(): HeaderMap { if replace.Some? then replace.value.headers.GetOr(map[]) else map[] }
    function MoreQueries(): Option<Bytes> { if patch.Some? then patch.value.queries else None }
    function BodyPatch(): Option<Json> { if patch.Some? then patch.value.body else None }
    function MoreHeaders(): HeaderMap { if patch.Some? then patch.value.headers.GetOr(map[]) else map[] }

    /** Aborting happens before the delay. */
    function Slept(): nat { if abort then 0 else delay.GetOr(0) }

    function ReplaceOnly(): Actions { Actions(false, None, replace, None) }
    function PatchOnly(): Actions { Actions(false, None, None, patch) }

    predicate TouchesBody() { NewBody().Some? || BodyPatch().Some? }
  }

  /** A body arrives in chunks and may break off; then reading it fails. */
  datatype Body = Body(chunks: seq<Bytes>, broken: bool)

  const EMPTY_BODY := Body([], false)

  function FullBody(contents: Bytes): Body {
    if contents == [] then EMPTY_BODY else Body([contents], false)
  }

  function Concat(chunks: seq<Bytes>): Bytes {
    if chunks == [] then [] else Concat(chunks[..|chunks| - 1]) + chunks[|chunks| - 1]
  }

  /** Parsing and printing of JSON text, which libraries do. */
  datatype JsonCodec = JsonCodec(parse: Bytes -> Option<Json>, render: Json -> Bytes) {
    /** Rendered values parse back. */
    ghost predicate RoundTrips() {
      forall v :: parse(render(v)) == Some(v)
    }

    function ReadJson(body: Body): Result<Json> {
      if body.broken then Err(InvalidBody)
      else
        match parse(Concat(body.chunks))
        case Some(v) => Ok(v)
        case None => Err(InvalidBody)
    }
  }

  // ---- What one rule does, as functions ----

  function UriAfter(uri: Uri, actions: Actions, order: HashOrder, seed: nat): Result<Uri> {
    match ReplacePath(uri, actions.Path())
    case Err(e) => Err(e)
    case Ok(moved) =>
      match ReplaceQueries(moved, actions.Overlay(), order, seed)
      case Err(e) => Err(e)
      case Ok(overlaid) => AppendQueries(overlaid, actions.MoreQueries())
  }

  function BodyAfter(body: Body, actions: Actions, codec: JsonCodec): Result<Body> {
    var base := match actions.NewBody() case Some(contents) => FullBody(contents) case None => body;
    match actions.BodyPatch()
    case None => Ok(base)
    case Some(p) =>
      match codec.ReadJson(base)
      case Ok(v) => Ok(FullBody(codec.render(Merge(v, p))))
      case Err(e) => Err(e)
  }

  /**
   The values of one header that a rule keeps or sets: none for Content-Length when the patch rewrites
   the body, else the replacement, else none for Content-Length when the body was replaced, else what
   was there.
   */
  function HeaderBase(prior: HeaderMap, actions: Actions, name: Name): seq<Value> {
    var replace := if actions.replace.Some? then actions.replace.value else ReplaceAction(None, None, None, None, None, None);
    var replacement := Get(replace.headers.GetOr(map[]), name);
    if name == CONTENT_LENGTH && actions.patch.Some? && actions.patch.value.body.Some? then []
    else if replacement != [] then [replacement[|replacement| - 1]]
    else if name == CONTENT_LENGTH && replace.body.Some? then []
    else Get(prior, name)
  }

  /** The values of one header after a rule: the base values, then those the patch configures. */
  function HeaderAfter(prior: HeaderMap, actions: Actions, name: Name): seq<Value> {
    HeaderBase(prior, actions, name)
    + if actions.patch.Some? then Get(actions.patch.value.headers.GetOr(map[]), name) else []
  }

  /** The header changes one after the other, as a rule makes them: remove, insert, remove, append. */
  function HeadersAfter(prior: HeaderMap, actions: Actions): HeaderMap {
    Appended(
      Fixed(prior, actions.NewHeaders(), CONTENT_LENGTH, actions.NewBody().Some?, actions.BodyPatch().Some?),
      actions.MoreHeaders())
  }

  /** The order of removals, inserts and appends comes down to one formula per header name. */
  lemma HeaderClosedForm(prior: HeaderMap, actions: Actions, name: Name)
    ensures Get(HeadersAfter(prior, actions), name) == HeaderAfter(prior, actions, name)
  {
    var replaced, patched := actions.NewBody().Some?, actions.BodyPatch().Some?;
    GetFixed(prior, actions.NewHeaders(), CONTENT_LENGTH, replaced, patched, name);
    GetAppended(Fixed(prior, actions.NewHeaders(), CONTENT_LENGTH, replaced, patched), actions.MoreHeaders(), name);
  }

  datatype RequestMessage = RequestMessage(uri: Uri, verb: Bytes, headers: HeaderMap, body: Body)
  datatype ResponseMessage = ResponseMessage(status: nat, headers: HeaderMap, body: Body)

  function RequestAfter(m: RequestMessage, actions: Actions, codec: JsonCodec, order: HashOrder, seed: nat)
    : Result<RequestMessage>
  {
    if actions.abort then Err(AbortApplied)
    else
      match UriAfter(m.uri, actions, order, seed)
      case Err(e) => Err(e)
      case Ok(uri) =>
        match BodyAfter(m.body, actions, codec)
        case Err(e) => Err(e)
        case Ok(body) =>
          var verb := if actions.replace.Some? then actions.replace.value.verb.GetOr(m.verb) else m.verb;
          Ok(RequestMessage(uri, verb, HeadersAfter(m.headers, actions), body))
  }

  function ResponseAfter(m: ResponseMessage, actions: Actions, codec: JsonCodec): Result<ResponseMessage> {
    if actions.abort then Err(AbortApplied)
    else
      match BodyAfter(m.body, actions, codec)
      case Err(e) => Err(e)
      case Ok(body) =>
        var status := if actions.replace.Some? then actions.replace.value.code.GetOr(m.status) else m.status;
        Ok(ResponseMessage(status, HeadersAfter(m.headers, actions), body))
  }

  // ---- A rule is its replace part followed by its patch part ----

  lemma HeadersInTwoParts(prior: HeaderMap, actions: Actions)
    ensures HeadersAfter(HeadersAfter(prior, actions.ReplaceOnly()), actions.PatchOnly()) == HeadersAfter(prior, actions)
    ensures actions.replace.None? ==> HeadersAfter(prior, actions.ReplaceOnly()) == prior
    ensures actions.patch.None? ==> HeadersAfter(prior, actions.PatchOnly()) == prior
  {
    var replaced := Fixed(prior, actions.NewHeaders(), CONTENT_LENGTH, actions.NewBody().Some?, false);
    NothingConfigured(prior);
    NothingConfigured(replaced);
  }

  lemma RequestInTwoParts(m: RequestMessage, actions: Actions, codec: JsonCodec, order: HashOrder, seed: nat)
    requires !actions.abort
    ensures RequestAfter(m, actions, codec, order, seed) ==
            match RequestAfter(m, actions.ReplaceOnly(), codec, order, seed)
            case Ok(replaced) => RequestAfter(replaced, actions.PatchOnly(), codec, order, seed)
            case Err(e) => Err(e)
    ensures actions.replace.None? ==> RequestAfter(m, actions.ReplaceOnly(), codec, order, seed) == Ok(m)
    ensures actions.patch.None? ==> RequestAfter(m, actions.PatchOnly(), codec, order, seed) == Ok(m)
  {
    HeadersInTwoParts(m.headers, actions);
  }

  lemma ResponseInTwoParts(m: ResponseMessage, actions: Actions, codec: JsonCodec)
    requires !actions.abort
    ensures ResponseAfter(m, actions, codec) ==
            match ResponseAfter(m, actions.ReplaceOnly(), codec)
            case Ok(replaced) => ResponseAfter(replaced, actions.PatchOnly(), codec)
            case Err(e) => Err(e)
    ensures actions.replace.None? ==> ResponseAfter(m, actions.ReplaceOnly(), codec) == Ok(m)
    ensures actions.patch.None? ==> ResponseAfter(m, actions.PatchOnly(), codec) == Ok(m)
  {
    HeadersInTwoParts(m.headers, actions);
  }

  // ---- The messages, changed field by field ----

  /** Accumulates the time spent in injected delays. */
  class Clock {
    var slept: nat

    constructor ()
      ensures slept == 0
    {
      slept := 0;
    }

    method Sleep(delay: nat)
      modifies this
      ensures slept == old(slept) + delay
    {
      slept := slept + delay;
    }
  }

  /** Drains the body chunk by chunk and parses what came. */
  method ReadValue(body: Body, codec: JsonCodec) returns (r: Result<Json>)
    ensures r == codec.ReadJson(body)
  {
    var data: Bytes := [];
    for i := 0 to |body.chunks|
      invariant data == Concat(body.chunks[..i])
    {
      assert body.chunks[..i + 1][..i] == body.chunks[..i];
      data := data + body.chunks[i];
    }
    assert body.chunks[..|body.chunks|] == body.chunks;
    if body.broken {
      return Err(InvalidBody);
    }
    match codec.parse(data) {
      case Some(v) => return Ok(v);
      case None => return Err(InvalidBody);
    }
  }

  class Request {
    var uri: Uri
    var verb: Bytes
    var headers: HeaderMap
    var body: Body

    constructor (m: RequestMessage)
      ensures Message() == m
    {
      uri, verb, headers, body := m.uri, m.verb, m.headers, m.body;
    }

    function Message(): RequestMessage
      reads this
    {
      RequestMessage(uri, verb, headers, body)
    }

    method ApplyReplace(replace: ReplaceAction, codec: JsonCodec, order: HashOrder, seed: nat)
      returns (error: Option<Error>)
      modifies this
      ensures match RequestAfter(old(Message()), Actions(false, None, Some(replace), None), codec, order, seed)
              case Ok(m) => error == None && Message() == m
              case Err(e) => error == Some(e)
    {
      var moved := ReplacePath(uri, replace.path);
      if moved.Err? {
        return Some(moved.error);
      }
      uri := moved.value;
      if replace.verb.Some? {
        verb := replace.verb.value;
      }
      if replace.body.Some? {
        body := FullBody(replace.body.value);
        headers := Remove(headers, CONTENT_LENGTH);
      }
      var overlaid := ReplaceQueries(uri, replace.queries, order, seed);
      if overlaid.Err? {
        return Some(overlaid.error);
      }
      uri := overlaid.value;
      NothingConfigured(headers);
      if replace.headers.Some? {
        headers := InsertAll(headers, replace.headers.value);
      }
      NothingConfigured(headers);
      return None;
    }

    method ApplyPatch(patch: PatchAction, codec: JsonCodec, order: HashOrder, seed: nat)
      returns (error: Option<Error>)
      modifies this
      ensures match RequestAfter(old(Message()), Actions(false, None, None, Some(patch)), codec, order, seed)
              case Ok(m) => error == None && Message() == m
              case Err(e) => error == Some(e)
    {
      NothingConfigured(headers);
      var appended := AppendQueries(uri, patch.queries);
      if appended.Err? {
        return Some(appended.error);
      }
      uri := appended.value;
      if patch.body.Some? {
        var data := ReadValue(body, codec);
        body := EMPTY_BODY;
        if data.Err? {
          return Some(data.error);
        }
        body := FullBody(codec.render(Merge(data.value, patch.body.value)));
        headers := Remove(headers, CONTENT_LENGTH);
      }
      NothingConfigured(headers);
      if patch.headers.Some? {
        headers := AppendAll(headers, patch.headers.value);
      }
      return None;
    }

    method ApplyActions(actions: Actions, codec: JsonCodec, order: HashOrder, seed: nat, clock: Clock)
      returns (error: Option<Error>)
      modifies this, clock
      ensures match RequestAfter(old(Message()), actions, codec, order, seed)
              case Ok(m) => error == None && Message() == m
              case Err(e) => error == Some(e)
      ensures clock.slept == old(clock.slept) + actions.Slept()
    {
      if actions.abort {
        return Some(AbortApplied);
      }
      if actions.delay.Some? {
        clock.Sleep(actions.delay.value);
      }
      RequestInTwoParts(old(Message()), actions, codec, order, seed);
      error := None;
      if actions.replace.Some? {
        error := ApplyReplace(actions.replace.value, codec, order, seed);
      }
      if error.None? && actions.patch.Some? {
        error := ApplyPatch(actions.patch.value, codec, order, seed);
      }
    }
  }

  class Response {
    var status: nat
    var headers: HeaderMap
    var body: Body

    constructor (m: ResponseMessage)
      ensures Message() == m
    {
      status, headers, body := m.status, m.headers, m.body;
    }

    function Message(): ResponseMessage
      reads this
    {
      ResponseMessage(status, headers, body)
    }

    method ApplyReplace(replace: ReplaceAction, codec: JsonCodec)
      modifies this
      ensures ResponseAfter(old(Message()), Actions(false, None, Some(replace), None), codec) == Ok(Message())
    {
      if replace.code.Some? {
        status := replace.code.value;
      }
      if replace.body.Some? {
        body := FullBody(replace.body.value);
        headers := Remove(headers, CONTENT_LENGTH);
      }
      NothingConfigured(headers);
      if replace.headers.Some? {
        headers := InsertAll(headers, replace.headers.value);
      }
      NothingConfigured(headers);
    }

    method ApplyPatch(patch: PatchAction, codec: JsonCodec) returns (error: Option<Error>)
      modifies this
      ensures match ResponseAfter(old(Message()), Actions(false, None, None, Some(patch)), codec)
              case Ok(m) => error == None && Message() == m
              case Err(e) => error == Some(e)
    {
      NothingConfigured(headers);
      if patch.body.Some? {
        var data := ReadValue(body, codec);
        body := EMPTY_BODY;
        if data.Err? {
          return Some(data.error);
        }
        body := FullBody(codec.render(Merge(data.value, patch.body.value)));
        headers := Remove(headers, CONTENT_LENGTH);
      }
      NothingConfigured(headers);
      if patch.headers.Some? {
        headers := AppendAll(headers, patch.headers.value);
      }
      return None;
    }

    method ApplyActions(actions: Actions, codec: JsonCodec, clock: Clock) returns (error: Option<Error>)
      modifies this, clock
      ensures match ResponseAfter(old(Message()), actions, codec)
              case Ok(m) => error == None && Message() == m
              case Err(e) => error == Some(e)
      ensures clock.slept == old(clock.slept) + actions.Slept()
    {
      if actions.abort {
        return Some(AbortApplied);
      }
      if actions.delay.Some? {
        clock.Sleep(actions.delay.value);
      }
      ResponseInTwoParts(old(Message()), actions, codec);
      error := None;
      if actions.replace.Some? {
        ApplyReplace(actions.replace.value, codec);
      }
      if actions.patch.Some? {
        error := ApplyPatch(actions.patch.value, codec);
      }
    }
  }
}
