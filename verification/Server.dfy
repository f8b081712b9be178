/** One proxied exchange: select, rewrite, forward once, select again, rewrite the response. */
module Server {
  import opened Wrappers
  import opened Bytes
  import opened Uris
  import opened Headers
  import opened Action
  import opened Selector

  const BAD_GATEWAY: nat := 502

  /** The libraries a service relies on: JSON text, hash-map order, wildcards, authority text. */
  datatype Env = Env(
    codec: JsonCodec,
    order: HashOrder,
    wild: Wildcard,
    parseAuthority: Bytes -> Option<Bytes>,
    show: SocketAddr -> Bytes)

  /** The server behind the proxy. It remembers what it was sent and may fail to answer. */
  class Upstream {
    const answer: (nat, RequestMessage) -> Option<ResponseMessage>
    var forwarded: seq<RequestMessage>

    constructor (answer: (nat, RequestMessage) -> Option<ResponseMessage>)
      ensures forwarded == [] && this.answer == answer
    {
      this.answer := answer;
      forwarded := [];
    }

    method Send(m: RequestMessage) returns (r: Option<ResponseMessage>)
      modifies this
      ensures forwarded == old(forwarded) + [m]
      ensures r == answer(|old(forwarded)|, m)
    {
      r := answer(|forwarded|, m);
      forwarded := forwarded + [m];
    }
  }

  // ---- Specification ----

  /** The actions of the rules that satisfy `p`, in configuration order. */
  function Selected(rules: seq<Rule>, p: Rule -> bool): seq<Actions> {
    if rules == [] then []
    else
      var last := rules[|rules| - 1];
      Selected(rules[..|rules| - 1], p) + if p(last) then [last.actions] else []
  }

  /** The message a list of rules leaves, or the first failure, and the time slept until then. */
  datatype Folded<T> = Folded(result: Result<T>, slept: nat)

  /** One rule applied to a message, with a seed for the hash maps built on the way. */
  type Apply<!M> = (M, Actions, nat) -> Result<M>

  function Fold<M>(m: M, todo: seq<Actions>, apply: Apply<M>, seed: nat): Folded<M>
    decreases |todo|
  {
    if todo == [] then Folded(Ok(m), 0)
    else
      match apply(m, todo[0], seed)
      case Err(e) => Folded(Err(e), todo[0].Slept())
      case Ok(next) =>
        var rest := Fold(next, todo[1..], apply, seed + 1);
        Folded(rest.result, todo[0].Slept() + rest.slept)
  }

  function RequestStep(env: Env): Apply<RequestMessage> {
    (m: RequestMessage, actions: Actions, seed: nat) => RequestAfter(m, actions, env.codec, env.order, seed)
  }

  function ResponseStep(env: Env): Apply<ResponseMessage> {
    (m: ResponseMessage, actions: Actions, _: nat) => ResponseAfter(m, actions, env.codec)
  }

  datatype Outcome = Outcome(result: Result<ResponseMessage>, forwarded: seq<RequestMessage>, slept: nat)

  datatype Service = Service(
    remote: SocketAddr,
    target: SocketAddr,
    rules: seq<Rule>,
    role: Option<Role>,
    tls: bool)
  {
    predicate RoleOk() {
      role.Some? ==> SelectRole(remote.ip, target.ip, role.value)
    }

    function RequestRules(m: RequestMessage, env: Env): seq<Actions> {
      Selected(rules, (rule: Rule) =>
        RoleOk() && rule.target.OnRequest? && SelectRequest(target.port, m, rule.selector, env.wild))
    }

    function ResponseRules(sent: RequestMessage, received: ResponseMessage, env: Env): seq<Actions> {
      Selected(rules, (rule: Rule) =>
        && RoleOk() && rule.target.OnResponse?
        && SelectResponse(target.port, sent.uri, sent.verb, sent.headers, received, rule.selector, env.wild))
    }

    /** The authority of the first Host value, which must parse, or else that of the target if it does. */
    function Authority(headers: HeaderMap, env: Env): Result<Option<Bytes>> {
      var hosts := Get(headers, HOST);
      if hosts == [] then Ok(env.parseAuthority(env.show(target)))
      else if env.parseAuthority(hosts[0]).Some? then Ok(env.parseAuthority(hosts[0]))
      else Err(InvalidUri)
    }

    function RebuiltUri(m: RequestMessage, env: Env): Result<Uri> {
      match Authority(m.headers, env)
      case Err(e) => Err(e)
      case Ok(authority) =>
        FromParts(Parts(
          Some(if tls then Https else Http),
          authority,
          Some(m.uri.IntoParts().pathAndQuery.GetOr(PathAndQuery([SLASH], None)))))
    }

    function Received(answer: Option<ResponseMessage>): ResponseMessage {
      answer.GetOr(ResponseMessage(BAD_GATEWAY, map[], EMPTY_BODY))
    }

    /** The whole exchange, `answer` being what the upstream would reply. */
    function Exchange(m: RequestMessage, env: Env, answer: RequestMessage -> Option<ResponseMessage>): Outcome {
      var rewritten := Fold(m, RequestRules(m, env), RequestStep(env), 0);
      match rewritten.result
      case Err(e) => Outcome(Err(e), [], rewritten.slept)
      case Ok(sent) =>
        match RebuiltUri(sent, env)
        case Err(e) => Outcome(Err(e), [], rewritten.slept)
        case Ok(uri) =>
          var forwarded := sent.(uri := uri);
          var received := Received(answer(forwarded));
          var replied := Fold(received, ResponseRules(sent, received, env), ResponseStep(env), 0);
          Outcome(replied.result, [forwarded], rewritten.slept + replied.slept)
    }

    // ---- Implementation ----

    method Rebuild(request: Request, env: Env) returns (error: Option<Error>)
      modifies request
      ensures match RebuiltUri(old(request.Message()), env)
              case Ok(uri) => error == None && request.Message() == old(request.Message()).(uri := uri)
              case Err(e) => error == Some(e)
    {
      var parts := request.uri.IntoParts();
      var hosts := Get(request.headers, HOST);
      if hosts == [] {
        parts := parts.(authority := env.parseAuthority(env.show(target)));
      } else {
        var authority := env.parseAuthority(hosts[0]);
        if authority.None? {
          return Some(InvalidUri);
        }
        parts := parts.(authority := authority);
      }
      if parts.pathAndQuery.None? {
        parts := parts.(pathAndQuery := Some(PathAndQuery([SLASH], None)));
      }
      parts := parts.(scheme := Some(if tls then Https else Http));
      var uri := FromParts(parts);
      if uri.Err? {
        return Some(uri.error);
      }
      request.uri := uri.value;
      return None;
    }

    method RewriteRequest(request: Request, todo: seq<Actions>, env: Env, clock: Clock) returns (error: Option<Error>)
      modifies request, clock
      ensures var folded := Fold(old(request.Message()), todo, RequestStep(env), 0);
              && clock.slept == old(clock.slept) + folded.slept
              && match folded.result
                 case Ok(m) => error == None && request.Message() == m
                 case Err(e) => error == Some(e)
    {
      for i := 0 to |todo|
        invariant var whole := Fold(old(request.Message()), todo, RequestStep(env), 0);
                  var rest := Fold(request.Message(), todo[i..], RequestStep(env), i);
                  && whole.result == rest.result
                  && old(clock.slept) + whole.slept == clock.slept + rest.slept
      {
        assert todo[i..][0] == todo[i] && todo[i..][1..] == todo[i + 1..];
        error := request.ApplyActions(todo[i], env.codec, env.order, i, clock);
        if error.Some? {
          return;
        }
      }
      return None;
    }

    method RewriteResponse(response: Response, todo: seq<Actions>, env: Env, clock: Clock) returns (error: Option<Error>)
      modifies response, clock
      ensures var folded := Fold(old(response.Message()), todo, ResponseStep(env), 0);
              && clock.slept == old(clock.slept) + folded.slept
              && match folded.result
                 case Ok(m) => error == None && response.Message() == m
                 case Err(e) => error == Some(e)
    {
      for i := 0 to |todo|
        invariant var whole := Fold(old(response.Message()), todo, ResponseStep(env), 0);
                  var rest := Fold(response.Message(), todo[i..], ResponseStep(env), i);
                  && whole.result == rest.result
                  && old(clock.slept) + whole.slept == clock.slept + rest.slept
      {
        assert todo[i..][0] == todo[i] && todo[i..][1..] == todo[i + 1..];
        error := response.ApplyActions(todo[i], env.codec, clock);
        if error.Some? {
          return;
        }
      }
      return None;
    }

    method Handle(request: Request, env: Env, upstream: Upstream, clock: Clock) returns (r: Result<ResponseMessage>)
      modifies request, upstream, clock
      ensures var outcome := Exchange(old(request.Message()), env, m => upstream.answer(|old(upstream.forwarded)|, m));
              && r == outcome.result
              && upstream.forwarded == old(upstream.forwarded) + outcome.forwarded
              && clock.slept == old(clock.slept) + outcome.slept
    {
      var requestRules := RequestRules(request.Message(), env);
      var error := RewriteRequest(request, requestRules, env, clock);
      if error.Some? {
        return Err(error.value);
      }
      var sent := request.Message();
      error := Rebuild(request, env);
      if error.Some? {
        return Err(error.value);
      }
      var answer := upstream.Send(request.Message());
      var response := new Response(Received(answer));
      var responseRules := ResponseRules(sent, response.Message(), env);
      error := RewriteResponse(response, responseRules, env, clock);
      if error.Some? {
        return Err(error.value);
      }
      return Ok(response.Message());
    }
  }
}
