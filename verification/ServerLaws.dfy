/** Laws of whole exchanges: selection, forwarding, delays, Content-Length, transparency, the rebuilt URI. */
module ServerLaws {
  import opened Wrappers
  import opened Bytes
  import opened Uris
  import opened Headers
  import opened Action
  import opened ActionLaws
  import opened Selector
  import opened Server

  type Answer = RequestMessage -> Option<ResponseMessage>

  /** What response rules start from: the upstream's answer, or an empty 502 if it gives none. */
  function Reply(answer: Option<ResponseMessage>): ResponseMessage {
    match answer
    case Some(r) => r
    case None => ResponseMessage(502, map[], Body([], false))
  }

  function Delays(todo: seq<Actions>): nat {
    if todo == [] then 0 else todo[0].delay.GetOr(0) + Delays(todo[1..])
  }

  // ---- Selection ----

  /** The positions of the rules that satisfy `p`, in increasing order. */
  function Positions(rules: seq<Rule>, p: Rule -> bool): (at: seq<nat>)
    ensures forall j :: 0 <= j < |at| ==> at[j] < |rules| && p(rules[at[j]])
    ensures forall i :: 0 <= i < |rules| && p(rules[i]) ==> i in at
    ensures forall i, j :: 0 <= i < j < |at| ==> at[i] < at[j]
  {
    if rules == [] then []
    else
      var last := |rules| - 1;
      Positions(rules[..last], p) + if p(rules[last]) then [last] else []
  }

  function ActionsAt(rules: seq<Rule>, at: seq<nat>): seq<Actions>
    requires forall j :: 0 <= j < |at| ==> at[j] < |rules|
  {
    seq(|at|, j requires 0 <= j < |at| => rules[at[j]].actions)
  }

  /** Selection takes exactly the rules whose guard holds, in configuration order. */
  lemma {:induction false} SelectedExact(rules: seq<Rule>, p: Rule -> bool)
    ensures Selected(rules, p) == ActionsAt(rules, Positions(rules, p))
  {
    if rules != [] {
      SelectedExact(rules[..|rules| - 1], p);
    }
  }

  predicate SameGuards(a: seq<Rule>, b: seq<Rule>) {
    |a| == |b| && forall i :: 0 <= i < |a| ==> a[i].target == b[i].target && a[i].selector == b[i].selector
  }

  lemma {:induction false} SamePositions(a: seq<Rule>, b: seq<Rule>, p: Rule -> bool)
    requires SameGuards(a, b)
    requires forall r: Rule, s: Rule :: r.target == s.target && r.selector == s.selector ==> p(r) == p(s)
    ensures Positions(a, p) == Positions(b, p)
  {
    if a != [] {
      SamePositions(a[..|a| - 1], b[..|b| - 1], p);
    }
  }

  ghost function RequestGuard(service: Service, m: RequestMessage, env: Env): Rule -> bool {
    (rule: Rule) =>
      && service.RoleOk() && rule.target.OnRequest?
      && SelectRequest(service.target.port, m, rule.selector, env.wild)
  }

  ghost function ResponseGuard(service: Service, sent: RequestMessage, received: ResponseMessage, env: Env): Rule -> bool {
    (rule: Rule) =>
      && service.RoleOk() && rule.target.OnResponse?
      && SelectResponse(service.target.port, sent.uri, sent.verb, sent.headers, received, rule.selector, env.wild)
  }

  /**
   Two-phase selection. Which request rules fire is settled by the request as it arrived, and which
   response rules fire by the rewritten request head and the untouched upstream response: changing
   what the rules of a phase do never changes which of them fire in that phase.
   */
  lemma ActionsNeverSteerSelection(service: Service, rules: seq<Rule>, m: RequestMessage,
                                   sent: RequestMessage, received: ResponseMessage, env: Env)
    requires SameGuards(service.rules, rules)
    ensures var other := service.(rules := rules);
            var p := RequestGuard(service, m, env);
            && Positions(service.rules, p) == Positions(rules, p)
            && service.RequestRules(m, env) == ActionsAt(service.rules, Positions(service.rules, p))
            && other.RequestRules(m, env) == ActionsAt(rules, Positions(service.rules, p))
    ensures var other := service.(rules := rules);
            var p := ResponseGuard(service, sent, received, env);
            && Positions(service.rules, p) == Positions(rules, p)
            && service.ResponseRules(sent, received, env) == ActionsAt(service.rules, Positions(service.rules, p))
            && other.ResponseRules(sent, received, env) == ActionsAt(rules, Positions(service.rules, p))
  {
    var other := service.(rules := rules);
    var p, q := RequestGuard(service, m, env), ResponseGuard(service, sent, received, env);
    SamePositions(service.rules, rules, p);
    SamePositions(service.rules, rules, q);
    SelectedExact(service.rules, p);
    SelectedExact(rules, p);
    SelectedExact(service.rules, q);
    SelectedExact(rules, q);
  }

  /** Rules with the same guards, and the same actions where they apply to requests. */
  predicate SameRequestRules(a: seq<Rule>, b: seq<Rule>) {
    SameGuards(a, b) && forall i :: 0 <= i < |a| && a[i].target.OnRequest? ==> a[i].actions == b[i].actions
  }

  lemma SameRequestPhase(service: Service, rules: seq<Rule>, m: RequestMessage, env: Env)
    requires SameRequestRules(service.rules, rules)
    ensures service.(rules := rules).RequestRules(m, env) == service.RequestRules(m, env)
  {
    var p := RequestGuard(service, m, env);
    ActionsNeverSteerSelection(service, rules, m, m, Reply(None), env);
    assert ActionsAt(service.rules, Positions(service.rules, p)) == ActionsAt(rules, Positions(service.rules, p));
  }

  /**
   The same of one whole exchange. Changing what response rules do changes neither what is forwarded nor
   which response rules fire; they fire on the message the upstream answered with.
   */
  lemma ResponseActionsStayBehind(service: Service, rules: seq<Rule>, m: RequestMessage, env: Env, answer: Answer)
    requires SameRequestRules(service.rules, rules)
    ensures var other := service.(rules := rules);
            var outcome, changed := service.Exchange(m, env, answer), other.Exchange(m, env, answer);
            && changed.forwarded == outcome.forwarded
            && (outcome.forwarded == [] ==> changed == outcome)
            && (outcome.forwarded != [] ==>
                  var sent := Fold(m, service.RequestRules(m, env), RequestStep(env), 0).result.value;
                  var received := Reply(answer(outcome.forwarded[0]));
                  var at := Positions(service.rules, ResponseGuard(service, sent, received, env));
                  && outcome.result == Fold(received, ActionsAt(service.rules, at), ResponseStep(env), 0).result
                  && at == Positions(rules, ResponseGuard(service, sent, received, env))
                  && changed.result == Fold(received, ActionsAt(rules, at), ResponseStep(env), 0).result)
  {
    SameRequestPhase(service, rules, m, env);
    var rewritten := Fold(m, service.RequestRules(m, env), RequestStep(env), 0);
    if rewritten.result.Ok? && service.RebuiltUri(rewritten.result.value, env).Ok? {
      var sent := rewritten.result.value;
      var forwarded := sent.(uri := service.RebuiltUri(sent, env).value);
      ActionsNeverSteerSelection(service, rules, m, sent, Reply(answer(forwarded)), env);
    }
  }

  // ---- Folds ----

  /** Folding a list is folding its front and then, if that succeeds, the rest. */
  lemma {:induction false} FoldSplit<M>(m: M, a: seq<Actions>, b: seq<Actions>, apply: Apply<M>, seed: nat)
    ensures var first := Fold(m, a, apply, seed);
            Fold(m, a + b, apply, seed) ==
            match first.result
            case Err(e) => first
            case Ok(next) =>
              var rest := Fold(next, b, apply, seed + |a|);
              Folded(rest.result, first.slept + rest.slept)
    decreases |a|
  {
    if a == [] {
      assert a + b == b;
    } else {
      assert (a + b)[1..] == a[1..] + b;
      match apply(m, a[0], seed)
      case Err(_) =>
      case Ok(next) => FoldSplit(next, a[1..], b, apply, seed + 1);
    }
  }

  /** A way of applying rules under which an aborting rule always fails. */
  ghost predicate Aborts<M(!new)>(apply: Apply<M>) {
    forall m, a: Actions, seed | a.abort :: apply(m, a, seed) == Err(AbortApplied)
  }

  /** When every rule succeeds, none aborts and the time slept is the sum of all delays. */
  lemma {:induction false} FoldSucceeds<M(!new)>(m: M, todo: seq<Actions>, apply: Apply<M>, seed: nat)
    requires Aborts(apply)
    requires Fold(m, todo, apply, seed).result.Ok?
    ensures forall a <- todo :: !a.abort
    ensures Fold(m, todo, apply, seed).slept == Delays(todo)
    decreases |todo|
  {
    if todo != [] {
      FoldSucceeds(apply(m, todo[0], seed).value, todo[1..], apply, seed + 1);
      assert todo == [todo[0]] + todo[1..];
    }
  }

  /** An abort reached by succeeding rules ends the fold after exactly their delays. */
  lemma AbortEndsFold<M(!new)>(m: M, todo: seq<Actions>, k: nat, apply: Apply<M>, seed: nat)
    requires Aborts(apply)
    requires k < |todo| && todo[k].abort
    requires Fold(m, todo[..k], apply, seed).result.Ok?
    ensures Fold(m, todo, apply, seed) == Folded(Err(AbortApplied), Delays(todo[..k]))
  {
    FoldSucceeds(m, todo[..k], apply, seed);
    FoldSplit(m, todo[..k], todo[k..], apply, seed);
    assert todo == todo[..k] + todo[k..];
  }

  // ---- Content-Length over rule sequences ----

  /** A way of applying rules under which headers change as one rule changes them. */
  ghost predicate ChangesHeaders<M(!new)>(apply: Apply<M>, headers: M -> HeaderMap) {
    forall m, a, seed :: apply(m, a, seed).Ok? ==> headers(apply(m, a, seed).value) == HeadersAfter(headers(m), a)
  }

  lemma {:induction false} FoldLength<M(!new)>(m: M, todo: seq<Actions>, apply: Apply<M>, headers: M -> HeaderMap, seed: nat)
    requires ChangesHeaders(apply, headers)
    requires forall a <- todo :: !ConfiguresLength(a)
    requires Fold(m, todo, apply, seed).result.Ok?
    ensures Get(headers(Fold(m, todo, apply, seed).result.value), CONTENT_LENGTH) ==
            if exists a <- todo :: a.TouchesBody() then [] else Get(headers(m), CONTENT_LENGTH)
    decreases |todo|
  {
    if todo != [] {
      var next := apply(m, todo[0], seed).value;
      LengthAfterRule(headers(m), todo[0]);
      FoldLength(next, todo[1..], apply, headers, seed + 1);
      assert todo == [todo[0]] + todo[1..];
      assert todo[0] in todo;
    }
  }

  /** No stale Content-Length: it is gone once some rule changed the body, else it is untouched. */
  lemma RequestLength(m: RequestMessage, todo: seq<Actions>, env: Env)
    requires forall a <- todo :: !ConfiguresLength(a)
    requires Fold(m, todo, RequestStep(env), 0).result.Ok?
    ensures Get(Fold(m, todo, RequestStep(env), 0).result.value.headers, CONTENT_LENGTH) ==
            if exists a <- todo :: a.TouchesBody() then [] else Get(m.headers, CONTENT_LENGTH)
  {
    FoldLength(m, todo, RequestStep(env), (r: RequestMessage) => r.headers, 0);
  }

  lemma ResponseLength(m: ResponseMessage, todo: seq<Actions>, env: Env)
    requires forall a <- todo :: !ConfiguresLength(a)
    requires Fold(m, todo, ResponseStep(env), 0).result.Ok?
    ensures Get(Fold(m, todo, ResponseStep(env), 0).result.value.headers, CONTENT_LENGTH) ==
            if exists a <- todo :: a.TouchesBody() then [] else Get(m.headers, CONTENT_LENGTH)
  {
    FoldLength(m, todo, ResponseStep(env), (r: ResponseMessage) => r.headers, 0);
  }

  // ---- Who is affected ----

  /** Without a role all connections are affected; a role looks at one IPv4 side of the connection. */
  lemma RoleLooksAt(service: Service)
    ensures service.role.None? ==> service.RoleOk()
    ensures service.role.Some? && !(service.remote.ip.V4? && service.target.ip.V4?) ==> !service.RoleOk()
    ensures forall client, server ::
              service.remote.ip == V4(client) && service.target.ip == V4(server) ==>
                && (forall clients :: service.role == Some(Client(clients)) ==> (service.RoleOk() <==> client in clients))
                && (forall servers :: service.role == Some(Role.Server(servers)) ==> (service.RoleOk() <==> server in servers))
  {
  }

  /** The rebuild succeeds exactly if the first Host value, or without one the target's address, reads as an authority. */
  lemma RebuildSucceedsIff(service: Service, m: RequestMessage, env: Env)
    ensures service.RebuiltUri(m, env).Ok? <==>
            env.parseAuthority(if Get(m.headers, HOST) != [] then Get(m.headers, HOST)[0] else env.show(service.target)).Some?
  {
  }

  lemma HostName()
    ensures |HOST| == 4 && forall i :: 0 <= i < 4 ==> HOST[i] == "host"[i] as int
  {
  }

  // ---- What the client gets ----

  /** The request as the selected request rules leave it, before the URI is rebuilt. */
  function Rewritten(service: Service, m: RequestMessage, env: Env): Result<RequestMessage> {
    Fold(m, service.RequestRules(m, env), RequestStep(env), 0).result
  }

  /**
   What the upstream answers is what the client gets, changed by nothing but the response rules that fire: these
   start from the answer `r`, or from an empty 502 if there is none, and with no rule firing `r` arrives as it is.
   */
  lemma AnswerReachesClient(service: Service, m: RequestMessage, env: Env, answer: Answer, r: ResponseMessage)
    requires service.Exchange(m, env, answer).forwarded != []
    requires var sent := service.Exchange(m, env, answer).forwarded[0];
             answer(sent) == Some(r) || (answer(sent) == None && r == ResponseMessage(502, map[], Body([], false)))
    ensures Rewritten(service, m, env).Ok?
    ensures var guard := ResponseGuard(service, Rewritten(service, m, env).value, r, env);
            var result := service.Exchange(m, env, answer).result;
            && result == Fold(r, ActionsAt(service.rules, Positions(service.rules, guard)), ResponseStep(env), 0).result
            && ((forall rule <- service.rules :: !guard(rule)) ==> result == Ok(r))
  {
    ReplyIsFolded(service, m, env, answer, r);
    var head := Rewritten(service, m, env).value;
    var guard := ResponseGuard(service, head, r, env);
    ActionsNeverSteerSelection(service, service.rules, m, head, r, env);
    if forall rule <- service.rules :: !guard(rule) {
      NoPositions(service.rules, guard);
      assert ActionsAt(service.rules, []) == [];
      FoldNothing(r, ResponseStep(env), 0);
    }
  }

  lemma {:induction false} NoPositions(rules: seq<Rule>, p: Rule -> bool)
    requires forall rule <- rules :: !p(rule)
    ensures Positions(rules, p) == []
  {
    if rules != [] {
      NoPositions(rules[..|rules| - 1], p);
      assert rules[|rules| - 1] in rules;
    }
  }

  /** The response rules are folded over the answer, or over an empty 502. */
  lemma ReplyIsFolded(service: Service, m: RequestMessage, env: Env, answer: Answer, r: ResponseMessage)
    requires service.Exchange(m, env, answer).forwarded != []
    requires var sent := service.Exchange(m, env, answer).forwarded[0];
             answer(sent) == Some(r) || (answer(sent) == None && r == ResponseMessage(502, map[], Body([], false)))
    ensures Rewritten(service, m, env).Ok?
    ensures service.Exchange(m, env, answer).result ==
            Fold(r, service.ResponseRules(Rewritten(service, m, env).value, r, env), ResponseStep(env), 0).result
  {
  }

  lemma FoldNothing<M>(m: M, apply: Apply<M>, seed: nat)
    ensures Fold(m, [], apply, seed).result == Ok(m)
  {
  }

  // ---- The last rule that sets something ----

  /** A way of applying rules under which `get` becomes what the rule sets, or stays. */
  ghost predicate Sets<M(!new), V>(apply: Apply<M>, get: M -> V, sets: Actions -> Option<V>) {
    forall m, a, seed :: apply(m, a, seed).Ok? ==> get(apply(m, a, seed).value) == sets(a).GetOr(get(m))
  }

  lemma {:induction false} FoldSets<M(!new), V>(m: M, todo: seq<Actions>, apply: Apply<M>, get: M -> V, sets: Actions -> Option<V>, seed: nat)
    requires Sets(apply, get, sets) && Fold(m, todo, apply, seed).result.Ok?
    ensures var final := get(Fold(m, todo, apply, seed).result.value);
            && ((forall a <- todo :: sets(a).None?) ==> final == get(m))
            && forall k :: 0 <= k < |todo| && sets(todo[k]).Some? && (forall j :: k < j < |todo| ==> sets(todo[j]).None?)
                           ==> final == sets(todo[k]).value
    decreases |todo|
  {
    if todo != [] {
      var next := apply(m, todo[0], seed).value;
      var rest := todo[1..];
      FoldSets(next, rest, apply, get, sets, seed + 1);
      assert todo == [todo[0]] + rest;
      assert todo[0] in todo;
      forall k | 0 <= k < |todo| && sets(todo[k]).Some? && (forall j :: k < j < |todo| ==> sets(todo[j]).None?)
        ensures get(Fold(m, todo, apply, seed).result.value) == sets(todo[k]).value
      {
        if k == 0 {
          forall a <- rest ensures sets(a).None? {
            var j :| 0 <= j < |rest| && rest[j] == a;
            assert todo[j + 1] == a;
          }
        } else {
          assert rest[k - 1] == todo[k];
          assert forall j :: k - 1 < j < |rest| ==> rest[j] == todo[j + 1];
        }
      }
    }
  }

  function VerbOf(a: Actions): Option<Bytes> {
    if a.replace.Some? then a.replace.value.verb else None
  }

  function CodeOf(a: Actions): Option<nat> {
    if a.replace.Some? then a.replace.value.code else None
  }

  /** The forwarded method is the one set by the last selected request rule that sets any, else the arriving one. */
  lemma ForwardedVerb(service: Service, m: RequestMessage, env: Env, answer: Answer)
    requires service.Exchange(m, env, answer).forwarded != []
    ensures var todo := service.RequestRules(m, env);
            var verb := service.Exchange(m, env, answer).forwarded[0].verb;
            && ((forall a <- todo :: VerbOf(a).None?) ==> verb == m.verb)
            && forall k :: 0 <= k < |todo| && VerbOf(todo[k]).Some? && (forall j :: k < j < |todo| ==> VerbOf(todo[j]).None?)
                           ==> verb == VerbOf(todo[k]).value
  {
    FoldSets(m, service.RequestRules(m, env), RequestStep(env), (r: RequestMessage) => r.verb, VerbOf, 0);
  }

  /** The client's status is the one set by the last selected response rule that sets any, else the answer's or 502. */
  lemma ClientStatus(service: Service, m: RequestMessage, env: Env, answer: Answer, sent: RequestMessage, received: ResponseMessage)
    requires Answered(service, m, env, answer, sent, received)
    requires service.Exchange(m, env, answer).result.Ok?
    ensures var todo := service.ResponseRules(sent, received, env);
            var status := service.Exchange(m, env, answer).result.value.status;
            && ((forall a <- todo :: CodeOf(a).None?) ==> status == received.status)
            && forall k :: 0 <= k < |todo| && CodeOf(todo[k]).Some? && (forall j :: k < j < |todo| ==> CodeOf(todo[j]).None?)
                           ==> status == CodeOf(todo[k]).value
  {
    FoldSets(received, service.ResponseRules(sent, received, env), ResponseStep(env), (r: ResponseMessage) => r.status, CodeOf, 0);
  }

  // ---- Forwarding and delays of an exchange ----

  /**
   Forwarding and delays. The upstream is called at most once, and exactly once when every selected
   request rule and the URI rebuild succeed; then the request delays are all slept. A selected request
   rule that aborts means an error and no call.
   */
  lemma ForwardsAtMostOnce(service: Service, m: RequestMessage, env: Env, answer: Answer)
    ensures var todo := service.RequestRules(m, env);
            var rewritten := Fold(m, todo, RequestStep(env), 0);
            var outcome := service.Exchange(m, env, answer);
            && |outcome.forwarded| <= 1
            && (|outcome.forwarded| == 1 <==>
                  rewritten.result.Ok? && service.RebuiltUri(rewritten.result.value, env).Ok?)
            && (outcome.forwarded == [] ==> outcome.result.Err?)
            && (|outcome.forwarded| == 1 ==>
                  && outcome.slept >= Delays(todo)
                  && (outcome.result.Ok? ==>
                        var sent := rewritten.result.value;
                        var received := Reply(answer(outcome.forwarded[0]));
                        outcome.slept == Delays(todo) + Delays(service.ResponseRules(sent, received, env))))
            && ((exists a <- todo :: a.abort) ==> outcome.forwarded == [] && outcome.result.Err?)
  {
    var todo := service.RequestRules(m, env);
    var rewritten := Fold(m, todo, RequestStep(env), 0);
    if rewritten.result.Ok? {
      FoldSucceeds(m, todo, RequestStep(env), 0);
      var sent := rewritten.result.value;
      if service.RebuiltUri(sent, env).Ok? {
        var forwarded := sent.(uri := service.RebuiltUri(sent, env).value);
        var received := Reply(answer(forwarded));
        var responseRules := service.ResponseRules(sent, received, env);
        if Fold(received, responseRules, ResponseStep(env), 0).result.Ok? {
          FoldSucceeds(received, responseRules, ResponseStep(env), 0);
        }
      }
    }
  }

  /** The exchange sleeps exactly the delays before the first abort it reaches. */
  lemma SleptBeforeAbort(service: Service, m: RequestMessage, env: Env, answer: Answer, k: nat)
    requires var todo := service.RequestRules(m, env);
             k < |todo| && todo[k].abort && Fold(m, todo[..k], RequestStep(env), 0).result.Ok?
    ensures service.Exchange(m, env, answer) ==
            Outcome(Err(AbortApplied), [], Delays(service.RequestRules(m, env)[..k]))
  {
    AbortEndsFold(m, service.RequestRules(m, env), k, RequestStep(env), 0);
  }

  /** What the upstream is sent and what it answers, if the exchange gets that far. */
  predicate Answered(service: Service, m: RequestMessage, env: Env, answer: Answer, sent: RequestMessage, received: ResponseMessage) {
    && Rewritten(service, m, env) == Ok(sent)
    && service.RebuiltUri(sent, env).Ok?
    && received == Reply(answer(sent.(uri := service.RebuiltUri(sent, env).value)))
  }

  /**
   The same in the response phase: a selected response rule that aborts, reached by succeeding ones, ends the
   exchange after all request delays and exactly the response delays before it; the request was forwarded.
   */
  lemma SleptBeforeResponseAbort(service: Service, m: RequestMessage, env: Env, answer: Answer,
                                 sent: RequestMessage, received: ResponseMessage, k: nat)
    requires Answered(service, m, env, answer, sent, received)
    requires var todo := service.ResponseRules(sent, received, env);
             k < |todo| && todo[k].abort && Fold(received, todo[..k], ResponseStep(env), 0).result.Ok?
    ensures service.Exchange(m, env, answer) ==
            Outcome(Err(AbortApplied), [sent.(uri := service.RebuiltUri(sent, env).value)],
                    Delays(service.RequestRules(m, env)) + Delays(service.ResponseRules(sent, received, env)[..k]))
  {
    FoldSucceeds(m, service.RequestRules(m, env), RequestStep(env), 0);
    AbortEndsFold(received, service.ResponseRules(sent, received, env), k, ResponseStep(env), 0);
  }

  /** Any selected response rule that aborts means an error, though the request was forwarded once. */
  lemma ResponseAbortFails(service: Service, m: RequestMessage, env: Env, answer: Answer,
                           sent: RequestMessage, received: ResponseMessage)
    requires Answered(service, m, env, answer, sent, received)
    requires exists a <- service.ResponseRules(sent, received, env) :: a.abort
    ensures service.Exchange(m, env, answer).result.Err? && |service.Exchange(m, env, answer).forwarded| == 1
  {
    var todo := service.ResponseRules(sent, received, env);
    if Fold(received, todo, ResponseStep(env), 0).result.Ok? {
      FoldSucceeds(received, todo, ResponseStep(env), 0);
      assert false;
    }
  }

  lemma {:induction false} NothingSelected(rules: seq<Rule>, p: Rule -> bool)
    requires forall rule :: !p(rule)
    ensures Selected(rules, p) == []
  {
    if rules != [] {
      NothingSelected(rules[..|rules| - 1], p);
    }
  }

  /** With the wrong role the exchange only rebuilds the URI and passes the answer through. */
  lemma TransparentWithoutRole(service: Service, m: RequestMessage, env: Env, answer: Answer)
    requires !service.RoleOk()
    ensures service.Exchange(m, env, answer) ==
            match service.RebuiltUri(m, env)
            case Err(e) => Outcome(Err(e), [], 0)
            case Ok(uri) => Outcome(Ok(Reply(answer(m.(uri := uri)))), [m.(uri := uri)], 0)
  {
    NothingSelected(service.rules, (rule: Rule) =>
      service.RoleOk() && rule.target.OnRequest? && SelectRequest(service.target.port, m, rule.selector, env.wild));
    match service.RebuiltUri(m, env)
    case Err(_) =>
    case Ok(uri) =>
      var received := Reply(answer(m.(uri := uri)));
      NothingSelected(service.rules, (rule: Rule) =>
        && service.RoleOk() && rule.target.OnResponse?
        && SelectResponse(service.target.port, m.uri, m.verb, m.headers, received, rule.selector, env.wild));
  }

  /** Corollary of the definitions. The forwarded URI: scheme by TLS, authority by the first Host value or the target, rewritten path and query. */
  lemma ForwardedUri(service: Service, m: RequestMessage, env: Env, answer: Answer)
    requires service.Exchange(m, env, answer).forwarded != []
    ensures var rewritten := Fold(m, service.RequestRules(m, env), RequestStep(env), 0);
            var sent := service.Exchange(m, env, answer).forwarded[0];
            && rewritten.result.Ok?
            && var r := rewritten.result.value;
               && sent.(uri := r.uri) == r
               && (sent.uri.scheme == Some(Https) <==> service.tls)
               && (sent.uri.scheme == Some(Http) <==> !service.tls)
               && sent.uri.authority.Some?
               && sent.uri.authority == env.parseAuthority(
                    if Get(r.headers, HOST) != [] then Get(r.headers, HOST)[0] else env.show(service.target))
               && (r.uri.HasPath() ==> sent.uri.pathAndQuery == r.uri.pathAndQuery)
               && (!r.uri.HasPath() ==> sent.uri.pathAndQuery == PathAndQuery([SLASH], None))
               && sent.uri.HasPath()
  {
  }
}
