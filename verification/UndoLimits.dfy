/** What a completed setup looks like, and hosts that its undo does not bring back. */
module UndoLimits {
  import opened Wrappers
  import opened Host
  import opened Bridge

  // ---- A completed setup ----

  lemma AddedAreMine(env: NetEnv, netns: set<Name>, h: State, id: LinkId)
    requires Fresh(env, h) && env.netns in netns && id in AddedLinks(env)
    ensures id !in h.links && Fits(env, h, netns, id, AddedLinks(env)[id])
  {
    FreshNames(env, h);
  }

  lemma AddedAreNew(env: NetEnv, h: State)
    requires Fresh(env, h)
    ensures Local(env.device) !in AddedLinks(env)
  {
    if Local(env.device) in AddedLinks(env) {
      AddedAreMine(env, {env.netns}, h, Local(env.device));
      assert false;
    }
  }

  lemma SetUpHostIsPartial(env: NetEnv, h: State)
    requires Fresh(env, h)
    ensures Partial(env, h, SetUpHost(env, h))
  {
    var s := SetUpHost(env, h);
    forall id <- s.links ensures Fits(env, h, s.netns.Keys, id, s.links[id]) {
      if id in AddedLinks(env) {
        AddedAreMine(env, s.netns.Keys, h, id);
      }
    }
  }

  lemma SetUpHostIsWired(env: NetEnv, h: State)
    requires Fresh(env, h)
    ensures Wired(env, SetUpHost(env, h))
  {
    var s, added := SetUpHost(env, h), AddedLinks(env);
    assert forall id <- added :: s.links[id] == added[id];
    AddedAreNew(env, h);
  }

  /**
   After a completed setup the device is enslaved, so its undo is exact if and only if the device had no
   master before and the saved routes install in the order they are loaded.
   */
  lemma CompletedUndoIff(env: NetEnv, h: State, s: State, dumped: seq<Route>)
    requires Fresh(env, h) && Partial(env, h, s) && Wired(env, s)
    requires Lists(dumped, h.routes) && env.saveRoutes == Reverse(dumped)
    ensures AfterUndo(env, h, s) == h.(natTable := []) <==>
            h.links[Local(env.device)].master == None && SelfSupporting(Reverse(dumped), InstallsOn(h.links))
  {
    UndoIsExactIff(env, h, s, dumped);
  }

  // ---- Hosts that are not brought back ----

  const ADDRESS := Address(167772161, 24)

  /** A host with one addressed device; `master`, if any, is another bridge of the host. */
  function SmallHost(master: Option<Name>, routes: set<Route>): State {
    var device := Link(None, master, true, {ADDRESS});
    State(map[], if master.Some? then map[Local("eth0") := device, Local(master.value) := NEW_LINK] else map[Local("eth0") := device],
          routes, [])
  }

  lemma SmallHostIsFresh(key: string, master: Option<Name>, dumped: seq<Route>, routes: set<Route>)
    requires |key| == KEY_LENGTH && (master.Some? ==> |master.value| == 3)
    ensures Fresh(Named(key, "eth0", ADDRESS, dumped), SmallHost(master, routes))
  {
    NamesSeparate(key, "eth0", ADDRESS, dumped);
    assert |key + "b1"| == 15 && |key + "v1"| == 15 && |key + "v4"| == 15 && |"eth0"| == 4;
  }

  /** A device that was a port of another bridge comes back without a master. */
  lemma MasterIsLost(key: string) returns (env: NetEnv, h: State)
    requires |key| == KEY_LENGTH
    ensures Fresh(env, h) && Partial(env, h, SetUpHost(env, h)) && Wired(env, SetUpHost(env, h))
    ensures AfterUndo(env, h, SetUpHost(env, h)) != h.(natTable := [])
  {
    h := SmallHost(Some("br0"), {});
    env := Named(key, "eth0", ADDRESS, []);
    SmallHostIsFresh(key, Some("br0"), [], {});
    SetUpHostIsPartial(env, h);
    SetUpHostIsWired(env, h);
    CompletedUndoIff(env, h, SetUpHost(env, h), []);
  }

  const GATEWAY := 167772414

  /** A route to 10.0.0.254, and a route to 10.1.0.0/16 by that gateway. */
  function GatewayRoutes(): seq<Route> {
    [Route(Address(GATEWAY, 32), None, false, "eth0", None), Route(Address(167837696, 16), Some(GATEWAY), false, "eth0", None)]
  }

  lemma GatewayRoutesInstall(links: map<LinkId, Link>)
    requires Local("eth0") in links
    ensures SelfSupporting(GatewayRoutes(), InstallsOn(links))
    ensures !SelfSupporting(Reverse(GatewayRoutes()), InstallsOn(links))
  {
    var todo := GatewayRoutes();
    var before := Elements(todo[..1]);
    assert Size(0) == 1;
    assert todo[..1] == [todo[0]] && todo[0] in before;
    assert Covers(todo[0].destination, GATEWAY);
    if SelfSupporting(Reverse(todo), InstallsOn(links)) {
      LastDumpedNeedsNoGateway(todo, links);
      assert false;
    }
  }

  /** A route by a gateway that is dumped after the route to that gateway is not loaded again. */
  lemma GatewayRouteIsLost(key: string) returns (env: NetEnv, h: State)
    requires |key| == KEY_LENGTH
    ensures Fresh(env, h) && Lists(GatewayRoutes(), h.routes) && env.saveRoutes == Reverse(GatewayRoutes())
    ensures h.links[Local(env.device)].master.None? && SelfSupporting(GatewayRoutes(), InstallsOn(h.links))
    ensures AfterUndo(env, h, h) != h.(natTable := [])
  {
    var dumped := GatewayRoutes();
    h := SmallHost(None, Elements(dumped));
    env := Named(key, "eth0", ADDRESS, dumped);
    SmallHostIsFresh(key, None, dumped, Elements(dumped));
    StartsPartial(env, h);
    GatewayRoutesInstall(h.links);
    assert dumped[0] != dumped[1];
    UndoIsExactIff(env, h, h, dumped);
  }
}
