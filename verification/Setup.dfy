/** Setting up the bridge and the namespace: what every outcome keeps, and that it succeeds when nothing fails. */
module Setup {
  import opened Wrappers
  import opened Host
  import opened Bridge
  import opened AddressText
  import Iptables
  import IptablesLaws
  import opened Ports
  import SetupRun

  // ---- Namespaces and the nat list during a setup ----

  /** Commands that leave packet tables and the nat list alone. */
  predicate Bystander(c: Command) {
    !c.NatAppend? && !c.NatFlush? && !c.InChain? && !c.NetnsDelete?
  }

  lemma SetupBystands(env: NetEnv)
    ensures forall c <- LinkCommands(env) :: Bystander(c)
    ensures forall c <- AddressCommands(env) :: Bystander(c)
    ensures NetnsAdd(env.netns) in LinkCommands(env)
  {
    var links := LinkCommands(env);
    forall i | 0 <= i < |links| ensures Bystander(links[i]) {
    }
    var addresses := AddressCommands(env);
    forall i | 0 <= i < |addresses| ensures Bystander(addresses[i]) {
    }
    assert links[1] == NetnsAdd(env.netns);
  }

  /** The nat list and the tables of known namespaces are as they were. */
  predicate SameTables(s: State, t: State) {
    && t.natTable == s.natTable
    && forall ns <- s.netns :: ns in t.netns && t.netns[ns] == s.netns[ns]
  }

  lemma BystanderKeepsTables(s: State, c: Command, lossless: bool, t: State, ok: bool)
    requires Bystander(c) && Ran(s, c, lossless, t, ok)
    ensures SameTables(s, t)
    ensures ok && c.NetnsAdd? ==> c.ns in t.netns && t.netns[c.ns] == Iptables.FRESH_TABLES
  {
  }

  lemma {:induction false} RunKeepsTables(s: State, commands: seq<Command>, t: State, ns: Name)
    requires (forall c <- commands :: Bystander(c)) && RanWell(s, commands, t)
    ensures SameTables(s, t)
    ensures NetnsAdd(ns) in commands ==> ns in t.netns && t.netns[ns] == Iptables.FRESH_TABLES
  {
    if commands != [] {
      var init, last := commands[..|commands| - 1], commands[|commands| - 1];
      assert commands == init + [last];
      var u :| RanWell(s, init, u) && Ran(u, last, false, t, true);
      RunKeepsTables(s, init, u, ns);
      BystanderKeepsTables(u, last, false, t, true);
    }
  }

  // ---- Runs from alike hosts ----

  predicate SameWiring(a: State, b: State) {
    a.netns == b.netns && a.links == b.links
  }

  lemma RanWellPrefix(s: State, commands: seq<Command>, t: State, k: nat) returns (u: State)
    requires RanWell(s, commands, t) && k < |commands|
    ensures RanWell(s, commands[..k], u) && Applicable(u, commands[k])
    decreases |commands|
  {
    var init, last := commands[..|commands| - 1], commands[|commands| - 1];
    var v :| RanWell(s, init, v) && Ran(v, last, false, t, true);
    if k == |init| {
      u := v;
    } else {
      u := RanWellPrefix(s, init, v, k);
      assert init[..k] == commands[..k];
    }
  }

  lemma StepAlike(a: State, b: State, c: Command, t: State, u: State)
    requires SameWiring(a, b) && Ran(a, c, false, t, true) && Ran(b, c, false, u, true)
    ensures SameWiring(t, u)
  {
  }

  lemma {:induction false} RunAlike(a: State, b: State, commands: seq<Command>, t: State, u: State)
    requires SameWiring(a, b) && RanWell(a, commands, t) && RanWell(b, commands, u)
    ensures SameWiring(t, u)
  {
    if commands != [] {
      var init, last := commands[..|commands| - 1], commands[|commands| - 1];
      var v :| RanWell(a, init, v) && Ran(v, last, false, t, true);
      var w :| RanWell(b, init, w) && Ran(w, last, false, u, true);
      RunAlike(a, b, init, v, w);
      StepAlike(v, w, last, t, u);
    }
  }

  /** Where one run gets through, a run from an alike host does not get stuck. */
  lemma NotStuck(a: State, b: State, commands: seq<Command>, t: State, k: nat)
    requires SameWiring(a, b) && RanWell(b, commands, t)
    ensures !StuckAt(a, commands, k)
  {
    if StuckAt(a, commands, k) {
      var u :| RanWell(a, commands[..k], u) && !Applicable(u, commands[k]);
      var v := RanWellPrefix(b, commands, t, k);
      RunAlike(a, b, commands[..k], u, v);
      assert false;
    }
  }

  /** A run that fails only with a reason gets through where a run from an alike host does, and ends alike. */
  lemma GetsThrough(a: State, b: State, commands: seq<Command>, t: State, ok: bool, u: State)
    requires SameWiring(a, b) && RanWell(b, commands, u)
    requires Executed(a, commands, t, ok) && (ok || exists k :: StuckAt(a, commands, k))
    ensures ok && SameWiring(t, u)
  {
    if !ok {
      var k: nat :| StuckAt(a, commands, k);
      NotStuck(a, b, commands, u, k);
      assert false;
    }
    RunAlike(a, b, commands, t, u);
  }

  // ---- The setup ----

  /** Runs a list of commands that the environment calls for. */
  method RunList(host: Machine, commands: seq<Command>, smooth: bool, ghost env: NetEnv, ghost h: State, ghost done: seq<Command>)
    returns (ok: bool)
    requires Progress(env, h, host.state, done)
    requires forall c <- commands :: Ours(env, c) && Bystander(c)
    modifies host
    ensures Executed(old(host.state), commands, host.state, ok)
    ensures smooth && !ok ==> exists k :: StuckAt(old(host.state), commands, k)
    ensures Progress(env, h, host.state, if ok then done + commands else done)
    ensures ok ==> SameTables(old(host.state), host.state)
    ensures ok && NetnsAdd(env.netns) in commands ==>
              env.netns in host.state.netns && host.state.netns[env.netns] == Iptables.FRESH_TABLES
  {
    ok := ExecuteAll(host, commands, smooth);
    ExecutedKeepsProgress(env, h, old(host.state), done, commands, host.state, ok);
    if ok {
      RunKeepsTables(old(host.state), commands, host.state, env.netns);
    }
  }

  /** Takes the address from the device; a failure is ignored. */
  method TakeAddress(host: Machine, smooth: bool, ghost h: State, env: NetEnv, ghost done: seq<Command>)
    requires Progress(env, h, host.state, done)
    modifies host
    ensures Progress(env, h, host.state, done) && SameTables(old(host.state), host.state)
    ensures smooth && Applicable(old(host.state), AddressDel(env.ip, env.device)) ==>
              SameWiring(host.state, Effect(old(host.state), AddressDel(env.ip, env.device)))
  {
    var c := AddressDel(env.ip, env.device);
    ExecuteAllWithLogError(host, [c], smooth);
    ghost var reported := RanOne(old(host.state), c, smooth, host.state);
    RanKeepsProgress(env, h, old(host.state), done, c, smooth, host.state, reported);
    assert forall d <- done :: d in done + [c];
    BystanderKeepsTables(old(host.state), c, smooth, host.state, reported);
  }

  /** Deletes the kernel's routes for the moved address. */
  method DeleteKernelRoutes(host: Machine, env: NetEnv, smooth: bool) returns (ok: bool)
    requires Dumps(host.dump)
    modifies host
    ensures SameButRoutes(host.state, old(host.state)) && (smooth ==> ok)
    ensures host.state.routes <= old(host.state).routes
    ensures forall r <- old(host.state).routes :: !KernelRoute(env, r) ==> r in host.state.routes
    ensures ok ==> forall r <- host.state.routes :: !KernelRoute(env, r)
  {
    var routesRead: bool := *;
    if !routesRead && !smooth {
      return false;
    }
    var routes := host.dump(host.state.routes);
    assert Lists(routes, host.state.routes);
    var todo := KernelRoutes(env, routes);
    ok := host.DeleteRoutes(todo, smooth);
    assert forall r <- host.state.routes :: ok ==> r !in Elements(todo) && r in Elements(routes);
  }

  /** The namespace has fresh tables, and the nat list is as before. */
  predicate TablesReady(env: NetEnv, before: State, s: State) {
    && s.natTable == before.natTable
    && env.netns in s.netns && s.netns[env.netns] == Iptables.FRESH_TABLES
  }

  /** Links first, then the device loses its address. */
  method WireLinks(host: Machine, env: NetEnv, ghost h: State, smooth: bool) returns (ok: bool)
    requires Progress(env, h, host.state, [])
    modifies host
    ensures Progress(env, h, host.state, if ok then LinkCommands(env) else [])
    ensures ok ==> TablesReady(env, old(host.state), host.state)
    ensures smooth && SameWiring(old(host.state), h) ==>
              && ok
              && exists linked, moved :: Way(env, h, linked, moved) && SameWiring(host.state, moved)
  {
    SetupIsOurs(env);
    SetupBystands(env);
    ghost var c := LinkCommands(env);
    ok := RunList(host, LinkCommands(env), smooth, env, h, []);
    assert [] + c == c;
    ghost var linked, moved := SetupRun.SetupCompletes(env, h);
    if smooth && SameWiring(old(host.state), h) {
      GetsThrough(old(host.state), h, c, host.state, ok, linked);
    }
    if ok {
      ghost var s := host.state;
      TakeAddress(host, smooth, h, env, c);
      if smooth && SameWiring(s, linked) {
        TakenAlike(env, s, linked, moved, host.state);
        assert Way(env, h, linked, moved);
      }
    }
  }

  /** The hosts on the way from `h` to the completed setup. */
  ghost predicate Way(env: NetEnv, h: State, linked: State, moved: State)
    requires Local(env.device) in h.links
  {
    && Ran(linked, AddressDel(env.ip, env.device), false, moved, true)
    && RanWell(moved, AddressCommands(env), SetUpHost(env, h))
  }

  lemma TakenAlike(env: NetEnv, s: State, linked: State, moved: State, t: State)
    requires SameWiring(s, linked) && Ran(linked, AddressDel(env.ip, env.device), false, moved, true)
    requires Applicable(s, AddressDel(env.ip, env.device)) ==> SameWiring(t, Effect(s, AddressDel(env.ip, env.device)))
    ensures SameWiring(t, moved)
  {
  }

  /** Then the address goes to the proxy's side, and the kernel's routes for it. */
  method GiveAddress(host: Machine, env: NetEnv, ghost h: State, smooth: bool) returns (ok: bool)
    requires Progress(env, h, host.state, LinkCommands(env)) && Dumps(host.dump)
    modifies host
    ensures Partial(env, h, host.state)
    ensures ok ==> Wired(env, host.state) && forall r <- host.state.routes :: !KernelRoute(env, r)
    ensures ok ==> SameTables(old(host.state), host.state)
    ensures smooth && (exists linked, moved :: Way(env, h, linked, moved) && SameWiring(old(host.state), moved)) ==>
              ok && SameWiring(host.state, SetUpHost(env, h))
  {
    SetupIsOurs(env);
    SetupBystands(env);
    ghost var done := LinkCommands(env);
    ok := RunList(host, AddressCommands(env), smooth, env, h, done);
    if linked, moved :| smooth && Way(env, h, linked, moved) && SameWiring(old(host.state), moved) {
      GetsThrough(old(host.state), moved, AddressCommands(env), host.state, ok, SetUpHost(env, h));
    }
    var macFound: bool := *;
    if !ok || (!macFound && !smooth) {
      return false;
    }
    done := done + AddressCommands(env);
    ghost var s := host.state;
    ok := RunList(host, [Tune(Arp, Some(env.bridge2))], smooth, env, h, done);
    ArpChangesNothing(env, s, host.state, ok, smooth);
    if !ok {
      return;
    }
    assert AddressCommands(env)[0] in AddressCommands(env);
    InForceMeansWired(env, host.state);
    ok := DeleteKernelRoutes(host, env, smooth);
  }

  lemma ArpChangesNothing(env: NetEnv, s: State, t: State, ok: bool, smooth: bool)
    requires Executed(s, [Tune(Arp, Some(env.bridge2))], t, ok)
    requires smooth && !ok ==> exists k :: StuckAt(s, [Tune(Arp, Some(env.bridge2))], k)
    ensures smooth ==> ok
    ensures ok ==> SameWiring(s, t)
  {
    var c := [Tune(Arp, Some(env.bridge2))];
    SetupRun.TunesRanWell(s, c);
    if smooth {
      GetsThrough(s, s, c, t, ok, s);
    }
    if ok {
      RunAlike(s, s, c, t, s);
    }
  }

  /**
   The setup may stop at any command. Whatever happens the host stays partly set up in the sense of `Partial`; on
   success the packet path stands, no kernel route for the moved address is left and the namespace has fresh
   tables. If nothing fails that can be carried out, it succeeds and leaves exactly the completed setup.
   */
  method SetenvBridge(host: Machine, env: NetEnv, ghost h: State, smooth: bool) returns (ok: bool)
    requires Fresh(env, h) && Partial(env, h, host.state)
    requires Dumps(host.dump)
    modifies host
    ensures Partial(env, h, host.state)
    ensures ok ==> Wired(env, host.state) && forall r <- host.state.routes :: !KernelRoute(env, r)
    ensures ok ==> TablesReady(env, old(host.state), host.state)
    ensures smooth && SameWiring(old(host.state), h) ==> ok && SameWiring(host.state, SetUpHost(env, h))
  {
    var gatewayFound: bool := *;
    if !gatewayFound && !smooth {
      return false;
    }
    ok := WireLinks(host, env, h, smooth);
    if ok {
      ok := GiveAddress(host, env, h, smooth);
    }
  }

  // ---- The packet chain ----

  /** Dnat rules are for the host's own nat list; everything else is for the namespace. */
  function HostCommand(env: NetEnv, c: Iptables.Command): Command {
    match c
    case Dnat(device, mac) => NatAppend(Iptables.NatRule(device, mac))
    case _ => InChain(env.netns, c)
  }

  function HostCommands(env: NetEnv, commands: seq<Iptables.Command>): seq<Command> {
    seq(|commands|, i requires 0 <= i < |commands| => HostCommand(env, commands[i]))
  }

  /** The host after the packet commands: new tables in the namespace, more rules in the nat list. */
  predicate Chained(env: NetEnv, s: State, commands: seq<Iptables.Command>, t: State)
    requires env.netns in s.netns
  {
    var tables := IptablesLaws.RunAllIn(s.netns[env.netns], commands, MULTIPORT);
    && tables.Some?
    && t.netns == s.netns[env.netns := tables.value]
    && t.links == s.links && t.routes == s.routes
    && t.natTable == s.natTable + IptablesLaws.Dnats(commands)
  }

  lemma ChainStep(env: NetEnv, s: State, c: Iptables.Command, t: State)
    requires env.netns in s.netns && Ran(s, HostCommand(env, c), false, t, true)
    ensures Iptables.RunIn(s.netns[env.netns], c, MULTIPORT).Some?
    ensures t.netns == s.netns[env.netns := Iptables.RunIn(s.netns[env.netns], c, MULTIPORT).value]
    ensures t.links == s.links && t.routes == s.routes
    ensures t.natTable == s.natTable + if c.Dnat? then [Iptables.NatRule(c.device, c.mac)] else []
  {
  }

  lemma HostCommandsMore(env: NetEnv, commands: seq<Iptables.Command>)
    requires commands != []
    ensures var n := |commands| - 1;
            var all := HostCommands(env, commands);
            all != [] && all[..|all| - 1] == HostCommands(env, commands[..n]) && all[|all| - 1] == HostCommand(env, commands[n])
  {
  }

  lemma {:induction false} ChainRuns(env: NetEnv, s: State, commands: seq<Iptables.Command>, t: State)
    requires env.netns in s.netns && RanWell(s, HostCommands(env, commands), t)
    ensures Chained(env, s, commands, t)
  {
    if commands != [] {
      var init, last := commands[..|commands| - 1], commands[|commands| - 1];
      HostCommandsMore(env, commands);
      var u :| RanWell(s, HostCommands(env, init), u) && Ran(u, HostCommand(env, last), false, t, true);
      ChainRuns(env, s, init, u);
      ChainStep(env, u, last, t);
    }
  }

  /** Packet commands that the tables take one after the other do not get stuck. */
  lemma ChainNotStuck(env: NetEnv, s: State, commands: seq<Iptables.Command>, k: nat)
    requires env.netns in s.netns
    requires IptablesLaws.RunAllIn(s.netns[env.netns], commands, MULTIPORT).Some?
    ensures !StuckAt(s, HostCommands(env, commands), k)
  {
    var all := HostCommands(env, commands);
    if StuckAt(s, all, k) {
      var u :| RanWell(s, all[..k], u) && !Applicable(u, all[k]);
      assert all[..k] == HostCommands(env, commands[..k]);
      ChainRuns(env, s, commands[..k], u);
      IptablesLaws.RunAllInStep(s.netns[env.netns], commands, k, MULTIPORT);
      assert false;
    }
  }

  /** Runs packet commands in the namespace, and their dnat rules on the host. */
  method RunChain(host: Machine, env: NetEnv, commands: seq<Iptables.Command>, smooth: bool, ghost h: State) returns (ok: bool)
    requires Fresh(env, h) && Partial(env, h, host.state) && env.netns in host.state.netns
    modifies host
    ensures Partial(env, h, host.state)
    ensures ok ==> Chained(env, old(host.state), commands, host.state)
    ensures smooth && IptablesLaws.RunAllIn(old(host.state).netns[env.netns], commands, MULTIPORT).Some? ==> ok
  {
    ok := ExecuteAll(host, HostCommands(env, commands), smooth);
    ghost var none: seq<Command> := [];
    assert Progress(env, h, old(host.state), none);
    ExecutedKeepsProgress(env, h, old(host.state), none, HostCommands(env, commands), host.state, ok);
    if ok {
      ChainRuns(env, old(host.state), commands, host.state);
    } else if smooth && IptablesLaws.RunAllIn(old(host.state).netns[env.netns], commands, MULTIPORT).Some? {
      ghost var k: nat :| StuckAt(old(host.state), HostCommands(env, commands), k);
      ChainNotStuck(env, old(host.state), commands, k);
    }
  }

  // ---- All of it ----

  /** What a running generation's host does: the packet path stands and the tables serve the configuration. */
  ghost predicate Proxying(env: NetEnv, s: State, ports: Option<seq<Port>>, listenPort: Port, safe: bool) {
    && IptablesLaws.Usable(ports, MULTIPORT)
    && Wired(env, s)
    && IptablesLaws.Serves(s.netns[env.netns], ports, listenPort, safe, WithPrefix(env.ip.ip, env.ip.prefix))
  }

  /** The lists for the proxy rules and the safe rules. */
  function ProxyList(env: NetEnv, ports: Option<seq<Port>>, listenPort: Port, mac: string): seq<Iptables.Command> {
    Iptables.SetIptables(env.device, IptablesLaws.JoinedPorts(ports), Decimal(listenPort), mac)
  }

  function SafeList(env: NetEnv, mac: string): seq<Iptables.Command> {
    Iptables.SetIptablesSafe(env.device, WithPrefix(env.ip.ip, env.ip.prefix), mac)
  }

  /** Fresh tables take the proxy rules exactly for a usable port list, and the safe rules after them. */
  lemma ListsRun(env: NetEnv, ports: Option<seq<Port>>, listenPort: Port, mac: string)
    ensures var proxy := IptablesLaws.RunAllIn(Iptables.FRESH_TABLES, ProxyList(env, ports, listenPort, mac), MULTIPORT);
            && (proxy.Some? <==> IptablesLaws.Usable(ports, MULTIPORT))
            && (proxy.Some? ==> IptablesLaws.RunAllIn(proxy.value, SafeList(env, mac), MULTIPORT).Some?)
  {
    var ip := WithPrefix(env.ip.ip, env.ip.prefix);
    var proxy := ProxyList(env, ports, listenPort, mac);
    IptablesLaws.ListEffects(env.device, ports, listenPort, false, ip, mac, MULTIPORT);
    assert proxy + [] == proxy;
    IptablesLaws.ListEffects(env.device, ports, listenPort, true, ip, mac, MULTIPORT);
    IptablesLaws.RunAllInSum(Iptables.FRESH_TABLES, proxy, SafeList(env, mac), MULTIPORT);
  }

  /** The lists that ran leave tables that serve the configuration, and their dnat rules. */
  lemma ListsServe(env: NetEnv, ports: Option<seq<Port>>, listenPort: Port, safe: bool, mac: string, s: State, u: State, t: State)
    requires env.netns in s.netns && s.netns[env.netns] == Iptables.FRESH_TABLES
    requires Chained(env, s, ProxyList(env, ports, listenPort, mac), u)
    requires if safe then Chained(env, u, SafeList(env, mac), t) else t == u
    ensures IptablesLaws.Usable(ports, MULTIPORT)
    ensures env.netns in t.netns
    ensures IptablesLaws.Serves(t.netns[env.netns], ports, listenPort, safe, WithPrefix(env.ip.ip, env.ip.prefix))
    ensures t.natTable == s.natTable + IptablesLaws.NatRules(env.device, mac, safe)
    ensures t.links == s.links && t.routes == s.routes
  {
    var ip := WithPrefix(env.ip.ip, env.ip.prefix);
    var proxy, rest := ProxyList(env, ports, listenPort, mac), SafeList(env, mac);
    ListsRun(env, ports, listenPort, mac);
    IptablesLaws.ListServes(env.device, ports, listenPort, safe, ip, mac, MULTIPORT);
    IptablesLaws.ListEffects(env.device, ports, listenPort, safe, ip, mac, MULTIPORT);
    if safe {
      IptablesLaws.RunAllInSum(Iptables.FRESH_TABLES, proxy, rest, MULTIPORT);
      IptablesLaws.OfSum(proxy, rest);
      assert s.natTable + IptablesLaws.Dnats(proxy) + IptablesLaws.Dnats(rest)
             == s.natTable + (IptablesLaws.Dnats(proxy) + IptablesLaws.Dnats(rest));
    } else {
      assert proxy + [] == proxy;
    }
  }

  /** The proxy rules, then in safe mode the safe rules. */
  method RunLists(host: Machine, env: NetEnv, ports: Option<seq<Port>>, listenPort: Port, safe: bool, smooth: bool, ghost h: State)
    returns (ok: bool)
    requires Fresh(env, h) && Partial(env, h, host.state)
    requires env.netns in host.state.netns && host.state.netns[env.netns] == Iptables.FRESH_TABLES
    modifies host
    ensures Partial(env, h, host.state)
    ensures ok ==>
              && IptablesLaws.Usable(ports, MULTIPORT) && env.netns in host.state.netns
              && IptablesLaws.Serves(host.state.netns[env.netns], ports, listenPort, safe, WithPrefix(env.ip.ip, env.ip.prefix))
              && host.state.natTable == old(host.state).natTable + IptablesLaws.NatRules(env.device, host.mac(env.veth4), safe)
              && (host.state.links, host.state.routes) == (old(host.state).links, old(host.state).routes)
    ensures smooth && IptablesLaws.Usable(ports, MULTIPORT) ==> ok
  {
    var mac := host.mac(env.veth4);
    ListsRun(env, ports, listenPort, mac);
    ok := RunChain(host, env, ProxyList(env, ports, listenPort, mac), smooth, h);
    if !ok {
      return;
    }
    ghost var u := host.state;
    if safe {
      ok := RunChain(host, env, SafeList(env, mac), smooth, h);
      if !ok {
        return;
      }
    }
    ListsServe(env, ports, listenPort, safe, mac, old(host.state), u, host.state);
  }

  /** The path does not depend on tables, routes and rules. */
  lemma WiredAlike(env: NetEnv, s: State, t: State)
    requires Wired(env, s) && t.links == s.links && env.netns in t.netns
    ensures Wired(env, t)
  {
  }

  /** The rules on a wired host with fresh tables. */
  method ServePackets(host: Machine, env: NetEnv, ports: Option<seq<Port>>, listenPort: Port, safe: bool, smooth: bool, ghost h: State)
    returns (ok: bool)
    requires Fresh(env, h) && Partial(env, h, host.state) && Wired(env, host.state)
    requires host.state.netns[env.netns] == Iptables.FRESH_TABLES
    modifies host
    ensures Partial(env, h, host.state)
    ensures ok ==> Proxying(env, host.state, ports, listenPort, safe)
    ensures ok ==> host.state.natTable == old(host.state).natTable + IptablesLaws.NatRules(env.device, host.mac(env.veth4), safe)
    ensures ok ==> (host.state.links, host.state.routes) == (old(host.state).links, old(host.state).routes)
    ensures smooth && IptablesLaws.Usable(ports, MULTIPORT) ==> ok
  {
    ok := RunLists(host, env, ports, listenPort, safe, smooth, h);
    if ok {
      WiredAlike(env, old(host.state), host.state);
    }
  }

  /** Restores the resolver's configuration; a failure is ignored. */
  method RestoreResolver(host: Machine)
    modifies host
    ensures host.state == old(host.state)
  {
    ExecuteAllWithLogError(host, [Tune(Copy, None)], false);
    var _ := RanOne(old(host.state), Tune(Copy, None), false, host.state);
  }

  /**
   Bridge, then the proxy rules, then the safe rules. On success packets fare as the configuration says and the
   nat list ends with the rules for the moved address. It succeeds if nothing fails without a reason, exactly for a
   usable port list.
   */
  method SetNet(host: Machine, env: NetEnv, ghost h: State, ports: Option<seq<Port>>, listenPort: Port, safe: bool, smooth: bool)
    returns (ok: bool)
    requires Fresh(env, h) && Partial(env, h, host.state) && Dumps(host.dump)
    modifies host
    ensures Partial(env, h, host.state)
    ensures ok ==> Proxying(env, host.state, ports, listenPort, safe)
    ensures ok ==> host.state.natTable == old(host.state).natTable + IptablesLaws.NatRules(env.device, host.mac(env.veth4), safe)
    ensures ok ==> forall r <- host.state.routes :: !KernelRoute(env, r)
    ensures smooth && SameWiring(old(host.state), h) && IptablesLaws.Usable(ports, MULTIPORT) ==>
              ok && host.state.links == SetUpHost(env, h).links
  {
    ok := SetenvBridge(host, env, h, smooth);
    if ok {
      ok := ServePackets(host, env, ports, listenPort, safe, smooth, h);
    }
    if ok {
      RestoreResolver(host);
      var gatewayFound: bool := *;
      ok := gatewayFound || smooth;
    }
  }
}
