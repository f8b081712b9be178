/** Rewiring the host through a bridge and a namespace, and undoing it from any point of the setup. */
module Bridge {
  import opened Wrappers
  import opened Host
  import opened AddressText
  import Iptables

  datatype NetEnv = NetEnv(
    netns: Name, device: Name, ip: Address,
    bridge1: Name, bridge2: Name,
    veth1: Name, veth2: Name, veth3: Name, veth4: Name,
    saveRoutes: seq<Route>)
  {
    /** A link of the proxy's namespace. */
    function Inside(name: Name): LinkId {
      LinkId(Some(netns), name)
    }
  }

  function Reverse<T>(s: seq<T>): seq<T> {
    if s == [] then [] else Reverse(s[1..]) + [s[0]]
  }

  const KEY_LENGTH := 13

  /** The environment built from a random key, the default device and the current routes. */
  function Named(key: string, device: Name, ip: Address, routes: seq<Route>): NetEnv {
    NetEnv(key + "ns", device, ip, key + "b1", key + "b2", key + "v1", "veth0", "veth1", key + "v4", Reverse(routes))
  }

  predicate Separate(env: NetEnv) {
    && env.bridge1 != env.veth1 && env.bridge1 != env.veth4 && env.veth1 != env.veth4
    && env.veth2 != env.veth3 && env.bridge2 != env.veth2 && env.bridge2 != env.veth3
    && env.veth2 != "lo" && env.veth3 != "lo" && env.bridge2 != "lo"
  }

  lemma NamesSeparate(key: string, device: Name, ip: Address, routes: seq<Route>)
    requires |key| == KEY_LENGTH
    ensures Separate(Named(key, device, ip, routes))
  {
    assert (key + "b1")[13] == 'b' && (key + "v1")[13] == 'v' && (key + "v4")[13] == 'v';
    assert (key + "v1")[14] == '1' && (key + "v4")[14] == '4';
    assert "veth0"[4] != "veth1"[4];
    assert |key + "b2"| == 15;
  }

  predicate WellFormed(s: State) {
    forall id <- s.links ::
      && HasNamespace(s, id.ns)
      && (s.links[id].peer.Some? ==> s.links[id].peer.value in s.links)
      && (s.links[id].master.Some? ==> LinkId(id.ns, s.links[id].master.value) in s.links)
  }

  /** A host on which none of the environment's names is taken and the device holds the address. */
  predicate Fresh(env: NetEnv, s: State) {
    && WellFormed(s) && Separate(env)
    && env.netns !in s.netns
    && Local(env.bridge1) !in s.links && Local(env.veth1) !in s.links && Local(env.veth4) !in s.links
    && Local(env.device) in s.links && env.ip in s.links[Local(env.device)].addresses
  }

  // ---- The commands ----

  function LinkCommands(env: NetEnv): seq<Command> {
    [ Tune(Copy, None),
      NetnsAdd(env.netns),
      AddBridge(Local(env.bridge1)),
      AddVeth(Local(env.veth1), env.Inside(env.veth2)),
      AddBridge(env.Inside(env.bridge2)),
      AddVeth(Local(env.veth4), env.Inside(env.veth3)),
      SetUp(Local(env.bridge1)),
      Tune(Sysctl, Some(env.bridge1)),
      Tune(Sysctl, Some(env.veth1)),
      Tune(Sysctl, Some(env.device)),
      SetUp(Local(env.veth1)),
      SetUp(env.Inside(env.veth2)),
      SetUp(env.Inside(env.bridge2)),
      SetUp(env.Inside(env.veth3)),
      SetUp(Local(env.veth4)),
      SetMaster(Local(env.device), env.bridge1),
      SetMaster(Local(env.veth1), env.bridge1),
      SetMaster(env.Inside(env.veth2), env.bridge2),
      SetMaster(env.Inside(env.veth3), env.bridge2),
      SetUp(env.Inside("lo")) ]
  }

  function AddressCommands(env: NetEnv): seq<Command> {
    [ AddressAdd(env.ip, env.veth4),
      Tune(Arp, Some(env.veth1)),
      Tune(Arp, Some(env.veth4)),
      Tune(Arp, Some(env.veth2)),
      Tune(Arp, Some(env.bridge2)),
      Tune(IpRoute, Some(env.veth4)),
      Tune(IpRoute, Some(env.bridge2)),
      Tune(IpRoute, Some(env.bridge2)),
      Tune(Sysctl, None),
      Tune(Sysctl, None),
      Tune(Sysctl, Some(env.bridge2)),
      Tune(Sysctl, Some(env.veth2)),
      Tune(Sysctl, Some(env.veth3)),
      Tune(Sysctl, None),
      Tune(Sysctl, None),
      Tune(IpRule, None),
      Tune(IpRoute, None) ]
  }

  function UndoCommands(env: NetEnv): seq<Command> {
    [ NetnsDelete(env.netns),
      DeleteBridge(env.bridge1),
      AddressAdd(env.ip, env.device),
      Tune(Copy, None),
      NatFlush ]
  }

  // ---- A completed setup ----

  /** The links a setup adds, all up, wired to each other. */
  function AddedLinks(env: NetEnv): map<LinkId, Link> {
    map[
      env.Inside("lo") := Link(None, None, true, {}),
      Local(env.bridge1) := Link(None, None, true, {}),
      Local(env.veth1) := Link(Some(env.Inside(env.veth2)), Some(env.bridge1), true, {}),
      env.Inside(env.veth2) := Link(Some(Local(env.veth1)), Some(env.bridge2), true, {}),
      env.Inside(env.bridge2) := Link(None, None, true, {}),
      Local(env.veth4) := Link(Some(env.Inside(env.veth3)), None, true, {env.ip}),
      env.Inside(env.veth3) := Link(Some(Local(env.veth4)), Some(env.bridge2), true, {})
    ]
  }

  /** The host `h` after a setup that ran to its end. */
  function SetUpHost(env: NetEnv, h: State): State
    requires Local(env.device) in h.links
  {
    var device := Local(env.device);
    var moved := h.links[device].(master := Some(env.bridge1), addresses := h.links[device].addresses - {env.ip});
    h.(netns := h.netns[env.netns := Iptables.FRESH_TABLES], links := h.links[device := moved] + AddedLinks(env))
  }

  // ---- What every setup step keeps ----

  /** Commands a setup may run: they create and wire the environment's own links and move its address. */
  predicate Ours(env: NetEnv, c: Command) {
    match c
    case NetnsAdd(ns) => ns == env.netns
    case AddBridge(id) => id == Local(env.bridge1) || id == env.Inside(env.bridge2)
    case AddVeth(a, b) => (a == Local(env.veth1) || a == Local(env.veth4)) && b.ns == Some(env.netns)
    case SetUp(id) => Mine(env, id)
    case SetMaster(id, master) =>
      if id.ns.None? then master == env.bridge1 && (id == Local(env.device) || id == Local(env.veth1))
      else master == env.bridge2 && id.ns == Some(env.netns)
    case AddressAdd(address, device) => address == env.ip && device == env.veth4
    case AddressDel(address, device) => address == env.ip && device == env.device
    case NatAppend(_) => true
    case InChain(ns, _) => ns == env.netns
    case Tune(_, _) => true
    case _ => false
  }

  predicate Mine(env: NetEnv, id: LinkId) {
    || id.ns == Some(env.netns)
    || id == Local(env.bridge1) || id == Local(env.veth1) || id == Local(env.veth4)
  }

  /** The device as it was, except perhaps enslaved and without its address. */
  predicate DeviceLike(env: NetEnv, before: Link, now: Link) {
    && now.(master := before.master, addresses := before.addresses) == before
    && (now.master == before.master || now.master == Some(env.bridge1))
    && (now.addresses == before.addresses || now.addresses == before.addresses - {env.ip})
  }

  /** How a link of a partly set up host relates to the original host `h`. */
  predicate Fits(env: NetEnv, h: State, netns: set<Name>, id: LinkId, link: Link) {
    if id == Local(env.device) && id in h.links then DeviceLike(env, h.links[id], link)
    else if id in h.links then link == h.links[id]
    else
      && Mine(env, id)
      && (id.ns.Some? ==> env.netns in netns)
      && (id == Local(env.bridge1) ==> link.peer.None?)
      && (id == Local(env.veth1) || id == Local(env.veth4) ==>
            env.netns in netns && link.peer.Some? && link.peer.value.ns == Some(env.netns))
  }

  /** A host somewhere between the original `h` and a completed setup. */
  ghost predicate Partial(env: NetEnv, h: State, s: State) {
    && (s.netns == h.netns || (env.netns in s.netns && s.netns - {env.netns} == h.netns))
    && (forall id <- s.links :: Fits(env, h, s.netns.Keys, id, s.links[id]))
    && (forall id <- h.links :: id in s.links)
    && (Enslaved(env, s) ==> Local(env.bridge1) in s.links)
  }

  /** The device is a port of the environment's bridge. */
  predicate Enslaved(env: NetEnv, s: State) {
    Local(env.device) in s.links && s.links[Local(env.device)].master == Some(env.bridge1)
  }

  /** Nothing of the original host bears one of the environment's names. */
  lemma FreshNames(env: NetEnv, h: State)
    requires Fresh(env, h)
    ensures forall id <- h.links ::
              && !Mine(env, id)
              && (h.links[id].peer.Some? ==> h.links[id].peer.value.ns != Some(env.netns))
              && (id.ns.None? ==> h.links[id].master != Some(env.bridge1))
  {
    forall id <- h.links
      ensures !Mine(env, id)
      ensures h.links[id].peer.Some? ==> h.links[id].peer.value.ns != Some(env.netns)
      ensures id.ns.None? ==> h.links[id].master != Some(env.bridge1)
    {
      assert h.links[id].peer.Some? ==> HasNamespace(h, h.links[id].peer.value.ns);
      assert id.ns.None? && h.links[id].master.Some? ==> Local(h.links[id].master.value) in h.links;
    }
  }

  lemma StartsPartial(env: NetEnv, h: State)
    requires Fresh(env, h)
    ensures Partial(env, h, h)
  {
  }

  /** In a partly set up host every link lies in an existing namespace. */
  lemma PartialIsHoused(env: NetEnv, h: State, s: State)
    requires Fresh(env, h) && Partial(env, h, s)
    ensures forall id <- s.links :: HasNamespace(s, id.ns)
  {
    forall id <- s.links ensures HasNamespace(s, id.ns) {
      assert Fits(env, h, s.netns.Keys, id, s.links[id]);
      assert id in h.links ==> HasNamespace(h, id.ns);
    }
  }

  lemma UpdateKeepsPartial(env: NetEnv, h: State, s: State, id: LinkId, link: Link)
    requires Partial(env, h, s)
    requires Fits(env, h, s.netns.Keys, id, link)
    requires id == Local(env.device) && link.master == Some(env.bridge1) ==> Local(env.bridge1) in s.links
    ensures Partial(env, h, s.(links := s.links[id := link]))
  {
  }

  lemma NamespaceKeepsPartial(env: NetEnv, h: State, s: State, tables: Iptables.Tables)
    requires Fresh(env, h) && Partial(env, h, s)
    ensures Partial(env, h, s.(netns := s.netns[env.netns := tables]))
  {
    var t := s.(netns := s.netns[env.netns := tables]);
    assert t.netns - {env.netns} == s.netns - {env.netns} == h.netns - {env.netns} == h.netns;
    forall id <- t.links ensures Fits(env, h, t.netns.Keys, id, t.links[id]) {
      assert Fits(env, h, s.netns.Keys, id, s.links[id]);
    }
  }

  lemma NamespaceEffectKeepsPartial(env: NetEnv, h: State, s: State, c: Command)
    requires Fresh(env, h) && Partial(env, h, s)
    requires (c.NetnsAdd? || c.InChain?) && Ours(env, c) && Applicable(s, c)
    ensures Partial(env, h, Effect(s, c))
  {
    FreshNames(env, h);
    match c
    case NetnsAdd(ns) =>
      NamespaceKeepsPartial(env, h, s, Iptables.FRESH_TABLES);
      UpdateKeepsPartial(env, h, s.(netns := s.netns[ns := Iptables.FRESH_TABLES]), env.Inside("lo"), NEW_LINK);
    case InChain(ns, command) =>
      NamespaceKeepsPartial(env, h, s, Iptables.RunIn(s.netns[ns], command, MULTIPORT).value);
  }

  lemma VethEffectKeepsPartial(env: NetEnv, h: State, s: State, a: LinkId, b: LinkId)
    requires Fresh(env, h) && Partial(env, h, s)
    requires Ours(env, AddVeth(a, b)) && Applicable(s, AddVeth(a, b))
    ensures Partial(env, h, Effect(s, AddVeth(a, b)))
  {
    FreshNames(env, h);
    UpdateKeepsPartial(env, h, s, a, NEW_LINK.(peer := Some(b)));
    UpdateKeepsPartial(env, h, s.(links := s.links[a := NEW_LINK.(peer := Some(b))]), b, NEW_LINK.(peer := Some(a)));
  }

  lemma AddressEffectKeepsPartial(env: NetEnv, h: State, s: State, c: Command)
    requires Fresh(env, h) && Partial(env, h, s)
    requires (c.AddressAdd? || c.AddressDel?) && Ours(env, c) && Applicable(s, c)
    ensures Partial(env, h, Effect(s, c))
  {
    var id := Local(c.device);
    var link := s.links[id];
    FreshNames(env, h);
    match c
    case AddressAdd(address, _) =>
      UpdateKeepsPartial(env, h, s, id, link.(addresses := link.addresses + {address}));
    case AddressDel(address, _) =>
      UpdateKeepsPartial(env, h, s, id, link.(addresses := link.addresses - {address}));
  }

  lemma LinkEffectKeepsPartial(env: NetEnv, h: State, s: State, c: Command)
    requires Fresh(env, h) && Partial(env, h, s)
    requires (c.AddBridge? || c.SetUp? || c.SetMaster?) && Ours(env, c) && Applicable(s, c)
    ensures Partial(env, h, Effect(s, c))
  {
    FreshNames(env, h);
    match c
    case AddBridge(id) =>
      UpdateKeepsPartial(env, h, s, id, NEW_LINK);
    case SetUp(id) =>
      UpdateKeepsPartial(env, h, s, id, s.links[id].(up := true));
    case SetMaster(id, master) =>
      UpdateKeepsPartial(env, h, s, id, s.links[id].(master := Some(master)));
  }

  lemma EffectKeepsPartial(env: NetEnv, h: State, s: State, c: Command)
    requires Fresh(env, h) && Partial(env, h, s)
    requires Ours(env, c) && Applicable(s, c)
    ensures Partial(env, h, Effect(s, c))
  {
    if c.NetnsAdd? || c.InChain? {
      NamespaceEffectKeepsPartial(env, h, s, c);
    } else if c.AddVeth? {
      VethEffectKeepsPartial(env, h, s, c.a, c.b);
    } else if c.AddressAdd? || c.AddressDel? {
      AddressEffectKeepsPartial(env, h, s, c);
    } else if c.AddBridge? || c.SetUp? || c.SetMaster? {
      LinkEffectKeepsPartial(env, h, s, c);
    }
  }

  lemma RanKeepsPartial(env: NetEnv, h: State, s: State, c: Command, lossless: bool, t: State, ok: bool)
    requires Fresh(env, h) && Partial(env, h, s)
    requires Ours(env, c) && Ran(s, c, lossless, t, ok)
    ensures Partial(env, h, t)
  {
    if Applicable(s, c) {
      EffectKeepsPartial(env, h, s, c);
    }
  }

  // ---- What a completed setup amounts to ----

  /** The command's effect is in force. */
  predicate InForce(s: State, c: Command) {
    match c
    case NetnsAdd(ns) => ns in s.netns
    case AddBridge(id) => id in s.links
    case AddVeth(a, b) => ArePeers(s, a, b)
    case SetUp(id) => IsUp(s, id)
    case SetMaster(id, master) => HasMaster(s, id, master)
    case AddressAdd(address, device) => HasAddress(s, Local(device), address)
    case _ => true
  }

  /** No setup command takes back what another one did. */
  lemma EffectKeepsInForce(env: NetEnv, s: State, c: Command, d: Command)
    requires Ours(env, c) && Ours(env, d) && Applicable(s, d) && env.device != env.veth4
    requires forall id <- s.links :: HasNamespace(s, id.ns)
    requires InForce(s, c)
    ensures InForce(Effect(s, d), c)
  {
  }

  lemma EffectTakesForce(env: NetEnv, s: State, c: Command)
    requires Ours(env, c) && Applicable(s, c)
    ensures InForce(Effect(s, c), c)
  {
  }

  predicate IsUp(s: State, id: LinkId) {
    id in s.links && s.links[id].up
  }

  predicate HasMaster(s: State, id: LinkId, master: Name) {
    id in s.links && s.links[id].master == Some(master)
  }

  predicate ArePeers(s: State, a: LinkId, b: LinkId) {
    a in s.links && b in s.links && s.links[a].peer == Some(b) && s.links[b].peer == Some(a)
  }

  predicate HasAddress(s: State, id: LinkId, address: Address) {
    id in s.links && address in s.links[id].addresses
  }

  /** The path from the device to the moved address: bridge, veth pair into the namespace, bridge, veth pair out. */
  predicate Wired(env: NetEnv, s: State) {
    && env.netns in s.netns
    && HasMaster(s, Local(env.device), env.bridge1) && HasMaster(s, Local(env.veth1), env.bridge1)
    && ArePeers(s, Local(env.veth1), env.Inside(env.veth2))
    && HasMaster(s, env.Inside(env.veth2), env.bridge2) && HasMaster(s, env.Inside(env.veth3), env.bridge2)
    && ArePeers(s, Local(env.veth4), env.Inside(env.veth3))
    && HasAddress(s, Local(env.veth4), env.ip)
    && IsUp(s, Local(env.bridge1)) && IsUp(s, Local(env.veth1)) && IsUp(s, Local(env.veth4))
    && IsUp(s, env.Inside(env.bridge2)) && IsUp(s, env.Inside(env.veth2)) && IsUp(s, env.Inside(env.veth3))
  }

  // ---- Running command lists ----

  /** What must hold while a setup runs; `done` are the commands whose effect is already in force. */
  ghost predicate Progress(env: NetEnv, h: State, s: State, done: seq<Command>) {
    && Fresh(env, h) && Partial(env, h, s)
    && forall c <- done :: Ours(env, c) && InForce(s, c)
  }

  lemma RanKeepsInForce(env: NetEnv, s: State, done: seq<Command>, c: Command, lossless: bool, t: State, ok: bool)
    requires env.device != env.veth4 && forall id <- s.links :: HasNamespace(s, id.ns)
    requires forall d <- done :: Ours(env, d) && InForce(s, d)
    requires Ours(env, c) && Ran(s, c, lossless, t, ok)
    ensures forall d <- done :: InForce(t, d)
    ensures ok ==> InForce(t, c)
  {
    if Applicable(s, c) {
      EffectTakesForce(env, s, c);
      forall d <- done ensures InForce(Effect(s, c), d) {
        EffectKeepsInForce(env, s, d, c);
      }
    }
    forall d <- done + [c], u: State | SameButRoutes(t, u) && InForce(u, d) ensures InForce(t, d) {
    }
  }

  lemma RanKeepsProgress(env: NetEnv, h: State, s: State, done: seq<Command>, c: Command, lossless: bool, t: State, ok: bool)
    requires Progress(env, h, s, done) && Ours(env, c) && Ran(s, c, lossless, t, ok)
    ensures Progress(env, h, t, if ok then done + [c] else done)
  {
    PartialIsHoused(env, h, s);
    RanKeepsPartial(env, h, s, c, lossless, t, ok);
    RanKeepsInForce(env, s, done, c, lossless, t, ok);
  }

  /** All commands ran in order and each was reported as successful. */
  ghost predicate RanWell(s: State, commands: seq<Command>, t: State) {
    if commands == [] then t == s
    else
      var init, last := commands[..|commands| - 1], commands[|commands| - 1];
      exists u :: RanWell(s, init, u) && Ran(u, last, false, t, true)
  }

  lemma RanWellMore(s: State, init: seq<Command>, u: State, last: Command, t: State)
    requires RanWell(s, init, u) && Ran(u, last, false, t, true)
    ensures RanWell(s, init + [last], t)
  {
    var all := init + [last];
    assert all[..|all| - 1] == init && all[|all| - 1] == last;
  }

  /** The first `k` commands ran well, the next one was reported as failed, and none after it ran. */
  ghost predicate StoppedAt(s: State, commands: seq<Command>, k: nat, t: State) {
    k < |commands| && exists u :: RanWell(s, commands[..k], u) && Ran(u, commands[k], false, t, false)
  }

  /** Either all commands ran well, or the run stopped at the first one reported as failed. */
  ghost predicate Executed(s: State, commands: seq<Command>, t: State, ok: bool) {
    if ok then RanWell(s, commands, t) else exists k :: StoppedAt(s, commands, k, t)
  }

  /** After the first `k` commands the next one cannot be carried out. */
  ghost predicate StuckAt(s: State, commands: seq<Command>, k: nat) {
    k < |commands| && exists u :: RanWell(s, commands[..k], u) && !Applicable(u, commands[k])
  }

  lemma RanWellThen(s: State, commands: seq<Command>, i: nat, u: State, t: State, ok: bool)
    requires i < |commands| && RanWell(s, commands[..i], u) && Ran(u, commands[i], false, t, ok)
    ensures if ok then RanWell(s, commands[..i + 1], t) else Executed(s, commands, t, false)
    ensures !Applicable(u, commands[i]) ==> StuckAt(s, commands, i)
  {
    if ok {
      RanWellMore(s, commands[..i], u, commands[i], t);
      assert commands[..i + 1] == commands[..i] + [commands[i]];
    } else {
      assert StoppedAt(s, commands, i, t);
    }
  }

  /** Runs the commands in order and stops at the first one reported as failed. */
  method ExecuteAll(host: Machine, commands: seq<Command>, smooth: bool) returns (ok: bool)
    modifies host
    ensures Executed(old(host.state), commands, host.state, ok)
    ensures smooth && !ok ==> exists k :: StuckAt(old(host.state), commands, k)
  {
    for i := 0 to |commands|
      invariant RanWell(old(host.state), commands[..i], host.state)
    {
      ghost var before := host.state;
      ok := host.Execute(commands[i], false, smooth);
      RanWellThen(old(host.state), commands, i, before, host.state, ok);
      if !ok {
        return;
      }
    }
    assert commands[..|commands|] == commands;
    return true;
  }

  lemma AppendLast<T>(a: seq<T>, b: seq<T>)
    requires b != []
    ensures a + b == a + b[..|b| - 1] + [b[|b| - 1]]
  {
  }

  lemma {:induction false} RanWellKeepsProgress(env: NetEnv, h: State, s: State, done: seq<Command>, commands: seq<Command>, t: State)
    requires Progress(env, h, s, done) && forall c <- commands :: Ours(env, c)
    requires RanWell(s, commands, t)
    ensures Progress(env, h, t, done + commands)
  {
    if commands == [] {
      assert done + commands == done;
    } else {
      var init, last := commands[..|commands| - 1], commands[|commands| - 1];
      var u :| RanWell(s, init, u) && Ran(u, last, false, t, true);
      RanWellKeepsProgress(env, h, s, done, init, u);
      RanKeepsProgress(env, h, u, done + init, last, false, t, true);
      AppendLast(done, commands);
    }
  }

  /** Wherever the run stops the host stays partly set up; if all went well every command is in force. */
  lemma ExecutedKeepsProgress(env: NetEnv, h: State, s: State, done: seq<Command>, commands: seq<Command>, t: State, ok: bool)
    requires Progress(env, h, s, done) && forall c <- commands :: Ours(env, c)
    requires Executed(s, commands, t, ok)
    ensures Progress(env, h, t, if ok then done + commands else done)
  {
    if ok {
      RanWellKeepsProgress(env, h, s, done, commands, t);
    } else {
      var k: nat :| StoppedAt(s, commands, k, t);
      var u :| RanWell(s, commands[..k], u) && Ran(u, commands[k], false, t, false);
      RanWellKeepsProgress(env, h, s, done, commands[..k], u);
      RanKeepsProgress(env, h, u, done + commands[..k], commands[k], false, t, false);
      assert forall c <- done :: c in done + commands[..k];
    }
  }

  function Forced(s: State, c: Command): State {
    if Applicable(s, c) then Effect(s, c) else s
  }

  function ForcedAll(s: State, commands: seq<Command>): State {
    if commands == [] then s
    else Forced(ForcedAll(s, commands[..|commands| - 1]), commands[|commands| - 1])
  }

  /** All commands ran in order, whatever became of each. */
  ghost predicate RanAll(s: State, commands: seq<Command>, lossless: bool, t: State) {
    if commands == [] then t == s
    else
      var init, last := commands[..|commands| - 1], commands[|commands| - 1];
      exists u :: RanAll(s, init, lossless, u) && Leads(u, last, lossless, t)
  }

  ghost predicate Leads(s: State, c: Command, lossless: bool, t: State) {
    exists ok :: Ran(s, c, lossless, t, ok)
  }

  lemma RanMore(s: State, init: seq<Command>, lossless: bool, u: State, last: Command, t: State)
    requires RanAll(s, init, lossless, u) && Leads(u, last, lossless, t)
    ensures RanAll(s, init + [last], lossless, t)
  {
    var all := init + [last];
    assert all[..|all| - 1] == init;
    assert RanAll(s, all[..|all| - 1], lossless, u) && Leads(u, all[|all| - 1], lossless, t);
  }

  lemma RanOne(s: State, c: Command, lossless: bool, t: State) returns (ok: bool)
    requires RanAll(s, [c], lossless, t)
    ensures Ran(s, c, lossless, t, ok)
  {
    ok :| Ran(s, c, lossless, t, ok);
  }

  lemma ForcedAlike(s: State, u: State, c: Command, t: State)
    requires SameButRoutes(u, s) && Leads(u, c, true, t)
    ensures SameButRoutes(t, Forced(s, c))
  {
    assert Applicable(u, c) <==> Applicable(s, c);
  }

  /** Lossless commands leave the host, routes aside, as if each had taken effect where it can. */
  lemma {:induction false} LosslessIsForced(s: State, commands: seq<Command>, t: State)
    requires RanAll(s, commands, true, t)
    ensures SameButRoutes(t, ForcedAll(s, commands))
  {
    if commands != [] {
      var init, last := commands[..|commands| - 1], commands[|commands| - 1];
      var u :| RanAll(s, init, true, u) && Leads(u, last, true, t);
      LosslessIsForced(s, init, u);
      ForcedAlike(ForcedAll(s, init), u, last, t);
    }
  }

  /** Runs all commands, ignoring failures; `lossless` runs take effect wherever they can. */
  method ExecuteAllWithLogError(host: Machine, commands: seq<Command>, lossless: bool)
    modifies host
    ensures RanAll(old(host.state), commands, lossless, host.state)
  {
    for i := 0 to |commands|
      invariant RanAll(old(host.state), commands[..i], lossless, host.state)
    {
      ghost var before := host.state;
      var _ := host.Execute(commands[i], lossless, false);
      RanMore(old(host.state), commands[..i], lossless, before, commands[i], host.state);
      assert commands[..i + 1] == commands[..i] + [commands[i]];
    }
    assert commands[..|commands|] == commands;
  }

  // ---- Setup ----

  /** A route without gateway whose source, as text, occurs in the text of the moved address. */
  predicate KernelRoute(env: NetEnv, r: Route) {
    && r.gateway.None? && r.source.Some?
    && Contains(WithPrefix(env.ip.ip, env.ip.prefix), Dotted(r.source.value))
  }

  /** The text test comes down to the four bytes of both addresses. */
  lemma KernelRouteIff(env: NetEnv, r: Route)
    ensures KernelRoute(env, r) <==> r.gateway.None? && r.source.Some? && Lookalike(env.ip.ip, r.source.value)
  {
    if r.source.Some? {
      OccursIff(env.ip.ip, env.ip.prefix, r.source.value);
    }
  }

  /** Corollary: the moved address itself is always recognized. */
  lemma OwnRoutesRecognized(env: NetEnv, r: Route)
    requires r.gateway.None? && r.source == Some(env.ip.ip)
    ensures KernelRoute(env, r)
  {
    KernelRouteIff(env, r);
  }

  /** A route is recognized only if it names exactly the moved address as its source. */
  predicate RecognizesOnlyOwn(env: NetEnv, r: Route) {
    KernelRoute(env, r) ==> r.source == Some(env.ip.ip)
  }

  /** Only routes of the moved address are recognized if and only if its first and last byte have one digit each. */
  lemma RecognitionExactIff(env: NetEnv)
    requires env.ip.ip < ADDRESSES
    ensures (forall r: Route :: r.source.Some? && r.source.value < ADDRESSES ==> RecognizesOnlyOwn(env, r))
            <==> QuadOf(env.ip.ip).a < 10 && QuadOf(env.ip.ip).d < 10
  {
    var moved := env.ip.ip;
    NoLookalikeIff(moved);
    if QuadOf(moved).a < 10 && QuadOf(moved).d < 10 {
      forall r: Route | r.source.Some? && r.source.value < ADDRESSES ensures RecognizesOnlyOwn(env, r) {
        KernelRouteIff(env, r);
      }
    } else {
      ImpostorIsTaken(moved);
      var r := Route(env.ip, None, false, env.device, Some(Impostor(moved)));
      KernelRouteIff(env, r);
      assert !RecognizesOnlyOwn(env, r);
    }
  }

  /** For example, with 10.0.0.12 moved a route with source 10.0.0.1 counts as well. */
  lemma OthersRecognized(env: NetEnv, r: Route)
    requires env.ip.ip == Number(Quad(10, 0, 0, 12))
    requires r.gateway.None? && r.source == Some(Number(Quad(10, 0, 0, 1)))
    ensures KernelRoute(env, r)
  {
    QuadOfNumber(Quad(10, 0, 0, 12));
    QuadOfNumber(Quad(10, 0, 0, 1));
    LastDigit(12);
    KernelRouteIff(env, r);
  }

  function KernelRoutes(env: NetEnv, routes: seq<Route>): (r: seq<Route>)
    ensures forall x :: x in r <==> x in routes && KernelRoute(env, x)
  {
    if routes == [] then []
    else
      var last := routes[|routes| - 1];
      KernelRoutes(env, routes[..|routes| - 1]) + if KernelRoute(env, last) then [last] else []
  }

  lemma SetupIsOurs(env: NetEnv)
    requires Separate(env)
    ensures forall c <- LinkCommands(env) :: Ours(env, c)
    ensures forall c <- AddressCommands(env) :: Ours(env, c)
  {
    var links := LinkCommands(env);
    forall i | 0 <= i < |links| ensures Ours(env, links[i]) {
    }
    var addresses := AddressCommands(env);
    forall i | 0 <= i < |addresses| ensures Ours(env, addresses[i]) {
    }
  }

  lemma InForceAt(s: State, commands: seq<Command>, i: nat, c: Command)
    requires forall d <- commands :: InForce(s, d)
    requires i < |commands| && commands[i] == c
    ensures InForce(s, c)
  {
  }

  lemma NamespaceInForce(env: NetEnv, s: State)
    requires forall c <- LinkCommands(env) :: InForce(s, c)
    ensures env.netns in s.netns
  {
    InForceAt(s, LinkCommands(env), 1, NetnsAdd(env.netns));
  }

  lemma PeersInForce(env: NetEnv, s: State)
    requires forall c <- LinkCommands(env) :: InForce(s, c)
    ensures ArePeers(s, Local(env.veth1), env.Inside(env.veth2))
    ensures ArePeers(s, Local(env.veth4), env.Inside(env.veth3))
  {
    var c := LinkCommands(env);
    InForceAt(s, c, 3, AddVeth(Local(env.veth1), env.Inside(env.veth2)));
    InForceAt(s, c, 5, AddVeth(Local(env.veth4), env.Inside(env.veth3)));
  }

  lemma UpInForce(env: NetEnv, s: State)
    requires forall c <- LinkCommands(env) :: InForce(s, c)
    ensures IsUp(s, Local(env.bridge1)) && IsUp(s, Local(env.veth1)) && IsUp(s, Local(env.veth4))
  {
    var c := LinkCommands(env);
    InForceAt(s, c, 6, SetUp(Local(env.bridge1)));
    InForceAt(s, c, 10, SetUp(Local(env.veth1)));
    InForceAt(s, c, 14, SetUp(Local(env.veth4)));
  }

  lemma UpInsideInForce(env: NetEnv, s: State)
    requires forall c <- LinkCommands(env) :: InForce(s, c)
    ensures IsUp(s, env.Inside(env.bridge2)) && IsUp(s, env.Inside(env.veth2)) && IsUp(s, env.Inside(env.veth3))
  {
    var c := LinkCommands(env);
    InForceAt(s, c, 11, SetUp(env.Inside(env.veth2)));
    InForceAt(s, c, 12, SetUp(env.Inside(env.bridge2)));
    InForceAt(s, c, 13, SetUp(env.Inside(env.veth3)));
  }

  lemma MastersInForce(env: NetEnv, s: State)
    requires forall c <- LinkCommands(env) :: InForce(s, c)
    ensures HasMaster(s, Local(env.device), env.bridge1) && HasMaster(s, Local(env.veth1), env.bridge1)
    ensures HasMaster(s, env.Inside(env.veth2), env.bridge2) && HasMaster(s, env.Inside(env.veth3), env.bridge2)
  {
    var c := LinkCommands(env);
    InForceAt(s, c, 15, SetMaster(Local(env.device), env.bridge1));
    InForceAt(s, c, 16, SetMaster(Local(env.veth1), env.bridge1));
    InForceAt(s, c, 17, SetMaster(env.Inside(env.veth2), env.bridge2));
    InForceAt(s, c, 18, SetMaster(env.Inside(env.veth3), env.bridge2));
  }

  lemma InForceMeansWired(env: NetEnv, s: State)
    requires forall c <- LinkCommands(env) :: InForce(s, c)
    requires InForce(s, AddressAdd(env.ip, env.veth4))
    ensures Wired(env, s)
  {
    NamespaceInForce(env, s);
    PeersInForce(env, s);
    UpInForce(env, s);
    UpInsideInForce(env, s);
    MastersInForce(env, s);
  }

  // ---- Undo ----

  /** The links after an undo: the original ones, except that an enslaved device ends up without a master. */
  function LinksAfterUndo(env: NetEnv, h: State, s: State): map<LinkId, Link>
    requires Local(env.device) in h.links
  {
    var device := Local(env.device);
    if Enslaved(env, s) then h.links[device := h.links[device].(master := None)] else h.links
  }

  lemma NamespaceGone(env: NetEnv, h: State, s: State)
    requires Fresh(env, h) && Partial(env, h, s)
    ensures var t := Forced(s, NetnsDelete(env.netns));
            && t.netns == h.netns
            && (forall id <- t.links :: id in h.links || id == Local(env.bridge1))
            && (forall id <- h.links :: id in t.links && t.links[id] == s.links[id])
            && (Local(env.bridge1) in s.links ==> Local(env.bridge1) in t.links)
  {
    FreshNames(env, h);
    var t := Forced(s, NetnsDelete(env.netns));
    forall id <- t.links ensures id in h.links || id == Local(env.bridge1) {
      assert Fits(env, h, s.netns.Keys, id, s.links[id]);
    }
    forall id <- h.links ensures id in t.links && t.links[id] == s.links[id] {
      assert Fits(env, h, s.netns.Keys, id, s.links[id]);
    }
    if Local(env.bridge1) in s.links {
      assert Fits(env, h, s.netns.Keys, Local(env.bridge1), s.links[Local(env.bridge1)]);
    }
  }

  lemma PortsReleased(s: State, bridge: Name)
    ensures var t := Forced(s, DeleteBridge(bridge));
            && t.netns == s.netns
            && t.links.Keys == s.links.Keys - {Local(bridge)}
            && forall id <- t.links ::
                 t.links[id] == if Local(bridge) in s.links && id.ns.None? && s.links[id].master == Some(bridge)
                                then s.links[id].(master := None) else s.links[id]
  {
  }

  /** In a partly set up host the original links are still there, and only the device may be another. */
  lemma OriginalsKept(env: NetEnv, h: State, s: State)
    requires Fresh(env, h) && Partial(env, h, s)
    ensures forall id <- h.links :: id in s.links && (id != Local(env.device) ==> s.links[id] == h.links[id])
    ensures forall id <- h.links :: id.ns.None? ==> h.links[id].master != Some(env.bridge1)
    ensures DeviceLike(env, h.links[Local(env.device)], s.links[Local(env.device)])
  {
    FreshNames(env, h);
    forall id <- h.links ensures id != Local(env.device) ==> s.links[id] == h.links[id] {
      assert Fits(env, h, s.netns.Keys, id, s.links[id]);
    }
    assert Fits(env, h, s.netns.Keys, Local(env.device), s.links[Local(env.device)]);
  }

  lemma BridgeGone(env: NetEnv, h: State, s: State)
    requires Fresh(env, h) && Partial(env, h, s)
    ensures var t := Forced(Forced(s, NetnsDelete(env.netns)), DeleteBridge(env.bridge1));
            var device := Local(env.device);
            && t.netns == h.netns
            && t.links.Keys == h.links.Keys
            && (forall id <- h.links :: id != device ==> t.links[id] == h.links[id])
            && t.links[device] == LinksAfterUndo(env, h, s)[device].(addresses := s.links[device].addresses)
  {
    OriginalsKept(env, h, s);
    NamespaceGone(env, h, s);
    PortsReleased(Forced(s, NetnsDelete(env.netns)), env.bridge1);
  }

  lemma ForcedMore(s: State, init: seq<Command>, last: Command)
    ensures ForcedAll(s, init + [last]) == Forced(ForcedAll(s, init), last)
  {
    assert (init + [last])[..|init|] == init;
  }

  lemma ForcedFive(s: State, c0: Command, c1: Command, c2: Command, c3: Command, c4: Command)
    ensures ForcedAll(s, [c0, c1, c2, c3, c4]) == Forced(Forced(Forced(Forced(Forced(s, c0), c1), c2), c3), c4)
  {
    ForcedMore(s, [], c0);
    assert [] + [c0] == [c0];
    ForcedMore(s, [c0], c1);
    assert [c0] + [c1] == [c0, c1];
    ForcedMore(s, [c0, c1], c2);
    assert [c0, c1] + [c2] == [c0, c1, c2];
    ForcedMore(s, [c0, c1, c2], c3);
    assert [c0, c1, c2] + [c3] == [c0, c1, c2, c3];
    ForcedMore(s, [c0, c1, c2, c3], c4);
    assert [c0, c1, c2, c3] + [c4] == [c0, c1, c2, c3, c4];
  }

  lemma ForcedInOrder(s: State, env: NetEnv)
    ensures ForcedAll(s, UndoCommands(env)) ==
            Forced(Forced(Forced(s, NetnsDelete(env.netns)), DeleteBridge(env.bridge1)),
                   AddressAdd(env.ip, env.device)).(natTable := [])
  {
    var c0, c1, c2 := NetnsDelete(env.netns), DeleteBridge(env.bridge1), AddressAdd(env.ip, env.device);
    ForcedFive(s, c0, c1, c2, Tune(Copy, None), NatFlush);
  }

  lemma AddressAdded(s: State, address: Address, device: Name)
    requires Local(device) in s.links
    ensures var link := s.links[Local(device)];
            Forced(s, AddressAdd(address, device)).links
            == s.links[Local(device) := link.(addresses := link.addresses + {address})]
  {
    var link := s.links[Local(device)];
    if address in link.addresses {
      assert link.addresses + {address} == link.addresses;
      assert s.links[Local(device) := link] == s.links;
    }
  }

  lemma AgreeElsewhere<K, V>(a: map<K, V>, b: map<K, V>, key: K)
    requires key in a && a.Keys == b.Keys
    requires forall k <- b :: k != key ==> a[k] == b[k]
    ensures a[key := b[key]] == b
  {
  }

  lemma AddressBack(env: NetEnv, h: State, s: State, t: State)
    requires Fresh(env, h) && Partial(env, h, s)
    requires t.links.Keys == h.links.Keys
    requires forall id <- h.links :: id != Local(env.device) ==> t.links[id] == h.links[id]
    requires t.links[Local(env.device)] ==
             LinksAfterUndo(env, h, s)[Local(env.device)].(addresses := s.links[Local(env.device)].addresses)
    ensures Forced(t, AddressAdd(env.ip, env.device)).links == LinksAfterUndo(env, h, s)
  {
    var device := Local(env.device);
    var goal := LinksAfterUndo(env, h, s);
    assert Fits(env, h, s.netns.Keys, device, s.links[device]);
    AddressAdded(t, env.ip, env.device);
    assert s.links[device].addresses + {env.ip} == h.links[device].addresses;
    assert goal[device].addresses == h.links[device].addresses;
    AgreeElsewhere(t.links, goal, device);
  }

  /** From any point of a setup the undo commands restore namespaces, links and the device address. */
  lemma UndoRestores(env: NetEnv, h: State, s: State)
    requires Fresh(env, h) && Partial(env, h, s)
    ensures var u := ForcedAll(s, UndoCommands(env));
            u.netns == h.netns && u.links == LinksAfterUndo(env, h, s) && u.natTable == []
  {
    BridgeGone(env, h, s);
    AddressBack(env, h, s, Forced(Forced(s, NetnsDelete(env.netns)), DeleteBridge(env.bridge1)));
    ForcedInOrder(s, env);
  }

  /** Installing routes looks at names and addresses of links only. */
  lemma {:induction false} LoadedAlike(left: set<Route>, todo: seq<Route>, a: map<LinkId, Link>, b: map<LinkId, Link>)
    requires a.Keys == b.Keys && forall id <- a :: a[id].addresses == b[id].addresses
    ensures Loaded(left, todo, InstallsOn(a)) == Loaded(left, todo, InstallsOn(b))
  {
    if todo != [] {
      LoadedAlike(left, todo[..|todo| - 1], a, b);
    }
  }

  /**
   Deletes all routes and loads the saved ones. The dump may fail and deletes may be refused, unless the run
   is `lossless`; the saved routes are then loaded next to those that are left.
   */
  method RestoreRoutes(host: Machine, saved: seq<Route>, lossless: bool) returns (ghost left: set<Route>)
    requires Dumps(host.dump)
    modifies host
    ensures left <= old(host.state).routes && (lossless ==> left == {})
    ensures host.state == old(host.state).(routes := Loaded(left, saved, InstallsOn(old(host.state).links)))
  {
    var routes: seq<Route> := [];
    var dumps: bool := *;
    if dumps || lossless {
      routes := host.dump(host.state.routes);
      assert Lists(routes, host.state.routes);
    }
    var _ := host.DeleteRoutes(routes, lossless);
    left := host.state.routes;
    host.LoadRoutes(saved);
  }

  lemma UndoneThenLoaded(env: NetEnv, h: State, s: State, t: State, left: set<Route>)
    requires Fresh(env, h) && Partial(env, h, s)
    requires RanAll(s, UndoCommands(env), true, t)
    requires left == {}
    ensures t.(routes := Loaded(left, env.saveRoutes, InstallsOn(t.links))) == AfterUndo(env, h, s)
  {
    LosslessIsForced(s, UndoCommands(env), t);
    UndoRestores(env, h, s);
    LoadedAlike(left, env.saveRoutes, h.links, t.links);
  }

  /**
   The undo: its commands, then the routes. All failures are ignored; an error only means that no gateway was
   found after it. A `lossless` run takes effect wherever it can and leaves no route in place.
   */
  method ClearBridge(host: Machine, env: NetEnv, ghost h: State, lossless: bool)
    returns (ok: bool, ghost undone: State, ghost left: set<Route>)
    requires Fresh(env, h) && Partial(env, h, host.state)
    requires Dumps(host.dump)
    modifies host
    ensures RanAll(old(host.state), UndoCommands(env), lossless, undone)
    ensures left <= undone.routes
    ensures host.state == undone.(routes := Loaded(left, env.saveRoutes, InstallsOn(undone.links)))
    ensures lossless ==> host.state == AfterUndo(env, h, old(host.state))
  {
    ExecuteAllWithLogError(host, UndoCommands(env), lossless);
    undone := host.state;
    left := RestoreRoutes(host, env.saveRoutes, lossless);
    if lossless {
      UndoneThenLoaded(env, h, old(host.state), undone, left);
    }
    ok := *;
    if ok {
      ghost var before := host.state;
      ExecuteAllWithLogError(host, [Tune(Arp, Some(env.device))], lossless);
      var _ := RanOne(before, Tune(Arp, Some(env.device)), lossless, host.state);
    }
  }

  // ---- Undo commands that fail ----

  lemma RanLast(s: State, init: seq<Command>, last: Command, lossless: bool, t: State) returns (u: State)
    requires RanAll(s, init + [last], lossless, t)
    ensures RanAll(s, init, lossless, u) && Leads(u, last, lossless, t)
  {
    var all := init + [last];
    assert all[..|all| - 1] == init && all[|all| - 1] == last;
    u :| RanAll(s, init, lossless, u) && Leads(u, last, lossless, t);
  }

  lemma RanFive(s: State, c0: Command, c1: Command, c2: Command, c3: Command, c4: Command, lossless: bool, t: State)
    returns (u0: State, u1: State, u2: State, u3: State)
    requires RanAll(s, [c0, c1, c2, c3, c4], lossless, t)
    ensures Leads(s, c0, lossless, u0) && Leads(u0, c1, lossless, u1) && Leads(u1, c2, lossless, u2)
    ensures Leads(u2, c3, lossless, u3) && Leads(u3, c4, lossless, t)
  {
    assert [c0, c1, c2, c3, c4] == [c0, c1, c2, c3] + [c4];
    u3 := RanLast(s, [c0, c1, c2, c3], c4, lossless, t);
    assert [c0, c1, c2, c3] == [c0, c1, c2] + [c3];
    u2 := RanLast(s, [c0, c1, c2], c3, lossless, u3);
    assert [c0, c1, c2] == [c0, c1] + [c2];
    u1 := RanLast(s, [c0, c1], c2, lossless, u2);
    assert [c0, c1] == [c0] + [c1];
    u0 := RanLast(s, [c0], c1, lossless, u1);
    var _ := RanOne(s, c0, lossless, u0);
  }

  /** What the undo is for: no namespace, no bridge, the device has its address. */
  predicate Cleared(env: NetEnv, t: State) {
    && env.netns !in t.netns && Local(env.bridge1) !in t.links
    && HasAddress(t, Local(env.device), env.ip)
  }

  /** A command that may have failed did what it could, or left everything but the routes alone. */
  lemma LeadsSomewhere(s: State, u: State, c: Command, t: State)
    requires SameButRoutes(u, s) && Leads(u, c, false, t)
    ensures SameButRoutes(t, s) || (Applicable(s, c) && SameButRoutes(t, Effect(s, c)))
  {
    assert Applicable(u, c) <==> Applicable(s, c);
  }

  /**
   Whichever undo commands fail, namespaces and links are restored if and only if the three things the undo is
   for have come about. No failure does any other damage.
   */
  lemma FailingUndoIff(env: NetEnv, h: State, s: State, t: State)
    requires Fresh(env, h) && Partial(env, h, s)
    requires RanAll(s, UndoCommands(env), false, t)
    ensures t.netns == h.netns && t.links == LinksAfterUndo(env, h, s) <==> Cleared(env, t)
  {
    var c0, c1, c2 := NetnsDelete(env.netns), DeleteBridge(env.bridge1), AddressAdd(env.ip, env.device);
    var u0, u1, u2, u3 := RanFive(s, c0, c1, c2, Tune(Copy, None), NatFlush, false, t);
    LeavesWiring(u2, Tune(Copy, None), u3);
    LeavesWiring(u3, NatFlush, t);
    RestoredIsCleared(env, h, s, t);
    if Cleared(env, t) {
      ClearedIsForced(env, s, u0, u1, u2);
      ForcedRestores(env, h, s);
    }
  }

  lemma LeavesWiring(s: State, c: Command, t: State)
    requires c.Tune? || c.NatFlush?
    requires Leads(s, c, false, t)
    ensures t.netns == s.netns && t.links == s.links
  {
  }

  lemma ForcedRestores(env: NetEnv, h: State, s: State)
    requires Fresh(env, h) && Partial(env, h, s)
    ensures var u := Forced(Forced(Forced(s, NetnsDelete(env.netns)), DeleteBridge(env.bridge1)),
                            AddressAdd(env.ip, env.device));
            u.netns == h.netns && u.links == LinksAfterUndo(env, h, s)
  {
    UndoRestores(env, h, s);
    ForcedInOrder(s, env);
  }

  lemma RestoredIsCleared(env: NetEnv, h: State, s: State, t: State)
    requires Fresh(env, h)
    ensures t.netns == h.netns && t.links == LinksAfterUndo(env, h, s) ==> Cleared(env, t)
  {
  }

  lemma NamespaceDeleted(s: State, ns: Name, t: State)
    requires Leads(s, NetnsDelete(ns), false, t)
    ensures ns !in t.netns ==> SameButRoutes(t, Forced(s, NetnsDelete(ns)))
  {
    LeadsSomewhere(s, s, NetnsDelete(ns), t);
  }

  lemma BridgeDeleted(s: State, u: State, bridge: Name, t: State)
    requires SameButRoutes(u, s) && Leads(u, DeleteBridge(bridge), false, t)
    ensures t.netns == s.netns
    ensures Local(bridge) !in t.links ==> SameButRoutes(t, Forced(s, DeleteBridge(bridge)))
  {
    LeadsSomewhere(s, u, DeleteBridge(bridge), t);
  }

  lemma AddressReturned(s: State, u: State, address: Address, device: Name, t: State)
    requires SameButRoutes(u, s) && Leads(u, AddressAdd(address, device), false, t)
    ensures t.netns == s.netns && t.links.Keys == s.links.Keys
    ensures HasAddress(t, Local(device), address) ==> SameButRoutes(t, Forced(s, AddressAdd(address, device)))
  {
    LeadsSomewhere(s, u, AddressAdd(address, device), t);
  }

  /** If the goals were met, every command that could take effect did. */
  lemma ClearedIsForced(env: NetEnv, s: State, u0: State, u1: State, u2: State)
    requires Leads(s, NetnsDelete(env.netns), false, u0) && Leads(u0, DeleteBridge(env.bridge1), false, u1)
    requires Leads(u1, AddressAdd(env.ip, env.device), false, u2)
    requires Cleared(env, u2)
    ensures SameButRoutes(u2, Forced(Forced(Forced(s, NetnsDelete(env.netns)), DeleteBridge(env.bridge1)),
                                     AddressAdd(env.ip, env.device)))
  {
    var s0 := Forced(s, NetnsDelete(env.netns));
    var s1 := Forced(s0, DeleteBridge(env.bridge1));
    AddressReturned(u1, u1, env.ip, env.device, u2);
    BridgeDeleted(u0, u0, env.bridge1, u1);
    NamespaceDeleted(s, env.netns, u0);
    BridgeDeleted(s0, u0, env.bridge1, u1);
    AddressReturned(s1, u1, env.ip, env.device, u2);
  }

  lemma {:induction false} ReverseElements<T>(s: seq<T>)
    ensures |Reverse(s)| == |s|
    ensures forall i :: 0 <= i < |s| ==> Reverse(s)[i] == s[|s| - 1 - i]
  {
    if s != [] {
      ReverseElements(s[1..]);
    }
  }

  lemma ReverseLists(dumped: seq<Route>, routes: set<Route>)
    requires Lists(dumped, routes)
    ensures Lists(Reverse(dumped), routes)
  {
    ReverseElements(dumped);
    forall r ensures r in Reverse(dumped) <==> r in dumped {
      if r in dumped {
        var i :| 0 <= i < |dumped| && dumped[i] == r;
        assert Reverse(dumped)[|dumped| - 1 - i] == r;
      }
    }
  }

  lemma LinksExactIff(env: NetEnv, h: State, s: State)
    requires Local(env.device) in h.links
    ensures LinksAfterUndo(env, h, s) == h.links <==> (Enslaved(env, s) ==> h.links[Local(env.device)].master == None)
  {
    var device := Local(env.device);
    if h.links[device].master.None? {
      assert h.links[device := h.links[device].(master := None)] == h.links;
    }
  }

  /** What a host looks like after an undo from the partly set up host `s`. */
  function AfterUndo(env: NetEnv, h: State, s: State): State
    requires Local(env.device) in h.links
  {
    State(h.netns, LinksAfterUndo(env, h, s), Loaded({}, env.saveRoutes, InstallsOn(h.links)), [])
  }

  /**
   An undo that cannot dump or delete routes loses none either: if the saved routes install at all, they are
   all in place afterwards, next to the left ones.
   */
  lemma LeftRoutesDoNoHarm(dumped: seq<Route>, routes: set<Route>, left: set<Route>, links: map<LinkId, Link>)
    requires Lists(dumped, routes) && SelfSupporting(Reverse(dumped), InstallsOn(links))
    ensures Loaded(left, Reverse(dumped), InstallsOn(links)) == left + routes
  {
    ReverseLists(dumped, routes);
    InstallsOnIsMonotone(links);
    LoadedOver(left, Reverse(dumped), InstallsOn(links));
  }

  /**
   Exactly when the undo brings back the original host (its ebtables nat list aside): a device that got
   enslaved must have been free before, and the saved routes must install one after the other, starting
   with the route that was dumped last.
   */
  lemma UndoIsExactIff(env: NetEnv, h: State, s: State, dumped: seq<Route>)
    requires Fresh(env, h) && Partial(env, h, s)
    requires Lists(dumped, h.routes) && env.saveRoutes == Reverse(dumped)
    ensures AfterUndo(env, h, s) == h.(natTable := []) <==>
            && (Enslaved(env, s) ==> h.links[Local(env.device)].master == None)
            && SelfSupporting(Reverse(dumped), InstallsOn(h.links))
  {
    ReverseLists(dumped, h.routes);
    LoadsAllIff(env.saveRoutes, InstallsOn(h.links));
    LinksExactIff(env, h, s);
  }

  /** The route dumped last is loaded first, so it is lost if it needs a gateway that is not declared on-link. */
  lemma LastDumpedNeedsNoGateway(dumped: seq<Route>, links: map<LinkId, Link>)
    requires dumped != []
    requires SelfSupporting(Reverse(dumped), InstallsOn(links))
    ensures dumped[|dumped| - 1].gateway.None? || dumped[|dumped| - 1].onlink
  {
    ReverseElements(dumped);
    var todo := Reverse(dumped);
    assert InstallsOn(links)(Elements(todo[..0]), todo[0]);
  }
}
