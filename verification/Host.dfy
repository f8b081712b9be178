/** The parts of a Linux host that the controller changes, and what its commands do to them. */
module Host {
  import opened Wrappers
  import Iptables

  type Name = string

  /** A link is known by its namespace, `None` being the host's own, and its name there. */
  datatype LinkId = LinkId(ns: Option<Name>, name: Name)

  datatype Address = Address(ip: nat, prefix: nat)

  datatype Link = Link(peer: Option<LinkId>, master: Option<Name>, up: bool, addresses: set<Address>)

  /** A route outside the local table; `source` is the preferred source address. */
  datatype Route = Route(destination: Address, gateway: Option<nat>, onlink: bool, device: Name, source: Option<nat>)

  /** The namespaces with their packet tables, the links of all namespaces, the host's routes and ebtables nat list. */
  datatype State = State(
    netns: map<Name, Iptables.Tables>,
    links: map<LinkId, Link>,
    routes: set<Route>,
    natTable: seq<Iptables.NatRule>)

  /** How many ports one multiport option of iptables takes. */
  const MULTIPORT: nat := 15

  /** Tools whose effects lie outside the modelled state. */
  datatype Tool = Copy | Sysctl | Arp | IpRoute | IpRule

  datatype Command =
    | NetnsAdd(ns: Name)
    | NetnsDelete(ns: Name)
    | AddBridge(id: LinkId)
    | AddVeth(a: LinkId, b: LinkId)
    | DeleteBridge(name: Name)
    | SetUp(id: LinkId)
    | SetMaster(id: LinkId, master: Name)
    | AddressAdd(address: Address, device: Name)
    | AddressDel(address: Address, device: Name)
    | NatAppend(rule: Iptables.NatRule)
    | NatFlush
    | InChain(ns: Name, command: Iptables.Command)
    | Tune(tool: Tool, target: Option<Name>)

  function Local(name: Name): LinkId {
    LinkId(None, name)
  }

  predicate HasNamespace(s: State, ns: Option<Name>) {
    ns.Some? ==> ns.value in s.netns
  }

  /** Whether the kernel can carry the command out. */
  predicate Applicable(s: State, c: Command) {
    match c
    case NetnsAdd(ns) => ns !in s.netns
    case NetnsDelete(ns) => ns in s.netns
    case AddBridge(id) => HasNamespace(s, id.ns) && id !in s.links
    case AddVeth(a, b) => HasNamespace(s, a.ns) && HasNamespace(s, b.ns) && a !in s.links && b !in s.links && a != b
    case DeleteBridge(name) => Local(name) in s.links
    case SetUp(id) => id in s.links
    case SetMaster(id, master) => id in s.links && LinkId(id.ns, master) in s.links
    case AddressAdd(address, device) => Local(device) in s.links && address !in s.links[Local(device)].addresses
    case AddressDel(address, device) => Local(device) in s.links && address in s.links[Local(device)].addresses
    case NatAppend(_) => true
    case NatFlush => true
    case InChain(ns, command) => ns in s.netns && Iptables.RunIn(s.netns[ns], command, MULTIPORT).Some?
    case Tune(_, _) => true
  }

  const NEW_LINK := Link(None, None, false, {})

  /** A namespace takes its links with it, and with them the other ends of its veth pairs. */
  predicate DiesWith(ns: Name, id: LinkId, link: Link) {
    id.ns == Some(ns) || (link.peer.Some? && link.peer.value.ns == Some(ns))
  }

  /** What the command changes, routes aside. */
  function Effect(s: State, c: Command): State
    requires Applicable(s, c)
  {
    match c
    case NetnsAdd(ns) => s.(netns := s.netns[ns := Iptables.FRESH_TABLES], links := s.links[LinkId(Some(ns), "lo") := NEW_LINK])
    case NetnsDelete(ns) =>
      s.(netns := s.netns - {ns},
         links := map id | id in s.links && !DiesWith(ns, id, s.links[id]) :: s.links[id])
    case AddBridge(id) => s.(links := s.links[id := NEW_LINK])
    case AddVeth(a, b) => s.(links := s.links[a := NEW_LINK.(peer := Some(b))][b := NEW_LINK.(peer := Some(a))])
    case DeleteBridge(name) =>
      s.(links := map id | id in s.links && id != Local(name) ::
           if id.ns.None? && s.links[id].master == Some(name) then s.links[id].(master := None) else s.links[id])
    case SetUp(id) => s.(links := s.links[id := s.links[id].(up := true)])
    case SetMaster(id, master) => s.(links := s.links[id := s.links[id].(master := Some(master))])
    case AddressAdd(address, device) =>
      var link := s.links[Local(device)];
      s.(links := s.links[Local(device) := link.(addresses := link.addresses + {address})])
    case AddressDel(address, device) =>
      var link := s.links[Local(device)];
      s.(links := s.links[Local(device) := link.(addresses := link.addresses - {address})])
    case NatAppend(rule) => s.(natTable := s.natTable + [rule])
    case NatFlush => s.(natTable := [])
    case InChain(ns, command) => s.(netns := s.netns[ns := Iptables.RunIn(s.netns[ns], command, MULTIPORT).value])
    case Tune(_, _) => s
  }

  predicate SameButRoutes(a: State, b: State) {
    a.(routes := b.routes) == b
  }

  /** Commands along with which the kernel may add or drop routes. */
  predicate MovesRoutes(c: Command) {
    !c.NatAppend? && !c.NatFlush? && !c.InChain? && (c.Tune? ==> c.tool == IpRoute)
  }

  /**
   One command run to its end. A command reported as successful took effect; one reported as failed may
   have taken effect or not, except that a `lossless` run takes effect whenever it can. Commands
   on links, addresses and routes may change the routes in any way.
   */
  ghost predicate Ran(s: State, c: Command, lossless: bool, t: State, ok: bool) {
    && (SameButRoutes(t, s) || (Applicable(s, c) && SameButRoutes(t, Effect(s, c))))
    && (MovesRoutes(c) || t.routes == s.routes)
    && (ok ==> Applicable(s, c))
    && (Applicable(s, c) && (ok || lossless) ==> SameButRoutes(t, Effect(s, c)))
  }

  // ---- Routes ----

  function Size(bits: nat): nat {
    if bits == 0 then 1 else 2 * Size(bits - 1)
  }

  predicate Covers(network: Address, ip: nat) {
    var size := Size(if network.prefix <= 32 then 32 - network.prefix else 0);
    size > 0 && ip / size == network.ip / size
  }

  /** A route installs if its device exists, its source is a local address and its gateway is on a link. */
  predicate Installable(routes: set<Route>, links: map<LinkId, Link>, r: Route) {
    && Local(r.device) in links
    && (r.source.Some? ==> exists id <- links :: id.ns.None? && exists a <- links[id].addresses :: a.ip == r.source.value)
    && (r.gateway.Some? && !r.onlink ==>
          exists l <- routes :: l.gateway.None? && l.device == r.device && Covers(l.destination, r.gateway.value))
  }

  /** Whether a route can be added next to those already in place. */
  type Installs = (set<Route>, Route) -> bool

  function InstallsOn(links: map<LinkId, Link>): Installs {
    (routes, r) => Installable(routes, links, r)
  }

  /** Adding routes one by one; those that do not install are skipped. */
  function Loaded(routes: set<Route>, todo: seq<Route>, can: Installs): set<Route> {
    if todo == [] then routes
    else
      var before := Loaded(routes, todo[..|todo| - 1], can);
      var last := todo[|todo| - 1];
      if can(before, last) then before + {last} else before
  }

  function Elements(todo: seq<Route>): set<Route> {
    set r | r in todo
  }

  /** Every route of the list installs once those before it are in place. */
  ghost predicate SelfSupporting(todo: seq<Route>, can: Installs) {
    forall i :: 0 <= i < |todo| ==> can(Elements(todo[..i]), todo[i])
  }

  ghost predicate Lists(todo: seq<Route>, routes: set<Route>) {
    && Elements(todo) == routes
    && forall i, j :: 0 <= i < j < |todo| ==> todo[i] != todo[j]
  }

  /** A route dump lists every route once. */
  ghost predicate Dumps(dump: set<Route> -> seq<Route>) {
    forall routes {:trigger dump(routes)} :: Lists(dump(routes), routes)
  }

  lemma {:induction false} LoadedAtMost(todo: seq<Route>, can: Installs)
    ensures Loaded({}, todo, can) <= Elements(todo)
  {
    if todo != [] {
      var init := todo[..|todo| - 1];
      LoadedAtMost(init, can);
      assert todo == init + [todo[|todo| - 1]];
    }
  }

  lemma SelfSupportingSplit(init: seq<Route>, last: Route, can: Installs)
    ensures SelfSupporting(init + [last], can) <==> SelfSupporting(init, can) && can(Elements(init), last)
  {
    var todo := init + [last];
    assert forall i :: 0 <= i <= |init| ==> todo[..i] == init[..i];
    assert todo[|init|] == last && init[..|init|] == init;
    if SelfSupporting(todo, can) {
      assert can(Elements(todo[..|init|]), last);
      forall i | 0 <= i < |init| ensures can(Elements(init[..i]), init[i]) {
        assert can(Elements(todo[..i]), todo[i]);
      }
    }
  }

  /** Loading a duplicate-free list into an empty table brings back every route exactly if it is self-supporting. */
  lemma {:induction false} LoadsAllIff(todo: seq<Route>, can: Installs)
    requires forall i, j :: 0 <= i < j < |todo| ==> todo[i] != todo[j]
    ensures Loaded({}, todo, can) == Elements(todo) <==> SelfSupporting(todo, can)
  {
    if todo != [] {
      var init, last := todo[..|todo| - 1], todo[|todo| - 1];
      LoadsAllIff(init, can);
      assert todo == init + [last] && last !in init;
      LoadsOneMoreIff(init, last, can);
    }
  }

  lemma LoadsOneMoreIff(init: seq<Route>, last: Route, can: Installs)
    requires last !in init
    requires Loaded({}, init, can) == Elements(init) <==> SelfSupporting(init, can)
    ensures Loaded({}, init + [last], can) == Elements(init + [last]) <==> SelfSupporting(init + [last], can)
  {
    LoadedAtMost(init, can);
    SelfSupportingSplit(init, last, can);
    ElementsOfMore(init, last);
    LoadedMore(init, last, can);
    var before := Loaded({}, init, can);
    GrowsToAll(before, Elements(init), last, can(before, last));
  }

  lemma LoadedMore(init: seq<Route>, last: Route, can: Installs)
    ensures var before := Loaded({}, init, can);
            Loaded({}, init + [last], can) == if can(before, last) then before + {last} else before
  {
    assert (init + [last])[..|init|] == init;
  }

  lemma ElementsOfMore(init: seq<Route>, last: Route)
    ensures Elements(init + [last]) == Elements(init) + {last}
  {
  }

  lemma GrowsToAll(before: set<Route>, all: set<Route>, last: Route, adds: bool)
    requires before <= all && last !in all
    ensures (if adds then before + {last} else before) == all + {last} <==> adds && before == all
  {
    if before + {last} == all + {last} {
      assert before == (before + {last}) - {last};
      assert all == (all + {last}) - {last};
    }
  }

  /** More routes in place never keep a route from installing. */
  ghost predicate Monotone(can: Installs) {
    forall a, b, r :: a <= b && can(a, r) ==> can(b, r)
  }

  lemma InstallsOnIsMonotone(links: map<LinkId, Link>)
    ensures Monotone(InstallsOn(links))
  {
  }

  /** Routes left in place keep none of a self-supporting list from loading; they just stay. */
  lemma {:induction false} LoadedOver(left: set<Route>, todo: seq<Route>, can: Installs)
    requires Monotone(can) && SelfSupporting(todo, can)
    ensures Loaded(left, todo, can) == left + Elements(todo)
  {
    if todo != [] {
      var init, last := todo[..|todo| - 1], todo[|todo| - 1];
      assert todo == init + [last];
      SelfSupportingSplit(init, last, can);
      LoadedOver(left, init, can);
      ElementsOfMore(init, last);
      assert can(Elements(init), last) && Elements(init) <= left + Elements(init);
    }
  }

  predicate HasLocal(links: map<LinkId, Link>, ip: nat) {
    exists id <- links :: id.ns.None? && exists a <- links[id].addresses :: a.ip == ip
  }

  predicate OnLink(routes: set<Route>, device: Name, gateway: nat) {
    exists l <- routes :: l.gateway.None? && l.device == device && Covers(l.destination, gateway)
  }

  /** Loading adds no route whose device is missing, whose source is not local or whose gateway is out of reach. */
  lemma {:induction false} LoadedAreSound(left: set<Route>, todo: seq<Route>, links: map<LinkId, Link>, r: Route)
    requires r in Loaded(left, todo, InstallsOn(links)) && r !in left
    ensures r in todo && Local(r.device) in links
    ensures r.source.Some? ==> HasLocal(links, r.source.value)
    ensures r.gateway.Some? && !r.onlink ==> OnLink(Loaded(left, todo, InstallsOn(links)), r.device, r.gateway.value)
  {
    if todo != [] {
      var init, last := todo[..|todo| - 1], todo[|todo| - 1];
      assert todo == init + [last];
      if r in Loaded(left, init, InstallsOn(links)) {
        LoadedAreSound(left, init, links, r);
      } else {
        assert Installable(Loaded(left, init, InstallsOn(links)), links, r);
      }
    }
  }

  /** The running host. Routes are dumped in an order the kernel derives from the table; links have MAC addresses. */
  class Machine {
    var state: State
    const dump: set<Route> -> seq<Route>
    const mac: Name -> string

    constructor (state: State, dump: set<Route> -> seq<Route>, mac: Name -> string)
      ensures this.state == state && this.dump == dump && this.mac == mac
    {
      this.state, this.dump, this.mac := state, dump, mac;
    }

    /** A `smooth` run does not fail without a reason. */
    method Execute(c: Command, lossless: bool, smooth: bool) returns (ok: bool)
      modifies this
      ensures Ran(old(state), c, lossless, state, ok)
      ensures smooth ==> (ok <==> Applicable(old(state), c))
    {
      var takes: bool := *;
      var quiet: bool := *;
      var routes: set<Route> := *;
      ok := false;
      if Applicable(state, c) && (takes || lossless || smooth) {
        state := Effect(state, c);
        ok := quiet || smooth;
      }
      if MovesRoutes(c) {
        state := state.(routes := routes);
      }
    }

    /**
     Tries to delete each of the listed routes. Deletes that are refused leave their route in place and make
     the whole call fail; a `lossless` call is not refused any.
     */
    method DeleteRoutes(todo: seq<Route>, lossless: bool) returns (ok: bool)
      modifies this
      ensures SameButRoutes(state, old(state))
      ensures old(state).routes - Elements(todo) <= state.routes <= old(state).routes
      ensures ok ==> state.routes == old(state).routes - Elements(todo)
      ensures lossless ==> ok
    {
      ok := true;
      for i := 0 to |todo|
        invariant SameButRoutes(state, old(state))
        invariant old(state).routes - Elements(todo[..i]) <= state.routes <= old(state).routes
        invariant ok ==> state.routes == old(state).routes - Elements(todo[..i])
        invariant lossless ==> ok
      {
        assert todo[..i + 1] == todo[..i] + [todo[i]];
        var takes: bool := *;
        if takes || lossless {
          state := state.(routes := state.routes - {todo[i]});
        } else {
          ok := false;
        }
      }
      assert todo[..|todo|] == todo;
    }

    method LoadRoutes(todo: seq<Route>)
      modifies this
      ensures state == old(state).(routes := Loaded(old(state).routes, todo, InstallsOn(old(state).links)))
    {
      for i := 0 to |todo|
        invariant state == old(state).(routes := Loaded(old(state).routes, todo[..i], InstallsOn(old(state).links)))
      {
        assert todo[..i + 1][..i] == todo[..i];
        if Installable(state.routes, state.links, todo[i]) {
          state := state.(routes := state.routes + {todo[i]});
        }
      }
      assert todo[..|todo|] == todo;
    }
  }
}
