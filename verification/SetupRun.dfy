/** The commands of a setup, run one after the other without a failure, lead to the host of a completed setup. */
module SetupRun {
  import opened Wrappers
  import opened Host
  import opened Bridge
  import Iptables

  // ---- Runs without failures ----

  lemma RanWellOne(s: State, c: Command)
    requires Applicable(s, c)
    ensures RanWell(s, [c], Effect(s, c))
  {
    var none: seq<Command> := [];
    assert RanWell(s, none, s) && Ran(s, c, false, Effect(s, c), true);
    RanWellMore(s, none, s, c, Effect(s, c));
    assert none + [c] == [c];
  }

  lemma {:induction false} RanWellJoin(s: State, a: seq<Command>, u: State, b: seq<Command>, t: State)
    requires RanWell(s, a, u) && RanWell(u, b, t)
    ensures RanWell(s, a + b, t)
  {
    if b == [] {
      assert a + b == a;
    } else {
      var init, last := b[..|b| - 1], b[|b| - 1];
      var v :| RanWell(u, init, v) && Ran(v, last, false, t, true);
      RanWellJoin(s, a, u, init, v);
      RanWellMore(s, a + init, v, last, t);
      assert a + b == a + init + [last];
    }
  }

  predicate Moves(s: State, c: Command, t: State) {
    Applicable(s, c) && Effect(s, c) == t
  }

  lemma RanThree(s: State, c0: Command, s0: State, c1: Command, s1: State, c2: Command, s2: State)
    requires Moves(s, c0, s0) && Moves(s0, c1, s1) && Moves(s1, c2, s2)
    ensures RanWell(s, [c0, c1, c2], s2)
  {
    RanWellOne(s, c0);
    RanWellOne(s0, c1);
    RanWellOne(s1, c2);
    RanWellJoin(s, [c0], s0, [c1], s1);
    assert [c0] + [c1] == [c0, c1];
    RanWellJoin(s, [c0, c1], s1, [c2], s2);
    assert [c0, c1] + [c2] == [c0, c1, c2];
  }

  lemma {:induction false} TunesRanWell(s: State, tunes: seq<Command>)
    requires forall c <- tunes :: c.Tune?
    ensures RanWell(s, tunes, s)
  {
    if tunes != [] {
      var init, last := tunes[..|tunes| - 1], tunes[|tunes| - 1];
      TunesRanWell(s, init);
      assert last in tunes;
      assert Ran(s, last, false, s, true);
      RanWellMore(s, init, s, last, s);
      assert tunes == init + [last];
    }
  }

  // ---- Hosts on the way ----

  /** The host with its device changed and some of the environment's links in place. */
  function Stage(env: NetEnv, h: State, device: Link, added: map<LinkId, Link>): State {
    h.(netns := h.netns[env.netns := Iptables.FRESH_TABLES], links := h.links[Local(env.device) := device] + added)
  }

  lemma NamespaceAdded(env: NetEnv, h: State)
    requires env.netns !in h.netns && Local(env.device) in h.links
    ensures Moves(h, NetnsAdd(env.netns), Stage(env, h, h.links[Local(env.device)], map[env.Inside("lo") := NEW_LINK]))
  {
  }

  lemma BridgeAdded(env: NetEnv, h: State, device: Link, added: map<LinkId, Link>, id: LinkId)
    requires id !in h.links && id !in added && id != Local(env.device) && (id.ns.Some? ==> id.ns.value == env.netns)
    ensures Moves(Stage(env, h, device, added), AddBridge(id), Stage(env, h, device, added[id := NEW_LINK]))
  {
  }

  lemma VethAdded(env: NetEnv, h: State, device: Link, added: map<LinkId, Link>, a: LinkId, b: LinkId)
    requires a !in h.links && a !in added && a != Local(env.device) && a.ns.None?
    requires b !in h.links && b !in added && b != Local(env.device) && b.ns == Some(env.netns)
    ensures Moves(Stage(env, h, device, added), AddVeth(a, b),
                  Stage(env, h, device, added[a := NEW_LINK.(peer := Some(b))][b := NEW_LINK.(peer := Some(a))]))
  {
  }

  lemma LinkRaised(env: NetEnv, h: State, device: Link, added: map<LinkId, Link>, id: LinkId)
    requires id in added
    ensures Moves(Stage(env, h, device, added), SetUp(id), Stage(env, h, device, added[id := added[id].(up := true)]))
  {
  }

  lemma LinkEnslaved(env: NetEnv, h: State, device: Link, added: map<LinkId, Link>, id: LinkId, master: Name)
    requires id in added && LinkId(id.ns, master) in added
    ensures Moves(Stage(env, h, device, added), SetMaster(id, master),
                  Stage(env, h, device, added[id := added[id].(master := Some(master))]))
  {
  }

  lemma DeviceEnslaved(env: NetEnv, h: State, device: Link, added: map<LinkId, Link>)
    requires Local(env.device) !in added && Local(env.bridge1) in added
    ensures Moves(Stage(env, h, device, added), SetMaster(Local(env.device), env.bridge1),
                  Stage(env, h, device.(master := Some(env.bridge1)), added))
  {
  }

  lemma AddressTaken(env: NetEnv, h: State, device: Link, added: map<LinkId, Link>)
    requires Local(env.device) !in added && env.ip in device.addresses
    ensures Moves(Stage(env, h, device, added), AddressDel(env.ip, env.device),
                  Stage(env, h, device.(addresses := device.addresses - {env.ip}), added))
  {
  }

  lemma AddressGiven(env: NetEnv, h: State, device: Link, added: map<LinkId, Link>)
    requires Local(env.veth4) in added && env.ip !in added[Local(env.veth4)].addresses
    ensures var id := Local(env.veth4);
            Moves(Stage(env, h, device, added), AddressAdd(env.ip, env.veth4),
                  Stage(env, h, device, added[id := added[id].(addresses := added[id].addresses + {env.ip})]))
  {
  }

  // ---- The added links, one by one ----

  /** The seven links a setup adds. */
  datatype Rig = Rig(lo: Link, b1: Link, v1: Link, v2: Link, b2: Link, v4: Link, v3: Link)

  function RigLinks(env: NetEnv, r: Rig): map<LinkId, Link> {
    map[
      env.Inside("lo") := r.lo,
      Local(env.bridge1) := r.b1,
      Local(env.veth1) := r.v1,
      env.Inside(env.veth2) := r.v2,
      env.Inside(env.bridge2) := r.b2,
      Local(env.veth4) := r.v4,
      env.Inside(env.veth3) := r.v3
    ]
  }

  lemma PutLo(env: NetEnv, r: Rig, l: Link)
    requires Separate(env)
    ensures RigLinks(env, r)[env.Inside("lo")] == r.lo
    ensures RigLinks(env, r)[env.Inside("lo") := l] == RigLinks(env, r.(lo := l))
  {
  }

  lemma PutB1(env: NetEnv, r: Rig, l: Link)
    requires Separate(env)
    ensures RigLinks(env, r)[Local(env.bridge1)] == r.b1
    ensures RigLinks(env, r)[Local(env.bridge1) := l] == RigLinks(env, r.(b1 := l))
  {
  }

  lemma PutV1(env: NetEnv, r: Rig, l: Link)
    requires Separate(env)
    ensures RigLinks(env, r)[Local(env.veth1)] == r.v1
    ensures RigLinks(env, r)[Local(env.veth1) := l] == RigLinks(env, r.(v1 := l))
  {
  }

  lemma PutV2(env: NetEnv, r: Rig, l: Link)
    requires Separate(env)
    ensures RigLinks(env, r)[env.Inside(env.veth2)] == r.v2
    ensures RigLinks(env, r)[env.Inside(env.veth2) := l] == RigLinks(env, r.(v2 := l))
  {
  }

  lemma PutB2(env: NetEnv, r: Rig, l: Link)
    requires Separate(env)
    ensures RigLinks(env, r)[env.Inside(env.bridge2)] == r.b2
    ensures RigLinks(env, r)[env.Inside(env.bridge2) := l] == RigLinks(env, r.(b2 := l))
  {
  }

  lemma PutV4(env: NetEnv, r: Rig, l: Link)
    requires Separate(env)
    ensures RigLinks(env, r)[Local(env.veth4)] == r.v4
    ensures RigLinks(env, r)[Local(env.veth4) := l] == RigLinks(env, r.(v4 := l))
  {
  }

  lemma PutV3(env: NetEnv, r: Rig, l: Link)
    requires Separate(env)
    ensures RigLinks(env, r)[env.Inside(env.veth3)] == r.v3
    ensures RigLinks(env, r)[env.Inside(env.veth3) := l] == RigLinks(env, r.(v3 := l))
  {
  }

  function Rigged(env: NetEnv, h: State, device: Link, r: Rig): State {
    Stage(env, h, device, RigLinks(env, r))
  }

  function Created(env: NetEnv): Rig {
    var v1, v4 := NEW_LINK.(peer := Some(env.Inside(env.veth2))), NEW_LINK.(peer := Some(env.Inside(env.veth3)));
    var v2, v3 := NEW_LINK.(peer := Some(Local(env.veth1))), NEW_LINK.(peer := Some(Local(env.veth4)));
    Rig(NEW_LINK, NEW_LINK, v1, v2, NEW_LINK, v4, v3)
  }

  function Up(l: Link): Link {
    l.(up := true)
  }

  /** All links up but the namespace's loopback. */
  function Raised(r: Rig): Rig {
    Rig(r.lo, Up(r.b1), Up(r.v1), Up(r.v2), Up(r.b2), Up(r.v4), Up(r.v3))
  }

  function Enslaved(env: NetEnv, r: Rig): Rig {
    r.(v1 := r.v1.(master := Some(env.bridge1)), v2 := r.v2.(master := Some(env.bridge2)),
       v3 := r.v3.(master := Some(env.bridge2)))
  }

  // ---- The groups of commands ----

  function CreateCommands(env: NetEnv): seq<Command> {
    [Tune(Copy, None), NetnsAdd(env.netns), AddBridge(Local(env.bridge1))]
    + [AddVeth(Local(env.veth1), env.Inside(env.veth2)), AddBridge(env.Inside(env.bridge2)),
       AddVeth(Local(env.veth4), env.Inside(env.veth3))]
  }

  lemma FirstThree(env: NetEnv, h: State, device: Link, added: map<LinkId, Link>)
    requires Fresh(env, h) && device == h.links[Local(env.device)]
    requires added == map[env.Inside("lo") := NEW_LINK, Local(env.bridge1) := NEW_LINK]
    ensures RanWell(h, CreateCommands(env)[..3], Stage(env, h, device, added))
  {
    var lo := map[env.Inside("lo") := NEW_LINK];
    NamespaceAdded(env, h);
    BridgeAdded(env, h, device, lo, Local(env.bridge1));
    RanThree(h, Tune(Copy, None), h, NetnsAdd(env.netns), Stage(env, h, device, lo),
             AddBridge(Local(env.bridge1)), Stage(env, h, device, added));
  }

  lemma NamesApart(env: NetEnv, h: State)
    requires Fresh(env, h)
    ensures forall id <- [env.Inside("lo"), Local(env.bridge1), Local(env.veth1), env.Inside(env.veth2),
                          env.Inside(env.bridge2), Local(env.veth4), env.Inside(env.veth3)] ::
              id !in h.links && id != Local(env.device)
  {
    FreshNames(env, h);
  }

  lemma AddedApart(env: NetEnv, a0: map<LinkId, Link>, a1: map<LinkId, Link>, a2: map<LinkId, Link>)
    requires Separate(env)
    requires a0.Keys == {env.Inside("lo"), Local(env.bridge1)}
    requires a1.Keys == a0.Keys + {Local(env.veth1), env.Inside(env.veth2)}
    requires a2.Keys == a1.Keys + {env.Inside(env.bridge2)}
    ensures Local(env.veth1) !in a0 && env.Inside(env.veth2) !in a0 && env.Inside(env.bridge2) !in a1
    ensures Local(env.veth4) !in a2 && env.Inside(env.veth3) !in a2
  {
  }

  /** Three steps from four hosts with two, four, five and seven added links. */
  lemma NextThree(env: NetEnv, h: State, device: Link, a0: map<LinkId, Link>, a1: map<LinkId, Link>, a2: map<LinkId, Link>)
    requires Fresh(env, h)
    requires a0 == map[env.Inside("lo") := NEW_LINK, Local(env.bridge1) := NEW_LINK]
    requires var r := Created(env);
             && a1 == a0[Local(env.veth1) := r.v1][env.Inside(env.veth2) := r.v2]
             && a2 == a1[env.Inside(env.bridge2) := NEW_LINK]
    ensures RanWell(Stage(env, h, device, a0), CreateCommands(env)[3..], Rigged(env, h, device, Created(env)))
  {
    var v1, v2, b2 := Local(env.veth1), env.Inside(env.veth2), env.Inside(env.bridge2);
    var v4, v3 := Local(env.veth4), env.Inside(env.veth3);
    NamesApart(env, h);
    AddedApart(env, a0, a1, a2);
    VethAdded(env, h, device, a0, v1, v2);
    BridgeAdded(env, h, device, a1, b2);
    VethAdded(env, h, device, a2, v4, v3);
    RanThree(Stage(env, h, device, a0), AddVeth(v1, v2), Stage(env, h, device, a1), AddBridge(b2),
             Stage(env, h, device, a2), AddVeth(v4, v3), Rigged(env, h, device, Created(env)));
  }

  lemma RunCreate(env: NetEnv, h: State)
    requires Fresh(env, h)
    ensures RanWell(h, CreateCommands(env), Rigged(env, h, h.links[Local(env.device)], Created(env)))
  {
    var device := h.links[Local(env.device)];
    var added := map[env.Inside("lo") := NEW_LINK, Local(env.bridge1) := NEW_LINK];
    FirstThree(env, h, device, added);
    var r := Created(env);
    var wired := added[Local(env.veth1) := r.v1][env.Inside(env.veth2) := r.v2];
    NextThree(env, h, device, added, wired, wired[env.Inside(env.bridge2) := NEW_LINK]);
    var c := CreateCommands(env);
    RanWellJoin(h, c[..3], Stage(env, h, device, added), c[3..], Rigged(env, h, device, Created(env)));
    assert c[..3] + c[3..] == c;
  }

  function RaiseCommands(env: NetEnv): seq<Command> {
    [SetUp(Local(env.bridge1))]
    + [Tune(Sysctl, Some(env.bridge1)), Tune(Sysctl, Some(env.veth1)), Tune(Sysctl, Some(env.device))]
    + [SetUp(Local(env.veth1)), SetUp(env.Inside(env.veth2)), SetUp(env.Inside(env.bridge2))]
  }

  lemma RunRaise(env: NetEnv, h: State, device: Link, r: Rig)
    requires Separate(env)
    ensures RanWell(Rigged(env, h, device, r), RaiseCommands(env),
                    Rigged(env, h, device, r.(b1 := Up(r.b1), v1 := Up(r.v1), v2 := Up(r.v2), b2 := Up(r.b2))))
  {
    var r0 := r.(b1 := Up(r.b1));
    var r1 := r0.(v1 := Up(r.v1));
    var r2 := r1.(v2 := Up(r.v2));
    var r3 := r2.(b2 := Up(r.b2));
    LinkRaised(env, h, device, RigLinks(env, r), Local(env.bridge1));
    PutB1(env, r, Up(r.b1));
    LinkRaised(env, h, device, RigLinks(env, r0), Local(env.veth1));
    PutV1(env, r0, Up(r.v1));
    LinkRaised(env, h, device, RigLinks(env, r1), env.Inside(env.veth2));
    PutV2(env, r1, Up(r.v2));
    LinkRaised(env, h, device, RigLinks(env, r2), env.Inside(env.bridge2));
    PutB2(env, r2, Up(r.b2));
    var s, s0, s3 := Rigged(env, h, device, r), Rigged(env, h, device, r0), Rigged(env, h, device, r3);
    var tunes := [Tune(Sysctl, Some(env.bridge1)), Tune(Sysctl, Some(env.veth1)), Tune(Sysctl, Some(env.device))];
    RanWellOne(s, SetUp(Local(env.bridge1)));
    TunesRanWell(s0, tunes);
    RanWellJoin(s, [SetUp(Local(env.bridge1))], s0, tunes, s0);
    RanThree(s0, SetUp(Local(env.veth1)), Rigged(env, h, device, r1), SetUp(env.Inside(env.veth2)),
             Rigged(env, h, device, r2), SetUp(env.Inside(env.bridge2)), s3);
    RanWellJoin(s, [SetUp(Local(env.bridge1))] + tunes, s0,
                [SetUp(Local(env.veth1)), SetUp(env.Inside(env.veth2)), SetUp(env.Inside(env.bridge2))], s3);
  }

  function PortCommands(env: NetEnv): seq<Command> {
    [SetUp(env.Inside(env.veth3)), SetUp(Local(env.veth4)), SetMaster(Local(env.device), env.bridge1)]
  }

  lemma RunPorts(env: NetEnv, h: State, device: Link, r: Rig)
    requires Separate(env) && Local(env.device) !in RigLinks(env, r)
    ensures RanWell(Rigged(env, h, device, r), PortCommands(env),
                    Rigged(env, h, device.(master := Some(env.bridge1)), r.(v3 := Up(r.v3), v4 := Up(r.v4))))
  {
    var r0 := r.(v3 := Up(r.v3));
    var r1 := r0.(v4 := Up(r.v4));
    LinkRaised(env, h, device, RigLinks(env, r), env.Inside(env.veth3));
    PutV3(env, r, Up(r.v3));
    LinkRaised(env, h, device, RigLinks(env, r0), Local(env.veth4));
    PutV4(env, r0, Up(r.v4));
    assert RigLinks(env, r1).Keys == RigLinks(env, r).Keys;
    DeviceEnslaved(env, h, device, RigLinks(env, r1));
    RanThree(Rigged(env, h, device, r), SetUp(env.Inside(env.veth3)), Rigged(env, h, device, r0),
             SetUp(Local(env.veth4)), Rigged(env, h, device, r1), SetMaster(Local(env.device), env.bridge1),
             Rigged(env, h, device.(master := Some(env.bridge1)), r1));
  }

  function MasterCommands(env: NetEnv): seq<Command> {
    [SetMaster(Local(env.veth1), env.bridge1), SetMaster(env.Inside(env.veth2), env.bridge2),
     SetMaster(env.Inside(env.veth3), env.bridge2)]
  }

  lemma RunMasters(env: NetEnv, h: State, device: Link, r: Rig)
    requires Separate(env)
    ensures RanWell(Rigged(env, h, device, r), MasterCommands(env), Rigged(env, h, device, Enslaved(env, r)))
  {
    var r0 := r.(v1 := r.v1.(master := Some(env.bridge1)));
    var r1 := r0.(v2 := r.v2.(master := Some(env.bridge2)));
    var r2 := r1.(v3 := r.v3.(master := Some(env.bridge2)));
    LinkEnslaved(env, h, device, RigLinks(env, r), Local(env.veth1), env.bridge1);
    PutV1(env, r, r0.v1);
    LinkEnslaved(env, h, device, RigLinks(env, r0), env.Inside(env.veth2), env.bridge2);
    PutV2(env, r0, r1.v2);
    LinkEnslaved(env, h, device, RigLinks(env, r1), env.Inside(env.veth3), env.bridge2);
    PutV3(env, r1, r2.v3);
    RanThree(Rigged(env, h, device, r), SetMaster(Local(env.veth1), env.bridge1), Rigged(env, h, device, r0),
             SetMaster(env.Inside(env.veth2), env.bridge2), Rigged(env, h, device, r1),
             SetMaster(env.Inside(env.veth3), env.bridge2), Rigged(env, h, device, r2));
  }

  lemma RunLoopback(env: NetEnv, h: State, device: Link, r: Rig)
    requires Separate(env)
    ensures RanWell(Rigged(env, h, device, r), [SetUp(env.Inside("lo"))], Rigged(env, h, device, r.(lo := Up(r.lo))))
  {
    LinkRaised(env, h, device, RigLinks(env, r), env.Inside("lo"));
    PutLo(env, r, Up(r.lo));
    RanWellOne(Rigged(env, h, device, r), SetUp(env.Inside("lo")));
  }

  function LinkedRig(env: NetEnv): Rig {
    Enslaved(env, Raised(Created(env))).(lo := Up(NEW_LINK))
  }

  lemma LinkGroups(env: NetEnv)
    ensures CreateCommands(env) + RaiseCommands(env) + PortCommands(env) + MasterCommands(env) + [SetUp(env.Inside("lo"))]
            == LinkCommands(env)
  {
  }

  /** Five runs in a row. */
  lemma JoinFive(s: State, a: seq<Command>, s0: State, b: seq<Command>, s1: State, c: seq<Command>, s2: State,
                 d: seq<Command>, s3: State, e: seq<Command>, s4: State)
    requires RanWell(s, a, s0) && RanWell(s0, b, s1) && RanWell(s1, c, s2) && RanWell(s2, d, s3) && RanWell(s3, e, s4)
    ensures RanWell(s, a + b + c + d + e, s4)
  {
    RanWellJoin(s, a, s0, b, s1);
    RanWellJoin(s, a + b, s1, c, s2);
    RanWellJoin(s, a + b + c, s2, d, s3);
    RanWellJoin(s, a + b + c + d, s3, e, s4);
  }

  lemma RunLinks(env: NetEnv, h: State, device: Link)
    requires Fresh(env, h) && device == h.links[Local(env.device)]
    ensures RanWell(h, LinkCommands(env), Rigged(env, h, device.(master := Some(env.bridge1)), LinkedRig(env)))
  {
    var slave := device.(master := Some(env.bridge1));
    var r := Created(env);
    var r0 := r.(b1 := Up(r.b1), v1 := Up(r.v1), v2 := Up(r.v2), b2 := Up(r.b2));
    DeviceIsApart(env, h, r0);
    RunCreate(env, h);
    RunRaise(env, h, device, r);
    RunPorts(env, h, device, r0);
    RunMasters(env, h, slave, Raised(r));
    RunLoopback(env, h, slave, Enslaved(env, Raised(r)));
    JoinFive(h, CreateCommands(env), Rigged(env, h, device, r), RaiseCommands(env), Rigged(env, h, device, r0),
             PortCommands(env), Rigged(env, h, slave, Raised(r)), MasterCommands(env),
             Rigged(env, h, slave, Enslaved(env, Raised(r))), [SetUp(env.Inside("lo"))],
             Rigged(env, h, slave, LinkedRig(env)));
    LinkGroups(env);
  }

  lemma DeviceIsApart(env: NetEnv, h: State, r: Rig)
    requires Fresh(env, h)
    ensures Local(env.device) !in RigLinks(env, r)
  {
    FreshNames(env, h);
  }

  lemma AddressGroups(env: NetEnv) returns (tunes: seq<Command>)
    ensures [AddressAdd(env.ip, env.veth4)] + tunes == AddressCommands(env)
    ensures forall c <- tunes :: c.Tune?
  {
    var c := AddressCommands(env);
    tunes := c[1..];
    assert forall i :: 1 <= i < |c| ==> c[i].Tune?;
  }

  lemma RunAddress(env: NetEnv, h: State, device: Link, r: Rig)
    requires Separate(env) && r.v4.addresses == {}
    ensures RanWell(Rigged(env, h, device, r), AddressCommands(env),
                    Rigged(env, h, device, r.(v4 := r.v4.(addresses := {env.ip}))))
  {
    var last := r.(v4 := r.v4.(addresses := {env.ip}));
    PutV4(env, r, last.v4);
    AddressGiven(env, h, device, RigLinks(env, r));
    assert {} + {env.ip} == {env.ip};
    var s, t := Rigged(env, h, device, r), Rigged(env, h, device, last);
    RanWellOne(s, AddressAdd(env.ip, env.veth4));
    var tunes := AddressGroups(env);
    TunesRanWell(t, tunes);
    RanWellJoin(s, [AddressAdd(env.ip, env.veth4)], t, tunes, t);
  }

  lemma LastStage(env: NetEnv, h: State, device: Link)
    requires Local(env.device) in h.links && device == h.links[Local(env.device)]
    ensures var r := LinkedRig(env);
            Rigged(env, h, device.(master := Some(env.bridge1), addresses := device.addresses - {env.ip}),
                   r.(v4 := r.v4.(addresses := {env.ip}))) == SetUpHost(env, h)
  {
  }

  /** Without failures the setup commands lead from any host with free names to the completed setup. */
  lemma SetupCompletes(env: NetEnv, h: State) returns (linked: State, moved: State)
    requires Fresh(env, h)
    ensures RanWell(h, LinkCommands(env), linked)
    ensures Ran(linked, AddressDel(env.ip, env.device), false, moved, true)
    ensures RanWell(moved, AddressCommands(env), SetUpHost(env, h))
  {
    var device := h.links[Local(env.device)];
    var slave := device.(master := Some(env.bridge1));
    var bare := slave.(addresses := slave.addresses - {env.ip});
    var r := LinkedRig(env);
    linked, moved := Rigged(env, h, slave, r), Rigged(env, h, bare, r);
    DeviceIsApart(env, h, r);
    RunLinks(env, h, device);
    AddressTaken(env, h, slave, RigLinks(env, r));
    RunAddress(env, h, bare, r);
    LastStage(env, h, device);
  }
}
