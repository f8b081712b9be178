/** Which packets the built chain sends to the proxy. */
module IptablesLaws {
  import opened Wrappers
  import opened Ports
  import opened Iptables

  /** The text the controller hands over for its port list. */
  function JoinedPorts(ports: Option<seq<Port>>): Option<string> {
    if ports.Some? then Some(JoinPorts(ports.value)) else None
  }

  /** The safe rules for one port range, towards and from the local network. */
  function RangeRules(low: nat, high: nat, ip: string): seq<ChainRule> {
    [ ChainRule([Tcp, FromRange(low, high), ToNet(ip)], Accept),
      ChainRule([Tcp, ToRange(low, high), FromNet(ip)], Accept) ]
  }

  function SafeRules(ip: string): seq<ChainRule> {
    RangeRules(1, 81, ip) + RangeRules(81, 1025, ip)
  }

  function ProxyRules(ports: Option<seq<Port>>, listenPort: nat): seq<ChainRule> {
    [ ChainRule([Tcp, Socket], Jump(Divert)),
      ChainRule([Tcp] + (if ports.Some? then [ToPorts(ports.value)] else []), Tproxy(1, listenPort)) ]
  }

  function BuiltTable(ports: Option<seq<Port>>, listenPort: nat, safe: bool, ip: string): Mangle {
    map[Prerouting := (if safe then SafeRules(ip) else []) + ProxyRules(ports, listenPort),
        Divert := [ChainRule([], Mark(1)), ChainRule([], Accept)]]
  }

  lemma {:induction false} RunInOrder(t: Mangle, a: seq<Command>, b: seq<Command>, limit: nat)
    ensures RunAll(t, a + b, limit) ==
            match RunAll(t, a, limit)
            case Some(next) => RunAll(next, b, limit)
            case None => None
    decreases |a|
  {
    if a == [] {
      assert a + b == b;
    } else {
      assert (a + b)[1..] == a[1..] + b;
      match RunCommand(t, a[0], limit)
      case Some(next) => RunInOrder(next, a[1..], b, limit);
      case None =>
    }
  }

  lemma MatchesOfMore(options: seq<Opt>, last: Opt, limit: nat)
    ensures MatchesOf(options + [last], limit) ==
            match (MatchesOf(options, limit), MatchOf(last, limit))
            case (Some(before), Some(m)) => Some(before + [m])
            case _ => None
  {
    assert (options + [last])[..|options|] == options;
  }

  lemma MatchesOfUpToThree(a: Opt, b: Opt, c: Opt, limit: nat)
    requires MatchOf(a, limit).Some? && MatchOf(b, limit).Some? && MatchOf(c, limit).Some?
    ensures MatchesOf([a], limit) == Some([MatchOf(a, limit).value])
    ensures MatchesOf([a, b], limit) == Some([MatchOf(a, limit).value, MatchOf(b, limit).value])
    ensures MatchesOf([a, b, c], limit) ==
            Some([MatchOf(a, limit).value, MatchOf(b, limit).value, MatchOf(c, limit).value])
  {
    var x, y, z := MatchOf(a, limit).value, MatchOf(b, limit).value, MatchOf(c, limit).value;
    MatchesOfMore([], a, limit);
    assert [a] == [] + [a] && [x] == [] + [x];
    MatchesOfMore([a], b, limit);
    assert [a, b] == [a] + [b] && [x, y] == [x] + [y];
    MatchesOfMore([a, b], c, limit);
    assert [a, b, c] == [a, b] + [c] && [x, y, z] == [x, y] + [z];
  }

  /** The option list of the TPROXY rule is refused exactly for an empty or an overlong port list. */
  lemma TproxyOptions(ports: Option<seq<Port>>, limit: nat)
    ensures MatchesOf([Protocol("tcp")] + (if ports.Some? then [Multiport(JoinPorts(ports.value))] else []), limit) ==
            if ports.Some? && (ports.value == [] || |ports.value| > limit) then None
            else Some(ProxyRules(ports, 0)[1].matches)
  {
    var tcp := Protocol("tcp");
    MatchesOfUpToThree(tcp, tcp, tcp, limit);
    if ports.Some? {
      PortsRoundTrip(ports.value);
      MatchesOfMore([tcp], Multiport(JoinPorts(ports.value)), limit);
    } else {
      assert [tcp] + [] == [tcp] && [Tcp] + [] == [Tcp];
    }
  }

  /** A port list iptables takes: none given, or one that is neither empty nor overlong. */
  predicate Usable(ports: Option<seq<Port>>, limit: nat) {
    ports.Some? ==> 0 < |ports.value| <= limit
  }

  /** The table once the DIVERT chain stands and the socket rule jumps to it. */
  const DIVERT_TABLE: Mangle :=
    map[Prerouting := [ChainRule([Tcp, Socket], Jump(Divert))],
        Divert := [ChainRule([], Mark(1)), ChainRule([], Accept)]]

  function DivertCommands(): seq<Command> {
    [ NewChain(Divert),
      AppendRule(Prerouting, [Protocol("tcp"), SocketModule], ToChain(Divert)),
      AppendRule(Divert, [], SetMark(1)),
      AppendRule(Divert, [], ToAccept) ]
  }

  lemma RunDivertCommands(limit: nat)
    ensures RunAll(EMPTY_TABLE, DivertCommands(), limit) == Some(DIVERT_TABLE)
  {
    MatchesOfUpToThree(Protocol("tcp"), SocketModule, SocketModule, limit);
    var c1 := AppendRule(Prerouting, [Protocol("tcp"), SocketModule], ToChain(Divert));
    var c2 := AppendRule(Divert, [], SetMark(1));
    var c3 := AppendRule(Divert, [], ToAccept);
    assert forall r: ChainRule :: [] + [r] == [r];
    var t1 := EMPTY_TABLE[Divert := []];
    var t2 := t1[Prerouting := [ChainRule([Tcp, Socket], Jump(Divert))]];
    var t3 := t2[Divert := [ChainRule([], Mark(1))]];
    assert RunCommand(t1, c1, limit) == Some(t2);
    assert RunCommand(t2, c2, limit) == Some(t3);
    assert [ChainRule([], Mark(1))] + [ChainRule([], Accept)] == DIVERT_TABLE[Divert];
    assert t3[Divert := DIVERT_TABLE[Divert]] == DIVERT_TABLE;
    assert RunCommand(t3, c3, limit) == Some(DIVERT_TABLE);
    RunFirst(t3, c3, [], limit);
    RunFirst(t2, c2, [c3], limit);
    RunFirst(t1, c1, [c2, c3], limit);
    RunFirst(EMPTY_TABLE, NewChain(Divert), [c1, c2, c3], limit);
    assert [c3] == [c3] + [] && [c2, c3] == [c2] + [c3] && [c1, c2, c3] == [c1] + [c2, c3];
    assert [NewChain(Divert), c1, c2, c3] == [NewChain(Divert)] + [c1, c2, c3];
  }

  lemma RunFirst(t: Mangle, command: Command, rest: seq<Command>, limit: nat)
    ensures RunAll(t, [command] + rest, limit) ==
            match RunCommand(t, command, limit)
            case Some(next) => RunAll(next, rest, limit)
            case None => None
  {
    assert ([command] + rest)[1..] == rest;
  }

  lemma RunEbtables(t: Mangle, a: Command, b: Command, limit: nat)
    requires (a.Brouting? || a.Dnat?) && (b.Brouting? || b.Dnat?)
    ensures RunAll(t, [a, b], limit) == Some(t) == RunAll(t, [b], limit)
  {
    RunFirst(t, b, [], limit);
    RunFirst(t, a, [b], limit);
    assert [b] == [b] + [] && [a, b] == [a] + [b];
  }

  function TproxyCommand(ports: Option<seq<Port>>, listenPort: Port): Command {
    AppendRule(Prerouting,
               [Protocol("tcp")] + (if ports.Some? then [Multiport(JoinPorts(ports.value))] else []),
               ToTproxy(1, Decimal(listenPort)))
  }

  lemma RunTproxyCommand(ports: Option<seq<Port>>, listenPort: Port, limit: nat)
    ensures RunCommand(DIVERT_TABLE, TproxyCommand(ports, listenPort), limit) ==
            if Usable(ports, limit) then Some(BuiltTable(ports, listenPort, false, "")) else None
  {
    TproxyOptions(ports, limit);
    DecimalRoundTrip(listenPort);
    var proxy := ProxyRules(ports, listenPort);
    assert [proxy[0]] + [proxy[1]] == [] + proxy;
    assert DIVERT_TABLE[Prerouting := [proxy[0]] + [proxy[1]]] == BuiltTable(ports, listenPort, false, "");
    assert DIVERT_TABLE[Prerouting] == [proxy[0]];
  }

  lemma RunProxyCommands(device: string, ports: Option<seq<Port>>, listenPort: Port, mac: string, limit: nat)
    ensures RunAll(EMPTY_TABLE, SetIptables(device, JoinedPorts(ports), Decimal(listenPort), mac), limit) ==
            if Usable(ports, limit) then Some(BuiltTable(ports, listenPort, false, "")) else None
  {
    var tproxy, brouting, dnat := TproxyCommand(ports, listenPort), Brouting(SSH), Dnat(device, mac);
    assert SetIptables(device, JoinedPorts(ports), Decimal(listenPort), mac) ==
           DivertCommands() + ([tproxy] + [brouting, dnat]);
    RunDivertCommands(limit);
    RunInOrder(EMPTY_TABLE, DivertCommands(), [tproxy] + [brouting, dnat], limit);
    RunTproxyCommand(ports, listenPort, limit);
    RunFirst(DIVERT_TABLE, tproxy, [brouting, dnat], limit);
    RunEbtables(BuiltTable(ports, listenPort, false, ""), brouting, dnat, limit);
  }

  lemma RunInsert(t: Mangle, a: Opt, b: Opt, c: Opt, rest: seq<Command>, limit: nat)
    requires Prerouting in t
    requires MatchOf(a, limit).Some? && MatchOf(b, limit).Some? && MatchOf(c, limit).Some?
    ensures var rule := ChainRule([MatchOf(a, limit).value, MatchOf(b, limit).value, MatchOf(c, limit).value], Accept);
            RunAll(t, [InsertRule(Prerouting, [a, b, c], ToAccept)] + rest, limit) ==
            RunAll(t[Prerouting := [rule] + t[Prerouting]], rest, limit)
  {
    MatchesOfUpToThree(a, b, c, limit);
    RunFirst(t, InsertRule(Prerouting, [a, b, c], ToAccept), rest, limit);
  }

  /** Two inserted rules for one port range end up in front, the later one first. */
  lemma RunRangeCommands(t: Mangle, low: nat, high: nat, ip: string, rest: seq<Command>, limit: nat)
    requires Prerouting in t
    ensures RunAll(t, [InsertRule(Prerouting, [Protocol("tcp"), Dport(low, high), SourceNet(ip)], ToAccept)]
                      + ([InsertRule(Prerouting, [Protocol("tcp"), Sport(low, high), DestinationNet(ip)], ToAccept)] + rest), limit) ==
            RunAll(t[Prerouting := RangeRules(low, high, ip) + t[Prerouting]], rest, limit)
  {
    var source, destination := RangeRules(low, high, ip)[0], RangeRules(low, high, ip)[1];
    var next := t[Prerouting := [destination] + t[Prerouting]];
    RunInsert(t, Protocol("tcp"), Dport(low, high), SourceNet(ip),
              [InsertRule(Prerouting, [Protocol("tcp"), Sport(low, high), DestinationNet(ip)], ToAccept)] + rest, limit);
    RunInsert(next, Protocol("tcp"), Sport(low, high), DestinationNet(ip), rest, limit);
    assert [source] + ([destination] + t[Prerouting]) == RangeRules(low, high, ip) + t[Prerouting];
    assert next[Prerouting := [source] + next[Prerouting]] == t[Prerouting := RangeRules(low, high, ip) + t[Prerouting]];
  }

  lemma RunSafeCommands(device: string, ports: Option<seq<Port>>, listenPort: Port, ip: string, mac: string, limit: nat)
    ensures RunAll(BuiltTable(ports, listenPort, false, ip), SetIptablesSafe(device, ip, mac), limit) ==
            Some(BuiltTable(ports, listenPort, true, ip))
  {
    var c := SetIptablesSafe(device, ip, mac);
    var proxy := ProxyRules(ports, listenPort);
    var t0, t2 := BuiltTable(ports, listenPort, false, ip), BuiltTable(ports, listenPort, true, ip);
    var t1 := t0[Prerouting := RangeRules(81, 1025, ip) + t0[Prerouting]];
    assert [] + proxy == proxy;
    assert t1[Prerouting := RangeRules(1, 81, ip) + t1[Prerouting]] == t2 by {
      assert RangeRules(1, 81, ip) + (RangeRules(81, 1025, ip) + proxy) == SafeRules(ip) + proxy;
    }
    assert c == [c[0]] + ([c[1]] + ([c[2]] + ([c[3]] + [c[4]])));
    RunRangeCommands(t0, 81, 1025, ip, [c[2]] + ([c[3]] + [c[4]]), limit);
    RunRangeCommands(t1, 1, 81, ip, [c[4]], limit);
    RunEbtables(t2, c[4], c[4], limit);
  }

  /** Appending the proxy rules and then inserting the safe rules builds the table, or is refused. */
  lemma BuildsTable(device: string, ports: Option<seq<Port>>, listenPort: Port, safe: bool,
                    ip: string, mac: string, limit: nat)
    ensures RunAll(EMPTY_TABLE, NetCommands(device, JoinedPorts(ports), listenPort, safe, ip, mac), limit) ==
            if Usable(ports, limit) then Some(BuiltTable(ports, listenPort, safe, ip)) else None
  {
    var proxy := SetIptables(device, JoinedPorts(ports), Decimal(listenPort), mac);
    RunProxyCommands(device, ports, listenPort, mac, limit);
    assert BuiltTable(ports, listenPort, false, ip) == BuiltTable(ports, listenPort, false, "");
    if safe {
      RunInOrder(EMPTY_TABLE, proxy, SetIptablesSafe(device, ip, mac), limit);
      RunSafeCommands(device, ports, listenPort, ip, mac, limit);
    } else {
      assert proxy + [] == proxy;
    }
  }

  /** Traffic that safe mode leaves alone: a low port on the far side of the local network. */
  predicate SafePacket(p: Packet, ip: string, within: Within) {
    || (1 <= p.destinationPort <= 1025 && within(ip, p.source))
    || (1 <= p.sourcePort <= 1025 && within(ip, p.destination))
  }

  /** The packets a configuration is for: TCP to a configured port, not left alone by safe mode, on no known socket. */
  predicate Wanted(ports: Option<seq<Port>>, safe: bool, ip: string, p: Packet, within: Within) {
    && p.tcp && !p.socket && (ports.Some? ==> p.destinationPort in ports.value)
    && !(safe && SafePacket(p, ip, within))
  }

  /** What is to become of a packet: wanted ones go to the listen port, those of known sockets stay, both marked for routing. */
  function Expected(ports: Option<seq<Port>>, listenPort: nat, safe: bool, ip: string, p: Packet, within: Within): Verdict {
    if !p.tcp then Continue(0)
    else if safe && SafePacket(p, ip, within) then Accepted(0)
    else if p.socket then Accepted(1)
    else if Wanted(ports, safe, ip, p, within) then Redirected(1, listenPort)
    else Continue(0)
  }

  /**
   The verdict of the chain that the commands build. A packet is sent to the listen port exactly when
   it is TCP, is not left alone by safe mode, matches no socket and its destination port is configured.
   */
  lemma PacketVerdict(device: string, ports: Option<seq<Port>>, listenPort: Port, safe: bool,
                      ip: string, mac: string, limit: nat, p: Packet, within: Within)
    requires Usable(ports, limit)
    ensures var t := RunAll(EMPTY_TABLE, NetCommands(device, JoinedPorts(ports), listenPort, safe, ip, mac), limit);
            t.Some? && VerdictOn(t.value, p, within) == Expected(ports, listenPort, safe, ip, p, within)
  {
    BuildsTable(device, ports, listenPort, safe, ip, mac, limit);
    var t := BuiltTable(ports, listenPort, safe, ip);
    var proxy := ProxyRules(ports, listenPort);
    WalkProxyRules(t, ports, listenPort, p, within);
    if safe {
      WalkSafeRules(t, proxy, ip, p, within);
    } else {
      assert [] + proxy == proxy;
    }
  }

  predicate AllHold(ms: seq<Match>, p: Packet, within: Within) {
    forall m <- ms :: Holds(m, p, within)
  }

  lemma HoldsUpToThree(a: Match, b: Match, c: Match, p: Packet, within: Within)
    ensures AllHold([a], p, within) <==> Holds(a, p, within)
    ensures AllHold([a, b], p, within) <==> Holds(a, p, within) && Holds(b, p, within)
    ensures AllHold([a, b, c], p, within) <==> Holds(a, p, within) && Holds(b, p, within) && Holds(c, p, within)
  {
    assert a in [a] && a in [a, b] && b in [a, b];
    assert a in [a, b, c] && b in [a, b, c] && c in [a, b, c];
  }

  /** One step of the walk. */
  lemma WalkOne(t: Mangle, rule: ChainRule, rest: seq<ChainRule>, p: Packet, within: Within)
    requires rule.action.Accept? || rule.action.Tproxy?
    ensures Walk(t, [rule] + rest, p, 0, within, 1) ==
            if AllHold(rule.matches, p, within) then
              (if rule.action.Accept? then Accepted(0) else Redirected(rule.action.mark, rule.action.port))
            else Walk(t, rest, p, 0, within, 1)
  {
    assert ([rule] + rest)[1..] == rest;
  }

  lemma WalkProxyRules(t: Mangle, ports: Option<seq<Port>>, listenPort: nat, p: Packet, within: Within)
    requires Divert in t && t[Divert] == [ChainRule([], Mark(1)), ChainRule([], Accept)]
    ensures Walk(t, ProxyRules(ports, listenPort), p, 0, within, 1) ==
            if !p.tcp then Continue(0)
            else if p.socket then Accepted(1)
            else if ports.Some? ==> p.destinationPort in ports.value then Redirected(1, listenPort)
            else Continue(0)
  {
    var rules := ProxyRules(ports, listenPort);
    assert Walk(t, t[Divert][1..], p, 1, within, 0) == Accepted(1);
    assert Walk(t, t[Divert], p, 0, within, 0) == Accepted(1);
    HoldsUpToThree(Tcp, Socket, Socket, p, within);
    if ports.Some? {
      HoldsUpToThree(Tcp, ToPorts(ports.value), Socket, p, within);
      assert rules[1].matches == [Tcp, ToPorts(ports.value)];
    } else {
      assert rules[1].matches == [Tcp];
    }
    WalkOne(t, rules[1], [], p, within);
    assert rules[1..] == [rules[1]] + [];
    assert AllHold(rules[0].matches, p, within) <==> p.tcp && p.socket;
  }

  lemma WalkRange(t: Mangle, low: nat, high: nat, rest: seq<ChainRule>, ip: string, p: Packet, within: Within)
    ensures Walk(t, RangeRules(low, high, ip) + rest, p, 0, within, 1) ==
            if p.tcp && ((low <= p.sourcePort <= high && within(ip, p.destination))
                         || (low <= p.destinationPort <= high && within(ip, p.source)))
            then Accepted(0) else Walk(t, rest, p, 0, within, 1)
  {
    var first, second := RangeRules(low, high, ip)[0], RangeRules(low, high, ip)[1];
    HoldsUpToThree(Tcp, FromRange(low, high), ToNet(ip), p, within);
    HoldsUpToThree(Tcp, ToRange(low, high), FromNet(ip), p, within);
    WalkOne(t, second, rest, p, within);
    WalkOne(t, first, [second] + rest, p, within);
    assert RangeRules(low, high, ip) + rest == [first] + ([second] + rest);
  }

  lemma WalkSafeRules(t: Mangle, rest: seq<ChainRule>, ip: string, p: Packet, within: Within)
    ensures Walk(t, SafeRules(ip) + rest, p, 0, within, 1) ==
            if p.tcp && SafePacket(p, ip, within) then Accepted(0) else Walk(t, rest, p, 0, within, 1)
  {
    WalkRange(t, 81, 1025, rest, ip, p, within);
    WalkRange(t, 1, 81, RangeRules(81, 1025, ip) + rest, ip, p, within);
    assert SafeRules(ip) + rest == RangeRules(1, 81, ip) + (RangeRules(81, 1025, ip) + rest);
  }

  /** A listen port that is not itself configured never receives redirected traffic addressed to it. */
  lemma ListenPortNotRedirected(device: string, ports: seq<Port>, listenPort: Port, safe: bool,
                                ip: string, mac: string, limit: nat, p: Packet, within: Within)
    requires Usable(Some(ports), limit) && listenPort !in ports
    requires p.destinationPort == listenPort
    ensures var t := RunAll(EMPTY_TABLE, NetCommands(device, JoinedPorts(Some(ports)), listenPort, safe, ip, mac), limit);
            t.Some? && !VerdictOn(t.value, p, within).Redirected?
  {
    PacketVerdict(device, Some(ports), listenPort, safe, ip, mac, limit, p, within);
  }

  // ---- All tables of the namespace ----

  /** Runs the commands in order on all tables. */
  function RunAllIn(t: Tables, commands: seq<Command>, limit: nat): Option<Tables> {
    if commands == [] then Some(t)
    else
      match RunAllIn(t, commands[..|commands| - 1], limit)
      case Some(next) => RunIn(next, commands[|commands| - 1], limit)
      case None => None
  }

  /** The exempt ports of the BROUTING commands in the list. */
  function Exempts(commands: seq<Command>): seq<nat> {
    if commands == [] then []
    else
      var last := commands[|commands| - 1];
      Exempts(commands[..|commands| - 1]) + if last.Brouting? then [last.exempt] else []
  }

  lemma {:induction false} RunsOnTables(t: Tables, commands: seq<Command>, limit: nat)
    ensures RunAllIn(t, commands, limit) ==
            match RunAll(t.mangle, commands, limit)
            case Some(mangle) => Some(Tables(mangle, t.broute + Exempts(commands)))
            case None => None
  {
    if commands == [] {
      assert t.broute + Exempts(commands) == t.broute;
    } else {
      var init, last := commands[..|commands| - 1], commands[|commands| - 1];
      RunsOnTables(t, init, limit);
      assert commands == init + [last];
      RunInOrder(t.mangle, init, [last], limit);
      if RunAll(t.mangle, init, limit).Some? {
        RunFirst(RunAll(t.mangle, init, limit).value, last, [], limit);
        assert [last] + [] == [last];
        var mid := RunAll(t.mangle, init, limit).value;
        assert RunAll(t.mangle, commands, limit) == RunCommand(mid, last, limit);
        assert RunAllIn(t, commands, limit) == RunIn(Tables(mid, t.broute + Exempts(init)), last, limit);
        assert last.Brouting? ==> t.broute + Exempts(init) + [last.exempt] == t.broute + Exempts(commands);
        assert !last.Brouting? ==> Exempts(commands) == Exempts(init);
      }
    }
  }

  /** The rules that the commands of the list append to the host's nat list. */
  function Dnats(commands: seq<Command>): seq<NatRule> {
    if commands == [] then []
    else
      var last := commands[|commands| - 1];
      Dnats(commands[..|commands| - 1]) + if last.Dnat? then [NatRule(last.device, last.mac)] else []
  }

  lemma {:induction false} OfSum(a: seq<Command>, b: seq<Command>)
    ensures Exempts(a + b) == Exempts(a) + Exempts(b) && Dnats(a + b) == Dnats(a) + Dnats(b)
  {
    if b == [] {
      assert a + b == a;
    } else {
      var init := b[..|b| - 1];
      assert (a + b)[..|a + b| - 1] == a + init;
      OfSum(a, init);
    }
  }

  lemma {:induction false} OfOthers(commands: seq<Command>)
    requires forall c <- commands :: !c.Brouting? && !c.Dnat?
    ensures Exempts(commands) == [] && Dnats(commands) == []
  {
    if commands != [] {
      OfOthers(commands[..|commands| - 1]);
      assert commands[|commands| - 1] in commands;
    }
  }

  lemma OfLast(c: Command)
    ensures Exempts([c]) == (if c.Brouting? then [c.exempt] else [])
    ensures Dnats([c]) == (if c.Dnat? then [NatRule(c.device, c.mac)] else [])
  {
    assert [c][..0] == [];
  }

  lemma SafeListEffects(device: string, ip: string, mac: string)
    ensures Exempts(SetIptablesSafe(device, ip, mac)) == [] && Dnats(SetIptablesSafe(device, ip, mac)) == [NatRule(device, mac)]
  {
    var c := SetIptablesSafe(device, ip, mac);
    assert c == c[..4] + [c[4]];
    OfSum(c[..4], [c[4]]);
    OfOthers(c[..4]);
    OfLast(c[4]);
  }

  lemma ProxyListEffects(device: string, ports: Option<string>, listenPort: string, mac: string)
    ensures var c := SetIptables(device, ports, listenPort, mac);
            Exempts(c) == [22] && Dnats(c) == [NatRule(device, mac)]
  {
    var c := SetIptables(device, ports, listenPort, mac);
    assert c == c[..5] + [c[5]] + [c[6]];
    OfSum(c[..5] + [c[5]], [c[6]]);
    OfSum(c[..5], [c[5]]);
    OfOthers(c[..5]);
    OfLast(c[5]);
    OfLast(c[6]);
  }

  /** The rules for frames that a whole list leaves: TCP but SSH is routed, and frames of the device go to `mac`. */
  function NatRules(device: string, mac: string, safe: bool): seq<NatRule> {
    [NatRule(device, mac)] + if safe then [NatRule(device, mac)] else []
  }

  /** All tables after a list that ran to its end, and the rules it appends to the host's nat list. */
  lemma ListEffects(device: string, ports: Option<seq<Port>>, listenPort: Port, safe: bool, ip: string, mac: string, limit: nat)
    ensures var c := NetCommands(device, JoinedPorts(ports), listenPort, safe, ip, mac);
            && RunAllIn(FRESH_TABLES, c, limit) ==
               (if Usable(ports, limit) then Some(Tables(BuiltTable(ports, listenPort, safe, ip), [22])) else None)
            && Dnats(c) == NatRules(device, mac, safe)
  {
    var proxy := SetIptables(device, JoinedPorts(ports), Decimal(listenPort), mac);
    ProxyListEffects(device, JoinedPorts(ports), Decimal(listenPort), mac);
    SafeListEffects(device, ip, mac);
    OfSum(proxy, if safe then SetIptablesSafe(device, ip, mac) else []);
    BuildsTable(device, ports, listenPort, safe, ip, mac, limit);
    var c := NetCommands(device, JoinedPorts(ports), listenPort, safe, ip, mac);
    RunsOnTables(FRESH_TABLES, c, limit);
    assert Exempts(c) == [22] && [] + [22] == [22];
  }

  /** What the tables are to do: the bridge hands over TCP but SSH, and handed over packets fare as expected. */
  ghost predicate Serves(t: Tables, ports: Option<seq<Port>>, listenPort: nat, safe: bool, ip: string) {
    && (forall p :: Brouted(t.broute, p) <==> p.tcp && p.sourcePort != 22 && p.destinationPort != 22)
    && (forall p, within :: VerdictOn(t.mangle, p, within) == Expected(ports, listenPort, safe, ip, p, within))
  }

  lemma BroutedAroundSsh(p: Packet)
    ensures Brouted([22], p) <==> p.tcp && p.sourcePort != 22 && p.destinationPort != 22
  {
    var broute: seq<nat> := [22];
    assert broute[0] in broute;
  }

  lemma ListServes(device: string, ports: Option<seq<Port>>, listenPort: Port, safe: bool, ip: string, mac: string, limit: nat)
    requires Usable(ports, limit)
    ensures var t := RunAllIn(FRESH_TABLES, NetCommands(device, JoinedPorts(ports), listenPort, safe, ip, mac), limit);
            t.Some? && Serves(t.value, ports, listenPort, safe, ip)
  {
    ListEffects(device, ports, listenPort, safe, ip, mac, limit);
    BuildsTable(device, ports, listenPort, safe, ip, mac, limit);
    forall p: Packet {
      BroutedAroundSsh(p);
    }
    forall p: Packet, within: Within {
      PacketVerdict(device, ports, listenPort, safe, ip, mac, limit, p, within);
    }
  }

  lemma {:induction false} RunAllInSum(t: Tables, a: seq<Command>, b: seq<Command>, limit: nat)
    ensures RunAllIn(t, a + b, limit) ==
            match RunAllIn(t, a, limit)
            case Some(next) => RunAllIn(next, b, limit)
            case None => None
  {
    if b == [] {
      assert a + b == a;
    } else {
      var init := b[..|b| - 1];
      assert (a + b)[..|a + b| - 1] == a + init;
      RunAllInSum(t, a, init, limit);
    }
  }

  /** Every command of a run that gets through can be run where it stands. */
  lemma {:induction false} RunAllInStep(t: Tables, commands: seq<Command>, k: nat, limit: nat)
    requires k < |commands| && RunAllIn(t, commands, limit).Some?
    ensures RunAllIn(t, commands[..k], limit).Some?
    ensures RunIn(RunAllIn(t, commands[..k], limit).value, commands[k], limit).Some?
  {
    var init := commands[..|commands| - 1];
    if k < |init| {
      RunAllInStep(t, init, k, limit);
      assert init[..k] == commands[..k];
    }
  }
}
