/**
 The commands that build the packet chain in the proxy's namespace, what running them does to the
 mangle table, and what that table does to a packet.
 */
module Iptables {
  import opened Wrappers
  import opened Ports

  datatype Chain = Prerouting | Divert

  /** One option of an iptables rule, with its argument as written. */
  datatype Opt =
    | Protocol(name: string)          // -p
    | SocketModule                    // -m socket
    | Multiport(list: string)         // -m multiport --dports
    | Dport(low: nat, high: nat)      // --dport low:high
    | Sport(low: nat, high: nat)      // --sport low:high
    | SourceNet(net: string)          // -s
    | DestinationNet(net: string)     // -d

  /** What follows `-j`; TPROXY names its port as text, and its mask is the mark itself. */
  datatype Target = ToChain(chain: Chain) | SetMark(mark: nat) | ToAccept | ToTproxy(mark: nat, onPort: string)

  /**
   Commands on the tables of the proxy's namespace; only `Dnat` is for the host's own ebtables. `Brouting` appends
   a rule that routes IPv4 TCP frames instead of bridging them, unless they come from or go to port `exempt`.
   `Dnat` appends one that sends frames arriving on a device to a MAC address.
   */
  datatype Command =
    | NewChain(chain: Chain)
    | AppendRule(chain: Chain, options: seq<Opt>, target: Target)
    | InsertRule(chain: Chain, options: seq<Opt>, target: Target)
    | Brouting(exempt: nat)
    | Dnat(device: string, mac: string)

  // ---- The command lists ----

  const SSH: nat := 22

  function SetIptables(device: string, proxyPorts: Option<string>, listenPort: string, deviceMac: string): seq<Command> {
    [ NewChain(Divert),
      AppendRule(Prerouting, [Protocol("tcp"), SocketModule], ToChain(Divert)),
      AppendRule(Divert, [], SetMark(1)),
      AppendRule(Divert, [], ToAccept),
      AppendRule(Prerouting,
                 [Protocol("tcp")] + (if proxyPorts.Some? then [Multiport(proxyPorts.value)] else []),
                 ToTproxy(1, listenPort)),
      Brouting(SSH),
      Dnat(device, deviceMac) ]
  }

  function SetIptablesSafe(device: string, ip: string, deviceMac: string): seq<Command> {
    [ InsertRule(Prerouting, [Protocol("tcp"), Dport(81, 1025), SourceNet(ip)], ToAccept),
      InsertRule(Prerouting, [Protocol("tcp"), Sport(81, 1025), DestinationNet(ip)], ToAccept),
      InsertRule(Prerouting, [Protocol("tcp"), Dport(1, 81), SourceNet(ip)], ToAccept),
      InsertRule(Prerouting, [Protocol("tcp"), Sport(1, 81), DestinationNet(ip)], ToAccept),
      Dnat(device, deviceMac) ]
  }

  /** The commands `set_net` runs: the proxy rules are appended first, then the safe rules inserted. */
  function NetCommands(device: string, proxyPorts: Option<string>, listenPort: Port, safe: bool,
                       ip: string, deviceMac: string): seq<Command>
  {
    SetIptables(device, proxyPorts, Decimal(listenPort), deviceMac)
    + if safe then SetIptablesSafe(device, ip, deviceMac) else []
  }

  // ---- What the commands do to the mangle table ----

  datatype Match =
    | Tcp
    | Socket
    | ToPorts(ports: seq<nat>)
    | ToRange(low: nat, high: nat)
    | FromRange(low: nat, high: nat)
    | FromNet(net: string)
    | ToNet(net: string)

  datatype Action = Jump(chain: Chain) | Mark(mark: nat) | Accept | Tproxy(mark: nat, port: nat)

  datatype ChainRule = ChainRule(matches: seq<Match>, action: Action)

  type Mangle = map<Chain, seq<ChainRule>>

  const EMPTY_TABLE: Mangle := map[Prerouting := []]

  /** The condition an option stands for; `limit` is how many ports one multiport option may list. */
  function MatchOf(option: Opt, limit: nat): Option<Match> {
    match option
    case Protocol(_) => Some(Tcp)
    case SocketModule => Some(Socket)
    case Multiport(list) =>
      (match ParsePorts(list)
       case Some(ports) => if |ports| <= limit then Some(ToPorts(ports)) else None
       case None => None)
    case Dport(low, high) => Some(ToRange(low, high))
    case Sport(low, high) => Some(FromRange(low, high))
    case SourceNet(net) => Some(FromNet(net))
    case DestinationNet(net) => Some(ToNet(net))
  }

  function MatchesOf(options: seq<Opt>, limit: nat): Option<seq<Match>> {
    if options == [] then Some([])
    else
      match (MatchesOf(options[..|options| - 1], limit), MatchOf(options[|options| - 1], limit))
      case (Some(before), Some(last)) => Some(before + [last])
      case _ => None
  }

  function ActionOf(target: Target): Option<Action> {
    match target
    case ToChain(chain) => Some(Jump(chain))
    case SetMark(mark) => Some(Mark(mark))
    case ToAccept => Some(Accept)
    case ToTproxy(mark, onPort) =>
      match ParseDecimal(onPort)
      case Some(port) => Some(Tproxy(mark, port))
      case None => None
  }

  function RuleOf(options: seq<Opt>, target: Target, limit: nat): Option<ChainRule> {
    match (MatchesOf(options, limit), ActionOf(target))
    case (Some(matches), Some(action)) => Some(ChainRule(matches, action))
    case _ => None
  }

  function RunCommand(t: Mangle, command: Command, limit: nat): Option<Mangle> {
    match command
    case NewChain(chain) => if chain in t then None else Some(t[chain := []])
    case AppendRule(chain, options, target) =>
      var rule := RuleOf(options, target, limit);
      if chain in t && rule.Some? then Some(t[chain := t[chain] + [rule.value]]) else None
    case InsertRule(chain, options, target) =>
      var rule := RuleOf(options, target, limit);
      if chain in t && rule.Some? then Some(t[chain := [rule.value] + t[chain]]) else None
    case _ => Some(t)
  }

  /** Runs the commands in order; the first failure ends the run. */
  function RunAll(t: Mangle, commands: seq<Command>, limit: nat): Option<Mangle>
    decreases |commands|
  {
    if commands == [] then Some(t)
    else
      match RunCommand(t, commands[0], limit)
      case Some(next) => RunAll(next, commands[1..], limit)
      case None => None
  }

  /** A rule of the host's ebtables nat list. */
  datatype NatRule = NatRule(device: string, mac: string)

  /** The tables of a namespace: mangle, and the exempt ports of the BROUTING rules. */
  datatype Tables = Tables(mangle: Mangle, broute: seq<nat>)

  const FRESH_TABLES := Tables(EMPTY_TABLE, [])

  function RunIn(t: Tables, command: Command, limit: nat): Option<Tables> {
    match RunCommand(t.mangle, command, limit)
    case Some(next) => Some(Tables(next, if command.Brouting? then t.broute + [command.exempt] else t.broute))
    case None => None
  }

  // ---- What the tables do to a packet ----

  datatype Packet = Packet(tcp: bool, socket: bool, source: nat, destination: nat, sourcePort: nat, destinationPort: nat)

  /** Whether an address lies in a network written as text. */
  type Within = (string, nat) -> bool

  /** What a chain decides, with the mark the packet has then. */
  datatype Verdict = Continue(mark: nat) | Accepted(mark: nat) | Redirected(mark: nat, port: nat)

  predicate Holds(m: Match, p: Packet, within: Within) {
    match m
    case Tcp => p.tcp
    case Socket => p.socket
    case ToPorts(ports) => p.destinationPort in ports
    case ToRange(low, high) => low <= p.destinationPort <= high
    case FromRange(low, high) => low <= p.sourcePort <= high
    case FromNet(net) => within(net, p.source)
    case ToNet(net) => within(net, p.destination)
  }

  /** The first rule that matches and decides; `depth` bounds how far jumps may nest. */
  function Walk(t: Mangle, rules: seq<ChainRule>, p: Packet, mark: nat, within: Within, depth: nat): Verdict
    decreases depth, |rules|
  {
    if rules == [] then Continue(mark)
    else if forall m <- rules[0].matches :: Holds(m, p, within) then
      match rules[0].action
      case Accept => Accepted(mark)
      case Tproxy(marked, port) => Redirected(marked, port)
      case Mark(marked) => Walk(t, rules[1..], p, marked, within, depth)
      case Jump(chain) =>
        var inner := if depth > 0 && chain in t then Walk(t, t[chain], p, mark, within, depth - 1) else Continue(mark);
        if inner.Continue? then Walk(t, rules[1..], p, inner.mark, within, depth) else inner
    else Walk(t, rules[1..], p, mark, within, depth)
  }

  /** What becomes of a packet that arrives unmarked; no chain jumps further than once. */
  function VerdictOn(t: Mangle, p: Packet, within: Within): Verdict {
    if Prerouting in t then Walk(t, t[Prerouting], p, 0, within, 1) else Continue(0)
  }

  /** Whether the bridge hands the packet to the mangle table instead of passing it on. */
  predicate Brouted(broute: seq<nat>, p: Packet) {
    exists exempt <- broute :: p.tcp && p.sourcePort != exempt && p.destinationPort != exempt
  }
}
