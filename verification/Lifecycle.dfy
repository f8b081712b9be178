/** The proxy's lifecycle: channels, the task that owns the child process, and the host around them. */
module Lifecycle {
  import opened Wrappers
  import opened Host
  import opened Bridge
  import opened Ports
  import opened Setup
  import opened AddressText
  import Iptables
  import IptablesLaws

  type ChannelId = nat
  type TaskId = nat

  datatype Child = NotSpawned | Running | Exited | Signalled | SpawnFailed

  /** A task owns the receiving end of its channel and at most one child process. */
  datatype Task = Task(rx: ChannelId, child: Child) {
    /** The child is yet to come or still runs unsignalled. */
    predicate Live() {
      child.NotSpawned? || child.Running?
    }
  }

  /** What a task may do on its own: spawn its child, see it exit, or signal it once told to. */
  predicate Evolves(before: Task, after: Task, told: bool) {
    && before.rx == after.rx
    && match before.child
       case NotSpawned => !after.child.Signalled? || told
       case Running => after.child.Running? || after.child.Exited? || (after.child.Signalled? && told)
       case _ => after.child == before.child
  }

  /** The tasks after some time, with the receivers of the channels in `woken` told to stop. */
  predicate Later(before: map<TaskId, Task>, after: map<TaskId, Task>, woken: set<ChannelId>) {
    && after.Keys == before.Keys
    && forall id <- after :: Evolves(before[id], after[id], before[id].rx in woken)
  }

  /** Channels and tasks of the asynchronous runtime. */
  class Runtime {
    var channels: nat
    /** Channels whose receiver has been woken: something was sent, or the sender was dropped. */
    var woken: set<ChannelId>
    var tasks: map<TaskId, Task>
    /** Tasks that panicked. */
    var panicked: set<TaskId>

    constructor ()
      ensures channels == 0 && woken == {} && tasks == map[] && panicked == {}
    {
      channels, woken, tasks, panicked := 0, {}, map[], {};
    }

    method NewChannel() returns (id: ChannelId)
      modifies this`channels
      ensures id == old(channels) && channels == id + 1
    {
      id := channels;
      channels := channels + 1;
    }

    method Wake(id: ChannelId)
      modifies this`woken
      ensures woken == old(woken) + {id}
    {
      woken := woken + {id};
    }

    method Spawn(rx: ChannelId) returns (id: TaskId)
      modifies this`tasks
      ensures id !in old(tasks) && tasks == old(tasks)[id := Task(rx, NotSpawned)]
    {
      FreshTask(tasks.Keys);
      id :| id !in tasks;
      tasks := tasks[id := Task(rx, NotSpawned)];
    }

    lemma {:induction false} BoundedTasks(ids: set<TaskId>) returns (n: nat)
      ensures forall i <- ids :: i < n
    {
      n := 0;
      if i :| i in ids {
        var m := BoundedTasks(ids - {i});
        n := if i < m then m else i + 1;
        assert ids == (ids - {i}) + {i};
      }
    }

    lemma FreshTask(ids: set<TaskId>)
      ensures exists id: TaskId :: id !in ids
    {
      var n := BoundedTasks(ids);
      assert n !in ids;
    }

    /** Time passes: any tasks may make progress. */
    method Drift()
      modifies this`tasks
      ensures Later(old(tasks), tasks, woken)
    {
      var todo := tasks.Keys;
      while todo != {}
        invariant todo <= tasks.Keys == old(tasks).Keys
        invariant forall id <- todo :: tasks[id] == old(tasks)[id]
        invariant forall id <- tasks :: Evolves(old(tasks)[id], tasks[id], old(tasks)[id].rx in woken)
      {
        var id :| id in todo;
        var child: Child := *;
        if Evolves(tasks[id], Task(tasks[id].rx, child), tasks[id].rx in woken) {
          tasks := tasks[id := Task(tasks[id].rx, child)];
        }
        todo := todo - {id};
      }
    }

    /**
     Waits for a task that has been told to stop. Its child ends up exited, signalled or never spawned.
     A join fails only if the task panicked. The one expression that could panic reads the process id of a
     child that the same `select!` has not seen exit, so no run is known in which it does; the model still
     lets the join of a task with an exited child fail.
     */
    method Join(id: TaskId, smooth: bool) returns (joined: bool)
      requires id in tasks && tasks[id].rx in woken
      modifies this`tasks, this`panicked
      ensures Later(old(tasks), tasks, woken)
      ensures !tasks[id].Live()
      ensures joined <==> id !in panicked
      ensures !joined ==> tasks[id].child.Exited?
      ensures smooth ==> joined
    {
      Drift();
      var end: Child := *;
      if tasks[id].Live() {
        tasks := tasks[id := Task(tasks[id].rx, if end.Exited? || (end.SpawnFailed? && tasks[id].child.NotSpawned?) then end else Signalled)];
      }
      var panics: bool := *;
      joined := !(panics && tasks[id].child.Exited?) || smooth;
      panicked := if joined then panicked - {id} else panicked + {id};
    }
  }

  datatype Config = Config(proxyPorts: Option<seq<Port>>, listenPort: Port, safe: bool)

  /**
   The configuration handed to the proxy. The listen port is the least candidate that is not proxied.
   */
  method ConfigFrom(proxyPorts: Option<seq<Port>>, safeMode: Option<bool>, ipv4Found: bool) returns (r: Option<Config>)
    ensures r.Some? <==> ipv4Found && exists p :: 1025 <= p < 65535 && p !in proxyPorts.GetOr([])
    ensures r.Some? ==>
              && r.value.proxyPorts == proxyPorts && r.value.safe == safeMode.GetOr(false)
              && 1025 <= r.value.listenPort < 65535 && r.value.listenPort !in proxyPorts.GetOr([])
              && forall p :: 1025 <= p < r.value.listenPort ==> p in proxyPorts.GetOr([])
  {
    if !ipv4Found {
      return None;
    }
    var port := GetFreePort(proxyPorts);
    if port.None? {
      return None;
    }
    return Some(Config(proxyPorts, port.value, safeMode.GetOr(false)));
  }

  /** The device and address the controller picks from the interfaces it finds. */
  type Pick = map<LinkId, Link> -> (Name, Address)

  /** The environment built on a host in its original state. */
  function EnvOf(key: string, h: State, pick: Pick, dump: set<Route> -> seq<Route>): NetEnv {
    Named(key, pick(h.links).0, pick(h.links).1, dump(h.routes))
  }

  /** A host as an undo may leave it: like `a` but for routes, the nat list and devices that lost their master. */
  ghost predicate Alike(a: State, b: State) {
    && a.netns == b.netns && a.links.Keys == b.links.Keys
    && forall id <- a.links :: b.links[id] == a.links[id] || b.links[id] == a.links[id].(master := None)
  }

  /** The names of the links in the host's own namespace. */
  function LocalNames(links: map<LinkId, Link>): set<Name> {
    set id | id in links && id.ns.None? :: id.name
  }

  predicate Unused(key: string, names: set<Name>) {
    forall name <- names :: !(key <= name)
  }

  /** The first of the drawn keys with which no name starts; none if all of them are taken. */
  method PickKey(names: set<Name>, draws: seq<string>) returns (r: Option<string>)
    ensures r.Some? ==> Unused(r.value, names)
    ensures r.Some? ==> exists i :: 0 <= i < |draws| && draws[i] == r.value && forall j :: 0 <= j < i ==> !Unused(draws[j], names)
    ensures r.None? <==> forall key <- draws :: !Unused(key, names)
  {
    for i := 0 to |draws|
      invariant forall j :: 0 <= j < i ==> !Unused(draws[j], names)
    {
      if Unused(draws[i], names) {
        return Some(draws[i]);
      }
    }
    return None;
  }

  /** The device that gets picked exists and holds the address that gets moved. */
  ghost predicate Addressed(s: State, pick: Pick) {
    && Local(pick(s.links).0) in s.links
    && pick(s.links).1 in s.links[Local(pick(s.links).0)].addresses
  }

  /** A picked key whose namespace name is free too, on a host whose picked device holds its address. */
  ghost predicate FreshKey(key: string, first: State, pick: Pick) {
    && |key| == KEY_LENGTH
    && Unused(key, LocalNames(first.links)) && key + "ns" !in first.netns
    && Usable(first, pick)
  }

  /** On this host and every undone one the picked device holds its address. */
  ghost predicate Usable(first: State, pick: Pick) {
    && WellFormed(first)
    && forall s {:trigger Addressed(s, pick)} :: Alike(first, s) ==> Addressed(s, pick)
  }

  /**
   Random keys, as many as it takes to draw one with which no link name starts; that no namespace has a name
   built from one of them is not looked at.
   */
  ghost predicate Draws(draws: seq<string>, first: State, pick: Pick) {
    && (forall key <- draws :: |key| == KEY_LENGTH && key + "ns" !in first.netns)
    && (exists key <- draws :: Unused(key, LocalNames(first.links)))
    && Usable(first, pick)
  }

  lemma UnusedName(key: string, rest: string, links: map<LinkId, Link>)
    requires Unused(key, LocalNames(links))
    ensures Local(key + rest) !in links
  {
    assert key <= key + rest;
    assert Local(key + rest) in links ==> Local(key + rest).name in LocalNames(links);
  }

  lemma AlikeWellFormed(first: State, s: State)
    requires WellFormed(first) && Alike(first, s)
    ensures WellFormed(s)
  {
  }

  /** No name built from the key is taken: this is what the search for a key is for. */
  lemma KeyGivesFreshNames(key: string, first: State, s: State, pick: Pick, dump: set<Route> -> seq<Route>)
    requires FreshKey(key, first, pick) && Alike(first, s)
    ensures Fresh(EnvOf(key, s, pick, dump), s)
  {
    AlikeWellFormed(first, s);
    NamesSeparate(key, pick(s.links).0, pick(s.links).1, dump(s.routes));
    UnusedName(key, "b1", first.links);
    UnusedName(key, "v1", first.links);
    UnusedName(key, "v4", first.links);
    assert Addressed(s, pick);
  }

  /** The original host, its ebtables nat list aside. */
  predicate Home(base: State, s: State) {
    s.(natTable := base.natTable) == base
  }

  /** Hosts whose route adds succeed: the saved routes install one after the other. */
  ghost predicate Reloads(h: State, dump: set<Route> -> seq<Route>) {
    SelfSupporting(Reverse(dump(h.routes)), InstallsOn(h.links))
  }

  /** Hosts an undo can restore as a whole: the device has no master either. */
  ghost predicate Restorable(h: State, pick: Pick, dump: set<Route> -> seq<Route>) {
    && Local(pick(h.links).0) in h.links && h.links[Local(pick(h.links).0)].master.None?
    && Reloads(h, dump)
  }

  /** An undone host. Its routes are the original ones if they install, and it is the original one if that can be restored. */
  ghost predicate Undone(first: State, s: State, pick: Pick, dump: set<Route> -> seq<Route>) {
    && Alike(first, s)
    && (Reloads(first, dump) ==> s.routes == first.routes)
    && (Restorable(first, pick, dump) ==> Home(first, s))
  }

  /** The environment was built on the undone host `base`. */
  ghost predicate BuiltOn(env: NetEnv, first: State, base: State, pick: Pick, dump: set<Route> -> seq<Route>) {
    && Undone(first, base, pick, dump)
    && Fresh(env, base)
    && (env.device, env.ip) == pick(base.links)
    && env.saveRoutes == Reverse(dump(base.routes))
  }

  /** Channels are paired, a stored task owns the receiver of the stored sender, no other child is live. */
  ghost predicate Paired(sender: Option<ChannelId>, rx: Option<ChannelId>, task: Option<TaskId>,
                         tasks: map<TaskId, Task>, channels: nat)
  {
    && (rx.Some? ==> sender == rx && rx.value < channels)
    && (sender.Some? ==> sender.value < channels)
    && (task.Some? ==>
          && rx.None? && sender.Some?
          && task.value in tasks && tasks[task.value].rx == sender.value)
    && (forall id <- tasks :: tasks[id].rx < channels)
    && (forall id <- tasks :: tasks[id].Live() ==> task == Some(id))
  }

  /** Time passing keeps the pairing. */
  lemma PairedEvolves(sender: Option<ChannelId>, rx: Option<ChannelId>, task: Option<TaskId>,
                      before: map<TaskId, Task>, after: map<TaskId, Task>, channels: nat, woken: set<ChannelId>)
    requires Paired(sender, rx, task, before, channels)
    requires Later(before, after, woken)
    ensures Paired(sender, rx, task, after, channels)
  {
  }

  lemma PairedRenewed(sender: Option<ChannelId>, rx: Option<ChannelId>, tasks: map<TaskId, Task>, channels: nat)
    requires Paired(sender, rx, None, tasks, channels)
    ensures Paired(Some(channels), Some(channels), None, tasks, channels + 1)
  {
  }

  lemma PairedSpawned(rx: ChannelId, id: TaskId, tasks: map<TaskId, Task>, channels: nat)
    requires Paired(Some(rx), Some(rx), None, tasks, channels) && id !in tasks
    ensures Paired(Some(rx), None, Some(id), tasks[id := Task(rx, NotSpawned)], channels)
  {
  }

  /** Once the stored task has ended no child is live. */
  lemma PairedEnds(sender: Option<ChannelId>, id: TaskId, before: map<TaskId, Task>, after: map<TaskId, Task>,
                   channels: nat, woken: set<ChannelId>)
    requires Paired(sender, None, Some(id), before, channels)
    requires Later(before, after, woken) && !after[id].Live()
    ensures Paired(None, None, None, after, channels)
  {
  }

  lemma UndoneAfterUndo(env: NetEnv, first: State, base: State, pick: Pick, dump: set<Route> -> seq<Route>, s: State)
    requires BuiltOn(env, first, base, pick, dump) && Partial(env, base, s)
    requires Lists(dump(base.routes), base.routes)
    ensures Undone(first, AfterUndo(env, base, s), pick, dump)
  {
    AlikeAfterUndo(first, env, base, s);
    if Reloads(first, dump) {
      RoutesComeBack(first, base, env.saveRoutes, dump);
    }
    UndoIsExactIff(env, base, s, dump(base.routes));
  }

  /** Routes that install come back, whatever became of masters. */
  lemma RoutesComeBack(first: State, base: State, saved: seq<Route>, dump: set<Route> -> seq<Route>)
    requires Alike(first, base) && Reloads(first, dump) && base.routes == first.routes
    requires Lists(dump(base.routes), base.routes) && saved == Reverse(dump(base.routes))
    ensures Loaded({}, saved, InstallsOn(base.links)) == first.routes
  {
    ReverseLists(dump(first.routes), first.routes);
    LoadsAllIff(saved, InstallsOn(first.links));
    LoadedAlike({}, saved, first.links, base.links);
  }

  /**
   Exactly when the next generation saves the routes the first one saved: if they install one after the other.
   Otherwise the first undo already loses some.
   */
  lemma RoutesConservedIff(env: NetEnv, first: State, s: State, dump: set<Route> -> seq<Route>)
    requires Dumps(dump) && Fresh(env, first) && env.saveRoutes == Reverse(dump(first.routes))
    ensures Reverse(dump(AfterUndo(env, first, s).routes)) == env.saveRoutes <==> Reloads(first, dump)
  {
    var after := AfterUndo(env, first, s).routes;
    assert Lists(dump(first.routes), first.routes) && Lists(dump(after), after);
    ReverseLists(dump(first.routes), first.routes);
    ReverseLists(dump(after), after);
    LoadsAllIff(env.saveRoutes, InstallsOn(first.links));
  }

  lemma AlikeAfterUndo(first: State, env: NetEnv, base: State, s: State)
    requires Alike(first, base) && Local(env.device) in base.links
    ensures Alike(first, AfterUndo(env, base, s))
  {
  }

  /** A new environment on an undone host: draws a key, picks the device, saves the routes. */
  method NewEnv(host: Machine, draws: seq<string>, pick: Pick, ghost first: State) returns (env: NetEnv)
    requires Draws(draws, first, pick) && Undone(first, host.state, pick, host.dump)
    ensures BuiltOn(env, first, host.state, pick, host.dump)
  {
    var key := PickKey(LocalNames(host.state.links), draws);
    AlikeNames(first, host.state);
    env := EnvOf(key.value, host.state, pick, host.dump);
    KeyGivesFreshNames(key.value, first, host.state, pick, host.dump);
  }

  lemma AlikeNames(first: State, s: State)
    requires Alike(first, s)
    ensures LocalNames(s.links) == LocalNames(first.links)
  {
  }

  /** The host serves a configuration, and its nat list ends with the rules of this generation. */
  ghost predicate Serving(env: NetEnv, s: State, mac: Name -> string, config: Config) {
    && Proxying(env, s, config.proxyPorts, config.listenPort, config.safe)
    && EndsWith(s.natTable, IptablesLaws.NatRules(env.device, mac(env.veth4), config.safe))
  }

  class Proxy {
    const host: Machine
    const runtime: Runtime
    const pick: Pick
    var netEnv: NetEnv
    var sender: Option<ChannelId>
    var rx: Option<ChannelId>
    var task: Option<TaskId>

    /** The host before the first generation, and before the current one. */
    ghost const first: State
    ghost var base: State

    ghost predicate Wiring()
      reads this`sender, this`rx, this`task, runtime`tasks, runtime`channels
    {
      Paired(sender, rx, task, runtime.tasks, runtime.channels)
    }

    ghost predicate Rests(s: State) {
      Undone(first, s, pick, host.dump)
    }

    ghost predicate Rooted()
      reads this`netEnv, this`base
    {
      Dumps(host.dump) && BuiltOn(netEnv, first, base, pick, host.dump)
    }

    /** With a task the host is at most partly or fully set up; without one it is undone. */
    ghost predicate Valid()
      reads this, host, runtime
    {
      && Wiring() && Rooted()
      && if task.Some? then Partial(netEnv, base, host.state) else Rests(host.state)
    }

    constructor (host: Machine, runtime: Runtime, pick: Pick, draws: seq<string>)
      requires Draws(draws, host.state, pick) && Dumps(host.dump)
      requires runtime.tasks == map[]
      modifies runtime
      ensures Valid() && task.None? && rx.Some?
      ensures this.host == host && this.runtime == runtime && first == base == host.state
    {
      this.host, this.runtime, this.pick := host, runtime, pick;
      var env := NewEnv(host, draws, pick, host.state);
      netEnv := env;
      first, base := host.state, host.state;
      var id := runtime.NewChannel();
      sender, rx, task := Some(id), Some(id), None;
    }

    /** Undoes a partly set up host. */
    method Clear() returns (ok: bool)
      requires Rooted() && Partial(netEnv, base, host.state)
      modifies host
      ensures Rests(host.state)
    {
      ghost var s := host.state;
      ghost var undone, left;
      ok, undone, left := ClearBridge(host, netEnv, base, true);
      UndoneAfterUndo(netEnv, first, base, pick, host.dump, s);
    }

    /** The running generation's host serves this configuration. */
    ghost predicate Running(config: Config)
      reads this`netEnv, host`state
    {
      Serving(netEnv, host.state, host.mac, config)
    }

    /** Binds the socket, finds the executable and sets up the host for the configuration. */
    method Prepare(config: Config, smooth: bool) returns (ok: bool)
      requires Rooted() && Home(base, host.state)
      modifies host
      ensures Partial(netEnv, base, host.state)
      ensures ok ==> Running(config)
      ensures smooth && IptablesLaws.Usable(config.proxyPorts, MULTIPORT) ==> ok
    {
      HomeIsPartial(netEnv, base, host.state);
      var bound: bool := *;
      var found: bool := *;
      ok := (bound && found) || smooth;
      if ok {
        ok := SetUpNet(config, smooth);
      }
    }

    method SetUpNet(config: Config, smooth: bool) returns (ok: bool)
      requires Rooted() && Partial(netEnv, base, host.state)
      modifies host
      ensures Partial(netEnv, base, host.state)
      ensures ok ==> Running(config)
      ensures smooth && SameWiring(old(host.state), base) && IptablesLaws.Usable(config.proxyPorts, MULTIPORT) ==> ok
    {
      ok := SetNet(host, netEnv, base, config.proxyPorts, config.listenPort, config.safe, smooth);
    }

    /** Starts a generation. It succeeds exactly when a task was stored. */
    method Exec(config: Config, smooth: bool) returns (ok: bool)
      requires Wiring() && Rooted() && Home(base, host.state)
      requires task.None? && rx.Some?
      modifies this`rx, this`task, host, runtime`tasks
      ensures Wiring()
      ensures ok <==> task.Some?
      ensures ok ==> Running(config)
      ensures !ok ==> rx == old(rx)
      ensures Partial(netEnv, base, host.state)
      ensures smooth && IptablesLaws.Usable(config.proxyPorts, MULTIPORT) ==> ok
    {
      ok := Prepare(config, smooth);
      if ok {
        Launch();
      }
    }

    /** Moves the receiver into a new task. */
    method Launch()
      requires Wiring() && task.None? && rx.Some?
      modifies this`rx, this`task, runtime`tasks
      ensures Wiring() && task.Some?
    {
      var receiver := rx.value;
      rx := None;
      var id := runtime.Spawn(receiver);
      task := Some(id);
      PairedSpawned(receiver, id, old(runtime.tasks), runtime.channels);
    }

    /** Starts a generation, or undoes what it did to the host. */
    method ExecOrUndo(config: Config, smooth: bool) returns (ok: bool)
      requires Wiring() && Rooted() && Home(base, host.state)
      requires task.None? && rx.Some?
      modifies this`rx, this`task, host, runtime`tasks
      ensures Valid()
      ensures ok <==> task.Some?
      ensures ok ==> Running(config)
      ensures smooth && IptablesLaws.Usable(config.proxyPorts, MULTIPORT) ==> ok
    {
      ok := Exec(config, smooth);
      if !ok {
        var _ := Clear();
      }
    }

    /** Time passes: children get spawned, exit, or fail to start. */
    method Wait()
      requires Valid()
      modifies runtime
      ensures Valid() && (task, netEnv, host.state) == old((task, netEnv, host.state))
    {
      runtime.Drift();
      PairedEvolves(sender, rx, task, old(runtime.tasks), runtime.tasks, runtime.channels, runtime.woken);
    }

    /** Ends the generation, if there is one. An error means the task panicked after its child was gone. */
    method Stop(smooth: bool) returns (ok: bool)
      requires Valid()
      modifies this`task, this`sender, host, runtime
      ensures ok <==> old(task).None? || old(task).value !in runtime.panicked
      ensures smooth ==> ok
      ensures Valid() && task.None?
      ensures old(task).None? ==> ok && host.state == old(host.state) && (sender, rx) == old((sender, rx))
      ensures forall id <- runtime.tasks :: !runtime.tasks[id].Live()
    {
      ok := true;
      if task.Some? {
        var id := task.value;
        task := None;
        if sender.Some? {
          runtime.Wake(sender.value);
        }
        ok := Halt(id, smooth);
      }
    }

    /** Undoes the host changes and waits for the task, which has been told to stop. */
    method Halt(id: TaskId, smooth: bool) returns (ok: bool)
      requires Rooted() && Partial(netEnv, base, host.state)
      requires Paired(sender, rx, Some(id), runtime.tasks, runtime.channels)
      requires runtime.tasks[id].rx in runtime.woken && task.None?
      modifies this`sender, host, runtime`tasks, runtime`panicked
      ensures Wiring() && Rooted() && Rests(host.state)
      ensures ok <==> id !in runtime.panicked
      ensures smooth ==> ok
    {
      var _ := Clear();
      ok := Await(id, smooth);
    }

    /** Waits for the stored task to end. */
    method Await(id: TaskId, smooth: bool) returns (ok: bool)
      requires Paired(sender, rx, Some(id), runtime.tasks, runtime.channels)
      requires runtime.tasks[id].rx in runtime.woken && task.None?
      modifies this`sender, runtime`tasks, runtime`panicked
      ensures Wiring()
      ensures ok <==> id !in runtime.panicked
      ensures smooth ==> ok
    {
      ok := runtime.Join(id, smooth);
      PairedEnds(sender, id, old(runtime.tasks), runtime.tasks, runtime.channels, runtime.woken);
      sender := None;
    }

    /** A new environment and a new pair of channel ends, for the next generation. */
    method Renew(draws: seq<string>)
      requires Wiring() && Rests(host.state) && Dumps(host.dump) && task.None? && Draws(draws, first, pick)
      modifies this`netEnv, this`base, this`sender, this`rx, runtime`channels, runtime`woken
      ensures Wiring() && Rooted() && rx.Some?
      ensures base == host.state
      ensures old(sender).Some? ==> old(sender).value in runtime.woken
    {
      NewPair();
      base := host.state;
      netEnv := NewEnv(host, draws, pick, first);
    }

    /** New channel ends; dropping an old sender wakes its receiver. */
    method NewPair()
      requires Wiring() && task.None?
      modifies this`sender, this`rx, runtime`channels, runtime`woken
      ensures Wiring() && rx.Some?
      ensures old(sender).Some? ==> old(sender).value in runtime.woken
    {
      var id := runtime.NewChannel();
      PairedRenewed(sender, rx, runtime.tasks, id);
      if sender.Some? {
        runtime.Wake(sender.value);
      }
      sender, rx := Some(id), Some(id);
    }

    /**
     Replaces the running generation. Whatever fails on the way, either a new generation runs or the host
     is undone and no child is live.
     */
    method Reload(config: Config, draws: seq<string>, smooth: bool) returns (ok: bool)
      requires Valid() && Draws(draws, first, pick)
      modifies this, host, runtime
      ensures Valid()
      ensures ok ==> (task.Some? <==> config.proxyPorts.Some?)
      ensures ok && config.proxyPorts.Some? ==> Running(config)
      ensures smooth && (config.proxyPorts.None? || IptablesLaws.Usable(config.proxyPorts, MULTIPORT)) ==> ok
      ensures config.proxyPorts.None? ==> (ok <==> old(task).None? || old(task).value !in runtime.panicked)
      ensures !ok ==> task.None? && Rests(host.state)
      ensures Reloads(first, host.dump) ==> netEnv.saveRoutes == Reverse(host.dump(first.routes))
    {
      ok := Stop(smooth);
      if ok && config.proxyPorts.Some? {
        if task.None? {
          Renew(draws);
        }
        ok := ExecOrUndo(config, smooth);
      }
    }
  }

  lemma HomeIsPartial(env: NetEnv, base: State, s: State)
    requires Fresh(env, base) && Home(base, s)
    ensures Partial(env, base, s)
  {
    FreshNames(env, base);
  }

  const OK := 200
  const BAD_REQUEST := 400
  const METHOD_NOT_ALLOWED := 405

  /**
   One configuration request under the lock. Only a PUT with a readable configuration touches the proxy. An
   empty port list is passed on: it ends the running generation but gets no 200. No status means that the
   service fails without having built a response.
   */
  method HandleConfig(proxy: Proxy, put: bool, config: Option<Config>, draws: seq<string>, smooth: bool)
    returns (status: Option<nat>)
    requires proxy.Valid() && Draws(draws, proxy.first, proxy.pick)
    modifies proxy, proxy.host, proxy.runtime
    ensures proxy.Valid()
    ensures !put || config.None? ==>
              && status == Some(if !put then 405 else 400)
              && proxy.task == old(proxy.task) && proxy.host.state == old(proxy.host.state)
    ensures put && config.Some? ==> status == Some(200) || status == None
    ensures put && config.Some? && status == Some(200) ==> (proxy.task.Some? <==> config.value.proxyPorts.Some?)
    ensures put && config.Some? && status == Some(200) && config.value.proxyPorts.Some? ==> proxy.Running(config.value)
    ensures put && config.Some? && config.value.proxyPorts.None? ==>
              (status == Some(200) <==> old(proxy.task).None? || old(proxy.task).value !in proxy.runtime.panicked)
    ensures put && config.Some? && smooth && (config.value.proxyPorts.None? || IptablesLaws.Usable(config.value.proxyPorts, MULTIPORT)) ==>
              status == Some(200)
    ensures put && config.Some? && (status == None || config.value.proxyPorts.None?) ==>
              proxy.task.None? && proxy.Rests(proxy.host.state)
    ensures put && config.Some? && config.value.proxyPorts == Some([]) ==> status == None
  {
    if !put {
      return Some(METHOD_NOT_ALLOWED);
    }
    if config.None? {
      return Some(BAD_REQUEST);
    }
    var ok := proxy.Reload(config.value, draws, smooth);
    return if ok then Some(OK) else None;
  }

  datatype Operation = DoReload(config: Config, draws: seq<string>) | DoStop | Wait

  method Perform(proxy: Proxy, o: Operation) returns (ok: bool)
    requires proxy.Valid()
    requires o.DoReload? ==> Draws(o.draws, proxy.first, proxy.pick)
    modifies proxy, proxy.host, proxy.runtime
    ensures proxy.Valid()
    ensures o.DoReload? && ok && o.config.proxyPorts.Some? ==> proxy.task.Some? && proxy.Running(o.config)
    ensures o.DoStop? || (o.DoReload? && (!ok || o.config.proxyPorts.None?)) ==> proxy.task.None?
    ensures o.Wait? ==> (proxy.task, proxy.host.state) == old((proxy.task, proxy.host.state))
  {
    ok := true;
    match o
    case DoReload(config, draws) =>
      ok := proxy.Reload(config, draws, false);
    case DoStop =>
      ok := proxy.Stop(false);
    case Wait =>
      proxy.Wait();
  }

  /**
   Any run of reloads and stops, with time passing in between. After every operation the invariant holds. If
   the routes install, each generation's saved routes are the routes of the host before the first one, and these
   are in place whenever no task runs; a host that can be restored as a whole is then the original one. `ok` is the
   last operation's answer.
   */
  method Drive(proxy: Proxy, operations: seq<Operation>) returns (ok: bool)
    requires proxy.Valid()
    requires forall o <- operations :: o.DoReload? ==> Draws(o.draws, proxy.first, proxy.pick)
    modifies proxy, proxy.host, proxy.runtime
    ensures proxy.Valid()
    ensures Reloads(proxy.first, proxy.host.dump) ==>
              && proxy.netEnv.saveRoutes == Reverse(proxy.host.dump(proxy.first.routes))
              && (proxy.task.None? ==> proxy.host.state.routes == proxy.first.routes)
    ensures Restorable(proxy.first, proxy.pick, proxy.host.dump) && proxy.task.None? ==>
              Home(proxy.first, proxy.host.state)
    ensures operations != [] ==>
              var last := operations[|operations| - 1];
              && (last.DoReload? && ok && last.config.proxyPorts.Some? ==> proxy.Running(last.config))
              && (last.DoStop? ==> proxy.task.None?)
  {
    ok := true;
    for i := 0 to |operations|
      invariant proxy.Valid()
      invariant i > 0 ==>
                  var last := operations[i - 1];
                  && (last.DoReload? && ok && last.config.proxyPorts.Some? ==> proxy.Running(last.config))
                  && (last.DoStop? ==> proxy.task.None?)
    {
      ok := Perform(proxy, operations[i]);
    }
  }
}
