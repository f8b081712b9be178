/**
 The configuration server's shutdown protocol: one request handler at a time, a mutex around the proxy,
 a one-shot signal to the server task, and `stop` running beside them. Steps interleave in any order.
 */
module Shutdown {

  datatype Lock = Free | OfHandler | OfStop

  /** A handler waits for the lock, reads its request under it, and perhaps reloads. */
  datatype Handler = NoHandler | Waiting | Reading | Reloading

  datatype Server = Selecting | Ended

  datatype Signal = Quiet | Sent | SenderDropped

  datatype Stopper =
    | Idle | WantsLock | StoppingProxy | ProxyStopped | AwaitingServer | ReturnedOk
    | Failing          // `Proxy::stop` failed; the guard is still held
    | FailingUnlocked  // the guard is dropped, the sender not yet
    | ReturnedErr

  /** `reloadDropped` records whether a handler was ever dropped in the middle of a reload. */
  datatype State = State(
    lock: Lock, handler: Handler, server: Server, signal: Signal, stopper: Stopper,
    proxyTask: bool, reloadDropped: bool)

  const START := State(Free, NoHandler, Selecting, Quiet, Idle, false, false)

  datatype Step =
    | RequestArrives
    | HandlerLocks
    | HandlerRefuses
    | ReloadStarts
    | ReloadEnds(running: bool)
    | ServerSeesSignal
    | StopCalled
    | StopLocks
    | ProxyStops
    | ProxyStopFails
    | SignalSent
    | ServerJoined
    | GuardDropped
    | SenderGone

  predicate Enabled(s: State, step: Step) {
    match step
    case RequestArrives => s.server.Selecting? && s.handler.NoHandler?
    case HandlerLocks => s.handler.Waiting? && s.lock.Free?
    case HandlerRefuses => s.handler.Reading?
    case ReloadStarts => s.handler.Reading?
    case ReloadEnds(_) => s.handler.Reloading?
    case ServerSeesSignal => s.server.Selecting? && !s.signal.Quiet?
    case StopCalled => s.stopper.Idle?
    case StopLocks => s.stopper.WantsLock? && s.lock.Free?
    case ProxyStops => s.stopper.StoppingProxy?
    case ProxyStopFails => s.stopper.StoppingProxy?
    case SignalSent => s.stopper.ProxyStopped?
    case ServerJoined => s.stopper.AwaitingServer? && s.server.Ended?
    case GuardDropped => s.stopper.Failing?
    case SenderGone => s.stopper.FailingUnlocked?
  }

  function Do(s: State, step: Step): State
    requires Enabled(s, step)
  {
    match step
    case RequestArrives => s.(handler := Waiting)
    case HandlerLocks => s.(handler := Reading, lock := OfHandler)
    case HandlerRefuses => s.(handler := NoHandler, lock := Free)
    case ReloadStarts => s.(handler := Reloading)
    case ReloadEnds(running) => s.(handler := NoHandler, lock := Free, proxyTask := running)
    // The server task returns and drops its connection, and with it the handler and any guard it holds.
    case ServerSeesSignal =>
      s.(server := Ended,
         handler := NoHandler,
         lock := if s.lock.OfHandler? then Free else s.lock,
         reloadDropped := s.reloadDropped || s.handler.Reloading?)
    case StopCalled => s.(stopper := WantsLock)
    case StopLocks => s.(stopper := StoppingProxy, lock := OfStop)
    case ProxyStops => s.(stopper := ProxyStopped, proxyTask := false)
    case ProxyStopFails => s.(stopper := Failing, proxyTask := false)
    case SignalSent => s.(stopper := AwaitingServer, signal := Sent)
    case ServerJoined => s.(stopper := ReturnedOk, lock := Free)
    case GuardDropped => s.(stopper := FailingUnlocked, lock := Free)
    case SenderGone => s.(stopper := ReturnedErr, signal := SenderDropped)
  }

  /** An interleaving that can happen from the start. */
  predicate Allowed(steps: seq<Step>)
    decreases |steps|, 0
  {
    steps == [] ||
    (Allowed(steps[..|steps| - 1]) && Enabled(Final(steps[..|steps| - 1]), steps[|steps| - 1]))
  }

  function Final(steps: seq<Step>): State
    requires Allowed(steps)
    decreases |steps|, 1
  {
    if steps == [] then START else Do(Final(steps[..|steps| - 1]), steps[|steps| - 1])
  }

  predicate Invariant(s: State) {
    && (s.lock.OfHandler? <==> s.handler.Reading? || s.handler.Reloading?)
    && (s.lock.OfStop? <==> s.stopper.StoppingProxy? || s.stopper.ProxyStopped? || s.stopper.AwaitingServer? || s.stopper.Failing?)
    && (s.signal.Sent? <==> s.stopper.AwaitingServer? || s.stopper.ReturnedOk?)
    && (s.signal.SenderDropped? <==> s.stopper.ReturnedErr?)
    && (s.server.Ended? ==> s.handler.NoHandler? && !s.signal.Quiet?)
    && (s.stopper.ProxyStopped? || s.stopper.AwaitingServer? || s.stopper.ReturnedOk? ==> !s.proxyTask)
    && (s.stopper.ReturnedOk? ==> s.server.Ended?)
    && (s.reloadDropped ==> s.stopper.ReturnedErr?)
  }

  lemma {:induction false} AlwaysInvariant(steps: seq<Step>)
    requires Allowed(steps)
    ensures Invariant(Final(steps))
  {
    if steps != [] {
      AlwaysInvariant(steps[..|steps| - 1]);
    }
  }

  /**
   Safe shutdown in every interleaving. The lock excludes `stop` and a reload from each other; the signal
   that `stop` sends never drops a handler inside a reload; and when `stop` has returned Ok, the server
   task is over, no handler is left and the proxy has no task.
   */
  lemma SafeShutdown(steps: seq<Step>)
    requires Allowed(steps)
    ensures var s := Final(steps);
            && (s.handler.Reloading? ==> s.lock.OfHandler? && !s.signal.Sent?)
            && (s.reloadDropped ==> s.stopper.ReturnedErr?)
            && (s.stopper.ReturnedOk? ==> s.server.Ended? && s.handler.NoHandler? && !s.proxyTask && !s.reloadDropped)
  {
    AlwaysInvariant(steps);
  }

  lemma {:induction false} AllowedPrefix(steps: seq<Step>, k: nat)
    requires Allowed(steps) && k <= |steps|
    ensures Allowed(steps[..k])
  {
    if k < |steps| {
      AllowedPrefix(steps[..|steps| - 1], k);
      assert steps[..|steps| - 1][..k] == steps[..k];
    } else {
      assert steps[..k] == steps;
    }
  }

  /** Once `stop` has returned Ok nothing happens any more; in particular no later reload can start. */
  lemma NothingAfterOk(steps: seq<Step>, k: nat)
    requires Allowed(steps) && k <= |steps|
    ensures Allowed(steps[..k])
    ensures Final(steps[..k]).stopper.ReturnedOk? ==> k == |steps|
  {
    AllowedPrefix(steps, k);
    if k < |steps| {
      AllowedPrefix(steps, k + 1);
      assert steps[..k + 1][..k] == steps[..k];
      AlwaysInvariant(steps[..k]);
      assert Enabled(Final(steps[..k]), steps[k]);
    }
  }

  /** `stop` never waits in vain: until it returns, some step towards its end is possible. */
  lemma StopNeverStuck(steps: seq<Step>) returns (step: Step)
    requires Allowed(steps)
    requires var t := Final(steps).stopper; !t.Idle? && !t.ReturnedOk? && !t.ReturnedErr?
    ensures !step.RequestArrives? && !step.HandlerLocks? && !step.StopCalled? && Enabled(Final(steps), step)
  {
    AlwaysInvariant(steps);
    var s := Final(steps);
    step := match s.stopper
      case WantsLock =>
        if s.lock.Free? then StopLocks else if s.handler.Reading? then HandlerRefuses else ReloadEnds(false)
      case StoppingProxy => ProxyStops
      case ProxyStopped => SignalSent
      case AwaitingServer => if s.server.Ended? then ServerJoined else ServerSeesSignal
      case Failing => GuardDropped
      case _ => SenderGone;
  }

  lemma Extend(steps: seq<Step>, step: Step)
    requires Allowed(steps) && Enabled(Final(steps), step)
    ensures Allowed(steps + [step]) && Final(steps + [step]) == Do(Final(steps), step)
  {
    assert (steps + [step])[..|steps|] == steps;
  }

  // ---- Whether the proxy has a task ----

  /** Steps after which the proxy has a task or has none, whatever was before. */
  predicate Decides(step: Step) {
    step.ReloadEnds? || step.ProxyStops? || step.ProxyStopFails?
  }

  /** At `i` a reload left a task running, and nothing after it decides. */
  predicate LeftRunning(steps: seq<Step>, i: int) {
    0 <= i < |steps| && steps[i] == ReloadEnds(true) && forall j :: i < j < |steps| ==> !Decides(steps[j])
  }

  lemma LeftRunningMore(init: seq<Step>, last: Step, i: int)
    ensures LeftRunning(init + [last], i) <==>
            (i == |init| && last == ReloadEnds(true)) || (LeftRunning(init, i) && !Decides(last))
  {
    var steps := init + [last];
    assert forall j :: 0 <= j < |init| ==> steps[j] == init[j];
    assert steps[|init|] == last;
  }

  /** The proxy has a task if and only if the last step that decides it was a reload that left one running. */
  lemma {:induction false} ProxyTaskIff(steps: seq<Step>)
    requires Allowed(steps)
    ensures Final(steps).proxyTask <==> exists i :: LeftRunning(steps, i)
  {
    if steps != [] {
      var init, last := steps[..|steps| - 1], steps[|steps| - 1];
      ProxyTaskIff(init);
      assert steps == init + [last];
      forall i
        ensures LeftRunning(steps, i) <==>
                (i == |init| && last == ReloadEnds(true)) || (LeftRunning(init, i) && !Decides(last))
      {
        LeftRunningMore(init, last, i);
      }
      if last == ReloadEnds(true) {
        assert LeftRunning(steps, |init|);
      } else if Final(steps).proxyTask {
        var i :| LeftRunning(init, i);
        assert LeftRunning(steps, i);
      }
    }
  }

  // ---- `stop` comes to its end ----

  predicate Returned(s: State) {
    s.stopper.ReturnedOk? || s.stopper.ReturnedErr?
  }

  /** How many more steps can happen at most while no new request arrives. */
  function Rank(s: State): nat {
    var handler := match s.handler case NoHandler => 0 case Waiting => 3 case Reading => 2 case Reloading => 1;
    var stopper := match s.stopper
      case Idle => 5
      case WantsLock => 4
      case StoppingProxy => 3
      case ProxyStopped => 2
      case AwaitingServer => 1
      case Failing => 2
      case FailingUnlocked => 1
      case _ => 0;
    handler + stopper + if s.server.Selecting? then 1 else 0
  }

  predicate NoRequest(steps: seq<Step>) {
    RequestArrives !in steps
  }

  lemma StepCounts(s: State, step: Step)
    requires Enabled(s, step) && !step.RequestArrives?
    ensures Rank(Do(s, step)) < Rank(s)
  {
  }

  lemma LastStep(steps: seq<Step>, step: Step)
    requires Allowed(steps + [step])
    ensures Allowed(steps) && Enabled(Final(steps), step) && Final(steps + [step]) == Do(Final(steps), step)
  {
    assert (steps + [step])[..|steps|] == steps;
  }

  /** Without new requests every run is over after finitely many steps, whichever they are. */
  lemma {:induction false} RunsEnd(steps: seq<Step>, more: seq<Step>)
    requires Allowed(steps) && Allowed(steps + more) && NoRequest(more)
    ensures Rank(Final(steps + more)) + |more| <= Rank(Final(steps))
  {
    if more == [] {
      assert steps + more == steps;
    } else {
      var init, last := more[..|more| - 1], more[|more| - 1];
      assert steps + more == (steps + init) + [last] && last in more;
      LastStep(steps + init, last);
      RunsEnd(steps, init);
      StepCounts(Final(steps + init), last);
    }
  }

  /** Once called, `stop` returns in some continuation without new requests, from every reachable state. */
  lemma {:induction false} StopReturns(steps: seq<Step>) returns (more: seq<Step>)
    requires Allowed(steps) && !Final(steps).stopper.Idle?
    ensures Allowed(steps + more) && NoRequest(more) && Returned(Final(steps + more))
    decreases Rank(Final(steps))
  {
    if Returned(Final(steps)) {
      more := [];
      assert steps + more == steps;
    } else {
      var step := StopNeverStuck(steps);
      StepCounts(Final(steps), step);
      Extend(steps, step);
      var rest := StopReturns(steps + [step]);
      more := [step] + rest;
      assert steps + more == steps + [step] + rest;
    }
  }

  /** Every run that only a new request could continue has `stop` returned at its end. */
  lemma MaximalRunsReturn(steps: seq<Step>)
    requires Allowed(steps)
    requires forall step :: Enabled(Final(steps), step) ==> step.RequestArrives?
    ensures Returned(Final(steps))
  {
    assert !Enabled(Final(steps), StopCalled);
    if !Returned(Final(steps)) {
      var step := StopNeverStuck(steps);
      assert false;
    }
  }

  // ---- When a reload can be dropped ----

  predicate Failed(s: State) {
    s.stopper.Failing? || s.stopper.FailingUnlocked? || s.stopper.ReturnedErr?
  }

  lemma {:induction false} FailureIsAStep(steps: seq<Step>)
    requires Allowed(steps)
    ensures Failed(Final(steps)) <==> ProxyStopFails in steps
  {
    if steps != [] {
      var init, last := steps[..|steps| - 1], steps[|steps| - 1];
      FailureIsAStep(init);
      assert steps == init + [last];
    }
  }

  /** As long as `Proxy::stop` does not fail no reload is ever dropped. */
  lemma NoFailureNoDrop(steps: seq<Step>)
    requires Allowed(steps) && ProxyStopFails !in steps
    ensures !Final(steps).reloadDropped
  {
    AlwaysInvariant(steps);
    FailureIsAStep(steps);
  }

  /** Runs the steps one after the other. */
  lemma {:induction false} Continue(steps: seq<Step>, more: seq<Step>, states: seq<State>)
    requires Allowed(steps) && |states| == |more| + 1 && states[0] == Final(steps)
    requires forall i :: 0 <= i < |more| ==> Enabled(states[i], more[i]) && states[i + 1] == Do(states[i], more[i])
    ensures Allowed(steps + more) && Final(steps + more) == states[|more|]
  {
    if more == [] {
      assert steps + more == steps;
    } else {
      var last := |more| - 1;
      Continue(steps, more[..last], states[..|more|]);
      Extend(steps + more[..last], more[last]);
      assert steps + more == steps + more[..last] + [more[last]];
    }
  }

  /**
   But whenever `Proxy::stop` has failed, it can happen: `stop` gives up the guard before the sender, a
   handler starts a reload in between, and dropping the sender then ends the server task and that reload.
   */
  lemma FailureCanDrop(steps: seq<Step>) returns (more: seq<Step>)
    requires Allowed(steps) && Final(steps).stopper.Failing?
    ensures Allowed(steps + more) && Final(steps + more).reloadDropped
  {
    AlwaysInvariant(steps);
    var s := Final(steps);
    var waiting := s.(handler := Waiting);
    var unlocked := waiting.(stopper := FailingUnlocked, lock := Free);
    var reading := unlocked.(handler := Reading, lock := OfHandler);
    var reloading := reading.(handler := Reloading);
    var returned := reloading.(stopper := ReturnedErr, signal := SenderDropped);
    var ended := returned.(server := Ended, handler := NoHandler, lock := Free, reloadDropped := true);
    more := [GuardDropped, HandlerLocks, ReloadStarts, SenderGone, ServerSeesSignal];
    if s.handler.Waiting? {
      Continue(steps, more, [s, unlocked, reading, reloading, returned, ended]);
    } else {
      more := [RequestArrives] + more;
      Continue(steps, more, [s, waiting, unlocked, reading, reloading, returned, ended]);
    }
  }

  /** A run of the protocol in which that happens. */
  lemma FailedStopCanDropReload() returns (steps: seq<Step>)
    ensures Allowed(steps) && Final(steps).reloadDropped
  {
    var failing := [StopCalled, StopLocks, ProxyStopFails];
    var locked := START.(stopper := StoppingProxy, lock := OfStop);
    Continue([], failing, [START, START.(stopper := WantsLock), locked, locked.(stopper := Failing)]);
    assert [] + failing == failing;
    var more := FailureCanDrop(failing);
    steps := failing + more;
  }
}
