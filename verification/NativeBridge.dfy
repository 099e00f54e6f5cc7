/**
 The seam that owns the network monitor: loading the shim, binding the engine,
 and keeping at most one monitor alive.
 */
module NativeBridge {
  import opened Wrappers

  /** Monitors are numbered in order of creation; `stopped` is history. */
  datatype State = State(jniLoaded: bool, engineBound: bool, monitor: Option<nat>, created: nat, stopped: set<nat>, bindings: nat)

  const LOADED := State(false, false, None, 0, {}, 0)

  /** `loads` and `binds` are what loadLibrary and nativeInit answer, if asked. */
  datatype Call = StartMonitor(loads: bool, binds: bool) | StopMonitor

  function AfterEnsureBound(s: State, loads: bool, binds: bool): State {
    if s.engineBound then s
    else
      var loaded := s.(jniLoaded := s.jniLoaded || loads);
      if loaded.jniLoaded && binds then loaded.(engineBound := true, bindings := s.bindings + 1) else loaded
  }

  function After(s: State, call: Call): State {
    match call
    case StartMonitor(loads, binds) =>
      var ensured := AfterEnsureBound(s, loads, binds);
      if !ensured.jniLoaded || ensured.monitor.Some? then ensured
      else ensured.(monitor := Some(ensured.created), created := ensured.created + 1)
    case StopMonitor =>
      if s.monitor.None? then s else s.(monitor := None, stopped := s.stopped + {s.monitor.value})
  }

  function Run(s: State, calls: seq<Call>): State
    decreases |calls|
  {
    if calls == [] then s else Run(After(s, calls[0]), calls[1..])
  }

  /** Every monitor ever created has been stopped, except the one the bridge holds. */
  ghost predicate OneLive(s: State) {
    && (forall m: nat :: m in s.stopped <==> m < s.created && s.monitor != Some(m))
    && (s.monitor.Some? ==> s.monitor.value < s.created && s.jniLoaded)
    && (s.engineBound ==> s.jniLoaded)
    && s.bindings == (if s.engineBound then 1 else 0)
  }

  /** In every run of starts and stops at most one monitor is alive, and the engine is bound at most once. */
  lemma {:induction false} OneMonitorAtATime(s: State, calls: seq<Call>)
    requires OneLive(s)
    ensures OneLive(Run(s, calls))
    ensures s.engineBound ==> Run(s, calls).engineBound
    decreases |calls|
  {
    if calls != [] {
      assert OneLive(After(s, calls[0]));
      OneMonitorAtATime(After(s, calls[0]), calls[1..]);
    }
  }

  /** Repeated starts keep the monitor of the first that succeeds; binding is retried until it does. */
  lemma {:induction false} StartsAreIdempotent(s: State, calls: seq<Call>)
    requires s.monitor.Some? && forall c :: c in calls ==> c.StartMonitor?
    ensures Run(s, calls).monitor == s.monitor && Run(s, calls).created == s.created
    decreases |calls|
  {
    if calls != [] {
      assert calls[0].StartMonitor?;
      StartsAreIdempotent(After(s, calls[0]), calls[1..]);
    }
  }

  lemma {:induction false} RunSnoc(s: State, calls: seq<Call>, call: Call)
    ensures Run(s, calls + [call]) == After(Run(s, calls), call)
    decreases |calls|
  {
    if calls == [] {
      assert [call][1..] == [] && [] + [call] == [call];
    } else {
      RunSnoc(After(s, calls[0]), calls[1..], call);
      assert (calls + [call])[1..] == calls[1..] + [call];
    }
  }

  /** Among the first `n` calls there is a start at which the shim could be loaded. */
  ghost predicate Loads(calls: seq<Call>, n: nat) {
    exists i :: 0 <= i < n && i < |calls| && calls[i].StartMonitor? && calls[i].loads
  }

  /** There is a start at which the engine could be bound, the shim loaded by then. */
  ghost predicate Binds(calls: seq<Call>) {
    exists i :: 0 <= i < |calls| && calls[i].StartMonitor? && calls[i].binds && Loads(calls, i + 1)
  }

  /** There is a start, the shim loaded by then, and no stop after it. */
  ghost predicate Lives(calls: seq<Call>) {
    exists i :: 0 <= i < |calls| && calls[i].StartMonitor? && Loads(calls, i + 1)
                && forall j :: i < j < |calls| ==> calls[j].StartMonitor?
  }

  lemma HistoriesGrow(calls: seq<Call>, call: Call)
    ensures forall n: nat :: n <= |calls| ==> Loads(calls + [call], n) == Loads(calls, n)
    ensures var all := calls + [call];
            && (Loads(all, |all|) <==> Loads(calls, |calls|) || (call.StartMonitor? && call.loads))
            && (Binds(all) <==> Binds(calls) || (call.StartMonitor? && call.binds && Loads(all, |all|)))
            && (Lives(all) <==> call.StartMonitor? && (Lives(calls) || Loads(all, |all|)))
  {
    var all := calls + [call];
    assert all[|calls|] == call && forall i :: 0 <= i < |calls| ==> all[i] == calls[i];
  }

  /** In every run, what is loaded, bound and alive is what the calls so far say. */
  lemma {:induction false} StateFollowsTheCalls(calls: seq<Call>)
    ensures var s := Run(LOADED, calls);
            && (s.jniLoaded <==> Loads(calls, |calls|))
            && (s.engineBound <==> Binds(calls))
            && (s.monitor.Some? <==> Lives(calls))
  {
    if calls != [] {
      var before, call := calls[..|calls| - 1], calls[|calls| - 1];
      assert calls == before + [call];
      StateFollowsTheCalls(before);
      RunSnoc(LOADED, before, call);
      HistoriesGrow(before, call);
    }
  }

  class NativeBridge {
    var jniLoaded: bool
    var engineBound: bool
    var monitor: Option<nat>
    var created: nat  // the next monitor's number
    ghost var stopped: set<nat>
    ghost var bindings: nat

    ghost function Abstract(): State
      reads this
    {
      State(jniLoaded, engineBound, monitor, created, stopped, bindings)
    }

    ghost predicate Valid()
      reads this
    {
      OneLive(Abstract())
    }

    constructor ()
      ensures Valid() && Abstract() == LOADED
    {
      jniLoaded, engineBound, monitor, created := false, false, None, 0;
      stopped, bindings := {}, 0;
    }

    method EnsureEngineBound(loads: bool, binds: bool) returns (bound: bool)
      requires Valid()
      modifies this`jniLoaded, this`engineBound, this`bindings
      ensures Valid() && Abstract() == AfterEnsureBound(old(Abstract()), loads, binds)
      ensures bound == engineBound
    {
      if engineBound { return true; }
      if !jniLoaded { jniLoaded := loads; }
      if !jniLoaded { return false; }
      engineBound := binds;
      if engineBound { bindings := bindings + 1; }
      return engineBound;
    }

    method Start(loads: bool, binds: bool)
      requires Valid()
      modifies this
      ensures Valid() && Abstract() == After(old(Abstract()), StartMonitor(loads, binds))
    {
      var _ := EnsureEngineBound(loads, binds);
      if !jniLoaded { return; }
      if monitor.Some? { return; }
      monitor := Some(created);
      created := created + 1;
    }

    method Stop()
      requires Valid()
      modifies this
      ensures Valid() && Abstract() == After(old(Abstract()), StopMonitor)
    {
      if monitor.Some? { stopped := stopped + {monitor.value}; }
      monitor := None;
    }
  }
}
