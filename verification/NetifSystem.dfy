/**
 The replication protocol as a whole: framework threads posting tasks, the
 monitor's handler thread draining its queue, downcalls passing the shim one at
 a time, the engine being bound at any moment, and stop() running beside all of
 it. Every event is one atomic step; an event that cannot happen changes nothing.

 A task touches the monitor's fields on one thread only, so its field updates are
 one step; each downcall it makes is a step of its own, because binding can
 happen between two of them. `outbox` holds the downcalls of the current task
 that have not passed the shim yet, and the next task starts when it is empty.
 */
module NetifSystem {
  import opened Wrappers
  import opened Netif
  import opened JniShim
  import opened NetworkMonitor
  import R = NetifRegistry

  /** A handler message: gated on `running`, or the cleanup, which is not. */
  datatype Job = Gated(task: Task) | CleanUp

  /** How far stop() has come; `running` is true exactly while Alive. */
  datatype StopStage = Alive | Flagged | CleanUpPosted | QuitRequested

  /**
   `synced` and `cleaned` only record history: whether this monitor's registry
   view has been complete since a replay (or was bound from the start), and
   whether this monitor's cleanup task has run.
   */
  datatype System = System(
    monitor: Monitor, stage: StopStage, queue: seq<Job>, outbox: seq<Downcall>,
    bound: bool, registry: R.Registry, synced: bool, cleaned: bool)

  datatype Event =
    | Post(task: Task)      // a framework callback or a replay request
    | Dispatch(env: Env)    // the handler thread takes the next message
    | PassDowncall          // the current task's next downcall reaches the shim
    | Bind                  // BindGoEngine succeeds
    | StopFlag              // stop(): running := false
    | StopPost              // stop(): the cleanup is posted
    | StopQuit              // stop(): quitSafely
    | NewMonitor            // startMonitor() after the old monitor's thread is done

  /** A monitor that has just been started in front of an empty registry. */
  function Fresh(bound: bool): System {
    System(EMPTY_MONITOR, Alive, [], [], bound, R.EMPTY_REGISTRY, bound, false)
  }

  function RunTask(s: System, task: Task, env: Env): System
    requires CanRun(s.monitor, task)
  {
    var e := Execute(s.monitor, task, env);
    s.(monitor := e.monitor, outbox := e.calls, synced := s.synced || (task.Replay? && s.bound))
  }

  function DispatchNext(s: System, env: Env): System {
    if s.outbox != [] || s.queue == [] then s
    else
      var rest := s.(queue := s.queue[1..]);
      match s.queue[0]
      case CleanUp => rest.(monitor := EMPTY_MONITOR, outbox := [MonitorReset], cleaned := true)
      case Gated(task) =>
        if !s.stage.Alive? then rest
        else if !CanRun(s.monitor, task) then s
        else RunTask(rest, task, env)
  }

  function Pass(s: System, p: R.Parser): System {
    if s.outbox == [] then s
    else s.(registry := Deliver(s.registry, s.outbox[0], s.bound, p), outbox := s.outbox[1..])
  }

  predicate ThreadDone(s: System) {
    s.stage.QuitRequested? && s.queue == [] && s.outbox == []
  }

  function Step(s: System, e: Event, p: R.Parser): System {
    match e
    case Post(task) => if s.stage.QuitRequested? then s else s.(queue := s.queue + [Gated(task)])
    case Dispatch(env) => DispatchNext(s, env)
    case PassDowncall => Pass(s, p)
    case Bind => s.(bound := true)
    case StopFlag => if s.stage.Alive? then s.(stage := Flagged) else s
    case StopPost => if s.stage.Flagged? then s.(stage := CleanUpPosted, queue := s.queue + [CleanUp]) else s
    case StopQuit => if s.stage.CleanUpPosted? then s.(stage := QuitRequested) else s
    case NewMonitor => if ThreadDone(s) then Fresh(s.bound).(registry := s.registry) else s
  }

  function Run(s: System, es: seq<Event>, p: R.Parser): System {
    if es == [] then s else Step(Run(s, es[..|es| - 1], p), es[|es| - 1], p)
  }

  function LastSent(m: Monitor, h: Handle): Option<Snapshot> {
    if h in m.tracked then m.tracked[h].lastSent else None
  }

  /** A network's last snapshot carries its own handle. */
  predicate WellKeyed(m: Monitor) {
    forall h :: h in m.tracked && m.tracked[h].lastSent.Some? ==> m.tracked[h].lastSent.value.handle == h
  }

  // ---- What one task does to the monitor, seen from the registry ------------

  lemma TaskKeepsKeys(m: Monitor, task: Task, env: Env)
    requires CanRun(m, task) && WellKeyed(m)
    ensures WellKeyed(Execute(m, task, env).monitor)
  {
    if task.Replay? { ReplayNetworksState(m, task.order, env); }
  }

  /** An announced network is known from before, or an update for it goes out now. */
  lemma TaskAnnounces(m: Monitor, task: Task, env: Env)
    requires CanRun(m, task)
    ensures var e := Execute(m, task, env);
            && (forall x :: NetworkUpdate(x) in e.calls ==> LastSent(e.monitor, x.handle) == Some(x))
            && (forall h :: LastSent(e.monitor, h).Some? ==>
                  || NetworkUpdate(LastSent(e.monitor, h).value) in e.calls
                  || (LastSent(e.monitor, h) == LastSent(m, h) && !task.Replay?))
            && MonitorReset !in e.calls
  {
    if task.Replay? {
      ReplayNetworksState(m, task.order, env);
      ReplayNetworksCalls(m, task.order, env);
    }
  }

  /** A network stops being announced only by a loss going out, except in a replay. */
  lemma TaskWithdraws(m: Monitor, task: Task, env: Env)
    requires CanRun(m, task)
    ensures var e := Execute(m, task, env);
            && (forall h :: NetworkLost(h) in e.calls ==> h !in e.monitor.tracked)
            && (forall h :: LastSent(m, h).Some? && LastSent(e.monitor, h).None? ==>
                  || NetworkLost(h) in e.calls
                  || (task.Replay? && !Buildable(m.tracked[h])))
  {
    if task.Replay? {
      ReplayNetworksState(m, task.order, env);
      ReplayNetworksCalls(m, task.order, env);
    }
  }

  predicate DefaultNamed(m: Monitor) {
    m.defaultNetwork.Some? && m.defaultProps.Some? && m.defaultProps.value.ifName.Some?
  }

  /** While the default network has link properties, it is the one last sent. */
  predicate DefaultIsSent(m: Monitor) {
    DefaultNamed(m) ==> m.lastDefaultSent.Some? && m.lastDefaultSent.value.handle == m.defaultNetwork.value
  }

  lemma TaskDefault(m: Monitor, task: Task, env: Env)
    requires CanRun(m, task) && DefaultIsSent(m)
    ensures var e := Execute(m, task, env);
            && DefaultIsSent(e.monitor)
            && (forall d :: DefaultChanged(d) in e.calls ==>
                  e.monitor.lastDefaultSent == Some(d) && (d == NO_DEFAULT || e.monitor.defaultNetwork.Some?))
            && (e.monitor.lastDefaultSent.Some? ==>
                  || DefaultChanged(e.monitor.lastDefaultSent.value) in e.calls
                  || (e.monitor.lastDefaultSent == m.lastDefaultSent && !task.Replay?))
            && (e.monitor.defaultNetwork.None? && m.defaultNetwork.Some? ==>
                  e.monitor.lastDefaultSent == Some(NO_DEFAULT))
  {
    if task.Replay? {
      ReplayNetworksState(m, task.order, env);
      ReplayNetworksCalls(m, task.order, env);
    }
  }

  // ---- Invariants -----------------------------------------------------------

  /** A downcall still on its way agrees with the monitor's fields. */
  predicate CallCurrent(s: System, c: Downcall) {
    match c
    case NetworkUpdate(x) => LastSent(s.monitor, x.handle) == Some(x)
    case NetworkLost(h) => h !in s.monitor.tracked
    case DefaultChanged(d) => s.monitor.lastDefaultSent == Some(d) && (d == NO_DEFAULT || s.monitor.defaultNetwork.Some?)
    case MonitorReset => s.cleaned
  }

  ghost predicate OutboxCurrent(s: System) {
    forall c :: c in s.outbox ==> CallCurrent(s, c)
  }

  /** The registry holds exactly what was last sent for `h`, or that update is on its way. */
  predicate Holds(s: System, h: Handle, p: R.Parser) {
    LastSent(s.monitor, h).Some? ==>
      var x := LastSent(s.monitor, h).value;
      NetworkUpdate(x) in s.outbox || (h in s.registry.ifaces && s.registry.ifaces[h] == BuildInterface(x, p))
  }

  ghost predicate Complete(s: System, p: R.Parser) {
    s.synced ==> s.bound && forall h :: Holds(s, h, p)
  }

  /** Nothing is in the registry but what was announced, unless its removal is on its way. */
  ghost predicate Sound(s: System, p: R.Parser) {
    forall h :: h in s.registry.ifaces ==>
      || NetworkLost(h) in s.outbox
      || MonitorReset in s.outbox
      || (LastSent(s.monitor, h).Some? && Holds(s, h, p))
  }

  predicate DefaultsAgree(s: System) {
    && DefaultIsSent(s.monitor)
    && (s.registry.defaultIface.Some? ==>
          s.monitor.defaultNetwork.Some? || MonitorReset in s.outbox || DefaultChanged(NO_DEFAULT) in s.outbox)
    && (s.monitor.lastDefaultSent.Some? ==>
          var d := s.monitor.lastDefaultSent.value;
          || DefaultChanged(d) in s.outbox
          || (d.handle < 0 && s.registry.defaultIface.None?)
          || (d.handle >= 0 && (s.synced ==> s.registry.defaultIface.Some?)))
  }

  predicate LifecycleOk(s: System) {
    && (!s.bound ==> s.registry == R.EMPTY_REGISTRY)
    && (forall i, j :: 0 <= i < j < |s.queue| ==> !(s.queue[i].CleanUp? && s.queue[j].CleanUp?))
    && (CleanUp in s.queue <==> !s.cleaned && (s.stage.CleanUpPosted? || s.stage.QuitRequested?))
    && (s.cleaned ==>
          && (s.stage.CleanUpPosted? || s.stage.QuitRequested?)
          && s.monitor == EMPTY_MONITOR
          && (s.outbox == [MonitorReset] || (s.outbox == [] && s.registry == R.EMPTY_REGISTRY)))
  }

  ghost predicate Inv(s: System, p: R.Parser) {
    LifecycleOk(s) && WellKeyed(s.monitor) && OutboxCurrent(s) && Complete(s, p) && DefaultsAgree(s)
  }

  lemma TaskKeepsInv(s: System, task: Task, env: Env, p: R.Parser)
    requires Inv(s, p) && s.outbox == [] && s.stage.Alive? && CanRun(s.monitor, task)
    ensures Inv(RunTask(s, task, env), p)
  {
    TaskKeepsKeys(s.monitor, task, env);
    TaskAnnounces(s.monitor, task, env);
    TaskWithdraws(s.monitor, task, env);
    TaskDefault(s.monitor, task, env);
    var t := RunTask(s, task, env);
    forall h ensures t.synced ==> Holds(t, h, p) {
      assert s.synced ==> Holds(s, h, p);
    }
    forall c | c in t.outbox ensures CallCurrent(t, c) {
      match c case NetworkUpdate(x) => case NetworkLost(h) => case DefaultChanged(d) => case MonitorReset =>
    }
  }

  /** The call about to pass, and what remains on its way. */
  lemma PassHead(s: System, p: R.Parser)
    requires s.outbox != []
    ensures forall x :: x in s.outbox <==> x == s.outbox[0] || x in Pass(s, p).outbox
  {
    assert s.outbox == [s.outbox[0]] + s.outbox[1..];
  }

  lemma PassKeepsHolds(s: System, h: Handle, p: R.Parser)
    requires s.outbox != [] && s.bound && CallCurrent(s, s.outbox[0]) && WellKeyed(s.monitor)
    requires s.cleaned ==> s.monitor == EMPTY_MONITOR
    requires Holds(s, h, p)
    ensures Holds(Pass(s, p), h, p)
  {
    PassHead(s, p);
    match s.outbox[0]
    case NetworkUpdate(y) => assert LastSent(s.monitor, y.handle) == Some(y);
    case NetworkLost(g) => assert LastSent(s.monitor, g).None?;
    case DefaultChanged(_) =>
    case MonitorReset => assert LastSent(s.monitor, h).None?;
  }

  lemma PassKeepsDefaults(s: System, p: R.Parser)
    requires s.outbox != [] && CallCurrent(s, s.outbox[0])
    requires s.cleaned ==> s.monitor == EMPTY_MONITOR
    requires !s.bound ==> s.registry == R.EMPTY_REGISTRY && !s.synced
    requires DefaultsAgree(s)
    ensures DefaultsAgree(Pass(s, p))
  {
    PassHead(s, p);
  }

  lemma PassKeepsInv(s: System, p: R.Parser)
    requires Inv(s, p)
    ensures Inv(Pass(s, p), p)
  {
    if s.outbox != [] {
      var t := Pass(s, p);
      assert CallCurrent(s, s.outbox[0]);
      PassKeepsDefaults(s, p);
      forall h ensures s.synced ==> Holds(t, h, p) {
        if s.synced { PassKeepsHolds(s, h, p); }
      }
      forall d | d in t.outbox ensures CallCurrent(t, d) {
        PassHead(s, p);
        assert CallCurrent(s, d);
      }
    }
  }

  lemma DispatchKeepsInv(s: System, env: Env, p: R.Parser)
    requires Inv(s, p)
    ensures Inv(DispatchNext(s, env), p)
  {
    if s.outbox == [] && s.queue != [] {
      var rest := s.(queue := s.queue[1..]);
      assert s.queue == [s.queue[0]] + rest.queue;
      if s.queue[0].CleanUp? {
        assert forall i :: 0 <= i < |rest.queue| ==> rest.queue[i] == s.queue[i + 1];
      } else {
        assert CleanUp in rest.queue <==> CleanUp in s.queue;
        assert LifecycleOk(rest);
        assert forall h :: Holds(s, h, p) ==> Holds(rest, h, p);
        var task := s.queue[0].task;
        if s.stage.Alive? && CanRun(s.monitor, task) { TaskKeepsInv(rest, task, env, p); }
      }
    }
  }

  lemma StepKeepsInv(s: System, e: Event, p: R.Parser)
    requires Inv(s, p)
    ensures Inv(Step(s, e, p), p)
  {
    match e
    case Dispatch(env) => DispatchKeepsInv(s, env, p);
    case PassDowncall => PassKeepsInv(s, p);
    case Post(task) => OnlyOutside(s, Step(s, e, p), p);
    case Bind => OnlyOutside(s, Step(s, e, p), p);
    case StopFlag => OnlyOutside(s, Step(s, e, p), p);
    case StopPost => OnlyOutside(s, Step(s, e, p), p);
    case StopQuit => OnlyOutside(s, Step(s, e, p), p);
    case NewMonitor =>
  }

  /** An event that leaves monitor, outbox and registry alone keeps what is said about them. */
  lemma OnlyOutside(s: System, t: System, p: R.Parser)
    requires Inv(s, p) && LifecycleOk(t)
    requires t == s.(stage := t.stage, queue := t.queue, bound := t.bound) && (s.bound ==> t.bound)
    ensures Inv(t, p)
    ensures Sound(s, p) ==> Sound(t, p)
  {
    assert forall h :: Holds(s, h, p) ==> Holds(t, h, p);
    assert forall c :: CallCurrent(s, c) ==> CallCurrent(t, c);
  }

  lemma {:induction false} RunKeepsInv(bound: bool, es: seq<Event>, p: R.Parser)
    ensures Inv(Run(Fresh(bound), es, p), p)
  {
    if es != [] {
      RunKeepsInv(bound, es[..|es| - 1], p);
      StepKeepsInv(Run(Fresh(bound), es[..|es| - 1], p), es[|es| - 1], p);
    }
  }

  // ---- Soundness: what a replay must not do ---------------------------------

  /** Every network the registry holds can still be sent again. */
  ghost predicate Resendable(s: System) {
    forall h :: h in s.registry.ifaces ==> h in s.monitor.tracked && Buildable(s.monitor.tracked[h])
  }

  /** The next message is a replay that will really run. */
  predicate ReplayIsNext(s: System) {
    && s.outbox == [] && s.queue != [] && s.stage.Alive?
    && s.queue[0].Gated? && s.queue[0].task.Replay? && CanRun(s.monitor, s.queue[0].task)
  }

  /** Whenever a replay runs, what the registry holds can be sent again. */
  ghost predicate ReplaySafe(s: System, es: seq<Event>, p: R.Parser) {
    forall i :: 0 <= i < |es| && es[i].Dispatch? ==>
      var before := Run(s, es[..i], p);
      ReplayIsNext(before) ==> Resendable(before)
  }

  lemma TaskKeepsSound(s: System, task: Task, env: Env, p: R.Parser)
    requires Inv(s, p) && Sound(s, p) && s.outbox == [] && s.stage.Alive? && CanRun(s.monitor, task)
    requires task.Replay? ==> Resendable(s)
    ensures Sound(RunTask(s, task, env), p)
  {
    TaskAnnounces(s.monitor, task, env);
    TaskWithdraws(s.monitor, task, env);
    var t := RunTask(s, task, env);
    forall h | h in t.registry.ifaces
      ensures NetworkLost(h) in t.outbox || (LastSent(t.monitor, h).Some? && Holds(t, h, p))
    {
      assert LastSent(s.monitor, h).Some? && Holds(s, h, p);
    }
  }

  lemma PassKeepsSound(s: System, p: R.Parser)
    requires Inv(s, p) && Sound(s, p)
    ensures Sound(Pass(s, p), p)
  {
    if s.outbox != [] && s.bound {
      PassHead(s, p);
      var t := Pass(s, p);
      assert CallCurrent(s, s.outbox[0]);
      forall h | h in t.registry.ifaces
        ensures || NetworkLost(h) in t.outbox
                || MonitorReset in t.outbox
                || (LastSent(t.monitor, h).Some? && Holds(t, h, p))
      {
        if h in s.registry.ifaces && LastSent(s.monitor, h).Some? && Holds(s, h, p) { PassKeepsHolds(s, h, p); }
      }
    }
  }

  lemma StepKeepsSound(s: System, e: Event, p: R.Parser)
    requires Inv(s, p) && Sound(s, p)
    requires e.Dispatch? && ReplayIsNext(s) ==> Resendable(s)
    ensures Sound(Step(s, e, p), p)
  {
    var t := Step(s, e, p);
    match e
    case PassDowncall => PassKeepsSound(s, p);
    case NewMonitor =>
    case Dispatch(env) =>
      if s.outbox == [] && s.queue != [] && s.queue[0].Gated? {
        var rest := s.(queue := s.queue[1..]);
        DispatchGated(s, p);
        var task := s.queue[0].task;
        if s.stage.Alive? && CanRun(s.monitor, task) { TaskKeepsSound(rest, task, env, p); }
      }
    case Post(_) => StepKeepsInv(s, e, p); OnlyOutside(s, t, p);
    case Bind => StepKeepsInv(s, e, p); OnlyOutside(s, t, p);
    case StopFlag => StepKeepsInv(s, e, p); OnlyOutside(s, t, p);
    case StopPost => StepKeepsInv(s, e, p); OnlyOutside(s, t, p);
    case StopQuit => StepKeepsInv(s, e, p); OnlyOutside(s, t, p);
  }

  /** Taking a gated message off the queue alone disturbs nothing. */
  lemma DispatchGated(s: System, p: R.Parser)
    requires Inv(s, p) && s.queue != [] && s.queue[0].Gated?
    ensures var rest := s.(queue := s.queue[1..]);
            Inv(rest, p) && (Sound(s, p) ==> Sound(rest, p))
  {
    var rest := s.(queue := s.queue[1..]);
    assert s.queue == [s.queue[0]] + rest.queue;
    assert CleanUp in rest.queue <==> CleanUp in s.queue;
    OnlyOutside(s, rest, p);
  }

  // ---- Agreement over whole runs --------------------------------------------

  /** What the monitor has announced, as the engine would store it. */
  function AnnouncedView(m: Monitor, p: R.Parser): map<Handle, NetworkInterface> {
    map h | h in Announced(m) :: BuildInterface(Announced(m)[h], p)
  }

  ghost predicate MapWithin(a: map<Handle, NetworkInterface>, b: map<Handle, NetworkInterface>) {
    forall h :: h in a ==> h in b && b[h] == a[h]
  }

  lemma QuietCompleteness(s: System, p: R.Parser)
    requires Inv(s, p) && s.synced && s.outbox == []
    ensures MapWithin(AnnouncedView(s.monitor, p), s.registry.ifaces)
  {
    forall h | h in AnnouncedView(s.monitor, p)
      ensures h in s.registry.ifaces && s.registry.ifaces[h] == AnnouncedView(s.monitor, p)[h]
    {
      assert Holds(s, h, p);
    }
  }

  lemma QuietSoundness(s: System, p: R.Parser)
    requires Sound(s, p) && s.outbox == []
    ensures MapWithin(s.registry.ifaces, AnnouncedView(s.monitor, p))
  {
    forall h | h in s.registry.ifaces
      ensures h in AnnouncedView(s.monitor, p) && s.registry.ifaces[h] == AnnouncedView(s.monitor, p)[h]
    {
      assert LastSent(s.monitor, h).Some? && Holds(s, h, p);
    }
  }

  lemma WithinBothWays(a: map<Handle, NetworkInterface>, b: map<Handle, NetworkInterface>)
    requires MapWithin(a, b) && MapWithin(b, a)
    ensures a == b
  {
    assert forall h :: h in a.Keys <==> h in b.Keys;
    assert forall h :: h in a ==> a[h] == b[h];
  }

  /**
   Nothing announced is ever missing: between tasks, from the first replay
   completed after binding on, the registry has every announced network with
   exactly the value announced. This needs no assumption about replays.
   */
  lemma {:induction false} NothingAnnouncedIsMissing(bound: bool, es: seq<Event>, p: R.Parser)
    ensures var s := Run(Fresh(bound), es, p);
            s.synced && s.outbox == [] ==> MapWithin(AnnouncedView(s.monitor, p), s.registry.ifaces)
  {
    var s := Run(Fresh(bound), es, p);
    RunKeepsInv(bound, es, p);
    if s.synced && s.outbox == [] { QuietCompleteness(s, p); }
  }

  lemma {:induction false} RunKeepsSound(bound: bool, es: seq<Event>, p: R.Parser)
    requires ReplaySafe(Fresh(bound), es, p)
    ensures Sound(Run(Fresh(bound), es, p), p)
  {
    if es != [] {
      var n := |es| - 1;
      var before := es[..n];
      assert forall i :: 0 <= i <= n ==> before[..i] == es[..i];
      assert forall i :: 0 <= i < n ==> before[i] == es[i];
      RunKeepsSound(bound, before, p);
      RunKeepsInv(bound, before, p);
      StepKeepsSound(Run(Fresh(bound), before, p), es[n], p);
    }
  }

  /** The registry never shows a network that is not announced, in every replay-safe run. */
  lemma {:induction false} RegistryShowsOnlyTheAnnounced(bound: bool, es: seq<Event>, p: R.Parser)
    requires ReplaySafe(Fresh(bound), es, p)
    ensures var s := Run(Fresh(bound), es, p);
            s.outbox == [] ==> MapWithin(s.registry.ifaces, AnnouncedView(s.monitor, p))
  {
    var s := Run(Fresh(bound), es, p);
    RunKeepsSound(bound, es, p);
    if s.outbox == [] { QuietSoundness(s, p); }
  }

  /** Keys and values: registry and monitor agree exactly. */
  lemma {:induction false} AgreementFromFirstReplay(bound: bool, es: seq<Event>, p: R.Parser)
    requires ReplaySafe(Fresh(bound), es, p)
    ensures var s := Run(Fresh(bound), es, p);
            s.synced && s.outbox == [] ==> s.registry.ifaces == AnnouncedView(s.monitor, p)
  {
    var s := Run(Fresh(bound), es, p);
    NothingAnnouncedIsMissing(bound, es, p);
    RegistryShowsOnlyTheAnnounced(bound, es, p);
    if s.synced && s.outbox == [] { WithinBothWays(s.registry.ifaces, AnnouncedView(s.monitor, p)); }
  }

  // ---- The exact condition for a replay -------------------------------------

  /** Lets every downcall of the current task pass, with nothing in between. */
  function PassAll(s: System, p: R.Parser): System
    decreases |s.outbox|
  {
    if s.outbox == [] then s else PassAll(Pass(s, p), p)
  }

  lemma {:induction false} PassAllDelivers(s: System, p: R.Parser)
    ensures PassAll(s, p) == s.(outbox := [], registry := DeliverAll(s.registry, s.outbox, s.bound, p))
    decreases |s.outbox|
  {
    if s.outbox != [] { PassAllDelivers(Pass(s, p), p); }
  }

  lemma {:induction false} PassAllKeeps(s: System, p: R.Parser)
    requires Inv(s, p)
    ensures Inv(PassAll(s, p), p)
    ensures Sound(s, p) ==> Sound(PassAll(s, p), p)
    decreases |s.outbox|
  {
    if s.outbox != [] {
      PassKeepsInv(s, p);
      if Sound(s, p) { PassKeepsSound(s, p); }
      PassAllKeeps(Pass(s, p), p);
    }
  }

  lemma {:induction false} DeliverKeepsEntry(r: R.Registry, calls: seq<Downcall>, h: Handle, p: R.Parser)
    requires h in r.ifaces && NetworkLost(h) !in calls && MonitorReset !in calls
    ensures h in DeliverAll(r, calls, true, p).ifaces
    decreases |calls|
  {
    if calls != [] {
      assert calls[0] in calls;
      DeliverKeepsEntry(Deliver(r, calls[0], true, p), calls[1..], h, p);
    }
  }

  /**
   A replay on a bound shim leaves registry and monitor in agreement if and only
   if every network the registry holds is still buildable when it runs: replay
   forgets what it sent before it tries to send again.
   */
  lemma {:induction false} ReplayAgreesExactly(s: System, order: seq<Handle>, env: Env, p: R.Parser)
    requires Inv(s, p) && Sound(s, p)
    requires s.bound && s.outbox == [] && s.stage.Alive? && IsOrder(order, s.monitor)
    ensures var t := PassAll(RunTask(s, Replay(order), env), p);
            t.registry.ifaces == AnnouncedView(t.monitor, p) <==> Resendable(s)
  {
    var u := RunTask(s, Replay(order), env);
    var t := PassAll(u, p);
    TaskKeepsInv(s, Replay(order), env, p);
    PassAllDelivers(u, p);
    PassAllKeeps(u, p);
    if Resendable(s) {
      TaskKeepsSound(s, Replay(order), env, p);
      QuietCompleteness(t, p);
      QuietSoundness(t, p);
      WithinBothWays(t.registry.ifaces, AnnouncedView(t.monitor, p));
    } else {
      var h :| h in s.registry.ifaces && !(h in s.monitor.tracked && Buildable(s.monitor.tracked[h]));
      UnbuildableStays(s, order, env, h, p);
    }
  }

  /** The ghost: gone from the monitor's books, still in the registry. */
  lemma UnbuildableStays(s: System, order: seq<Handle>, env: Env, h: Handle, p: R.Parser)
    requires Inv(s, p) && Sound(s, p)
    requires s.bound && s.outbox == [] && IsOrder(order, s.monitor)
    requires h in s.registry.ifaces && !(h in s.monitor.tracked && Buildable(s.monitor.tracked[h]))
    ensures var t := PassAll(RunTask(s, Replay(order), env), p);
            h in t.registry.ifaces && LastSent(t.monitor, h).None?
  {
    var u := RunTask(s, Replay(order), env);
    ReplayOnlySends(s.monitor, order, env);
    PassAllDelivers(u, p);
    DeliverKeepsEntry(s.registry, u.outbox, h, p);
    ReplayNetworksState(s.monitor, order, env);
  }

  lemma ReplayOnlySends(m: Monitor, order: seq<Handle>, env: Env)
    requires IsOrder(order, m)
    ensures forall c :: c in Execute(m, Replay(order), env).calls ==> c.NetworkUpdate? || c.DefaultChanged?
  {
    ReplayNetworksCalls(m, order, env);
  }

  /** Registry and monitor agree, if their agreement has begun. */
  ghost predicate Agrees(s: System, p: R.Parser) {
    s.synced ==> s.registry.ifaces == AnnouncedView(s.monitor, p)
  }

  /** At every point of the run, once the downcalls of the current task have passed, both agree. */
  ghost predicate AlwaysAgrees(s: System, es: seq<Event>, p: R.Parser) {
    forall n :: 0 <= n <= |es| ==> Agrees(PassAll(Run(s, es[..n], p), p), p)
  }

  lemma SafeRunAgrees(bound: bool, es: seq<Event>, p: R.Parser)
    requires ReplaySafe(Fresh(bound), es, p)
    ensures Agrees(PassAll(Run(Fresh(bound), es, p), p), p)
  {
    var s := Run(Fresh(bound), es, p);
    RunKeepsInv(bound, es, p);
    RunKeepsSound(bound, es, p);
    PassAllKeeps(s, p);
    PassAllDelivers(s, p);
    var t := PassAll(s, p);
    if t.synced {
      QuietCompleteness(t, p);
      QuietSoundness(t, p);
      WithinBothWays(t.registry.ifaces, AnnouncedView(t.monitor, p));
    }
  }

  lemma SafePrefix(s: System, es: seq<Event>, n: nat, p: R.Parser)
    requires n <= |es| && ReplaySafe(s, es, p)
    ensures ReplaySafe(s, es[..n], p)
  {
    var before := es[..n];
    forall i | 0 <= i < n && before[i].Dispatch? && ReplayIsNext(Run(s, before[..i], p))
      ensures Resendable(Run(s, before[..i], p))
    {
      assert before[..i] == es[..i] && before[i] == es[i];
    }
  }

  /** A replay that drops what the registry holds leaves the two apart when its own downcalls have passed. */
  lemma UnsafeReplayDisagrees(s: System, env: Env, p: R.Parser)
    requires Inv(s, p) && Sound(s, p) && ReplayIsNext(s) && !Resendable(s)
    ensures !Agrees(PassAll(Step(s, Dispatch(env), p), p), p)
  {
    var rest := s.(queue := s.queue[1..]);
    DispatchGated(s, p);
    ReplayAgreesExactly(rest, s.queue[0].task.order, env, p);
    PassAllDelivers(RunTask(rest, s.queue[0].task, env), p);
  }

  /** Either the run is safe, or its first unsafe replay shows. */
  lemma {:induction false} UnsafeRunDisagrees(bound: bool, es: seq<Event>, p: R.Parser)
    ensures ReplaySafe(Fresh(bound), es, p) || !AlwaysAgrees(Fresh(bound), es, p)
    decreases |es|
  {
    if es != [] {
      var n := |es| - 1;
      var before := es[..n];
      var s := Run(Fresh(bound), before, p);
      assert forall i :: 0 <= i <= n ==> before[..i] == es[..i];
      UnsafeRunDisagrees(bound, before, p);
      if !ReplaySafe(Fresh(bound), before, p) {
        var i :| 0 <= i <= n && !Agrees(PassAll(Run(Fresh(bound), before[..i], p), p), p);
        assert before[..i] == es[..i];
      } else if es[n].Dispatch? && ReplayIsNext(s) && !Resendable(s) {
        RunKeepsInv(bound, before, p);
        RunKeepsSound(bound, before, p);
        UnsafeReplayDisagrees(s, es[n].env, p);
        assert es[..|es|] == es && Run(Fresh(bound), es, p) == Step(s, es[n], p);
      } else {
        ExtendsSafely(Fresh(bound), es, p);
      }
    }
  }

  lemma ExtendsSafely(s: System, es: seq<Event>, p: R.Parser)
    requires es != [] && ReplaySafe(s, es[..|es| - 1], p)
    requires var before := Run(s, es[..|es| - 1], p);
             es[|es| - 1].Dispatch? && ReplayIsNext(before) ==> Resendable(before)
    ensures ReplaySafe(s, es, p)
  {
    var n := |es| - 1;
    var before := es[..n];
    forall i | 0 <= i < |es| && es[i].Dispatch? && ReplayIsNext(Run(s, es[..i], p)) ensures Resendable(Run(s, es[..i], p)) {
      if i < n { assert before[..i] == es[..i] && before[i] == es[i]; }
    }
  }

  /**
   The exact condition for whole runs: registry and monitor agree, keys and values,
   at every point where the downcalls of a task have passed, if and only if every
   replay that ran found all that the registry held still buildable.
   */
  lemma {:induction false} AgreementExactly(bound: bool, es: seq<Event>, p: R.Parser)
    ensures AlwaysAgrees(Fresh(bound), es, p) <==> ReplaySafe(Fresh(bound), es, p)
  {
    UnsafeRunDisagrees(bound, es, p);
    if ReplaySafe(Fresh(bound), es, p) {
      forall n | 0 <= n <= |es| ensures Agrees(PassAll(Run(Fresh(bound), es[..n], p), p), p) {
        SafePrefix(Fresh(bound), es, n, p);
        SafeRunAgrees(bound, es[..n], p);
      }
    }
  }

  lemma RunSnoc(s: System, es: seq<Event>, e: Event, p: R.Parser)
    ensures Run(s, es + [e], p) == Step(Run(s, es, p), e, p)
  {
    assert (es + [e])[..|es|] == es;
  }

  /** One task posted to an idle monitor and taken at once. */
  function PostAndRun(task: Task): seq<Event> {
    [Post(task), Dispatch(Env(SDK_Q, map[]))]
  }

  lemma IdleRunsTask(s: System, es: seq<Event>, task: Task, p: R.Parser)
    requires var t := Run(s, es, p); t.stage.Alive? && t.queue == [] && t.outbox == [] && CanRun(t.monitor, task)
    ensures Run(s, es + PostAndRun(task), p) == RunTask(Run(s, es, p), task, Env(SDK_Q, map[]))
  {
    var pair := PostAndRun(task);
    RunSnoc(s, es, pair[0], p);
    RunSnoc(s, es + [pair[0]], pair[1], p);
    assert es + pair == es + [pair[0]] + [pair[1]];
  }

  const GHOST_CAPS := Caps({TransportWifi}, true, true, true)
  const GHOST_NAMED := LinkProps(Some("wlan0"), 1500, [], [])
  const GHOST_UNNAMED := LinkProps(None, 1500, [], [])

  /** Network 7 is announced, then loses its interface name, is replayed, and is lost. */
  const GHOST_ANNOUNCED :=
    PostAndRun(CapsChanged(7, GHOST_CAPS)) + PostAndRun(PropsChanged(7, GHOST_NAMED)) + [PassDowncall]
  const GHOST_NAMELESS := GHOST_ANNOUNCED + PostAndRun(PropsChanged(7, GHOST_UNNAMED))
  const GHOST_RUN := GHOST_NAMELESS + PostAndRun(Replay([7])) + PostAndRun(NetworkGone(7))

  ghost predicate KnowsSeven(s: System) {
    && s.stage.Alive? && s.bound && s.queue == [] && s.outbox == []
    && s.monitor.defaultNetwork.None? && s.monitor.tracked.Keys == {7} && 7 in s.registry.ifaces
  }

  lemma GhostIsAnnounced(p: R.Parser)
    ensures KnowsSeven(Run(Fresh(true), GHOST_ANNOUNCED, p))
  {
    var s := Fresh(true);
    var first, second := CapsChanged(7, GHOST_CAPS), PropsChanged(7, GHOST_NAMED);
    var es := PostAndRun(first);
    assert [] + es == es;
    IdleRunsTask(s, [], first, p);
    var a := Run(s, es, p);
    assert a.monitor.tracked.Keys == {7} && a.monitor.tracked[7] == Tracked(Some(GHOST_CAPS), None, None);
    IdleRunsTask(s, es, second, p);
    var b := Run(s, es + PostAndRun(second), p);
    assert Buildable(Tracked(Some(GHOST_CAPS), Some(GHOST_NAMED), None));
    assert |b.outbox| == 1 && b.outbox[0].NetworkUpdate? && b.outbox[0].s.handle == 7;
    RunSnoc(s, es + PostAndRun(second), PassDowncall, p);
  }

  lemma GhostLosesItsName(p: R.Parser)
    ensures var s := Run(Fresh(true), GHOST_NAMELESS, p);
            KnowsSeven(s) && !Buildable(s.monitor.tracked[7])
  {
    GhostIsAnnounced(p);
    IdleRunsTask(Fresh(true), GHOST_ANNOUNCED, PropsChanged(7, GHOST_UNNAMED), p);
  }

  lemma NothingToReplay(m: Monitor, env: Env)
    requires 7 in m.tracked && !Buildable(m.tracked[7])
    ensures ReplayNetworks(m, [7], env).calls == []
  {
    assert [7][1..] == [];
  }

  lemma GhostIsForgotten(p: R.Parser)
    ensures var s := Run(Fresh(true), GHOST_NAMELESS + PostAndRun(Replay([7])), p);
            KnowsSeven(s) && LastSent(s.monitor, 7).None?
  {
    GhostLosesItsName(p);
    IdleRunsTask(Fresh(true), GHOST_NAMELESS, Replay([7]), p);
    var m := Run(Fresh(true), GHOST_NAMELESS, p).monitor;
    ReplayNetworksState(m, [7], Env(SDK_Q, map[]));
    NothingToReplay(m, Env(SDK_Q, map[]));
  }

  /** Without the condition it does go wrong: the registry keeps a network that is gone. */
  lemma GhostRunLeavesAGhost(p: R.Parser)
    ensures var s := Run(Fresh(true), GHOST_RUN, p);
            s.queue == [] && s.outbox == [] && s.monitor.tracked == map[] && 7 in s.registry.ifaces
  {
    GhostIsForgotten(p);
    IdleRunsTask(Fresh(true), GHOST_NAMELESS + PostAndRun(Replay([7])), NetworkGone(7), p);
    assert Run(Fresh(true), GHOST_RUN, p).monitor.tracked.Keys == {};
  }

  // ---- The default interface ------------------------------------------------

  /**
   Between tasks, from the first replay completed after binding on: the engine
   has a default exactly while the monitor's best network has link properties,
   provided its handle is not negative. Without link properties an engine
   default still implies that the monitor has a best network.
   */
  lemma {:induction false} DefaultPresenceAgrees(bound: bool, es: seq<Event>, p: R.Parser)
    ensures var s := Run(Fresh(bound), es, p);
            s.outbox == [] ==>
              && (s.registry.defaultIface.Some? ==> s.monitor.defaultNetwork.Some?)
              && (s.synced && DefaultNamed(s.monitor) ==>
                    (s.registry.defaultIface.Some? <==> s.monitor.defaultNetwork.value >= 0))
  {
    RunKeepsInv(bound, es, p);
  }

  lemma {:induction false} DeliverUpdates(r: R.Registry, calls: seq<Downcall>, m: Monitor, h: Handle, p: R.Parser)
    requires WellKeyed(m) && LastSent(m, h).Some?
    requires forall c :: c in calls ==> c.NetworkUpdate? && LastSent(m, c.s.handle) == Some(c.s)
    requires NetworkUpdate(LastSent(m, h).value) in calls
             || (h in r.ifaces && r.ifaces[h] == BuildInterface(LastSent(m, h).value, p))
    ensures var after := DeliverAll(r, calls, true, p);
            h in after.ifaces && after.ifaces[h] == BuildInterface(LastSent(m, h).value, p)
    decreases |calls|
  {
    if calls != [] {
      assert calls == [calls[0]] + calls[1..];
      assert calls[0] in calls;
      assert forall c :: c in calls[1..] ==> c in calls;
      DeliverUpdates(Deliver(r, calls[0], true, p), calls[1..], m, h, p);
    }
  }

  /** The default goes out once, after every network. */
  lemma ReplaySendsDefaultLast(m: Monitor, order: seq<Handle>, env: Env)
    requires IsOrder(order, m) && DefaultNamed(m)
    ensures Execute(m, Replay(order), env).calls ==
            ReplayNetworks(m, order, env).calls + [DefaultChanged(DefaultSnapshotOf(m, env).value)]
  {
    ReplayNetworksState(m, order, env);
  }

  /** A replay's updates leave the registry with the full entry of every buildable network. */
  lemma ReplayDeliversEntry(m: Monitor, r: R.Registry, order: seq<Handle>, env: Env, h: Handle, p: R.Parser)
    requires IsOrder(order, m) && WellKeyed(m) && h in m.tracked && Buildable(m.tracked[h])
    ensures h in DeliverAll(r, ReplayNetworks(m, order, env).calls, true, p).ifaces
  {
    var networks := ReplayNetworks(m, order, env);
    ReplayNetworksState(m, order, env);
    ReplayNetworksCalls(m, order, env);
    assert NetworkUpdate(SnapshotOf(h, m.tracked[h], env)) in networks.calls;
    DeliverUpdates(r, networks.calls, networks.monitor, h, p);
  }

  /**
   A replay sends every network before the default, so the default the engine
   freezes is the full entry of that network, not the sparse payload.
   */
  lemma ReplayFreezesTheFullEntry(s: System, order: seq<Handle>, env: Env, p: R.Parser)
    requires WellKeyed(s.monitor) && s.bound && IsOrder(order, s.monitor)
    requires DefaultNamed(s.monitor) && s.monitor.defaultNetwork.value >= 0
    requires var h := s.monitor.defaultNetwork.value; h in s.monitor.tracked && Buildable(s.monitor.tracked[h])
    ensures var t := PassAll(RunTask(s, Replay(order), env), p);
            var h := s.monitor.defaultNetwork.value;
            h in t.registry.ifaces && t.registry.defaultIface == Some(t.registry.ifaces[h].control)
  {
    var h := s.monitor.defaultNetwork.value;
    var calls := ReplayNetworks(s.monitor, order, env).calls;
    var d := DefaultSnapshotOf(s.monitor, env).value;
    ReplaySendsDefaultLast(s.monitor, order, env);
    ReplayDeliversEntry(s.monitor, s.registry, order, env, h, p);
    var r := DeliverAll(s.registry, calls, true, p);
    DeliverAppend(s.registry, calls, [DefaultChanged(d)], true, p);
    DeliverOne(r, DefaultChanged(d), true, p);
    PassAllDelivers(RunTask(s, Replay(order), env), p);
  }

  // ---- Stopping -------------------------------------------------------------

  /** Once the cleanup task has run, and its reset has passed, the engine sees nothing. */
  lemma {:induction false} CleanedMeansEmpty(bound: bool, es: seq<Event>, p: R.Parser)
    ensures var s := Run(Fresh(bound), es, p);
            s.cleaned && s.outbox == [] ==> s.registry == R.EMPTY_REGISTRY && s.monitor == EMPTY_MONITOR
  {
    RunKeepsInv(bound, es, p);
  }

  /** From there on that monitor never issues another downcall, whatever is still posted or queued. */
  lemma {:induction false} CleanedStaysSilent(s: System, es: seq<Event>, p: R.Parser)
    requires Inv(s, p) && s.cleaned && s.outbox == []
    requires NewMonitor !in es
    ensures var t := Run(s, es, p);
            Inv(t, p) && t.cleaned && t.outbox == [] && t.registry == s.registry
  {
    if es != [] {
      var before, e := es[..|es| - 1], es[|es| - 1];
      assert e in es && forall x :: x in before ==> x in es;
      CleanedStaysSilent(s, before, p);
      var t := Run(s, before, p);
      StepKeepsInv(t, e, p);
      if e.Dispatch? && t.queue != [] { assert t.queue[0] in t.queue; }
    }
  }

  /** The handler thread alone, after quitSafely: finish the task, take the next message. */
  function Drain(s: System, env: Env, p: R.Parser): System
    requires !s.stage.Alive?
    decreases |s.queue|, |s.outbox|
  {
    if s.outbox != [] then Drain(Pass(s, p), env, p)
    else if s.queue != [] then Drain(DispatchNext(s, env), env, p)
    else s
  }

  /** However much was queued, the thread of a stopped monitor ends, cleaned up and silent. */
  lemma {:induction false} StopAlwaysCleansUp(s: System, env: Env, p: R.Parser)
    requires Inv(s, p) && s.stage.QuitRequested?
    ensures var t := Drain(s, env, p);
            ThreadDone(t) && t.cleaned && t.registry == R.EMPTY_REGISTRY && Inv(t, p)
    decreases |s.queue|, |s.outbox|
  {
    if s.outbox != [] {
      PassKeepsInv(s, p);
      StopAlwaysCleansUp(Pass(s, p), env, p);
    } else if s.queue != [] {
      DispatchKeepsInv(s, env, p);
      StopAlwaysCleansUp(DispatchNext(s, env), env, p);
    }
  }

  lemma {:induction false} DrainKeepsBinding(s: System, env: Env, p: R.Parser)
    requires !s.stage.Alive?
    ensures Drain(s, env, p).bound == s.bound && Drain(s, env, p).stage == s.stage
    decreases |s.queue|, |s.outbox|
  {
    if s.outbox != [] {
      DrainKeepsBinding(Pass(s, p), env, p);
    } else if s.queue != [] {
      DrainKeepsBinding(DispatchNext(s, env), env, p);
    }
  }

  /**
   A whole stop(), from any reachable point of a running monitor: nothing can be posted
   any more, the thread ends cleaned up, and the next monitor starts from scratch.
   */
  lemma StopThenStartAfresh(bound: bool, es: seq<Event>, task: Task, env: Env, p: R.Parser)
    requires Run(Fresh(bound), es, p).stage.Alive?
    ensures var s := Run(Fresh(bound), es, p);
            var t := Step(Step(Step(s, StopFlag, p), StopPost, p), StopQuit, p);
            && Step(t, Post(task), p) == t
            && !t.stage.Alive? && ThreadDone(Drain(t, env, p))
            && Step(Drain(t, env, p), NewMonitor, p) == Fresh(s.bound)
  {
    var s := Run(Fresh(bound), es, p);
    RunKeepsInv(bound, es, p);
    var a := Step(s, StopFlag, p);
    var b := Step(a, StopPost, p);
    var t := Step(b, StopQuit, p);
    StepKeepsInv(s, StopFlag, p);
    StepKeepsInv(a, StopPost, p);
    StepKeepsInv(b, StopQuit, p);
    StopAlwaysCleansUp(t, env, p);
    DrainKeepsBinding(t, env, p);
  }

  /** The shim is bound exactly if it was when the process began or has been since; stopping never unbinds it. */
  lemma {:induction false} BoundExactly(bound: bool, es: seq<Event>, p: R.Parser)
    ensures Run(Fresh(bound), es, p).bound <==> bound || Bind in es
  {
    if es != [] {
      var before, e := es[..|es| - 1], es[|es| - 1];
      BoundExactly(bound, before, p);
      assert es == before + [e];
    }
  }
}
