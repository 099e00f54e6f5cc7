/**
 NetworkStateMonitor: the tasks that run on its handler thread. `Execute` gives
 each task's effect on the monitor's fields and the downcalls it makes, in
 order; the class is the Kotlin object proved against it.
 */
module NetworkMonitor {
  import opened Wrappers
  import opened Netif
  import opened JniShim

  datatype Tracked = Tracked(caps: Option<Caps>, props: Option<LinkProps>, lastSent: Option<Snapshot>)

  const UNTOUCHED := Tracked(None, None, None)

  datatype Monitor = Monitor(
    tracked: map<Handle, Tracked>,
    defaultNetwork: Option<Handle>,
    defaultCaps: Option<Caps>,
    defaultProps: Option<LinkProps>,
    lastDefaultSent: Option<DefaultSnapshot>)

  const EMPTY_MONITOR := Monitor(map[], None, None, None, None)

  const NO_DEFAULT := DefaultSnapshot(NO_NETWORK_HANDLE, "", -1, 0)

  /** The bodies handed to `post`, from both callbacks and from replay. */
  datatype Task =
    | Available(h: Handle)
    | CapsChanged(h: Handle, caps: Caps)
    | PropsChanged(h: Handle, props: LinkProps)
    | NetworkGone(h: Handle)
    | DefaultAvailable(h: Handle, seedCaps: Option<Caps>, seedProps: Option<LinkProps>)
    | DefaultCapsChanged(h: Handle, caps: Caps)
    | DefaultPropsChanged(h: Handle, props: LinkProps)
    | DefaultLost(h: Handle)
    | DefaultUnavailable
    | Replay(order: seq<Handle>)

  /** A task, and the outside world it finds. */
  datatype Turn = Turn(task: Task, env: Env)

  datatype Effect = Effect(monitor: Monitor, calls: seq<Downcall>)

  function Entry(tracked: map<Handle, Tracked>, h: Handle): Tracked {
    if h in tracked then tracked[h] else UNTOUCHED
  }

  /** emitIfComplete builds a snapshot exactly for these entries. */
  predicate Buildable(t: Tracked) {
    t.caps.Some? && t.props.Some? && TransportVpn !in t.caps.value.transports && t.props.value.ifName.Some?
  }

  function SnapshotOf(h: Handle, t: Tracked, env: Env): (s: Snapshot)
    requires Buildable(t)
    ensures s.handle == h
  {
    BuildSnapshot(h, t.caps.value, t.props.value, env).value
  }

  function AfterEmitIfComplete(m: Monitor, h: Handle, env: Env): Effect
    requires h in m.tracked
  {
    var t := m.tracked[h];
    if !Buildable(t) || t.lastSent == Some(SnapshotOf(h, t, env)) then Effect(m, [])
    else
      var s := SnapshotOf(h, t, env);
      Effect(m.(tracked := m.tracked[h := t.(lastSent := Some(s))]), [NetworkUpdate(s)])
  }

  /** The default snapshot emitDefault would send, once link properties are there. */
  function DefaultSnapshotOf(m: Monitor, env: Env): Option<DefaultSnapshot> {
    if m.defaultNetwork.None? || m.defaultProps.None? || m.defaultProps.value.ifName.None? then None
    else
      var name := m.defaultProps.value.ifName.value;
      var flags := if m.defaultCaps.Some? then FlagsOf(m.defaultCaps.value, env.sdk) else 0;
      Some(DefaultSnapshot(m.defaultNetwork.value, name, InterfaceIndexOf(name, env), flags))
  }

  /** Sends `d` unless it is what was sent last. */
  function AfterSendDefault(m: Monitor, d: DefaultSnapshot): Effect {
    if m.lastDefaultSent == Some(d) then Effect(m, [])
    else Effect(m.(lastDefaultSent := Some(d)), [DefaultChanged(d)])
  }

  function AfterEmitDefault(m: Monitor, env: Env): Effect {
    var d := DefaultSnapshotOf(m, env);
    if d.None? then Effect(m, []) else AfterSendDefault(m, d.value)
  }

  function AfterClearDefault(m: Monitor): Effect {
    AfterSendDefault(m.(defaultNetwork := None, defaultCaps := None, defaultProps := None), NO_DEFAULT)
  }

  /** One round of the replay loop: forget what was sent, then emit. */
  function AfterReplayOne(m: Monitor, h: Handle, env: Env): Effect
    requires h in m.tracked
  {
    AfterEmitIfComplete(m.(tracked := m.tracked[h := m.tracked[h].(lastSent := None)]), h, env)
  }

  /** The loop of replay over the tracked networks, in the given iteration order. */
  function ReplayNetworks(m: Monitor, order: seq<Handle>, env: Env): Effect
    requires forall h :: h in order ==> h in m.tracked
    decreases |order|
  {
    if order == [] then Effect(m, [])
    else
      var one := AfterReplayOne(m, order[0], env);
      var rest := ReplayNetworks(one.monitor, order[1..], env);
      Effect(rest.monitor, one.calls + rest.calls)
  }

  /** An iteration order of the map: every key once. */
  predicate IsOrder(order: seq<Handle>, m: Monitor) {
    && (forall h :: h in order ==> h in m.tracked)
    && (forall h :: h in m.tracked ==> h in order)
    && (forall i, j :: 0 <= i < j < |order| ==> order[i] != order[j])
  }

  /** A replay task iterates the map as it stands when the task runs. */
  predicate CanRun(m: Monitor, task: Task) {
    task.Replay? ==> IsOrder(task.order, m)
  }

  function Execute(m: Monitor, task: Task, env: Env): Effect
    requires CanRun(m, task)
  {
    match task
    case Available(h) => Effect(m.(tracked := m.tracked[h := Entry(m.tracked, h)]), [])
    case CapsChanged(h, caps) =>
      AfterEmitIfComplete(m.(tracked := m.tracked[h := Entry(m.tracked, h).(caps := Some(caps))]), h, env)
    case PropsChanged(h, props) =>
      AfterEmitIfComplete(m.(tracked := m.tracked[h := Entry(m.tracked, h).(props := Some(props))]), h, env)
    case NetworkGone(h) =>
      Effect(m.(tracked := m.tracked - {h}), if Entry(m.tracked, h).lastSent.Some? then [NetworkLost(h)] else [])
    case DefaultAvailable(h, caps, props) =>
      AfterEmitDefault(m.(defaultNetwork := Some(h), defaultCaps := caps, defaultProps := props), env)
    case DefaultCapsChanged(h, caps) =>
      if m.defaultNetwork == Some(h) then AfterEmitDefault(m.(defaultCaps := Some(caps)), env) else Effect(m, [])
    case DefaultPropsChanged(h, props) =>
      if m.defaultNetwork == Some(h) then AfterEmitDefault(m.(defaultProps := Some(props)), env) else Effect(m, [])
    case DefaultLost(h) => if m.defaultNetwork == Some(h) then AfterClearDefault(m) else Effect(m, [])
    case DefaultUnavailable => AfterClearDefault(m)
    case Replay(order) =>
      var networks := ReplayNetworks(m, order, env);
      var last := AfterEmitDefault(networks.monitor.(lastDefaultSent := None), env);
      Effect(last.monitor, networks.calls + last.calls)
  }

  /** The networks the monitor believes the engine knows, with what it last sent. */
  function Announced(m: Monitor): map<Handle, Snapshot> {
    map h | h in m.tracked && m.tracked[h].lastSent.Some? :: m.tracked[h].lastSent.value
  }

  /** After `i` rounds: finishing from here gives what the whole loop gives. */
  ghost predicate RestOfReplay(start: Monitor, order: seq<Handle>, env: Env, now: Monitor, sent: seq<Downcall>, i: nat) {
    && i <= |order|
    && (forall h :: h in order ==> h in start.tracked && h in now.tracked)
    && var rest := ReplayNetworks(now, order[i..], env);
       ReplayNetworks(start, order, env) == Effect(rest.monitor, sent + rest.calls)
  }

  lemma ReplayRound(start: Monitor, order: seq<Handle>, env: Env, now: Monitor, sent: seq<Downcall>, i: nat)
    requires i < |order| && RestOfReplay(start, order, env, now, sent, i)
    ensures var one := AfterReplayOne(now, order[i], env);
            RestOfReplay(start, order, env, one.monitor, sent + one.calls, i + 1)
  {
    var one := AfterReplayOne(now, order[i], env);
    var tail := ReplayNetworks(one.monitor, order[i + 1..], env);
    assert order[i..][1..] == order[i + 1..];
    assert sent + (one.calls + tail.calls) == (sent + one.calls) + tail.calls;
  }

  lemma ReplayDone(start: Monitor, order: seq<Handle>, env: Env, now: Monitor, sent: seq<Downcall>)
    requires RestOfReplay(start, order, env, now, sent, |order|)
    ensures ReplayNetworks(start, order, env) == Effect(now, sent)
  {
    assert order[|order|..] == [] && sent + [] == sent;
  }

  // ---- What a replay sends --------------------------------------------------

  /** The entry of `h` after a replay loop over `order`. */
  function Replayed(m: Monitor, h: Handle, order: seq<Handle>, env: Env): Tracked
    requires h in m.tracked
  {
    var t := m.tracked[h];
    if h !in order then t
    else t.(lastSent := if Buildable(t) then Some(SnapshotOf(h, t, env)) else None)
  }

  /** The loop visits every entry once and touches nothing else. */
  lemma {:induction false} ReplayNetworksState(m: Monitor, order: seq<Handle>, env: Env)
    requires forall h :: h in order ==> h in m.tracked
    requires forall i, j :: 0 <= i < j < |order| ==> order[i] != order[j]
    ensures var e := ReplayNetworks(m, order, env);
            && e.monitor == m.(tracked := e.monitor.tracked)
            && e.monitor.tracked.Keys == m.tracked.Keys
            && forall h :: h in m.tracked ==> e.monitor.tracked[h] == Replayed(m, h, order, env)
    decreases |order|
  {
    if order != [] {
      var h := order[0];
      var one := AfterReplayOne(m, h, env);
      var rest := order[1..];
      ReplayNetworksState(one.monitor, rest, env);
      assert h !in rest;
      assert forall g :: g in order <==> g == h || g in rest;
      assert forall g :: g in m.tracked && g != h ==> one.monitor.tracked[g] == m.tracked[g];
    }
  }

  /** Exactly one update goes out for each buildable network, whatever was sent before. */
  lemma {:induction false} ReplayNetworksCalls(m: Monitor, order: seq<Handle>, env: Env)
    requires forall h :: h in order ==> h in m.tracked
    requires forall i, j :: 0 <= i < j < |order| ==> order[i] != order[j]
    ensures forall c :: c in ReplayNetworks(m, order, env).calls <==>
              exists h :: h in order && Buildable(m.tracked[h]) && c == NetworkUpdate(SnapshotOf(h, m.tracked[h], env))
    decreases |order|
  {
    if order != [] {
      var h := order[0];
      var one := AfterReplayOne(m, h, env);
      var rest := order[1..];
      assert h !in rest;
      ReplayNetworksCalls(one.monitor, rest, env);
      assert forall g :: g in order <==> g == h || g in rest;
      assert forall g :: g in rest ==> one.monitor.tracked[g] == m.tracked[g];
      var t := m.tracked[h];
      assert one.calls == if Buildable(t) then [NetworkUpdate(SnapshotOf(h, t, env))] else [];
    }
  }

  // ---- The Kotlin object ----------------------------------------------------

  class NetworkStateMonitor {
    var tracked: map<Handle, Tracked>
    var defaultNetwork: Option<Handle>
    var defaultCaps: Option<Caps>
    var defaultProps: Option<LinkProps>
    var lastDefaultSent: Option<DefaultSnapshot>
    const sink: Shim

    function View(): Monitor
      reads this
    {
      Monitor(tracked, defaultNetwork, defaultCaps, defaultProps, lastDefaultSent)
    }

    /** The registry state after this object has made `calls` from `r`. */
    ghost predicate Reached(r: R.Registry, calls: seq<Downcall>)
      reads sink, sink.registry
    {
      sink.registry.View() == DeliverAll(r, calls, sink.bound, sink.registry.parses)
    }

    constructor (sink: Shim)
      ensures View() == EMPTY_MONITOR && this.sink == sink
    {
      tracked, defaultNetwork, defaultCaps, defaultProps, lastDefaultSent := map[], None, None, None, None;
      this.sink := sink;
    }

    method SendUpdate(s: Snapshot)
      modifies sink`dropped, sink.registry
      ensures Reached(old(sink.registry.View()), [NetworkUpdate(s)])
    {
      ghost var r := sink.registry.View();
      sink.NetifUpdate(s);
      DeliverOne(r, NetworkUpdate(s), sink.bound, sink.registry.parses);
    }

    method SendLost(h: Handle)
      modifies sink`dropped, sink.registry
      ensures Reached(old(sink.registry.View()), [NetworkLost(h)])
    {
      ghost var r := sink.registry.View();
      sink.NetifLost(h);
      DeliverOne(r, NetworkLost(h), sink.bound, sink.registry.parses);
    }

    method SendDefaultIfNew(d: DefaultSnapshot)
      modifies `lastDefaultSent, sink`dropped, sink.registry
      ensures View() == AfterSendDefault(old(View()), d).monitor
      ensures Reached(old(sink.registry.View()), AfterSendDefault(old(View()), d).calls)
    {
      if lastDefaultSent == Some(d) { return; }
      lastDefaultSent := Some(d);
      ghost var r := sink.registry.View();
      sink.NetifDefaultChanged(d);
      DeliverOne(r, DefaultChanged(d), sink.bound, sink.registry.parses);
    }

    method EmitIfComplete(h: Handle, env: Env)
      requires h in tracked
      modifies `tracked, sink`dropped, sink.registry
      ensures View() == AfterEmitIfComplete(old(View()), h, env).monitor
      ensures Reached(old(sink.registry.View()), AfterEmitIfComplete(old(View()), h, env).calls)
    {
      var t := tracked[h];
      if t.caps.None? { return; }
      if t.props.None? { return; }
      if TransportVpn in t.caps.value.transports { return; }
      var snapshot := BuildSnapshot(h, t.caps.value, t.props.value, env);
      if snapshot.None? { return; }
      if snapshot == t.lastSent { return; }
      tracked := tracked[h := t.(lastSent := snapshot)];
      SendUpdate(snapshot.value);
    }

    method EmitDefault(env: Env)
      modifies `lastDefaultSent, sink`dropped, sink.registry
      ensures View() == AfterEmitDefault(old(View()), env).monitor
      ensures Reached(old(sink.registry.View()), AfterEmitDefault(old(View()), env).calls)
    {
      if defaultNetwork.None? { return; }
      if defaultProps.None? || defaultProps.value.ifName.None? { return; }
      var ifName := defaultProps.value.ifName.value;
      var ifIndex := InterfaceIndexOf(ifName, env);
      var flags := if defaultCaps.Some? then FlagsOf(defaultCaps.value, env.sdk) else 0;
      SendDefaultIfNew(DefaultSnapshot(defaultNetwork.value, ifName, ifIndex, flags));
    }

    method ClearDefault()
      modifies `defaultNetwork, `defaultCaps, `defaultProps, `lastDefaultSent, sink`dropped, sink.registry
      ensures View() == AfterClearDefault(old(View())).monitor
      ensures Reached(old(sink.registry.View()), AfterClearDefault(old(View())).calls)
    {
      defaultNetwork, defaultCaps, defaultProps := None, None, None;
      SendDefaultIfNew(DefaultSnapshot(NO_NETWORK_HANDLE, "", -1, 0));
    }

    method OnAvailable(h: Handle, ghost env: Env)
      modifies `tracked
      ensures View() == Execute(old(View()), Available(h), env).monitor
    {
      if h !in tracked { tracked := tracked[h := UNTOUCHED]; }
    }

    method OnCapabilitiesChanged(h: Handle, caps: Caps, env: Env)
      modifies `tracked, sink`dropped, sink.registry
      ensures View() == Execute(old(View()), CapsChanged(h, caps), env).monitor
      ensures Reached(old(sink.registry.View()), Execute(old(View()), CapsChanged(h, caps), env).calls)
    {
      var t := if h in tracked then tracked[h] else UNTOUCHED;
      tracked := tracked[h := t.(caps := Some(caps))];
      EmitIfComplete(h, env);
    }

    method OnLinkPropertiesChanged(h: Handle, props: LinkProps, env: Env)
      modifies `tracked, sink`dropped, sink.registry
      ensures View() == Execute(old(View()), PropsChanged(h, props), env).monitor
      ensures Reached(old(sink.registry.View()), Execute(old(View()), PropsChanged(h, props), env).calls)
    {
      var t := if h in tracked then tracked[h] else UNTOUCHED;
      tracked := tracked[h := t.(props := Some(props))];
      EmitIfComplete(h, env);
    }

    method OnLost(h: Handle, ghost env: Env)
      modifies `tracked, sink`dropped, sink.registry
      ensures View() == Execute(old(View()), NetworkGone(h), env).monitor
      ensures Reached(old(sink.registry.View()), Execute(old(View()), NetworkGone(h), env).calls)
    {
      var announced := h in tracked && tracked[h].lastSent.Some?;
      tracked := tracked - {h};
      if announced { SendLost(h); }
    }

    method OnDefaultAvailable(h: Handle, caps: Option<Caps>, props: Option<LinkProps>, env: Env)
      modifies `defaultNetwork, `defaultCaps, `defaultProps, `lastDefaultSent, sink`dropped, sink.registry
      ensures View() == Execute(old(View()), DefaultAvailable(h, caps, props), env).monitor
      ensures Reached(old(sink.registry.View()), Execute(old(View()), DefaultAvailable(h, caps, props), env).calls)
    {
      defaultNetwork, defaultCaps, defaultProps := Some(h), caps, props;
      EmitDefault(env);
    }

    method OnDefaultCapabilitiesChanged(h: Handle, caps: Caps, env: Env)
      modifies `defaultCaps, `lastDefaultSent, sink`dropped, sink.registry
      ensures View() == Execute(old(View()), DefaultCapsChanged(h, caps), env).monitor
      ensures Reached(old(sink.registry.View()), Execute(old(View()), DefaultCapsChanged(h, caps), env).calls)
    {
      if defaultNetwork == Some(h) {
        defaultCaps := Some(caps);
        EmitDefault(env);
      }
    }

    method OnDefaultLinkPropertiesChanged(h: Handle, props: LinkProps, env: Env)
      modifies `defaultProps, `lastDefaultSent, sink`dropped, sink.registry
      ensures View() == Execute(old(View()), DefaultPropsChanged(h, props), env).monitor
      ensures Reached(old(sink.registry.View()), Execute(old(View()), DefaultPropsChanged(h, props), env).calls)
    {
      if defaultNetwork == Some(h) {
        defaultProps := Some(props);
        EmitDefault(env);
      }
    }

    method OnDefaultLost(h: Handle, ghost env: Env)
      modifies `defaultNetwork, `defaultCaps, `defaultProps, `lastDefaultSent, sink`dropped, sink.registry
      ensures View() == Execute(old(View()), DefaultLost(h), env).monitor
      ensures Reached(old(sink.registry.View()), Execute(old(View()), DefaultLost(h), env).calls)
    {
      if defaultNetwork == Some(h) { ClearDefault(); }
    }

    method OnDefaultUnavailable(ghost env: Env)
      modifies `defaultNetwork, `defaultCaps, `defaultProps, `lastDefaultSent, sink`dropped, sink.registry
      ensures View() == Execute(old(View()), DefaultUnavailable, env).monitor
      ensures Reached(old(sink.registry.View()), Execute(old(View()), DefaultUnavailable, env).calls)
    {
      ClearDefault();
    }

    method ReplayOne(h: Handle, env: Env)
      requires h in tracked
      modifies `tracked, sink`dropped, sink.registry
      ensures View() == AfterReplayOne(old(View()), h, env).monitor
      ensures Reached(old(sink.registry.View()), AfterReplayOne(old(View()), h, env).calls)
    {
      tracked := tracked[h := tracked[h].(lastSent := None)];
      EmitIfComplete(h, env);
    }

    /** The networks half of replay; `order` is the iteration order of `tracked`. */
    method ReplayTracked(order: seq<Handle>, env: Env)
      requires IsOrder(order, View())
      modifies `tracked, sink`dropped, sink.registry
      ensures View() == ReplayNetworks(old(View()), order, env).monitor
      ensures Reached(old(sink.registry.View()), ReplayNetworks(old(View()), order, env).calls)
    {
      ghost var start, r := View(), sink.registry.View();
      ghost var sent: seq<Downcall> := [];
      assert order[0..] == order;
      for i := 0 to |order|
        invariant Reached(r, sent)
        invariant RestOfReplay(start, order, env, View(), sent, i)
      {
        ghost var calls := AfterReplayOne(View(), order[i], env).calls;
        ReplayRound(start, order, env, View(), sent, i);
        DeliverAppend(r, sent, calls, sink.bound, sink.registry.parses);
        ReplayOne(order[i], env);
        sent := sent + calls;
      }
      ReplayDone(start, order, env, View(), sent);
    }

    method Replay(order: seq<Handle>, env: Env)
      requires IsOrder(order, View())
      modifies `tracked, `lastDefaultSent, sink`dropped, sink.registry
      ensures View() == Execute(old(View()), Task.Replay(order), env).monitor
      ensures Reached(old(sink.registry.View()), Execute(old(View()), Task.Replay(order), env).calls)
    {
      ghost var r := sink.registry.View();
      ReplayTracked(order, env);
      lastDefaultSent := None;
      ghost var first := ReplayNetworks(old(View()), order, env).calls;
      ghost var last := AfterEmitDefault(View(), env).calls;
      EmitDefault(env);
      DeliverAppend(r, first, last, sink.bound, sink.registry.parses);
    }

    /** The ungated cleanup that stop() posts. */
    method CleanUp()
      modifies this, sink.registry
      ensures View() == EMPTY_MONITOR
      ensures Reached(old(sink.registry.View()), [MonitorReset])
    {
      tracked := map[];
      defaultNetwork, defaultCaps, defaultProps, lastDefaultSent := None, None, None, None;
      ghost var r := sink.registry.View();
      sink.NetifReset();
      DeliverOne(r, MonitorReset, sink.bound, sink.registry.parses);
    }
  }
}
