/**
 Deduplication against its absence: the same monitor, except that every candidate
 snapshot is sent whether or not it differs from the last one. On a bound shim
 the engine's interface table cannot tell the two apart.
 */
module NetifDedupe {
  import opened Wrappers
  import opened Netif
  import opened JniShim
  import opened NetworkMonitor
  import opened NetifSystem
  import R = NetifRegistry

  // ---- The monitor without deduplication ------------------------------------

  function EmitAlways(m: Monitor, h: Handle, env: Env): Effect
    requires h in m.tracked
  {
    var t := m.tracked[h];
    if !Buildable(t) then Effect(m, [])
    else
      var s := SnapshotOf(h, t, env);
      Effect(m.(tracked := m.tracked[h := t.(lastSent := Some(s))]), [NetworkUpdate(s)])
  }

  function SendDefaultAlways(m: Monitor, d: DefaultSnapshot): Effect {
    Effect(m.(lastDefaultSent := Some(d)), [DefaultChanged(d)])
  }

  function EmitDefaultAlways(m: Monitor, env: Env): Effect {
    var d := DefaultSnapshotOf(m, env);
    if d.None? then Effect(m, []) else SendDefaultAlways(m, d.value)
  }

  function ClearDefaultAlways(m: Monitor): Effect {
    SendDefaultAlways(m.(defaultNetwork := None, defaultCaps := None, defaultProps := None), NO_DEFAULT)
  }

  /** Like Execute; a replay already ignores what was sent before. */
  function ExecuteAlways(m: Monitor, task: Task, env: Env): Effect
    requires CanRun(m, task)
  {
    match task
    case CapsChanged(h, caps) =>
      EmitAlways(m.(tracked := m.tracked[h := Entry(m.tracked, h).(caps := Some(caps))]), h, env)
    case PropsChanged(h, props) =>
      EmitAlways(m.(tracked := m.tracked[h := Entry(m.tracked, h).(props := Some(props))]), h, env)
    case DefaultAvailable(h, caps, props) =>
      EmitDefaultAlways(m.(defaultNetwork := Some(h), defaultCaps := caps, defaultProps := props), env)
    case DefaultCapsChanged(h, caps) =>
      if m.defaultNetwork == Some(h) then EmitDefaultAlways(m.(defaultCaps := Some(caps)), env) else Effect(m, [])
    case DefaultPropsChanged(h, props) =>
      if m.defaultNetwork == Some(h) then EmitDefaultAlways(m.(defaultProps := Some(props)), env) else Effect(m, [])
    case DefaultLost(h) => if m.defaultNetwork == Some(h) then ClearDefaultAlways(m) else Effect(m, [])
    case DefaultUnavailable => ClearDefaultAlways(m)
    case Available(_) => Execute(m, task, env)
    case NetworkGone(_) => Execute(m, task, env)
    case Replay(_) => Execute(m, task, env)
  }

  // ---- Runs on a bound shim -------------------------------------------------

  /** The deduplicating monitor, each task completed before the next. */
  function RunTurns(s: System, turns: seq<Turn>, p: R.Parser): System {
    if turns == [] then s
    else
      var before, turn := RunTurns(s, turns[..|turns| - 1], p), turns[|turns| - 1];
      if CanRun(before.monitor, turn.task) then PassAll(RunTask(before, turn.task, turn.env), p) else before
  }

  datatype Pair = Pair(monitor: Monitor, registry: R.Registry)

  function RunAlways(start: Pair, turns: seq<Turn>, p: R.Parser): Pair {
    if turns == [] then start
    else
      var before, turn := RunAlways(start, turns[..|turns| - 1], p), turns[|turns| - 1];
      if !CanRun(before.monitor, turn.task) then before
      else
        var e := ExecuteAlways(before.monitor, turn.task, turn.env);
        Pair(e.monitor, DeliverAll(before.registry, e.calls, true, p))
  }

  // ---- They agree on the interface table ------------------------------------

  lemma {:induction false} SameTableIn(r: R.Registry, q: R.Registry, calls: seq<Downcall>, p: R.Parser)
    requires r.ifaces == q.ifaces
    ensures DeliverAll(r, calls, true, p).ifaces == DeliverAll(q, calls, true, p).ifaces
    decreases |calls|
  {
    if calls != [] { SameTableIn(Deliver(r, calls[0], true, p), Deliver(q, calls[0], true, p), calls[1..], p); }
  }

  /** Without deduplication a task ends in the same monitor, and sends at most a repeat more. */
  lemma ExtraCallsAreRepeats(m: Monitor, task: Task, env: Env)
    requires CanRun(m, task)
    ensures var e, a := Execute(m, task, env), ExecuteAlways(m, task, env);
            && a.monitor == e.monitor
            && (a.calls == e.calls
                || (e.calls == [] && |a.calls| == 1 && a.calls[0].DefaultChanged?
                    && m.lastDefaultSent == Some(a.calls[0].d))
                || (e.calls == [] && |a.calls| == 1 && a.calls[0].NetworkUpdate?
                    && LastSent(e.monitor, a.calls[0].s.handle) == Some(a.calls[0].s)))
  {
    match task
    case CapsChanged(h, caps) => RepeatOrSame(m.(tracked := m.tracked[h := Entry(m.tracked, h).(caps := Some(caps))]), h, env);
    case PropsChanged(h, props) => RepeatOrSame(m.(tracked := m.tracked[h := Entry(m.tracked, h).(props := Some(props))]), h, env);
    case DefaultAvailable(_, _, _) =>
    case DefaultCapsChanged(_, _) =>
    case DefaultPropsChanged(_, _) =>
    case DefaultLost(_) =>
    case DefaultUnavailable =>
    case Available(_) =>
    case NetworkGone(_) =>
    case Replay(_) =>
  }

  lemma RepeatOrSame(m: Monitor, h: Handle, env: Env)
    requires h in m.tracked
    ensures var e, a := AfterEmitIfComplete(m, h, env), EmitAlways(m, h, env);
            && a.monitor == e.monitor
            && (a.calls == e.calls
                || (e.calls == [] && |a.calls| == 1 && a.calls[0].NetworkUpdate?
                    && LastSent(e.monitor, a.calls[0].s.handle) == Some(a.calls[0].s)))
  {
    var t := m.tracked[h];
    if Buildable(t) && t.lastSent == Some(SnapshotOf(h, t, env)) {
      assert t.(lastSent := Some(SnapshotOf(h, t, env))) == t;
      assert m.tracked[h := t] == m.tracked;
    }
  }

  /** What the deduplicating system is between two tasks. */
  ghost predicate Ready(s: System, p: R.Parser) {
    Inv(s, p) && s.bound && s.synced && s.stage.Alive? && s.outbox == []
  }

  lemma TurnKeepsReady(s: System, turn: Turn, p: R.Parser)
    requires Ready(s, p) && CanRun(s.monitor, turn.task)
    ensures Ready(PassAll(RunTask(s, turn.task, turn.env), p), p)
  {
    var u := RunTask(s, turn.task, turn.env);
    TaskKeepsInv(s, turn.task, turn.env, p);
    PassAllKeeps(u, p);
    PassAllDelivers(u, p);
  }

  lemma TurnKeepsTable(s: System, q: R.Registry, turn: Turn, p: R.Parser)
    requires Ready(s, p) && CanRun(s.monitor, turn.task) && s.registry.ifaces == q.ifaces
    ensures var t := PassAll(RunTask(s, turn.task, turn.env), p);
            var a := ExecuteAlways(s.monitor, turn.task, turn.env);
            t.monitor == a.monitor && t.registry.ifaces == DeliverAll(q, a.calls, true, p).ifaces
  {
    var u := RunTask(s, turn.task, turn.env);
    var t := PassAll(u, p);
    var a := ExecuteAlways(s.monitor, turn.task, turn.env);
    ExtraCallsAreRepeats(s.monitor, turn.task, turn.env);
    PassAllDelivers(u, p);
    SameTableIn(s.registry, q, a.calls, p);
    if a.calls != u.outbox {
      TurnKeepsReady(s, turn, p);
      DeliverOne(s.registry, a.calls[0], true, p);
      if a.calls[0].NetworkUpdate? { RepeatChangesNothing(t, a.calls[0].s, p); }
    }
  }

  /** Sending again what the registry already holds writes the value that is there. */
  lemma RepeatChangesNothing(t: System, x: Snapshot, p: R.Parser)
    requires Ready(t, p) && LastSent(t.monitor, x.handle) == Some(x)
    ensures Deliver(t.registry, NetworkUpdate(x), true, p).ifaces == t.registry.ifaces
  {
    assert Holds(t, x.handle, p);
  }

  /** For every event sequence on a bound shim, both streams leave the same interface table. */
  lemma {:induction false} DedupeIsInvisible(turns: seq<Turn>, p: R.Parser)
    ensures var s := RunTurns(Fresh(true), turns, p);
            var a := RunAlways(Pair(EMPTY_MONITOR, R.EMPTY_REGISTRY), turns, p);
            Ready(s, p) && s.monitor == a.monitor && s.registry.ifaces == a.registry.ifaces
  {
    if turns == [] {
      RunKeepsInv(true, [], p);
    } else {
      var before, turn := turns[..|turns| - 1], turns[|turns| - 1];
      DedupeIsInvisible(before, p);
      var s := RunTurns(Fresh(true), before, p);
      if CanRun(s.monitor, turn.task) {
        TurnKeepsReady(s, turn, p);
        TurnKeepsTable(s, RunAlways(Pair(EMPTY_MONITOR, R.EMPTY_REGISTRY), before, p).registry, turn, p);
      }
    }
  }
}
