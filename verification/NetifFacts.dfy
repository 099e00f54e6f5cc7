/**
 What the engine sees, told by the history of framework events alone: the last
 capabilities and link properties reported for a network, and the last default.
 */
module NetifFacts {
  import opened Wrappers
  import opened Netif
  import opened JniShim
  import opened NetworkMonitor
  import opened NetifSystem
  import R = NetifRegistry

  /** The tasks the present monitor has run, in order. */
  function Executed(bound: bool, es: seq<Event>, p: R.Parser): seq<Turn> {
    if es == [] then []
    else
      var before, e := es[..|es| - 1], es[|es| - 1];
      var s, past := Run(Fresh(bound), before, p), Executed(bound, before, p);
      if e.NewMonitor? then (if ThreadDone(s) then [] else past)
      else if e.Dispatch? && s.outbox == [] && s.queue != [] then
        if s.queue[0].CleanUp? then []
        else if s.stage.Alive? && CanRun(s.monitor, s.queue[0].task) then past + [Turn(s.queue[0].task, e.env)]
        else past
      else past
  }

  // ---- The last word on a network -------------------------------------------

  function LatestCaps(turns: seq<Turn>, h: Handle): Option<Caps> {
    if turns == [] then None
    else
      var task, before := turns[|turns| - 1].task, turns[..|turns| - 1];
      if task.CapsChanged? && task.h == h then Some(task.caps)
      else if task.NetworkGone? && task.h == h then None
      else LatestCaps(before, h)
  }

  function LatestProps(turns: seq<Turn>, h: Handle): Option<LinkProps> {
    if turns == [] then None
    else
      var task, before := turns[|turns| - 1].task, turns[..|turns| - 1];
      if task.PropsChanged? && task.h == h then Some(task.props)
      else if task.NetworkGone? && task.h == h then None
      else LatestProps(before, h)
  }

  function CapsOf(m: Monitor, h: Handle): Option<Caps> { Entry(m.tracked, h).caps }

  function PropsOf(m: Monitor, h: Handle): Option<LinkProps> { Entry(m.tracked, h).props }

  lemma TaskFacts(m: Monitor, task: Task, env: Env, h: Handle)
    requires CanRun(m, task)
    ensures var t := Execute(m, task, env).monitor;
            && CapsOf(t, h) == (if task.CapsChanged? && task.h == h then Some(task.caps)
                                else if task.NetworkGone? && task.h == h then None else CapsOf(m, h))
            && PropsOf(t, h) == (if task.PropsChanged? && task.h == h then Some(task.props)
                                 else if task.NetworkGone? && task.h == h then None else PropsOf(m, h))
  {
    if task.Replay? { ReplayNetworksState(m, task.order, env); }
  }

  ghost predicate FactsFit(m: Monitor, turns: seq<Turn>) {
    forall h :: CapsOf(m, h) == LatestCaps(turns, h) && PropsOf(m, h) == LatestProps(turns, h)
  }

  lemma TurnKeepsFacts(m: Monitor, turns: seq<Turn>, turn: Turn)
    requires CanRun(m, turn.task) && FactsFit(m, turns)
    ensures FactsFit(Execute(m, turn.task, turn.env).monitor, turns + [turn])
  {
    assert (turns + [turn])[..|turns|] == turns;
    forall h
      ensures var t := Execute(m, turn.task, turn.env).monitor;
              CapsOf(t, h) == LatestCaps(turns + [turn], h) && PropsOf(t, h) == LatestProps(turns + [turn], h)
    {
      TaskFacts(m, turn.task, turn.env, h);
    }
  }

  /** In every run the monitor holds exactly the last capabilities and properties of each network. */
  lemma {:induction false} FactsAreTheLatest(bound: bool, es: seq<Event>, p: R.Parser)
    ensures FactsFit(Run(Fresh(bound), es, p).monitor, Executed(bound, es, p))
  {
    if es != [] {
      var before, e := es[..|es| - 1], es[|es| - 1];
      FactsAreTheLatest(bound, before, p);
      var s, past := Run(Fresh(bound), before, p), Executed(bound, before, p);
      if e.Dispatch? && s.outbox == [] && s.queue != [] && s.queue[0].Gated? && s.stage.Alive? && CanRun(s.monitor, s.queue[0].task) {
        TurnKeepsFacts(s.monitor, past, Turn(s.queue[0].task, e.env));
      }
    }
  }

  // ---- What is announced is current -----------------------------------------

  ghost predicate EntryCurrent(h: Handle, t: Tracked) {
    Buildable(t) ==> exists env :: t.lastSent == Some(SnapshotOf(h, t, env))
  }

  /** Every network that can be announced is, as it is now. */
  ghost predicate NetworksCurrent(m: Monitor) {
    forall h :: h in m.tracked ==> EntryCurrent(h, m.tracked[h])
  }

  lemma TaskKeepsCurrent(m: Monitor, task: Task, env: Env)
    requires CanRun(m, task) && NetworksCurrent(m)
    ensures NetworksCurrent(Execute(m, task, env).monitor)
  {
    var t := Execute(m, task, env).monitor;
    if task.Replay? { ReplayNetworksState(m, task.order, env); }
    forall h | h in t.tracked ensures EntryCurrent(h, t.tracked[h]) {
      if h in m.tracked { assert EntryCurrent(h, m.tracked[h]); }
      if Buildable(t.tracked[h]) && t.tracked[h].lastSent != Some(SnapshotOf(h, t.tracked[h], env)) {
        assert h in m.tracked && t.tracked[h] == m.tracked[h];
      }
    }
  }

  lemma {:induction false} AnnouncementsAreCurrent(bound: bool, es: seq<Event>, p: R.Parser)
    ensures NetworksCurrent(Run(Fresh(bound), es, p).monitor)
  {
    if es != [] {
      var before, e := es[..|es| - 1], es[|es| - 1];
      AnnouncementsAreCurrent(bound, before, p);
      var s := Run(Fresh(bound), before, p);
      if e.Dispatch? && s.outbox == [] && s.queue != [] && s.queue[0].Gated? && s.stage.Alive? && CanRun(s.monitor, s.queue[0].task) {
        TaskKeepsCurrent(s.monitor, s.queue[0].task, e.env);
      }
    }
  }

  predicate Usable(caps: Option<Caps>, props: Option<LinkProps>) {
    caps.Some? && props.Some? && TransportVpn !in caps.value.transports && props.value.ifName.Some?
  }

  /**
   From event history to engine: between tasks, from the first replay completed after
   binding on, every network whose last reported capabilities and properties are
   complete is in the registry, built from exactly those.
   */
  lemma {:induction false} TheEngineSeesTheLatestFacts(bound: bool, es: seq<Event>, h: Handle, p: R.Parser)
    ensures var s, turns := Run(Fresh(bound), es, p), Executed(bound, es, p);
            var caps, props := LatestCaps(turns, h), LatestProps(turns, h);
            s.synced && s.outbox == [] && Usable(caps, props) ==>
              && h in s.registry.ifaces
              && exists env :: s.registry.ifaces[h] == BuildInterface(BuildSnapshot(h, caps.value, props.value, env).value, p)
  {
    var s, turns := Run(Fresh(bound), es, p), Executed(bound, es, p);
    FactsAreTheLatest(bound, es, p);
    AnnouncementsAreCurrent(bound, es, p);
    NothingAnnouncedIsMissing(bound, es, p);
    assert CapsOf(s.monitor, h) == LatestCaps(turns, h) && PropsOf(s.monitor, h) == LatestProps(turns, h);
    if s.synced && s.outbox == [] && Usable(LatestCaps(turns, h), LatestProps(turns, h)) {
      var t := s.monitor.tracked[h];
      assert EntryCurrent(h, t);
      assert h in AnnouncedView(s.monitor, p);
      var env :| t.lastSent == Some(SnapshotOf(h, t, env));
      assert s.registry.ifaces[h] == BuildInterface(BuildSnapshot(h, t.caps.value, t.props.value, env).value, p);
    }
  }

  /** And in replay-safe runs it shows no network without reported capabilities and properties. */
  lemma {:induction false} TheEngineShowsOnlyTheReported(bound: bool, es: seq<Event>, h: Handle, p: R.Parser)
    requires ReplaySafe(Fresh(bound), es, p)
    ensures var s, turns := Run(Fresh(bound), es, p), Executed(bound, es, p);
            s.outbox == [] && h in s.registry.ifaces ==> LatestCaps(turns, h).Some? && LatestProps(turns, h).Some?
  {
    var s, turns := Run(Fresh(bound), es, p), Executed(bound, es, p);
    FactsAreTheLatest(bound, es, p);
    RegistryShowsOnlyTheAnnounced(bound, es, p);
    AnnouncedWereComplete(bound, es, p);
    assert CapsOf(s.monitor, h) == LatestCaps(turns, h) && PropsOf(s.monitor, h) == LatestProps(turns, h);
    if s.outbox == [] && h in s.registry.ifaces { assert h in AnnouncedView(s.monitor, p); }
  }

  /** Only networks with both halves are ever announced. */
  ghost predicate AnnouncedComplete(m: Monitor) {
    forall h :: h in m.tracked && m.tracked[h].lastSent.Some? ==> m.tracked[h].caps.Some? && m.tracked[h].props.Some?
  }

  lemma TaskKeepsComplete(m: Monitor, task: Task, env: Env)
    requires CanRun(m, task) && AnnouncedComplete(m)
    ensures AnnouncedComplete(Execute(m, task, env).monitor)
  {
    if task.Replay? { ReplayNetworksState(m, task.order, env); }
  }

  lemma {:induction false} AnnouncedWereComplete(bound: bool, es: seq<Event>, p: R.Parser)
    ensures AnnouncedComplete(Run(Fresh(bound), es, p).monitor)
  {
    if es != [] {
      var before, e := es[..|es| - 1], es[|es| - 1];
      AnnouncedWereComplete(bound, before, p);
      var s := Run(Fresh(bound), before, p);
      if e.Dispatch? && s.outbox == [] && s.queue != [] && s.queue[0].Gated? && s.stage.Alive? && CanRun(s.monitor, s.queue[0].task) {
        TaskKeepsComplete(s.monitor, s.queue[0].task, e.env);
      }
    }
  }

  // ---- The default ----------------------------------------------------------

  /** A default network, with the halves reported for it since it became the default. */
  datatype Best = Best(h: Handle, caps: Option<Caps>, props: Option<LinkProps>)

  /** The last word on the default: what is said of any other network does not count. */
  function LatestDefault(turns: seq<Turn>): Option<Best> {
    if turns == [] then None
    else
      var task, past := turns[|turns| - 1].task, LatestDefault(turns[..|turns| - 1]);
      match task
      case DefaultAvailable(h, caps, props) => Some(Best(h, caps, props))
      case DefaultUnavailable => None
      case DefaultLost(h) => if past.Some? && past.value.h == h then None else past
      case DefaultCapsChanged(h, caps) =>
        if past.Some? && past.value.h == h then Some(past.value.(caps := Some(caps))) else past
      case DefaultPropsChanged(h, props) =>
        if past.Some? && past.value.h == h then Some(past.value.(props := Some(props))) else past
      case _ => past
  }

  predicate DefaultFits(m: Monitor, best: Option<Best>) {
    if best.None? then m.defaultNetwork.None?
    else m.defaultNetwork == Some(best.value.h) && m.defaultCaps == best.value.caps && m.defaultProps == best.value.props
  }

  ghost predicate DefaultCurrent(m: Monitor) {
    DefaultNamed(m) ==> exists env :: m.lastDefaultSent == DefaultSnapshotOf(m, env)
  }

  lemma TaskKeepsDefaultFit(m: Monitor, turns: seq<Turn>, turn: Turn)
    requires CanRun(m, turn.task) && DefaultFits(m, LatestDefault(turns))
    ensures DefaultFits(Execute(m, turn.task, turn.env).monitor, LatestDefault(turns + [turn]))
  {
    assert (turns + [turn])[..|turns|] == turns;
    if turn.task.Replay? { ReplayNetworksState(m, turn.task.order, turn.env); }
  }

  /** What was last sent stays a snapshot of the default, or is replaced by a new one. */
  lemma TaskKeepsDefaultCurrent(m: Monitor, task: Task, env: Env)
    requires CanRun(m, task) && DefaultCurrent(m)
    ensures DefaultCurrent(Execute(m, task, env).monitor)
  {
    var t := Execute(m, task, env).monitor;
    if task.Replay? { ReplayNetworksState(m, task.order, env); }
    if DefaultNamed(t) && t.lastDefaultSent != DefaultSnapshotOf(t, env) {
      var sent :| m.lastDefaultSent == DefaultSnapshotOf(m, sent);
      assert DefaultSnapshotOf(t, sent) == DefaultSnapshotOf(m, sent);
    }
  }

  /** In every run the default last sent is the last one reported, as it is now. */
  lemma {:induction false} DefaultIsTheLatest(bound: bool, es: seq<Event>, p: R.Parser)
    ensures var m := Run(Fresh(bound), es, p).monitor;
            DefaultFits(m, LatestDefault(Executed(bound, es, p))) && DefaultCurrent(m)
  {
    if es != [] {
      var before, e := es[..|es| - 1], es[|es| - 1];
      DefaultIsTheLatest(bound, before, p);
      var s, past := Run(Fresh(bound), before, p), Executed(bound, before, p);
      if e.Dispatch? && s.outbox == [] && s.queue != [] && s.queue[0].Gated? && s.stage.Alive? && CanRun(s.monitor, s.queue[0].task) {
        TaskKeepsDefaultFit(s.monitor, past, Turn(s.queue[0].task, e.env));
        TaskKeepsDefaultCurrent(s.monitor, s.queue[0].task, e.env);
      }
    }
  }

  /**
   The default snapshot last sent for a reported default with a name: its handle, its
   name, the system's index for that name, and the flags of its capabilities.
   */
  lemma {:induction false} SentDefaultByValue(bound: bool, es: seq<Event>, p: R.Parser)
    ensures var m, best := Run(Fresh(bound), es, p).monitor, LatestDefault(Executed(bound, es, p));
            best.Some? && best.value.props.Some? && best.value.props.value.ifName.Some? ==>
              && m.lastDefaultSent.Some?
              && var d, name := m.lastDefaultSent.value, best.value.props.value.ifName.value;
                 && d.handle == best.value.h && d.ifName == name
                 && exists env: Env ::
                      && d.ifIndex == (if name in env.interfaces then env.interfaces[name].index else -1)
                      && d.flags == (if best.value.caps.Some? then FlagsOf(best.value.caps.value, env.sdk) else 0)
  {
    DefaultIsTheLatest(bound, es, p);
    var m := Run(Fresh(bound), es, p).monitor;
    if DefaultNamed(m) { var env :| m.lastDefaultSent == DefaultSnapshotOf(m, env); }
  }
}
