/**
 What the kill switch promises over runs of the use cases, on each platform, and
 exactly when the promise is kept.
 */
module KillSwitch {
  import opened Wrappers
  import opened AppSettings
  import opened UseCases

  // ---- Where each use case leaves the world ---------------------------------

  /** The call that blocks was reached and had its effect. */
  predicate Blocks(mode: InboundMode, killSwitch: bool, c: StartCalls) {
    killSwitch && (SetsProxy(mode, c) ==> !c.proxy.threw) && CallOf(c.killSwitch).applied
  }

  /** The last call was reached and the profile stored. */
  predicate Activates(mode: InboundMode, killSwitch: bool, c: StartCalls) {
    (SetsProxy(mode, c) ==> !c.proxy.threw) && (killSwitch ==> !CallOf(c.killSwitch).threw) && c.activate.applied
  }

  predicate TurnsProxyOn(mode: InboundMode, c: StartCalls) { mode.SystemProxy? && c.hasEndpoint && c.proxy.applied }

  lemma OnceReachableLeaves(w: World, killSwitch: bool, profile: string, c: StartCalls)
    ensures var v := ApplyAll(w, EffectsOnceReachable(killSwitch, profile, c));
            var blocked := if killSwitch && CallOf(c.killSwitch).applied then Apply(w, Block(true)) else w;
            v == blocked.(active := if (killSwitch ==> !CallOf(c.killSwitch).threw) && c.activate.applied
                                    then Some(profile) else w.active)
  {
    var block := CallOf(c.killSwitch);
    var blocked := if killSwitch then Made(block, Block(true)) else [];
    var activated := if killSwitch && block.threw then [] else Made(c.activate, Activate(profile));
    ApplyAllAppend(w, blocked, activated);
    ApplyMade(w, block, Block(true));
    ApplyMade(ApplyAll(w, blocked), c.activate, Activate(profile));
  }

  lemma OnceProxiedLeaves(w: World, killSwitch: bool, profile: string, c: StartCalls)
    ensures var rest := if c.proxy.threw then [] else EffectsOnceReachable(killSwitch, profile, c);
            var proxied := w.(proxy := w.proxy || c.proxy.applied);
            ApplyAll(w, Made(c.proxy, ProxyOn) + rest) ==
            if c.proxy.threw then proxied else ApplyAll(proxied, EffectsOnceReachable(killSwitch, profile, c))
    ensures var proxied := w.(proxy := w.proxy || c.proxy.applied);
            var blocked := if killSwitch && CallOf(c.killSwitch).applied then Apply(proxied, Block(true)) else proxied;
            ApplyAll(proxied, EffectsOnceReachable(killSwitch, profile, c)) ==
            blocked.(active := if (killSwitch ==> !CallOf(c.killSwitch).threw) && c.activate.applied
                               then Some(profile) else w.active)
  {
    ApplyAllAppend(w, Made(c.proxy, ProxyOn), if c.proxy.threw then [] else EffectsOnceReachable(killSwitch, profile, c));
    ApplyMade(w, c.proxy, ProxyOn);
    OnceReachableLeaves(w.(proxy := w.proxy || c.proxy.applied), killSwitch, profile, c);
  }

  lemma OnceRunningLeaves(w: World, mode: InboundMode, killSwitch: bool, profile: string, c: StartCalls)
    ensures var v := ApplyAll(w, EffectsOnceRunning(mode, killSwitch, profile, c));
            var blocked := if Blocks(mode, killSwitch, c) then Apply(w, Block(true)) else w;
            v == blocked.(proxy := w.proxy || TurnsProxyOn(mode, c),
                          active := if Activates(mode, killSwitch, c) then Some(profile) else w.active)
  {
    if SetsProxy(mode, c) {
      OnceProxiedLeaves(w, killSwitch, profile, c);
    } else {
      OnceReachableLeaves(w, killSwitch, profile, c);
    }
  }

  predicate Raises(answer: EngineStart) { answer.Started? || answer == EngineThrew(true) }

  lemma FromEngineLeaves(w: World, answer: EngineStart, mode: InboundMode, killSwitch: bool, profile: string, c: StartCalls)
    ensures var v := ApplyAll(w, EffectsFromEngine(answer, mode, killSwitch, profile, c));
            var up := if Raises(answer) then Apply(w, EngineUp(mode)) else w;
            var torn := if answer.Refused? && c.rollback.applied then Apply(up, Teardown) else up;
            var blocked := if answer.Started? && Blocks(mode, killSwitch, c) then Apply(torn, Block(true)) else torn;
            v == blocked.(proxy := torn.proxy || (answer.Started? && TurnsProxyOn(mode, c)),
                          active := if answer.Started? && Activates(mode, killSwitch, c) then Some(profile) else w.active)
  {
    match answer
    case Started =>
      ApplyAllAppend(w, [EngineUp(mode)], EffectsOnceRunning(mode, killSwitch, profile, c));
      ApplyOne(w, EngineUp(mode));
      OnceRunningLeaves(Apply(w, EngineUp(mode)), mode, killSwitch, profile, c);
    case Refused(_) => ApplyMade(w, c.rollback, Teardown);
    case EngineThrew(_) => ApplyOne(w, EngineUp(mode));
  }

  predicate StartsEngine(w: World, c: StartCalls) {
    ReachesEngine(w.platform, c) && w.engine.Down? && Raises(c.engine)
  }

  /** The engine answered that it started. */
  predicate Runs(w: World, c: StartCalls) {
    ReachesEngine(w.platform, c) && w.engine.Down? && c.engine.Started?
  }

  /** A refusal is rolled back; while an engine runs every start that does not throw is refused. */
  predicate RollsBack(w: World, c: StartCalls) {
    && ReachesEngine(w.platform, c) && c.rollback.applied
    && if w.engine.Down? then c.engine.Refused? else !c.engine.EngineThrew?
  }

  predicate BlocksOnStart(w: World, c: StartCalls) {
    Runs(w, c) && Blocks(ModeOf(w.platform, c), w.saved, c)
  }

  /** Android: a start that drops the block: closed, rebuilt with the flag unset, or built and torn down again. */
  predicate DropsInterface(w: World, c: StartCalls) {
    w.platform.Android? && Proceeds(c) && !c.establish.Unreached?
    && (c.establish.Closed? || !w.armed || RollsBack(w, c))
  }

  /** Where a start leaves the world on Windows, whatever its calls do. */
  lemma StartOnWindows(w: World, profile: string, c: StartCalls)
    requires w.platform.Windows?
    ensures var v := After(w, Start(profile, c));
            && v.engine == (if StartsEngine(w, c) then Up(c.mode.value, w.interface) else w.engine)
            && v.block == (w.block || BlocksOnStart(w, c))
            && v.proxy == ((w.proxy && !RollsBack(w, c)) || (Runs(w, c) && TurnsProxyOn(c.mode.value, c)))
            && v.active == (if Runs(w, c) && Activates(c.mode.value, w.saved, c) then Some(profile) else w.active)
            && v == w.(engine := v.engine, block := v.block, proxy := v.proxy, active := v.active)
  {
    if Proceeds(c) {
      FromEngineLeaves(w, EngineAnswer(w.engine, c), c.mode.value, w.saved, profile, c);
    }
  }

  lemma RestOfAndroidStart(w: World, profile: string, c: StartCalls)
    requires w.platform.Android? && ReachesEngine(w.platform, c)
    ensures var answer, up := EngineAnswer(w.engine, c), Apply(w, TunnelUp);
            var v := ApplyAll(up, EffectsFromEngine(answer, Tun, w.saved, profile, c));
            && v.engine == (if Raises(answer) then Up(Tun, Some(w.built)) else w.engine)
            && v.interface == (if RollsBack(w, c) then None else Some(w.built))
            && v.block == (!RollsBack(w, c) && w.armed)
            && v.armed == (w.armed || BlocksOnStart(w, c))
            && v.saved == w.saved && v.built == w.built + 1 && v.platform == w.platform && v.proxy == w.proxy
            && v.active == (if answer.Started? && Activates(Tun, w.saved, c) then Some(profile) else w.active)
  {
    FromEngineLeaves(Apply(w, TunnelUp), EngineAnswer(w.engine, c), Tun, w.saved, profile, c);
  }

  /** Where a start leaves the world on Android, whatever its calls do. */
  lemma StartOnAndroid(w: World, profile: string, c: StartCalls)
    requires w.platform.Android?
    ensures var v := After(w, Start(profile, c));
            var reached := Proceeds(c) && !c.establish.Unreached?;
            && v.engine == (if StartsEngine(w, c) then Up(Tun, Some(w.built)) else w.engine)
            && v.interface == (if !reached then w.interface
                               else if c.establish.Closed? || RollsBack(w, c) then None else Some(w.built))
            && v.block == (if reached then !DropsInterface(w, c) else w.block)
            && v.armed == (w.armed || BlocksOnStart(w, c))
            && v.saved == w.saved && v.platform == w.platform && v.proxy == w.proxy
            && v.active == (if Runs(w, c) && Activates(Tun, w.saved, c) then Some(profile) else w.active)
            && v.built == w.built + (if reached && c.establish.Built? then 1 else 0)
  {
    if Proceeds(c) {
      var first := EstablishEffects(c.establish);
      var core := EffectsFromEngine(EngineAnswer(w.engine, c), Tun, w.saved, profile, c);
      ApplyAllAppend(w, first, if c.establish == Built(false) then core else []);
      ApplyOne(w, TunnelUp);
      ApplyOne(w, TunnelClosed);
      if c.establish == Built(false) { RestOfAndroidStart(w, profile, c); }
    }
  }

  /** What a start leaves, told apart by platform. */
  lemma StartLeaves(w: World, profile: string, c: StartCalls)
    ensures var v := After(w, Start(profile, c));
            && v.platform == w.platform && v.saved == w.saved
            && v.engine == (if StartsEngine(w, c)
                            then Up(ModeOf(w.platform, c), if w.platform.Android? then Some(w.built) else w.interface)
                            else w.engine)
            && (w.platform.Windows? ==> v.block == (w.block || BlocksOnStart(w, c)))
            && (w.platform.Android? ==>
                  v.block == (if Proceeds(c) && !c.establish.Unreached? then !DropsInterface(w, c) else w.block))
  {
    if w.platform.Windows? { StartOnWindows(w, profile, c); } else { StartOnAndroid(w, profile, c); }
  }

  lemma OnceDirectLeaves(w: World, c: StopCalls)
    ensures var v, lift := ApplyAll(w, EffectsOnceDirect(c)), CallOf(c.killSwitch);
            var lifted := if lift.applied then Apply(w, Block(false)) else w;
            v == if !lift.threw && c.teardown.applied then Apply(lifted, Teardown) else lifted
  {
    var lift := CallOf(c.killSwitch);
    ApplyAllAppend(w, Made(lift, Block(false)), if lift.threw then [] else Made(c.teardown, Teardown));
    ApplyMade(w, lift, Block(false));
    ApplyMade(ApplyAll(w, Made(lift, Block(false))), c.teardown, Teardown);
  }

  /** Where a stop leaves the world, whatever its calls do. */
  lemma StopLeaves(w: World, c: StopCalls)
    ensures var lift := CallOf(c.killSwitch);
            var down := if c.engine.applied then Apply(w, EngineDown) else w;
            var direct := if !c.engine.threw && c.proxy.applied then Apply(down, ProxyOff) else down;
            var lifts := !c.engine.threw && !c.proxy.threw;
            var lifted := if lifts && lift.applied then Apply(direct, Block(false)) else direct;
            After(w, Stop(c)) ==
            if lifts && !lift.threw && c.teardown.applied then Apply(lifted, Teardown) else lifted
  {
    ApplyAllAppend(w, Made(c.engine, EngineDown), if c.engine.threw then [] else EffectsOnceStopped(c));
    ApplyMade(w, c.engine, EngineDown);
    var down := ApplyAll(w, Made(c.engine, EngineDown));
    ApplyAllAppend(down, Made(c.proxy, ProxyOff), if c.proxy.threw then [] else EffectsOnceDirect(c));
    ApplyMade(down, c.proxy, ProxyOff);
    OnceDirectLeaves(ApplyAll(down, Made(c.proxy, ProxyOff)), c);
  }

  /** Where a toggle leaves the world, whatever its calls do. */
  lemma ToggleLeaves(w: World, enabled: bool, c: ToggleCalls)
    ensures var saved := if c.loads && c.save.applied then Apply(w, Save(enabled)) else w;
            After(w, Toggle(enabled, c)) ==
            if c.loads && !c.save.threw && w.engine.Up? && CallOf(c.killSwitch).applied then Apply(saved, Block(enabled))
            else saved
  {
    var call := CallOf(c.killSwitch);
    var applied := if !c.save.threw && w.engine.Up? then Made(call, Block(enabled)) else [];
    ApplyAllAppend(w, Made(c.save, Save(enabled)), applied);
    ApplyMade(w, c.save, Save(enabled));
    ApplyMade(ApplyAll(w, Made(c.save, Save(enabled))), call, Block(enabled));
  }

  lemma DeathLeaves(w: World)
    ensures After(w, EngineDies) == Apply(w, EngineDown) && After(w, ProcessDies) == Apply(w, ProcessGone)
  {
    ApplyOne(w, EngineDown);
    ApplyOne(w, ProcessGone);
  }

  // ---- Protection -----------------------------------------------------------

  /** A connected engine whose user wants the kill switch has it. */
  predicate Protected(w: World) { w.engine.Up? && w.saved ==> w.block }

  /**
   The steps that leave an engine running without the block its user wants.
   Windows: a start or a switch-on whose blocking call was not reached or did
   nothing. Android: any switch-on without a blocking interface, since it only sets
   the flag; a start while the flag is unset; and a second start that drops the
   interface of the first.
   */
  predicate Lapse(w: World, e: Event) {
    match e
    case Start(_, c) =>
      w.saved
      && (if w.engine.Up? then DropsInterface(w, c)
          else StartsEngine(w, c) && if w.platform.Android? then !w.armed else !w.block && !BlocksOnStart(w, c))
    case Toggle(enabled, c) =>
      enabled && w.engine.Up? && !w.block && c.loads && c.save.applied
      && !(w.platform.Windows? && !c.save.threw && CallOf(c.killSwitch).applied)
    case Stop(_) => false
    case EngineDies => false
    case ProcessDies => false
  }

  lemma StepKeepsProtection(w: World, e: Event)
    requires Protected(w)
    ensures Protected(After(w, e)) <==> !Lapse(w, e)
  {
    match e
    case Start(profile, c) => StartLeaves(w, profile, c);
    case Stop(c) => StopLeaves(w, c);
    case Toggle(enabled, c) => ToggleLeaves(w, enabled, c);
    case EngineDies => DeathLeaves(w);
    case ProcessDies => DeathLeaves(w);
  }

  ghost predicate AlwaysProtected(w: World, events: seq<Event>)
    decreases |events|
  {
    Protected(w) && (events != [] ==> AlwaysProtected(After(w, events[0]), events[1..]))
  }

  ghost predicate SomeLapse(w: World, events: seq<Event>)
    decreases |events|
  {
    events != [] && (Lapse(w, events[0]) || SomeLapse(After(w, events[0]), events[1..]))
  }

  /** In every run a connected engine is protected after every step, if and only if no step lapses. */
  lemma {:induction false} ProtectedUnlessALapse(w: World, events: seq<Event>)
    requires Protected(w)
    ensures AlwaysProtected(w, events) <==> !SomeLapse(w, events)
    decreases |events|
  {
    if events != [] {
      StepKeepsProtection(w, events[0]);
      if !Lapse(w, events[0]) { ProtectedUnlessALapse(After(w, events[0]), events[1..]); }
    }
  }

  // ---- When it is kept: Windows ---------------------------------------------

  /** A call that cannot return with nothing done: by the daemon, or by a netsh that succeeds. */
  predicate TakesOnReturn(k: KillSwitchCall) {
    var call := CallOf(k);
    call.threw || call.applied
  }

  /** Which ways of calling can return with nothing done. */
  lemma NothingDoneExactly(k: KillSwitchCall)
    ensures TakesOnReturn(k) <==> !(k.NoHelper? || (k.Inline? && k.ran == Call(false, false)))
  {
  }

  /** Nothing on the way to the block throws. */
  predicate CallsReturned(e: Event) {
    match e
    case Start(_, c) => !c.engine.EngineThrew? && !c.proxy.threw && !CallOf(c.killSwitch).threw
    case Toggle(_, c) => !c.save.threw && !CallOf(c.killSwitch).threw
    case Stop(_) => true
    case EngineDies => true
    case ProcessDies => true
  }

  predicate BlockTakesOnReturn(e: Event) {
    match e
    case Start(_, c) => TakesOnReturn(c.killSwitch)
    case Toggle(_, c) => TakesOnReturn(c.killSwitch)
    case _ => true
  }

  lemma AfterKeepsPlatform(w: World, e: Event)
    ensures After(w, e).platform == w.platform
  {
    PlatformIsKept(w, Effects(w, e));
  }

  lemma {:induction false} PlatformIsKept(w: World, effects: seq<Effect>)
    ensures ApplyAll(w, effects).platform == w.platform
    decreases |effects|
  {
    if effects != [] { PlatformIsKept(Apply(w, effects[0]), effects[1..]); }
  }

  /** On Windows, calls that return protect, provided none of them can return with nothing done. */
  lemma {:induction false} CallsThatReturnProtect(w: World, events: seq<Event>)
    requires w.platform.Windows? && Protected(w)
    requires forall e :: e in events ==> CallsReturned(e) && BlockTakesOnReturn(e)
    ensures AlwaysProtected(w, events)
    decreases |events|
  {
    if events != [] {
      assert CallsReturned(events[0]) && BlockTakesOnReturn(events[0]);
      StepKeepsProtection(w, events[0]);
      AfterKeepsPlatform(w, events[0]);
      CallsThatReturnProtect(After(w, events[0]), events[1..]);
    }
  }

  /** The process is not elevated and the daemon connects, so the call goes to the daemon. */
  predicate BlockByHelper(e: Event) {
    match e
    case Start(_, c) => c.killSwitch.Helper?
    case Toggle(_, c) => c.killSwitch.Helper?
    case _ => true
  }

  /** So a process that is not elevated and whose daemon connects is safe to trust a return. */
  lemma DaemonProtects(w: World, events: seq<Event>)
    requires w.platform.Windows? && Protected(w)
    requires forall e :: e in events ==> CallsReturned(e) && BlockByHelper(e)
    ensures AlwaysProtected(w, events)
  {
    forall e | e in events ensures BlockTakesOnReturn(e) {
      assert BlockByHelper(e);
      if e.Start? { NothingDoneExactly(e.start.killSwitch); }
      if e.Toggle? { NothingDoneExactly(e.toggle.killSwitch); }
    }
    CallsThatReturnProtect(w, events);
  }

  // ---- When it is kept: Android ---------------------------------------------

  /** On Android a connection is protected exactly if the flag was set before it was made. */
  lemma AndroidProtectsExactly(w: World, profile: string, c: StartCalls)
    requires w.platform.Android? && w.engine.Down? && w.saved && StartsEngine(w, c)
    ensures Protected(After(w, Start(profile, c))) <==> w.armed
  {
    StartLeaves(w, profile, c);
  }

  /** So the connection made after a clean disconnect, or in a new process, is not. */
  lemma AndroidReconnectIsUnprotected(w: World, before: Event, profile: string, c: StartCalls)
    requires w.platform.Android? && w.saved
    requires || before.ProcessDies?
             || (before.Stop? && !before.stop.engine.threw && !before.stop.proxy.threw && CallOf(before.stop.killSwitch).applied)
    requires StartsEngine(After(w, before), c)
    ensures !Protected(After(After(w, before), Start(profile, c)))
  {
    var v := After(w, before);
    DeathLeaves(w);
    if before.Stop? { StopLeaves(w, before.stop); }
    AndroidProtectsExactly(v, profile, c);
  }

  // ---- Runs in which it is not kept -----------------------------------------

  function Connecting(mode: InboundMode, killSwitch: KillSwitchCall): StartCalls {
    StartCalls(true, Some(mode), Some(true), Built(false), Started, false, DONE, DONE, killSwitch, DONE)
  }

  /** Switched on while disconnected, then connected, every call returning. */
  function FirstConnection(profile: string, mode: InboundMode, killSwitch: KillSwitchCall): seq<Event> {
    [Toggle(true, ToggleCalls(true, DONE, killSwitch)), Start(profile, Connecting(mode, killSwitch))]
  }

  lemma RunTwo(w: World, a: Event, b: Event)
    ensures Run(w, [a]) == After(w, a)
    ensures Run(w, [a, b]) == After(After(w, a), b)
  {
    var v := After(w, a);
    assert [a][1..] == [] && [b][1..] == [] && [a, b][1..] == [b];
    assert Run(v, [b]) == Run(After(v, b), []);
    assert Run(w, [a]) == Run(v, []);
  }

  lemma FirstConnectionLeaves(platform: Platform, profile: string, mode: InboundMode, killSwitch: KillSwitchCall)
    ensures var toggled := Installed(platform).(saved := true);
            Run(Installed(platform), FirstConnection(profile, mode, killSwitch)) ==
            After(toggled, Start(profile, Connecting(mode, killSwitch)))
  {
    var events := FirstConnection(profile, mode, killSwitch);
    ToggleLeaves(Installed(platform), true, events[0].toggle);
    assert events == [events[0], events[1]];
    RunTwo(Installed(platform), events[0], events[1]);
  }

  /** Windows: without elevation or a daemon every call returns, and nothing is blocked. */
  lemma NoHelperLeavesItUnprotected(profile: string, mode: InboundMode)
    ensures var w := Run(Installed(Windows), FirstConnection(profile, mode, NoHelper));
            w.engine == Up(mode, None) && w.saved && !w.block
    ensures forall e :: e in FirstConnection(profile, mode, NoHelper) ==> CallsReturned(e)
  {
    FirstConnectionLeaves(Windows, profile, mode, NoHelper);
    StartLeaves(Installed(Windows).(saved := true), profile, Connecting(mode, NoHelper));
  }

  /** Windows: the daemon refuses, the call throws, and the engine runs on. */
  lemma AThrowLeavesItUnprotected(profile: string, mode: InboundMode)
    ensures var w := Run(Installed(Windows), FirstConnection(profile, mode, Helper(Call(true, false))));
            w.engine == Up(mode, None) && w.saved && !w.block
    ensures forall e :: e in FirstConnection(profile, mode, Helper(Call(true, false))) ==> BlockByHelper(e)
  {
    var refusal := Helper(Call(true, false));
    FirstConnectionLeaves(Windows, profile, mode, refusal);
    StartLeaves(Installed(Windows).(saved := true), profile, Connecting(mode, refusal));
  }

  /** Android: the flag is set after the interface is built, so the first connection is not blocked. */
  lemma AndroidFirstConnectionIsUnprotected(profile: string, mode: InboundMode)
    ensures var w := Run(Installed(Android), FirstConnection(profile, mode, Channel(DONE)));
            w.engine == Up(Tun, Some(0)) && w.saved && w.armed && !w.block
    ensures forall e :: e in FirstConnection(profile, mode, Channel(DONE)) ==> CallsReturned(e)
  {
    FirstConnectionLeaves(Android, profile, mode, Channel(DONE));
    StartOnAndroid(Installed(Android).(saved := true), profile, Connecting(mode, Channel(DONE)));
  }

  /** Android: started again without a stop the connection is blocked, and the end of the process takes the block away. */
  lemma AndroidLosesTheBlock(profile: string, mode: InboundMode)
    ensures var connected := Run(Installed(Android), FirstConnection(profile, mode, Channel(DONE)));
            var again := Run(connected, [EngineDies, Start(profile, Connecting(mode, Channel(DONE)))]);
            again.engine == Up(Tun, Some(1)) && again.block && Protected(again) && !After(again, ProcessDies).block
  {
    var start := Start(profile, Connecting(mode, Channel(DONE)));
    var connected := Run(Installed(Android), FirstConnection(profile, mode, Channel(DONE)));
    FirstConnectionLeaves(Android, profile, mode, Channel(DONE));
    StartOnAndroid(Installed(Android).(saved := true), profile, start.start);
    RunTwo(connected, EngineDies, start);
    DeathLeaves(connected);
    StartOnAndroid(After(connected, EngineDies), profile, start.start);
    DeathLeaves(After(After(connected, EngineDies), start));
  }

  /** A system-proxy start that succeeds on Windows, its endpoint known and its proxy call effective, leaves the proxy on. */
  lemma SystemProxyIsSet(w: World, profile: string, c: StartCalls)
    requires w.platform.Windows? && w.engine.Down? && Proceeds(c) && c.mode == Some(SystemProxy)
    requires c.engine.Started? && c.hasEndpoint && c.proxy.applied
    ensures var v := After(w, Start(profile, c)); v.proxy && v.engine == Up(SystemProxy, w.interface)
  {
    StartOnWindows(w, profile, c);
  }

  // ---- How the block is lifted ----------------------------------------------

  /** The moment before the i-th effect of a step. */
  function Moment(w: World, e: Event, i: nat): World
    requires i <= |Effects(w, e)|
  {
    ApplyAll(w, Effects(w, e)[..i])
  }

  /** The i-th effect of the step ends a block that was in force. */
  predicate Falls(w: World, e: Event, i: nat)
    requires i < |Effects(w, e)|
  {
    Moment(w, e, i).block && !Apply(Moment(w, e, i), Effects(w, e)[i]).block
  }

  lemma {:induction false} DownIsKept(w: World, effects: seq<Effect>)
    requires w.engine.Down? && forall x :: x in effects ==> !x.EngineUp?
    ensures ApplyAll(w, effects).engine.Down?
    decreases |effects|
  {
    if effects != [] { DownIsKept(Apply(w, effects[0]), effects[1..]); }
  }

  lemma StopFallsWhenDown(w: World, c: StopCalls, i: nat)
    requires i < |StopEffects(c)| && Falls(w, Stop(c), i)
    ensures Moment(w, Stop(c), i).engine.Down?
  {
    var before := StopEffects(c)[..i];
    assert StopEffects(c)[0] == EngineDown;
    if i > 0 {
      assert forall x :: x in before[1..] ==> x in StopEffects(c);
      assert ApplyAll(w, before) == ApplyAll(Apply(w, EngineDown), before[1..]);
      DownIsKept(Apply(w, EngineDown), before[1..]);
    }
  }

  lemma ToggleFallsWhenOff(w: World, enabled: bool, c: ToggleCalls, i: nat)
    requires i < |ToggleEffects(w, enabled, c)| && Falls(w, Toggle(enabled, c), i)
    ensures !enabled && !Moment(w, Toggle(enabled, c), i).saved
  {
    assert ToggleEffects(w, enabled, c)[i] == Block(false);
    assert ToggleEffects(w, enabled, c)[..i] == Made(c.save, Save(false));
    ApplyMade(w, c.save, Save(false));
  }

  /** The effects of a Windows start; none of them ends a block. */
  predicate Harmless(x: Effect) {
    x.EngineUp? || x.ProxyOn? || x == Block(true) || x.Activate? || x.Teardown?
  }

  lemma CoreIsHarmless(answer: EngineStart, mode: InboundMode, killSwitch: bool, profile: string, c: StartCalls)
    ensures forall x :: x in EffectsFromEngine(answer, mode, killSwitch, profile, c) ==> Harmless(x)
  {
  }

  lemma WindowsStartIsHarmless(w: World, profile: string, c: StartCalls)
    requires w.platform.Windows?
    ensures forall x :: x in StartEffects(w, profile, c) ==> Harmless(x)
  {
    if Proceeds(c) { CoreIsHarmless(EngineAnswer(w.engine, c), c.mode.value, w.saved, profile, c); }
  }

  lemma HarmlessKeepsBlock(m: World, x: Effect)
    requires m.platform.Windows? && m.block && Harmless(x)
    ensures Apply(m, x).block
  {
  }

  /**
   At every moment of every step: on Windows the block is lifted only after a stop
   has brought the engine down, or by switching the preference off. On Android it
   also goes when a start replaces the interface, or the process ends.
   */
  lemma {:induction false} BlockFallsOnlySafely(w: World, e: Event, i: nat)
    requires i < |Effects(w, e)| && Falls(w, e, i)
    ensures var m := Moment(w, e, i);
            || (e.Stop? && m.engine.Down?)
            || (e.Toggle? && !e.enabled && !m.saved)
            || (w.platform.Android? && (e.Start? || e.ProcessDies?))
  {
    PlatformIsKept(w, Effects(w, e)[..i]);
    match e
    case Start(profile, c) =>
      if w.platform.Windows? {
        WindowsStartIsHarmless(w, profile, c);
        assert Effects(w, e)[i] in StartEffects(w, profile, c);
        HarmlessKeepsBlock(Moment(w, e, i), Effects(w, e)[i]);
      }
    case Stop(c) => StopFallsWhenDown(w, c, i);
    case Toggle(enabled, c) => ToggleFallsWhenOff(w, enabled, c, i);
    case EngineDies =>
    case ProcessDies =>
  }

  // ---- How long it lasts ----------------------------------------------------

  /** The user asked for the block to go. */
  predicate AsksToLift(e: Event) { e.Stop? || (e.Toggle? && !e.enabled) }

  /** The steps that drop a block nobody asked to lift: on Windows none. */
  predicate Drops(w: World, e: Event) {
    w.platform.Android? && (e.ProcessDies? || (e.Start? && DropsInterface(w, e.start)))
  }

  lemma BlockOutlivesAStep(w: World, e: Event)
    requires w.block && !AsksToLift(e)
    ensures After(w, e).block <==> !Drops(w, e)
  {
    if e.Start? { StartLeaves(w, e.profile, e.start); }
    if e.Toggle? { ToggleLeaves(w, e.enabled, e.toggle); }
    DeathLeaves(w);
  }

  ghost predicate AlwaysBlocked(w: World, events: seq<Event>)
    decreases |events|
  {
    w.block && (events != [] ==> AlwaysBlocked(After(w, events[0]), events[1..]))
  }

  ghost predicate SomeDrop(w: World, events: seq<Event>)
    decreases |events|
  {
    events != [] && (Drops(w, events[0]) || SomeDrop(After(w, events[0]), events[1..]))
  }

  /** Until the user asks, a block in force stays through a run, if and only if no step drops it. */
  lemma {:induction false} BlockStaysUnlessDropped(w: World, events: seq<Event>)
    requires w.block && forall e :: e in events ==> !AsksToLift(e)
    ensures AlwaysBlocked(w, events) <==> !SomeDrop(w, events)
    decreases |events|
  {
    if events != [] {
      assert !AsksToLift(events[0]);
      BlockOutlivesAStep(w, events[0]);
      if !Drops(w, events[0]) { BlockStaysUnlessDropped(After(w, events[0]), events[1..]); }
    }
  }

  /** On Windows it outlives engine and process deaths, failed starts and reconnects. */
  lemma {:induction false} WindowsBlockOutlivesTheEngine(w: World, events: seq<Event>)
    requires w.platform.Windows? && w.block && forall e :: e in events ==> !AsksToLift(e)
    ensures AlwaysBlocked(w, events)
    decreases |events|
  {
    if events != [] {
      assert !AsksToLift(events[0]);
      BlockOutlivesAStep(w, events[0]);
      AfterKeepsPlatform(w, events[0]);
      WindowsBlockOutlivesTheEngine(After(w, events[0]), events[1..]);
    }
  }

  // ---- Disconnecting --------------------------------------------------------

  /** Nothing of a connection is left behind. */
  predicate Clear(w: World) { w.engine.Down? && w.interface.None? && !w.proxy && !w.block && !w.armed }

  /** What the platform never uses stays unused. */
  predicate Fits(w: World) {
    && (w.platform.Windows? ==> w.interface.None? && !w.armed)
    && (w.platform.Android? ==> !w.proxy && (w.block ==> w.interface.Some?))
  }

  predicate StopReturns(c: StopCalls) {
    !c.engine.threw && !c.proxy.threw && !CallOf(c.killSwitch).threw && !c.teardown.threw
  }

  /** A stop whose calls return clears everything, exactly if each call that had something to clear took effect. */
  lemma StopClearsExactly(w: World, c: StopCalls)
    requires Fits(w) && StopReturns(c)
    ensures var lift := CallOf(c.killSwitch);
            Clear(After(w, Stop(c))) <==>
              && (w.proxy ==> c.proxy.applied || c.teardown.applied)
              && (w.armed || (w.platform.Windows? && w.block) ==> lift.applied)
              && (w.interface.Some? ==> c.teardown.applied)
  {
    StopLeaves(w, c);
  }

  lemma {:induction false} FitsIsKept(w: World, effects: seq<Effect>)
    requires Fits(w)
    requires w.platform.Windows? ==> TunnelUp !in effects
    requires w.platform.Android? ==> ProxyOn !in effects
    ensures Fits(ApplyAll(w, effects))
    decreases |effects|
  {
    if effects != [] {
      var rest := effects[1..];
      assert forall x :: x in rest ==> x in effects;
      assert effects[0] in effects;
      FitsIsKept(Apply(w, effects[0]), rest);
    }
  }

  lemma StartFits(w: World, profile: string, c: StartCalls)
    ensures w.platform.Windows? ==> TunnelUp !in StartEffects(w, profile, c)
    ensures w.platform.Android? ==> ProxyOn !in StartEffects(w, profile, c)
  {
    if w.platform.Windows? {
      WindowsStartIsHarmless(w, profile, c);
    } else if Proceeds(c) {
      assert ProxyOn !in EffectsFromEngine(EngineAnswer(w.engine, c), Tun, w.saved, profile, c);
    }
  }

  lemma EffectsFit(w: World, e: Event)
    ensures w.platform.Windows? ==> TunnelUp !in Effects(w, e)
    ensures w.platform.Android? ==> ProxyOn !in Effects(w, e)
  {
    if e.Start? { StartFits(w, e.profile, e.start); } else { OthersFit(w, e); }
  }

  lemma OthersFit(w: World, e: Event)
    requires !e.Start?
    ensures TunnelUp !in Effects(w, e) && ProxyOn !in Effects(w, e)
  {
    if e.Stop? {
      assert TunnelUp !in EffectsOnceDirect(e.stop) && ProxyOn !in EffectsOnceDirect(e.stop);
    }
  }

  /** Every reachable world fits its platform. */
  lemma {:induction false} RunFits(w: World, events: seq<Event>)
    requires Fits(w)
    ensures Fits(Run(w, events))
    decreases |events|
  {
    if events != [] {
      EffectsFit(w, events[0]);
      FitsIsKept(w, Effects(w, events[0]));
      RunFits(After(w, events[0]), events[1..]);
    }
  }

  // ---- The interface under a running engine ---------------------------------

  /** A running Android engine runs over the interface that is there; the Windows core owns its own. */
  predicate HasTunnel(w: World) {
    w.platform.Android? && w.engine.Up? ==>
      w.interface.Some? && w.engine.over == w.interface && w.engine.over.value < w.built
  }

  lemma OthersKeepTunnel(w: World, e: Event)
    requires HasTunnel(w) && !e.Start?
    ensures HasTunnel(After(w, e))
  {
    if e.Stop? { StopKeepsTunnel(w, e.stop); }
    if e.Toggle? { ToggleLeaves(w, e.enabled, e.toggle); }
    DeathLeaves(w);
  }

  lemma StopKeepsTunnel(w: World, c: StopCalls)
    requires HasTunnel(w)
    ensures HasTunnel(After(w, Stop(c)))
  {
    StopLeaves(w, c);
  }

  /**
   A step keeps the interface under a running engine, if and only if it is not a
   second start, on Android, that gets as far as the service: that start closes the
   interface of the connection that is up, whether or not it rolls back.
   */
  lemma TunnelLostExactly(w: World, e: Event)
    requires HasTunnel(w)
    ensures HasTunnel(After(w, e)) <==>
            !(e.Start? && w.platform.Android? && w.engine.Up? && Proceeds(e.start) && !e.start.establish.Unreached?)
  {
    AfterKeepsPlatform(w, e);
    if w.platform.Android? {
      if e.Start? { StartOnAndroid(w, e.profile, e.start); } else { OthersKeepTunnel(w, e); }
    }
  }

  /** It happens: connect twice on Android, every call answering. */
  lemma SecondStartLosesTheTunnel(profile: string)
    ensures var start := Start(profile, Connecting(Tun, Channel(DONE)));
            var first := Run(Installed(Android), [start]);
            var second := Run(Installed(Android), [start, start]);
            first.engine == Up(Tun, Some(0)) == second.engine && HasTunnel(first) && !HasTunnel(second)
  {
    var start := Start(profile, Connecting(Tun, Channel(DONE)));
    var w := Installed(Android);
    RunTwo(w, start, start);
    StartOnAndroid(w, profile, start.start);
    StartOnAndroid(After(w, start), profile, start.start);
  }
}
