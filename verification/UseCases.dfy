/**
 Connect, disconnect and the kill-switch toggle as runs of effects on the engine,
 the OS and the saved settings, on both platforms. An awaited call may return or
 throw, and either way its effect may or may not have taken place.
 */
module UseCases {
  import opened Wrappers
  import opened AppSettings

  datatype Platform = Android | Windows

  /** `over` is the VpnService interface the engine was handed; the Windows core owns its adapter itself. */
  datatype Engine = Down | Up(mode: InboundMode, over: Option<nat>)

  /**
   `block` is the OS kill switch in force and `saved` its stored preference. On
   Windows the block is a firewall policy. On Android it is a property of the
   interface, fixed when that is built from the flag `armed`; interfaces are
   numbered in the order they are built.
   */
  datatype World = World(
    platform: Platform, engine: Engine, interface: Option<nat>, built: nat, proxy: bool,
    armed: bool, block: bool, saved: bool, active: Option<string>)

  datatype Effect =
    | TunnelUp              // Android: a new interface replaces whichever was there
    | TunnelClosed          // Android: the old interface is closed and no new one came
    | EngineUp(mode: InboundMode)
    | EngineDown
    | ProxyOn
    | ProxyOff
    | Block(on: bool)
    | Teardown
    | Save(killSwitch: bool)
    | Activate(profile: string)
    | ProcessGone

  function Apply(w: World, e: Effect): World {
    match e
    case TunnelUp => w.(interface := Some(w.built), built := w.built + 1, block := w.armed)
    case TunnelClosed => w.(interface := None, block := false)
    case EngineUp(mode) => w.(engine := Up(mode, w.interface))
    case EngineDown => w.(engine := Down)
    case ProxyOn => w.(proxy := true)
    case ProxyOff => w.(proxy := false)
    case Block(on) => if w.platform.Android? then w.(armed := on) else w.(block := on)
    case Teardown => if w.platform.Android? then w.(interface := None, block := false) else w.(proxy := false)
    case Save(killSwitch) => w.(saved := killSwitch)
    case Activate(profile) => w.(active := Some(profile))
    case ProcessGone =>
      if w.platform.Android? then w.(engine := Down, interface := None, armed := false, block := false)
      else w.(engine := Down)
  }

  function ApplyAll(w: World, effects: seq<Effect>): World
    decreases |effects|
  {
    if effects == [] then w else ApplyAll(Apply(w, effects[0]), effects[1..])
  }

  // ---- Calls and their outcomes ---------------------------------------------

  /** How an awaited call ends, and whether its effect took place. */
  datatype Call = Call(threw: bool, applied: bool)

  /** A call that has done its work if it returns. */
  type SureCall = c: Call | c.threw || c.applied witness Call(false, true)

  const DONE: SureCall := Call(false, true)

  function Made(c: Call, e: Effect): seq<Effect> { if c.applied then [e] else [] }

  /** How one setKillSwitch call finds its way to the OS. */
  datatype KillSwitchCall =
    | NoHelper                // Windows, not elevated, no daemon to connect to: returns with nothing done
    | Helper(answer: SureCall) // Windows, not elevated: the daemon answers, and an error answer throws
    | Inline(ran: Call)        // Windows, elevated: netsh, whose exit code nobody looks at
    | Channel(answer: SureCall) // Android: the flag

  function CallOf(k: KillSwitchCall): Call {
    match k
    case NoHelper => Call(false, false)
    case Helper(answer) => answer
    case Inline(ran) => ran
    case Channel(answer) => answer
  }

  /** Android: the service closes the old interface before it builds the new one. */
  datatype Establish = Built(threw: bool) | Closed | Unreached

  datatype EngineStart = Started | Refused(error: string) | EngineThrew(started: bool)

  /** None for a query that throws. */
  datatype StartCalls = StartCalls(
    loads: bool, mode: Option<InboundMode>, prepared: Option<bool>, establish: Establish, engine: EngineStart,
    hasEndpoint: bool, rollback: Call, proxy: Call, killSwitch: KillSwitchCall, activate: SureCall)

  datatype StopCalls = StopCalls(engine: SureCall, proxy: Call, killSwitch: KillSwitchCall, teardown: Call)

  datatype ToggleCalls = ToggleCalls(loads: bool, save: SureCall, killSwitch: KillSwitchCall)

  /** EngineDies leaves the app alive; ProcessDies takes the engine, which runs inside it, along. */
  datatype Event =
    | Start(profile: string, start: StartCalls)
    | Stop(stop: StopCalls)
    | Toggle(enabled: bool, toggle: ToggleCalls)
    | EngineDies
    | ProcessDies

  datatype Outcome = Success(mode: InboundMode) | Failure(error: string) | Thrown

  const PERMISSION_DENIED := "VPN permission was denied"
  const ALREADY_RUNNING := "engine already running"

  // ---- What each use case does ----------------------------------------------

  /** A running engine refuses; a throw before the core is reached can still come first. */
  function EngineAnswer(engine: Engine, c: StartCalls): EngineStart {
    if engine.Down? then c.engine
    else if c.engine.EngineThrew? then EngineThrew(false)
    else Refused(ALREADY_RUNNING)
  }

  /** Android always tunnels. */
  function ModeOf(platform: Platform, c: StartCalls): InboundMode
    requires c.mode.Some?
  {
    if platform.Android? then Tun else c.mode.value
  }

  /** The queries before any effect all answered, with permission. */
  predicate Proceeds(c: StartCalls) {
    c.loads && c.mode.Some? && c.prepared == Some(true)
  }

  predicate ReachesEngine(platform: Platform, c: StartCalls) {
    Proceeds(c) && (platform.Android? ==> c.establish == Built(false))
  }

  predicate SetsProxy(mode: InboundMode, c: StartCalls) { mode.SystemProxy? && c.hasEndpoint }

  function EffectsOnceReachable(killSwitch: bool, profile: string, c: StartCalls): seq<Effect> {
    var block := CallOf(c.killSwitch);
    (if killSwitch then Made(block, Block(true)) else [])
    + if killSwitch && block.threw then [] else Made(c.activate, Activate(profile))
  }

  function EffectsOnceRunning(mode: InboundMode, killSwitch: bool, profile: string, c: StartCalls): seq<Effect> {
    if !SetsProxy(mode, c) then EffectsOnceReachable(killSwitch, profile, c)
    else Made(c.proxy, ProxyOn) + if c.proxy.threw then [] else EffectsOnceReachable(killSwitch, profile, c)
  }

  function EffectsFromEngine(answer: EngineStart, mode: InboundMode, killSwitch: bool, profile: string, c: StartCalls)
    : seq<Effect>
  {
    match answer
    case Started => [EngineUp(mode)] + EffectsOnceRunning(mode, killSwitch, profile, c)
    case Refused(_) => Made(c.rollback, Teardown)
    case EngineThrew(started) => if started then [EngineUp(mode)] else []
  }

  function EstablishEffects(e: Establish): seq<Effect> {
    match e
    case Built(_) => [TunnelUp]
    case Closed => [TunnelClosed]
    case Unreached => []
  }

  /** The Windows establishTun does nothing. */
  function StartEffects(w: World, profile: string, c: StartCalls): seq<Effect> {
    if !Proceeds(c) then []
    else
      var core := EffectsFromEngine(EngineAnswer(w.engine, c), ModeOf(w.platform, c), w.saved, profile, c);
      if w.platform.Windows? then core
      else EstablishEffects(c.establish) + if c.establish == Built(false) then core else []
  }

  /** No call after the engine's start throws. */
  predicate Finishes(mode: InboundMode, killSwitch: bool, c: StartCalls) {
    (SetsProxy(mode, c) ==> !c.proxy.threw) && (killSwitch ==> !CallOf(c.killSwitch).threw) && !c.activate.threw
  }

  function EffectsOnceDirect(c: StopCalls): seq<Effect> {
    var lift := CallOf(c.killSwitch);
    Made(lift, Block(false)) + if lift.threw then [] else Made(c.teardown, Teardown)
  }

  function EffectsOnceStopped(c: StopCalls): seq<Effect> {
    Made(c.proxy, ProxyOff) + if c.proxy.threw then [] else EffectsOnceDirect(c)
  }

  function StopEffects(c: StopCalls): seq<Effect> {
    Made(c.engine, EngineDown) + if c.engine.threw then [] else EffectsOnceStopped(c)
  }

  function ToggleEffects(w: World, enabled: bool, c: ToggleCalls): seq<Effect> {
    if !c.loads then [] else
      Made(c.save, Save(enabled))
      + if !c.save.threw && w.engine.Up? then Made(CallOf(c.killSwitch), Block(enabled)) else []
  }

  function Effects(w: World, e: Event): seq<Effect> {
    match e
    case Start(profile, calls) => StartEffects(w, profile, calls)
    case Stop(calls) => StopEffects(calls)
    case Toggle(enabled, calls) => ToggleEffects(w, enabled, calls)
    case EngineDies => [EngineDown]
    case ProcessDies => [ProcessGone]
  }

  function After(w: World, e: Event): World { ApplyAll(w, Effects(w, e)) }

  function Run(w: World, events: seq<Event>): World
    decreases |events|
  {
    if events == [] then w else Run(After(w, events[0]), events[1..])
  }

  function Installed(platform: Platform): World {
    World(platform, Down, None, 0, false, false, false, false, None)
  }

  lemma {:induction false} ApplyAllAppend(w: World, a: seq<Effect>, b: seq<Effect>)
    ensures ApplyAll(w, a + b) == ApplyAll(ApplyAll(w, a), b)
    decreases |a|
  {
    if a == [] {
      assert a + b == b;
    } else {
      assert (a + b)[1..] == a[1..] + b;
      ApplyAllAppend(Apply(w, a[0]), a[1..], b);
    }
  }

  lemma ApplyOne(w: World, e: Effect)
    ensures ApplyAll(w, [e]) == Apply(w, e)
  {
    assert [e][1..] == [];
  }

  lemma ApplyMade(w: World, c: Call, e: Effect)
    ensures ApplyAll(w, Made(c, e)) == if c.applied then Apply(w, e) else w
  {
    ApplyOne(w, e);
  }

  // ---- The use cases --------------------------------------------------------

  /** The three use cases over one engine, platform and settings store; `log` is everything they did. */
  class Connection {
    const platform: Platform
    var engine: Engine
    var interface: Option<nat>
    var built: nat
    var proxy: bool
    var armed: bool
    var block: bool
    var saved: bool
    var active: Option<string>
    ghost var log: seq<Effect>

    function State(): World
      reads this
    {
      World(platform, engine, interface, built, proxy, armed, block, saved, active)
    }

    ghost predicate Valid()
      reads this
    {
      State() == ApplyAll(Installed(platform), log)
    }

    constructor (platform: Platform)
      ensures this.platform == platform && State() == Installed(platform) && log == [] && Valid()
    {
      this.platform := platform;
      engine, interface, built, proxy, armed, block, saved, active := Down, None, 0, false, false, false, false, None;
      log := [];
    }

    /** One effect on the outside world. */
    method Perform(e: Effect)
      requires Valid()
      modifies this
      ensures Valid()
      ensures log == old(log) + [e]
      ensures State() == Apply(old(State()), e)
    {
      ApplyAllAppend(Installed(platform), log, [e]);
      ApplyOne(State(), e);
      match e {
        case TunnelUp => interface, built, block := Some(built), built + 1, armed;
        case TunnelClosed => interface, block := None, false;
        case EngineUp(mode) => engine := Up(mode, interface);
        case EngineDown => engine := Down;
        case ProxyOn => proxy := true;
        case ProxyOff => proxy := false;
        case Block(on) => if platform.Android? { armed := on; } else { block := on; }
        case Teardown => if platform.Android? { interface, block := None, false; } else { proxy := false; }
        case Save(killSwitch) => saved := killSwitch;
        case Activate(profile) => active := Some(profile);
        case ProcessGone =>
          engine := Down;
          if platform.Android? { interface, armed, block := None, false, false; }
      }
      log := log + [e];
    }

    /** One awaited call. */
    method Await(c: Call, e: Effect) returns (threw: bool)
      requires Valid()
      modifies this
      ensures Valid()
      ensures log == old(log) + Made(c, e)
      ensures State() == if c.applied then Apply(old(State()), e) else old(State())
      ensures threw == c.threw
    {
      if c.applied { Perform(e); }
      threw := c.threw;
    }

    method EstablishTun(e: Establish) returns (threw: bool)
      requires Valid() && platform.Android?
      modifies this
      ensures Valid()
      ensures log == old(log) + EstablishEffects(e)
      ensures threw == (e != Built(false))
      ensures engine == old(engine) && saved == old(saved)
      ensures !threw ==> interface == Some(old(built)) && block == old(armed)
    {
      match e {
        case Built(_) => Perform(TunnelUp);
        case Closed => Perform(TunnelClosed);
        case Unreached =>
      }
      threw := e != Built(false);
    }

    method OnceReachable(killSwitch: bool, profile: string, c: StartCalls) returns (threw: bool)
      requires Valid()
      modifies this
      ensures Valid()
      ensures log == old(log) + EffectsOnceReachable(killSwitch, profile, c)
      ensures !threw <==> (killSwitch ==> !CallOf(c.killSwitch).threw) && !c.activate.threw
      ensures !threw ==> active == Some(profile)
      ensures engine == old(engine)
    {
      if killSwitch {
        threw := Await(CallOf(c.killSwitch), Block(true));
        if threw { return; }
      }
      threw := Await(c.activate, Activate(profile));
    }

    /** The steps of a start that follow a running engine. */
    method OnceRunning(mode: InboundMode, killSwitch: bool, profile: string, c: StartCalls) returns (threw: bool)
      requires Valid()
      modifies this
      ensures Valid()
      ensures log == old(log) + EffectsOnceRunning(mode, killSwitch, profile, c)
      ensures !threw <==> Finishes(mode, killSwitch, c)
      ensures !threw ==> active == Some(profile)
      ensures engine == old(engine)
    {
      if SetsProxy(mode, c) {
        threw := Await(c.proxy, ProxyOn);
        if threw { return; }
      }
      threw := OnceReachable(killSwitch, profile, c);
    }

    /** Starts the core, rolls back if it refuses, and applies proxy and kill switch if it runs. */
    method StartEngine(mode: InboundMode, killSwitch: bool, profile: string, c: StartCalls) returns (outcome: Outcome)
      requires Valid()
      modifies this
      ensures Valid()
      ensures log == old(log) + EffectsFromEngine(EngineAnswer(old(engine), c), mode, killSwitch, profile, c)
      ensures outcome.Success? <==> EngineAnswer(old(engine), c).Started? && Finishes(mode, killSwitch, c)
      ensures outcome.Success? ==> engine == Up(mode, old(interface)) && outcome.mode == mode && active == Some(profile)
      ensures outcome.Failure? ==> engine == old(engine)
    {
      var answer := EngineAnswer(engine, c);
      if answer.EngineThrew? {
        if answer.started { Perform(EngineUp(mode)); }
        return Thrown;
      }
      if answer.Refused? {
        var threw := Await(c.rollback, Teardown);
        return if threw then Thrown else Failure(answer.error);
      }
      Perform(EngineUp(mode));
      var threw := OnceRunning(mode, killSwitch, profile, c);
      return if threw then Thrown else Success(mode);
    }

    method ExecuteStart(profile: string, c: StartCalls) returns (outcome: Outcome)
      requires Valid()
      modifies this
      ensures Valid()
      ensures log == old(log) + StartEffects(old(State()), profile, c)
      ensures outcome.Success? <==>
                ReachesEngine(platform, c) && EngineAnswer(old(engine), c).Started?
                && Finishes(ModeOf(platform, c), old(saved), c)
      ensures outcome.Success? ==> engine.Up? && engine.mode == outcome.mode && active == Some(profile)
      ensures outcome.Failure? ==> engine == old(engine)
    {
      var killSwitch := saved;
      if !c.loads || c.mode.None? || c.prepared.None? { return Thrown; }
      var mode := ModeOf(platform, c);
      if !c.prepared.value { return Failure(PERMISSION_DENIED); }
      if platform.Android? {
        var threw := EstablishTun(c.establish);
        if threw { return Thrown; }
      }
      outcome := StartEngine(mode, killSwitch, profile, c);
    }

    method OnceDirect(c: StopCalls) returns (threw: bool)
      requires Valid()
      modifies this
      ensures Valid()
      ensures log == old(log) + EffectsOnceDirect(c)
      ensures !threw <==> !CallOf(c.killSwitch).threw && !c.teardown.threw
      ensures engine == old(engine)
    {
      threw := Await(CallOf(c.killSwitch), Block(false));
      if threw { return; }
      threw := Await(c.teardown, Teardown);
    }

    /** The steps of a stop that follow a stopped engine. */
    method OnceStopped(c: StopCalls) returns (threw: bool)
      requires Valid()
      modifies this
      ensures Valid()
      ensures log == old(log) + EffectsOnceStopped(c)
      ensures !threw <==> !c.proxy.threw && !CallOf(c.killSwitch).threw && !c.teardown.threw
      ensures engine == old(engine)
    {
      threw := Await(c.proxy, ProxyOff);
      if threw { return; }
      threw := OnceDirect(c);
    }

    method ExecuteStop(c: StopCalls) returns (threw: bool)
      requires Valid()
      modifies this
      ensures Valid()
      ensures log == old(log) + StopEffects(c)
      ensures !threw <==> !c.engine.threw && !c.proxy.threw && !CallOf(c.killSwitch).threw && !c.teardown.threw
      ensures !threw ==> engine.Down?
    {
      threw := Await(c.engine, EngineDown);
      if threw { return; }
      threw := OnceStopped(c);
    }

    method ExecuteToggle(enabled: bool, c: ToggleCalls) returns (updated: Option<bool>)
      requires Valid()
      modifies this
      ensures Valid()
      ensures log == old(log) + ToggleEffects(old(State()), enabled, c)
      ensures updated.Some? ==> updated.value == enabled == saved
    {
      if !c.loads { return None; }
      var threw := Await(c.save, Save(enabled));
      if threw { return None; }
      if engine.Up? {
        threw := Await(CallOf(c.killSwitch), Block(enabled));
        if threw { return None; }
      }
      return Some(enabled);
    }

    /** Whatever happens next takes the state where the run says. */
    method Step(e: Event)
      requires Valid()
      modifies this
      ensures Valid()
      ensures log == old(log) + Effects(old(State()), e)
      ensures State() == After(old(State()), e)
    {
      ApplyAllAppend(Installed(platform), log, Effects(State(), e));
      match e {
        case Start(profile, calls) => var _ := ExecuteStart(profile, calls);
        case Stop(calls) => var _ := ExecuteStop(calls);
        case Toggle(enabled, calls) => var _ := ExecuteToggle(enabled, calls);
        case EngineDies => Perform(EngineDown);
        case ProcessDies => Perform(ProcessGone);
      }
    }
  }
}
