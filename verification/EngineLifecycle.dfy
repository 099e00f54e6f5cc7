/**
 The engine lifecycle and its traffic pollers as a machine of atomic steps. The
 mutex lets one start or stop run at a time, so one program counter describes
 them; every store to an atomic is a step of its own, because GetStatus, GetStats
 and GetEngineLastError read without the lock, and pollers run beside everything.
 */
module EngineLifecycle {
  import opened Wrappers

  datatype Status = Stopped | Starting | Running | Stopping | Error

  type BoxId = nat
  type ContextId = nat

  /** The text behind lastError: empty, or one of the wrapped errors of start. */
  datatype Message = Empty | ParseFailed | CreateFailed | StartFailed | EnginePanic

  /** Where the holder of the mutex stands; Idle when the mutex is free. */
  datatype Counter =
    | Idle
    // start
    | StartEntered
    | StartContext
    | StartParse(ctx: ContextId)
    | StartNew(ctx: ContextId)
    | StartBox(ctx: ContextId, box: BoxId)
    | StartInstall(ctx: ContextId, box: BoxId)
    | StartHold(ctx: ContextId)
    | StartClearError(ctx: ContextId)
    | StartRunning(ctx: ContextId)
    | StartPoller(ctx: ContextId)
    // start: an error return
    | FailClose(ctx: ContextId, box: BoxId)
    | FailCancel(ctx: ContextId, message: Message)
    | FailStoreError(message: Message)
    | FailStatus
    // start: the deferred recover
    | PanicStoreError
    | PanicStatus
    // stop
    | StopEntered
    | StopStopping
    | StopStopped
    // forceCleanupLocked, called by stop or by the recover
    | CleanClose(stopping: bool)
    | CleanWait(stopping: bool)
    | CleanDropInstance(stopping: bool)
    | CleanCancel(stopping: bool)
    | CleanDropCancel(stopping: bool)

  /** What a call into the core does. A poller start may also find no stats service. */
  datatype Outcome = Succeeds | Fails | Panics

  datatype PollerPhase = Selecting | Reading | Clearing | Finished | Crashed

  datatype Poller = Poller(ctx: ContextId, phase: PollerPhase)

  /** A meter value, and the poller that stored it. */
  datatype Sample = Sample(writer: nat, up: int, down: int)

  /**
   `asked` counts the Close calls made on each box, `cancelled` the contexts whose
   cancel function was called. `lostBoxes` and `lostContexts` are history: what a
   panic before installation dropped without closing or cancelling it.
   */
  datatype Machine = Machine(
    status: Status, lastError: Message, instance: Option<BoxId>, cancel: Option<ContextId>,
    traffic: Option<Sample>, pc: Counter,
    boxes: nat, contexts: nat, asked: multiset<BoxId>, cancelled: set<ContextId>,
    lostBoxes: set<BoxId>, lostContexts: nat,
    pollers: seq<Poller>)

  const INITIAL := Machine(Stopped, Empty, None, None, None, Idle, 0, 0, multiset{}, {}, {}, 0, [])

  datatype Event =
    | CallStart
    | CallStop
    | Advance(outcome: Outcome)               // the mutex holder's next atomic step
    | PollTick(poller: nat)                   // select takes the ticker
    | PollStore(poller: nat, up: int, down: int)
    | PollDone(poller: nat)                   // select takes ctx.Done()
    | PollClear(poller: nat)                  // traffic := nil, and return
    | PollCrash(poller: nat)                  // a panic in a read, recovered

  /** A panic before the instance is installed: context and box are only local. */
  function LosePanic(s: Machine, boxes: set<BoxId>): Machine {
    s.(pc := PanicStoreError, lostContexts := s.lostContexts + 1, lostBoxes := s.lostBoxes + boxes)
  }

  function AdvanceStart(s: Machine, o: Outcome): Machine {
    match s.pc
    case StartEntered => if s.instance.Some? then s.(pc := Idle) else s.(status := Starting, pc := StartContext)
    case StartContext => s.(contexts := s.contexts + 1, pc := StartParse(s.contexts))
    case StartParse(c) =>
      if o.Panics? then LosePanic(s, {})
      else if o.Fails? then s.(pc := FailCancel(c, ParseFailed))
      else s.(pc := StartNew(c))
    case StartNew(c) =>
      if o.Panics? then LosePanic(s, {})
      else if o.Fails? then s.(pc := FailCancel(c, CreateFailed))
      else s.(boxes := s.boxes + 1, pc := StartBox(c, s.boxes))
    case StartBox(c, b) =>
      if o.Panics? then LosePanic(s, {b})
      else if o.Fails? then s.(pc := FailClose(c, b))
      else s.(pc := StartInstall(c, b))
    case StartInstall(c, b) => s.(instance := Some(b), pc := StartHold(c))
    case StartHold(c) => s.(cancel := Some(c), pc := StartClearError(c))
    case StartClearError(c) => s.(lastError := Empty, pc := StartRunning(c))
    case StartRunning(c) => s.(status := Running, pc := StartPoller(c))
    case StartPoller(c) =>
      if o.Panics? then s.(pc := PanicStoreError)
      else if o.Fails? then s.(pc := Idle)
      else s.(pollers := s.pollers + [Poller(c, Selecting)], pc := Idle)
    case FailClose(c, b) =>
      var t := s.(asked := s.asked + multiset{b});
      if o.Panics? then LosePanic(t, {}) else t.(pc := FailCancel(c, StartFailed))
    case FailCancel(c, m) => s.(cancelled := s.cancelled + {c}, pc := FailStoreError(m))
    case FailStoreError(m) => s.(lastError := m, pc := FailStatus)
    case FailStatus => s.(status := Error, pc := Idle)
    case PanicStoreError => s.(lastError := EnginePanic, pc := PanicStatus)
    case PanicStatus => s.(status := Error, pc := CleanClose(false))
    case _ => s
  }

  function AdvanceStop(s: Machine): Machine {
    match s.pc
    case StopEntered => if s.instance.None? then s.(status := Stopped, pc := Idle) else s.(pc := StopStopping)
    case StopStopping => s.(status := Stopping, pc := CleanClose(true))
    case CleanClose(stopping) =>
      if s.instance.None? then s.(pc := CleanCancel(stopping))
      else s.(asked := s.asked + multiset{s.instance.value}, pc := CleanWait(stopping))
    case CleanWait(stopping) => s.(pc := CleanDropInstance(stopping))
    case CleanDropInstance(stopping) => s.(instance := None, pc := CleanCancel(stopping))
    case CleanCancel(stopping) =>
      if s.cancel.None? then s.(pc := AfterCleanup(stopping))
      else s.(cancelled := s.cancelled + {s.cancel.value}, pc := CleanDropCancel(stopping))
    case CleanDropCancel(stopping) => s.(cancel := None, pc := AfterCleanup(stopping))
    case StopStopped => s.(status := Stopped, pc := Idle)
    case _ => s
  }

  function AfterCleanup(stopping: bool): Counter { if stopping then StopStopped else Idle }

  predicate InCleanup(pc: Counter) {
    pc.CleanClose? || pc.CleanWait? || pc.CleanDropInstance? || pc.CleanCancel? || pc.CleanDropCancel?
  }

  predicate InStop(pc: Counter) { pc.StopEntered? || pc.StopStopping? || pc.StopStopped? }

  /** The mutex holder's next atomic step. */
  function AdvanceHolder(s: Machine, o: Outcome): Machine {
    if InCleanup(s.pc) || InStop(s.pc) then AdvanceStop(s) else AdvanceStart(s, o)
  }

  function SetPhase(s: Machine, p: nat, phase: PollerPhase): Machine
    requires p < |s.pollers|
  {
    s.(pollers := s.pollers[p := s.pollers[p].(phase := phase)])
  }

  predicate AtPhase(s: Machine, p: nat, phase: PollerPhase) { p < |s.pollers| && s.pollers[p].phase == phase }

  function Step(s: Machine, e: Event): Machine {
    match e
    case CallStart => if s.pc.Idle? then s.(pc := StartEntered) else s
    case CallStop => if s.pc.Idle? then s.(pc := StopEntered) else s
    case Advance(o) => AdvanceHolder(s, o)
    case PollTick(p) => if AtPhase(s, p, Selecting) then SetPhase(s, p, Reading) else s
    case PollStore(p, up, down) =>
      if AtPhase(s, p, Reading) then SetPhase(s, p, Selecting).(traffic := Some(Sample(p, up, down))) else s
    case PollDone(p) =>
      if AtPhase(s, p, Selecting) && s.pollers[p].ctx in s.cancelled then SetPhase(s, p, Clearing) else s
    case PollClear(p) => if AtPhase(s, p, Clearing) then SetPhase(s, p, Finished).(traffic := None) else s
    case PollCrash(p) => if AtPhase(s, p, Reading) then SetPhase(s, p, Crashed) else s
  }

  function Run(s: Machine, es: seq<Event>): Machine {
    if es == [] then s else Step(Run(s, es[..|es| - 1]), es[|es| - 1])
  }

  // ---- What every atomic step keeps -----------------------------------------

  /** What a lock-free reader relies on at any instant. */
  predicate ReaderSafe(s: Machine) {
    && (s.status.Running? ==> s.instance.Some? && s.cancel.Some?)
    && (s.status.Error? ==> s.lastError != Empty)
  }

  /** The statuses possible at each program point. */
  predicate StatusFits(s: Machine) {
    match s.pc
    case Idle => (s.status.Running? <==> s.instance.Some?) && !s.status.Starting? && !s.status.Stopping?
    case StartEntered => (s.status.Running? <==> s.instance.Some?) && !s.status.Starting? && !s.status.Stopping?
    case StopEntered => (s.status.Running? <==> s.instance.Some?) && !s.status.Starting? && !s.status.Stopping?
    case StopStopping => s.status.Running?
    case StopStopped => s.status.Stopping? && s.instance.None? && s.cancel.None?
    case StartPoller(_) => s.status.Running?
    case PanicStoreError => (s.status.Running? <==> s.instance.Some?) && (s.status.Running? || s.status.Starting?)
    case PanicStatus => (s.status.Running? <==> s.instance.Some?) && (s.status.Running? || s.status.Starting?) && s.lastError != Empty
    case FailStatus => s.status.Starting? && s.lastError != Empty
    case FailStoreError(m) => s.status.Starting? && m != Empty
    case FailCancel(_, m) => s.status.Starting? && m != Empty
    case StartContext => s.status.Starting?
    case StartParse(_) => s.status.Starting?
    case StartNew(_) => s.status.Starting?
    case StartBox(_, _) => s.status.Starting?
    case StartInstall(_, _) => s.status.Starting?
    case StartHold(_) => s.status.Starting?
    case StartClearError(_) => s.status.Starting?
    case StartRunning(_) => s.status.Starting?
    case FailClose(_, _) => s.status.Starting?
    case CleanClose(stopping) => s.status == CleanupStatus(stopping)
    case CleanWait(stopping) => s.status == CleanupStatus(stopping)
    case CleanDropInstance(stopping) => s.status == CleanupStatus(stopping)
    case CleanCancel(stopping) => s.status == CleanupStatus(stopping)
    case CleanDropCancel(stopping) => s.status == CleanupStatus(stopping)
  }

  function CleanupStatus(stopping: bool): Status { if stopping then Stopping else Error }

  /** Which of `instance` and `cancel` are set at each program point. */
  predicate FieldsFit(s: Machine) {
    if s.pc.StartHold? || s.pc.CleanCancel? || s.pc.CleanDropCancel? then
      && (s.pc.StartHold? ==> s.instance.Some? && s.cancel.None?)
      && (!s.pc.StartHold? ==> s.instance.None?)
      && (s.pc.CleanDropCancel? ==> s.cancel.Some?)
    else if s.pc.StartClearError? || s.pc.StartRunning? || s.pc.StartPoller? then
      s.instance.Some? && s.cancel == Some(s.pc.ctx)
    else if s.pc.StopStopping? || s.pc.CleanWait? || s.pc.CleanDropInstance? then
      s.instance.Some? && s.cancel.Some?
    else if s.pc.Idle? || s.pc.StartEntered? || s.pc.StopEntered? || s.pc.PanicStoreError? || s.pc.PanicStatus? || s.pc.CleanClose? then
      s.instance.Some? <==> s.cancel.Some?
    else
      s.instance.None? && s.cancel.None?
  }

  predicate Lawful(s: Machine) { ReaderSafe(s) && StatusFits(s) && FieldsFit(s) }

  // The program points of the mutex holder, in four stretches of the code.
  predicate BeforeInstall(pc: Counter) {
    pc.StartEntered? || pc.StartContext? || pc.StartParse? || pc.StartNew? || pc.StartBox?
  }

  predicate Installing(pc: Counter) {
    pc.StartInstall? || pc.StartHold? || pc.StartClearError? || pc.StartRunning? || pc.StartPoller?
  }

  predicate Failing(pc: Counter) {
    pc.FailClose? || pc.FailCancel? || pc.FailStoreError? || pc.FailStatus? || pc.PanicStoreError? || pc.PanicStatus?
  }

  lemma LawfulBeforeInstall(s: Machine, o: Outcome)
    requires Lawful(s) && BeforeInstall(s.pc)
    ensures Lawful(AdvanceHolder(s, o))
  {
  }

  lemma LawfulInstalling(s: Machine, o: Outcome)
    requires Lawful(s) && Installing(s.pc)
    ensures Lawful(AdvanceHolder(s, o))
  {
  }

  lemma LawfulFailing(s: Machine, o: Outcome)
    requires Lawful(s) && Failing(s.pc)
    ensures Lawful(AdvanceHolder(s, o))
  {
  }

  lemma LawfulStopping(s: Machine, o: Outcome)
    requires Lawful(s) && (InStop(s.pc) || InCleanup(s.pc))
    ensures Lawful(AdvanceHolder(s, o))
  {
  }

  lemma StepKeepsLawful(s: Machine, e: Event)
    requires Lawful(s)
    ensures Lawful(Step(s, e))
  {
    if e.Advance? {
      if BeforeInstall(s.pc) {
        LawfulBeforeInstall(s, e.outcome);
      } else if Installing(s.pc) {
        LawfulInstalling(s, e.outcome);
      } else if Failing(s.pc) {
        LawfulFailing(s, e.outcome);
      } else if InStop(s.pc) || InCleanup(s.pc) {
        LawfulStopping(s, e.outcome);
      }
    }
  }

  /** At every atomic step of every run, not only when the lock is free. */
  lemma {:induction false} ReadersAreSafe(es: seq<Event>)
    ensures Lawful(Run(INITIAL, es))
  {
    if es != [] {
      ReadersAreSafe(es[..|es| - 1]);
      StepKeepsLawful(Run(INITIAL, es[..|es| - 1]), es[|es| - 1]);
    }
  }

  /** The edges of the status graph; Running never goes straight to Starting or Stopped. */
  predicate StatusEdge(a: Status, b: Status) {
    match a
    case Stopped => b.Starting?
    case Starting => b.Running? || b.Error?
    case Running => b.Stopping? || b.Error?
    case Stopping => b.Stopped?
    case Error => b.Starting? || b.Stopped?
  }

  lemma {:induction false} StatusFollowsTheGraph(es: seq<Event>, e: Event)
    ensures var s := Run(INITIAL, es);
            Step(s, e).status == s.status || StatusEdge(s.status, Step(s, e).status)
  {
    ReadersAreSafe(es);
  }

  /** A start while running returns with nothing changed. */
  lemma StartWhileRunningChangesNothing(s: Machine, o: Outcome)
    requires s.pc.Idle? && s.instance.Some?
    ensures Run(s, [CallStart, Advance(o)]) == s
  {
    assert [CallStart, Advance(o)][..1] == [CallStart];
    assert Run(s, [CallStart]) == Step(Run(s, []), CallStart);
  }

  // ---- Conservation ---------------------------------------------------------

  /** A context or box that only the running start knows about. */
  function LocalContexts(pc: Counter): nat {
    if pc.StartParse? || pc.StartNew? || pc.StartBox? || pc.StartInstall? || pc.StartHold? || pc.FailClose? || pc.FailCancel?
    then 1 else 0
  }

  function LocalBoxes(pc: Counter): nat {
    if pc.StartBox? || pc.StartInstall? || pc.FailClose? then 1 else 0
  }

  /** The installed box not yet asked to close, the held context not yet cancelled. */
  function OpenBoxes(s: Machine): nat {
    if s.instance.Some? && !s.pc.CleanWait? && !s.pc.CleanDropInstance? then 1 else 0
  }

  function OpenContexts(s: Machine): nat {
    if s.cancel.Some? && !s.pc.CleanDropCancel? then 1 else 0
  }

  predicate LocalIdsFit(s: Machine) {
    match s.pc
    case StartParse(c) => c < s.contexts && c !in s.cancelled && s.cancel != Some(c)
    case StartNew(c) => c < s.contexts && c !in s.cancelled && s.cancel != Some(c)
    case StartHold(c) => c < s.contexts && c !in s.cancelled && s.cancel != Some(c)
    case FailCancel(c, _) => c < s.contexts && c !in s.cancelled && s.cancel != Some(c)
    case StartBox(c, b) => c < s.contexts && c !in s.cancelled && b < s.boxes && s.asked[b] == 0 && b !in s.lostBoxes
    case StartInstall(c, b) => c < s.contexts && c !in s.cancelled && b < s.boxes && s.asked[b] == 0
    case FailClose(c, b) => c < s.contexts && c !in s.cancelled && b < s.boxes && s.asked[b] == 0
    case _ => true
  }

  ghost predicate Accounted(s: Machine) {
    && s.boxes == |s.asked| + OpenBoxes(s) + LocalBoxes(s.pc) + |s.lostBoxes|
    && s.contexts == |s.cancelled| + OpenContexts(s) + LocalContexts(s.pc) + s.lostContexts
    && LocalIdsFit(s)
    && (forall b :: s.asked[b] <= 1)
    && (forall b :: b in s.asked ==> b < s.boxes)
    && (forall b :: b in s.lostBoxes ==> b < s.boxes)
    && (forall c :: c in s.cancelled ==> c < s.contexts)
    && (s.instance.Some? ==> s.instance.value < s.boxes && (OpenBoxes(s) == 1 ==> s.asked[s.instance.value] == 0))
    && (s.cancel.Some? ==> s.cancel.value < s.contexts && (OpenContexts(s) == 1 <==> s.cancel.value !in s.cancelled))
  }

  lemma AccountsCreating(s: Machine, o: Outcome)
    requires Lawful(s) && Accounted(s) && s.pc.StartNew?
    ensures Accounted(AdvanceHolder(s, o))
  {
    assert s.boxes !in s.lostBoxes && s.asked[s.boxes] == 0;
  }

  lemma AccountsStartingBox(s: Machine, o: Outcome)
    requires Lawful(s) && Accounted(s) && s.pc.StartBox?
    ensures Accounted(AdvanceHolder(s, o))
  {
    assert s.pc.box !in s.lostBoxes && |s.lostBoxes + {s.pc.box}| == |s.lostBoxes| + 1;
  }

  lemma AccountsBeforeInstall(s: Machine, o: Outcome)
    requires Lawful(s) && Accounted(s) && BeforeInstall(s.pc)
    ensures Accounted(AdvanceHolder(s, o))
  {
    if s.pc.StartNew? { AccountsCreating(s, o); } else if s.pc.StartBox? { AccountsStartingBox(s, o); }
  }

  lemma AccountsInstalling(s: Machine, o: Outcome)
    requires Lawful(s) && Accounted(s) && Installing(s.pc)
    ensures Accounted(AdvanceHolder(s, o))
  {
  }

  lemma AccountsFailClose(s: Machine, o: Outcome)
    requires Lawful(s) && Accounted(s) && s.pc.FailClose?
    ensures Accounted(AdvanceHolder(s, o))
  {
    assert s.asked[s.pc.box] == 0;
  }

  lemma AccountsFailCancel(s: Machine, o: Outcome)
    requires Lawful(s) && Accounted(s) && s.pc.FailCancel?
    ensures Accounted(AdvanceHolder(s, o))
  {
    assert s.pc.ctx !in s.cancelled;
  }

  lemma AccountsFailing(s: Machine, o: Outcome)
    requires Lawful(s) && Accounted(s) && Failing(s.pc)
    ensures Accounted(AdvanceHolder(s, o))
  {
    if s.pc.FailClose? { AccountsFailClose(s, o); } else if s.pc.FailCancel? { AccountsFailCancel(s, o); }
  }

  lemma AccountsClose(s: Machine)
    requires Lawful(s) && Accounted(s) && s.pc.CleanClose?
    ensures Accounted(AdvanceStop(s))
  {
    if s.instance.Some? { assert s.asked[s.instance.value] == 0; }
  }

  lemma AccountsCancel(s: Machine)
    requires Lawful(s) && Accounted(s) && s.pc.CleanCancel?
    ensures Accounted(AdvanceStop(s))
  {
    if s.cancel.Some? { assert s.cancel.value !in s.cancelled; }
  }

  lemma AccountsDropping(s: Machine)
    requires Lawful(s) && Accounted(s) && (s.pc.CleanWait? || s.pc.CleanDropInstance? || s.pc.CleanDropCancel?)
    ensures Accounted(AdvanceStop(s))
  {
  }

  lemma AccountsStopping(s: Machine, o: Outcome)
    requires Lawful(s) && Accounted(s) && (InStop(s.pc) || InCleanup(s.pc))
    ensures Accounted(AdvanceHolder(s, o))
  {
    if s.pc.CleanClose? {
      AccountsClose(s);
    } else if s.pc.CleanCancel? {
      AccountsCancel(s);
    } else if InCleanup(s.pc) {
      AccountsDropping(s);
    }
  }

  /** Any field but these leaves the accounts as they are. */
  lemma AccountsElsewhere(s: Machine, t: Machine)
    requires Accounted(s)
    requires t == s.(pc := t.pc, pollers := t.pollers, traffic := t.traffic)
    requires t.pc == s.pc || (s.pc.Idle? && (t.pc.StartEntered? || t.pc.StopEntered?))
    ensures Accounted(t)
  {
  }

  lemma AccountsAdvancing(s: Machine, o: Outcome)
    requires Lawful(s) && Accounted(s)
    ensures Accounted(AdvanceHolder(s, o))
  {
    if BeforeInstall(s.pc) {
      AccountsBeforeInstall(s, o);
    } else if Installing(s.pc) {
      AccountsInstalling(s, o);
    } else if Failing(s.pc) {
      AccountsFailing(s, o);
    } else if InStop(s.pc) || InCleanup(s.pc) {
      AccountsStopping(s, o);
    }
  }

  lemma StepKeepsAccounts(s: Machine, e: Event)
    requires Lawful(s) && Accounted(s)
    ensures Accounted(Step(s, e))
  {
    if e.Advance? { AccountsAdvancing(s, e.outcome); } else { AccountsElsewhere(s, Step(s, e)); }
  }

  lemma {:induction false} RunKeepsAccounts(es: seq<Event>)
    ensures Accounted(Run(INITIAL, es))
  {
    if es != [] {
      RunKeepsAccounts(es[..|es| - 1]);
      ReadersAreSafe(es[..|es| - 1]);
      StepKeepsAccounts(Run(INITIAL, es[..|es| - 1]), es[|es| - 1]);
    }
  }

  // ---- Each box on its own --------------------------------------------------

  predicate IsOpen(s: Machine, b: BoxId) { s.instance == Some(b) && OpenBoxes(s) == 1 }

  predicate IsLocal(pc: Counter, b: BoxId) { (pc.StartBox? || pc.StartInstall? || pc.FailClose?) && pc.box == b }

  function One(p: bool): nat { if p then 1 else 0 }

  /** A box that was created is open, local to the running start, lost, or asked to close, exactly one of these. */
  predicate BoxFits(s: Machine, b: BoxId) {
    && (b >= s.boxes ==> s.asked[b] == 0 && b !in s.lostBoxes)
    && (b < s.boxes ==> s.asked[b] + One(IsOpen(s, b)) + One(IsLocal(s.pc, b)) + One(b in s.lostBoxes) == 1)
  }

  ghost predicate BoxesFit(s: Machine) {
    forall b: BoxId :: BoxFits(s, b)
  }

  lemma BoxCreating(s: Machine, o: Outcome, b: BoxId)
    requires Accounted(s) && s.pc.StartNew? && BoxFits(s, b)
    ensures BoxFits(AdvanceStart(s, o), b)
  {
  }

  lemma BoxStarting(s: Machine, o: Outcome, b: BoxId)
    requires Accounted(s) && s.pc.StartBox? && BoxFits(s, b)
    ensures BoxFits(AdvanceStart(s, o), b)
  {
  }

  lemma BoxBeforeInstall(s: Machine, o: Outcome, b: BoxId)
    requires Lawful(s) && Accounted(s) && BeforeInstall(s.pc) && BoxFits(s, b)
    ensures BoxFits(AdvanceHolder(s, o), b)
  {
    if s.pc.StartNew? { BoxCreating(s, o, b); } else if s.pc.StartBox? { BoxStarting(s, o, b); }
  }

  lemma BoxInstalling(s: Machine, o: Outcome, b: BoxId)
    requires Lawful(s) && Accounted(s) && Installing(s.pc) && BoxFits(s, b)
    ensures BoxFits(AdvanceHolder(s, o), b)
  {
  }

  lemma BoxFailClose(s: Machine, o: Outcome, b: BoxId)
    requires Accounted(s) && s.pc.FailClose? && BoxFits(s, b)
    ensures BoxFits(AdvanceStart(s, o), b)
  {
    assert s.asked[s.pc.box] == 0;
  }

  lemma BoxRecovering(s: Machine, o: Outcome, b: BoxId)
    requires Failing(s.pc) && !s.pc.FailClose? && BoxFits(s, b)
    ensures BoxFits(AdvanceStart(s, o), b)
  {
  }

  lemma BoxFailing(s: Machine, o: Outcome, b: BoxId)
    requires Lawful(s) && Accounted(s) && Failing(s.pc) && BoxFits(s, b)
    ensures BoxFits(AdvanceHolder(s, o), b)
  {
    if s.pc.FailClose? { BoxFailClose(s, o, b); } else { BoxRecovering(s, o, b); }
  }

  lemma BoxClosing(s: Machine, b: BoxId)
    requires Lawful(s) && Accounted(s) && s.pc.CleanClose? && BoxFits(s, b)
    ensures BoxFits(AdvanceStop(s), b)
  {
  }

  lemma BoxStopping(s: Machine, o: Outcome, b: BoxId)
    requires Lawful(s) && Accounted(s) && (InStop(s.pc) || InCleanup(s.pc)) && BoxFits(s, b)
    ensures BoxFits(AdvanceHolder(s, o), b)
  {
    if s.pc.CleanClose? { BoxClosing(s, b); }
  }

  lemma StepKeepsBoxes(s: Machine, e: Event)
    requires Lawful(s) && Accounted(s) && BoxesFit(s)
    ensures BoxesFit(Step(s, e))
  {
    forall b: BoxId ensures BoxFits(Step(s, e), b) {
      assert BoxFits(s, b);
      if e.Advance? {
        if BeforeInstall(s.pc) {
          BoxBeforeInstall(s, e.outcome, b);
        } else if Installing(s.pc) {
          BoxInstalling(s, e.outcome, b);
        } else if Failing(s.pc) {
          BoxFailing(s, e.outcome, b);
        } else if InStop(s.pc) || InCleanup(s.pc) {
          BoxStopping(s, e.outcome, b);
        }
      }
    }
  }

  lemma {:induction false} RunKeepsBoxes(es: seq<Event>)
    ensures BoxesFit(Run(INITIAL, es))
  {
    if es != [] {
      RunKeepsBoxes(es[..|es| - 1]);
      RunKeepsAccounts(es[..|es| - 1]);
      ReadersAreSafe(es[..|es| - 1]);
      StepKeepsBoxes(Run(INITIAL, es[..|es| - 1]), es[|es| - 1]);
    }
  }

  // ---- What panics lose -----------------------------------------------------

  /** A panic inside the core while the context is still a local of start. */
  predicate EarlyPanic(s: Machine, e: Event) {
    e == Advance(Panics) && (s.pc.StartParse? || s.pc.StartNew? || s.pc.StartBox? || s.pc.FailClose?)
  }

  /** A panic of instance.Start(): the one place where a new box is in nobody's hands. */
  predicate BoxPanic(s: Machine, e: Event) {
    e == Advance(Panics) && s.pc.StartBox?
  }

  function EarlyPanics(es: seq<Event>): nat {
    if es == [] then 0
    else EarlyPanics(es[..|es| - 1]) + One(EarlyPanic(Run(INITIAL, es[..|es| - 1]), es[|es| - 1]))
  }

  function BoxPanics(es: seq<Event>): nat {
    if es == [] then 0
    else BoxPanics(es[..|es| - 1]) + One(BoxPanic(Run(INITIAL, es[..|es| - 1]), es[|es| - 1]))
  }

  lemma StepLoses(s: Machine, e: Event)
    requires s.pc.StartBox? ==> s.pc.box !in s.lostBoxes
    ensures var t := Step(s, e);
            t.lostContexts == s.lostContexts + One(EarlyPanic(s, e)) && |t.lostBoxes| == |s.lostBoxes| + One(BoxPanic(s, e))
  {
    if e.Advance? && !InCleanup(s.pc) && !InStop(s.pc) {
      match s.pc case StartParse(_) => case StartNew(_) => case StartBox(_, _) => case FailClose(_, _) => case _ =>
    }
  }

  /** Each early panic loses one context, and each panic of instance.Start() one box; nothing else is lost. */
  lemma {:induction false} LossesAreEarlyPanics(es: seq<Event>)
    ensures Run(INITIAL, es).lostContexts == EarlyPanics(es)
    ensures |Run(INITIAL, es).lostBoxes| == BoxPanics(es)
  {
    if es != [] {
      var s := Run(INITIAL, es[..|es| - 1]);
      LossesAreEarlyPanics(es[..|es| - 1]);
      RunKeepsBoxes(es[..|es| - 1]);
      RunKeepsAccounts(es[..|es| - 1]);
      if s.pc.StartBox? { assert BoxFits(s, s.pc.box); }
      StepLoses(s, es[|es| - 1]);
    }
  }

  /** Every box but the installed one was asked to close exactly once, and the installed one not at all. */
  ghost predicate EveryBoxClosedOnce(s: Machine) {
    forall b: BoxId :: b < s.boxes ==> s.asked[b] == One(s.instance != Some(b))
  }

  lemma LostOrClosed(s: Machine)
    requires Lawful(s) && BoxesFit(s) && s.pc.Idle?
    ensures EveryBoxClosedOnce(s) <==> s.lostBoxes == {}
  {
    EmptyMeansNoMember(s.lostBoxes);
    forall b: BoxId ensures b < s.boxes ==> (s.asked[b] == One(s.instance != Some(b)) <==> b !in s.lostBoxes) {
      assert BoxFits(s, b);
    }
    assert forall b: BoxId :: b in s.lostBoxes ==> BoxFits(s, b) && b < s.boxes;
  }

  /**
   Whenever the lock is free: no box was asked to close twice; contexts created are
   those cancelled plus the one held if and only if no panic came before an
   instance was installed; and boxes created are those asked to close plus the
   installed one, in number and each box for itself, if and only if no
   instance.Start() panicked.
   */
  lemma {:induction false} Conservation(es: seq<Event>)
    ensures var s := Run(INITIAL, es);
            s.pc.Idle? ==>
              && (forall b :: s.asked[b] <= 1)
              && (s.contexts == |s.cancelled| + One(s.cancel.Some?) <==> EarlyPanics(es) == 0)
              && (s.boxes == |s.asked| + One(s.instance.Some?) <==> BoxPanics(es) == 0)
              && (EveryBoxClosedOnce(s) <==> BoxPanics(es) == 0)
  {
    RunKeepsAccounts(es);
    RunKeepsBoxes(es);
    ReadersAreSafe(es);
    LossesAreEarlyPanics(es);
    if Run(INITIAL, es).pc.Idle? { LostOrClosed(Run(INITIAL, es)); }
  }

  lemma RunSnoc(es: seq<Event>, e: Event, m: Machine, next: Machine)
    requires Run(INITIAL, es) == m && Step(m, e) == next
    ensures Run(INITIAL, es + [e]) == next
  {
    assert (es + [e])[..|es|] == es;
  }

  const CREATE_BOX: seq<Event> := [CallStart] + [Advance(Succeeds)] + [Advance(Succeeds)] + [Advance(Succeeds)] + [Advance(Succeeds)]
  const PANIC: seq<Event> := CREATE_BOX + [Advance(Panics)] + [Advance(Succeeds)] + [Advance(Succeeds)]

  /** A first start whose instance.Start() panics, with its recover and clean-up. */
  const PANIC_RUN: seq<Event> := PANIC + [Advance(Succeeds)] + [Advance(Succeeds)]

  lemma CreatesBox()
    ensures Run(INITIAL, CREATE_BOX) == INITIAL.(status := Starting, contexts := 1, boxes := 1, pc := StartBox(0, 0))
  {
    var es := [CallStart];
    var m := INITIAL.(pc := StartEntered);
    var n := INITIAL.(status := Starting, pc := StartContext);
    var o := n.(contexts := 1, pc := StartParse(0));
    assert [] + es == es;
    RunSnoc([], CallStart, INITIAL, m);
    RunSnoc(es, Advance(Succeeds), m, n);
    RunSnoc(es + [Advance(Succeeds)], Advance(Succeeds), n, o);
    FinishesCreating(es + [Advance(Succeeds)] + [Advance(Succeeds)], o);
  }

  lemma FinishesCreating(es: seq<Event>, o: Machine)
    requires Run(INITIAL, es) == o && o.pc == StartParse(0) && o.boxes == 0
    ensures Run(INITIAL, es + [Advance(Succeeds)] + [Advance(Succeeds)]) == o.(boxes := 1, pc := StartBox(0, 0))
  {
    RunSnoc(es, Advance(Succeeds), o, o.(pc := StartNew(0)));
    RunSnoc(es + [Advance(Succeeds)], Advance(Succeeds), o.(pc := StartNew(0)), o.(boxes := 1, pc := StartBox(0, 0)));
  }

  lemma PanicsInStart(es: seq<Event>, m: Machine)
    requires Run(INITIAL, es) == m && m.pc == StartBox(0, 0)
    ensures Run(INITIAL, es + [Advance(Panics)]) == LosePanic(m, {0})
  {
    RunSnoc(es, Advance(Panics), m, LosePanic(m, {0}));
  }

  lemma RecordsPanic(es: seq<Event>, m: Machine)
    requires Run(INITIAL, es) == m && m.pc.PanicStoreError?
    ensures Run(INITIAL, es + [Advance(Succeeds)] + [Advance(Succeeds)]) ==
            m.(lastError := EnginePanic, status := Error, pc := CleanClose(false))
  {
    var stored := m.(lastError := EnginePanic, pc := PanicStatus);
    RunSnoc(es, Advance(Succeeds), m, stored);
    RunSnoc(es + [Advance(Succeeds)], Advance(Succeeds), stored, stored.(status := Error, pc := CleanClose(false)));
  }

  lemma CleansUpNothing(es: seq<Event>, m: Machine)
    requires Run(INITIAL, es) == m && m.pc == CleanClose(false) && m.instance.None? && m.cancel.None?
    ensures Run(INITIAL, es + [Advance(Succeeds)] + [Advance(Succeeds)]) == m.(pc := Idle)
  {
    RunSnoc(es, Advance(Succeeds), m, m.(pc := CleanCancel(false)));
    RunSnoc(es + [Advance(Succeeds)], Advance(Succeeds), m.(pc := CleanCancel(false)), m.(pc := Idle));
  }

  /** Conservation does fail: a panic of instance.Start() leaves a box that nobody holds and nobody closes. */
  lemma APanicLosesABox()
    ensures var s := Run(INITIAL, PANIC_RUN);
            s.pc.Idle? && s.boxes == 1 && s.contexts == 1 && s.asked[0] == 0 && s.cancelled == {}
            && s.instance.None? && s.cancel.None?
  {
    CreatesBox();
    var m := Run(INITIAL, CREATE_BOX);
    PanicsInStart(CREATE_BOX, m);
    RecordsPanic(CREATE_BOX + [Advance(Panics)], LosePanic(m, {0}));
    CleansUpNothing(PANIC, Run(INITIAL, PANIC));
  }

  // ---- Pollers and the meter ------------------------------------------------

  ghost predicate PollersFit(s: Machine) {
    && (forall p :: 0 <= p < |s.pollers| ==> s.pollers[p].ctx < s.contexts)
    && (forall p :: 0 <= p < |s.pollers| && s.pollers[p].ctx !in s.cancelled ==> s.cancel == Some(s.pollers[p].ctx))
    && (forall p, q :: 0 <= p < q < |s.pollers| ==> s.pollers[p].ctx != s.pollers[q].ctx)
    && (s.pc.StartClearError? || s.pc.StartRunning? || s.pc.StartPoller? ==>
          forall p :: 0 <= p < |s.pollers| ==> s.pollers[p].ctx in s.cancelled)
    && (s.traffic.Some? ==> s.traffic.value.writer < |s.pollers| && !s.pollers[s.traffic.value.writer].phase.Finished?)
  }

  lemma PollersBeforeInstall(s: Machine, o: Outcome)
    requires Lawful(s) && Accounted(s) && PollersFit(s) && BeforeInstall(s.pc)
    ensures PollersFit(AdvanceHolder(s, o))
  {
    var t := AdvanceHolder(s, o);
    assert t.pollers == s.pollers && t.traffic == s.traffic && t.contexts >= s.contexts;
  }

  lemma PollersInstalling(s: Machine, o: Outcome)
    requires Lawful(s) && Accounted(s) && PollersFit(s) && Installing(s.pc)
    ensures PollersFit(AdvanceHolder(s, o))
  {
  }

  lemma PollersFailing(s: Machine, o: Outcome)
    requires Lawful(s) && Accounted(s) && PollersFit(s) && Failing(s.pc)
    ensures PollersFit(AdvanceHolder(s, o))
  {
    var t := AdvanceHolder(s, o);
    assert t.pollers == s.pollers && t.traffic == s.traffic && t.contexts >= s.contexts;
  }

  lemma PollersStopping(s: Machine, o: Outcome)
    requires Lawful(s) && Accounted(s) && PollersFit(s) && (InStop(s.pc) || InCleanup(s.pc))
    ensures PollersFit(AdvanceHolder(s, o))
  {
    var t := AdvanceHolder(s, o);
    assert t.pollers == s.pollers && t.traffic == s.traffic && t.contexts >= s.contexts;
  }

  /** A poller's own steps move one phase, and only its store and its clearing touch the meter. */
  lemma PollersPolling(s: Machine, e: Event)
    requires PollersFit(s) && !e.Advance? && !e.CallStart? && !e.CallStop?
    ensures PollersFit(Step(s, e))
  {
    var t := Step(s, e);
    assert |t.pollers| == |s.pollers| && forall p :: 0 <= p < |s.pollers| ==> t.pollers[p].ctx == s.pollers[p].ctx;
    assert t == s.(pollers := t.pollers, traffic := t.traffic);
  }

  lemma StepKeepsPollers(s: Machine, e: Event)
    requires Lawful(s) && Accounted(s) && PollersFit(s)
    ensures PollersFit(Step(s, e))
  {
    if e.Advance? {
      if BeforeInstall(s.pc) {
        PollersBeforeInstall(s, e.outcome);
      } else if Installing(s.pc) {
        PollersInstalling(s, e.outcome);
      } else if Failing(s.pc) {
        PollersFailing(s, e.outcome);
      } else if InStop(s.pc) || InCleanup(s.pc) {
        PollersStopping(s, e.outcome);
      }
    } else if !e.CallStart? && !e.CallStop? {
      PollersPolling(s, e);
    }
  }

  lemma {:induction false} RunKeepsPollers(es: seq<Event>)
    ensures PollersFit(Run(INITIAL, es))
  {
    if es != [] {
      RunKeepsPollers(es[..|es| - 1]);
      RunKeepsAccounts(es[..|es| - 1]);
      ReadersAreSafe(es[..|es| - 1]);
      StepKeepsPollers(Run(INITIAL, es[..|es| - 1]), es[|es| - 1]);
    }
  }

  /**
   A waiting poller goes round: it puts what it reads on the meter at every tick, and
   once its context is cancelled, and not before, it clears the meter and returns.
   */
  lemma PollersGoRound(s: Machine, p: nat, up: int, down: int)
    requires AtPhase(s, p, Selecting)
    ensures Step(Step(s, PollTick(p)), PollStore(p, up, down)) == s.(traffic := Some(Sample(p, up, down)))
    ensures var left := Step(Step(s, PollDone(p)), PollClear(p));
            if s.pollers[p].ctx in s.cancelled then AtPhase(left, p, Finished) && left.traffic.None? else left == s
  {
    assert s.pollers[p := s.pollers[p].(phase := Reading)][p := s.pollers[p]] == s.pollers;
  }

  predicate Live(s: Machine, p: nat) { p < |s.pollers| && s.pollers[p].ctx !in s.cancelled }

  /** At every step at most one poller belongs to a session that is still open. */
  lemma {:induction false} OneLivePoller(es: seq<Event>, p: nat, q: nat)
    requires var s := Run(INITIAL, es); Live(s, p) && Live(s, q)
    ensures p == q
  {
    RunKeepsPollers(es);
  }

  /** When every poller has returned normally the meter reads nothing. */
  lemma {:induction false} MeterEndsEmpty(es: seq<Event>)
    ensures var s := Run(INITIAL, es);
            (forall p :: 0 <= p < |s.pollers| ==> s.pollers[p].phase.Finished?) ==> s.traffic.None?
  {
    RunKeepsPollers(es);
  }

  /** A value on the meter was stored by a poller that has not returned from its clearing store. */
  lemma {:induction false} MeterHasALivingWriter(es: seq<Event>)
    ensures var s := Run(INITIAL, es);
            s.traffic.Some? ==>
              s.traffic.value.writer < |s.pollers| && !s.pollers[s.traffic.value.writer].phase.Finished?
  {
    RunKeepsPollers(es);
  }

  // ---- The Go object --------------------------------------------------------

  /** What each call into the core does during one start. */
  datatype Core = Core(parse: Outcome, create: Outcome, start: Outcome, close: Outcome, poller: Outcome)

  datatype StartError = AlreadyRunning | Failed(message: Message)

  /** Some run of atomic steps from the initial engine leads here. */
  ghost predicate Reachable(m: Machine) {
    exists es :: Run(INITIAL, es) == m
  }

  lemma ReachNext(m: Machine, e: Event)
    requires Reachable(m)
    ensures Reachable(Step(m, e))
  {
    var es :| Run(INITIAL, es) == m;
    assert (es + [e])[..|es|] == es;
    assert Run(INITIAL, es + [e]) == Step(m, e);
  }

  lemma HolderNext(m: Machine, o: Outcome, next: Machine)
    requires Reachable(m) && AdvanceHolder(m, o) == next
    ensures Reachable(next)
  {
    ReachNext(m, Advance(o));
  }

  lemma ReachableIsLawful(m: Machine)
    requires Reachable(m)
    ensures Lawful(m)
  {
    var es :| Run(INITIAL, es) == m;
    ReadersAreSafe(es);
  }

  // Each lemma takes the mutex holder through one stretch of straight-line code.

  lemma EnterStart(m: Machine)
    requires Reachable(m) && m.pc.Idle? && m.instance.None?
    ensures var started := m.(status := Starting, pc := StartContext);
            && Reachable(started)
            && Reachable(started.(contexts := m.contexts + 1, pc := StartParse(m.contexts)))
  {
    var entered, started := m.(pc := StartEntered), m.(status := Starting, pc := StartContext);
    ReachNext(m, CallStart);
    HolderNext(entered, Succeeds, started);
    HolderNext(started, Succeeds, started.(contexts := m.contexts + 1, pc := StartParse(m.contexts)));
  }

  lemma ParseStep(m: Machine, c: ContextId, o: Outcome)
    requires Reachable(m) && m.pc == StartParse(c)
    ensures Reachable(if o.Panics? then LosePanic(m, {})
                      else m.(pc := if o.Fails? then FailCancel(c, ParseFailed) else StartNew(c)))
  {
    HolderNext(m, o, AdvanceHolder(m, o));
  }

  lemma CreateStep(m: Machine, c: ContextId, o: Outcome)
    requires Reachable(m) && m.pc == StartNew(c)
    ensures Reachable(if o.Panics? then LosePanic(m, {})
                      else if o.Fails? then m.(pc := FailCancel(c, CreateFailed))
                      else m.(boxes := m.boxes + 1, pc := StartBox(c, m.boxes)))
  {
    HolderNext(m, o, AdvanceHolder(m, o));
  }

  lemma BoxStep(m: Machine, c: ContextId, b: BoxId, o: Outcome)
    requires Reachable(m) && m.pc == StartBox(c, b)
    ensures Reachable(if o.Panics? then LosePanic(m, {b})
                      else m.(pc := if o.Fails? then FailClose(c, b) else StartInstall(c, b)))
  {
    HolderNext(m, o, AdvanceHolder(m, o));
  }

  lemma FailCloseStep(m: Machine, c: ContextId, b: BoxId, o: Outcome)
    requires Reachable(m) && m.pc == FailClose(c, b)
    ensures var asked := m.(asked := m.asked + multiset{b});
            Reachable(if o.Panics? then LosePanic(asked, {}) else asked.(pc := FailCancel(c, StartFailed)))
  {
    HolderNext(m, o, AdvanceHolder(m, o));
  }

  lemma FailCancelStep(m: Machine, c: ContextId, e: Message)
    requires Reachable(m) && m.pc == FailCancel(c, e)
    ensures Reachable(m.(cancelled := m.cancelled + {c}, pc := FailStoreError(e)))
  {
    HolderNext(m, Fails, AdvanceHolder(m, Fails));
  }

  lemma FailErrorSteps(m: Machine, e: Message)
    requires Reachable(m) && m.pc == FailStoreError(e)
    ensures var stored := m.(lastError := e, pc := FailStatus);
            Reachable(stored) && Reachable(stored.(status := Error, pc := Idle))
  {
    var stored := m.(lastError := e, pc := FailStatus);
    HolderNext(m, Fails, stored);
    HolderNext(stored, Fails, stored.(status := Error, pc := Idle));
  }

  lemma PanicSteps(m: Machine)
    requires Reachable(m) && m.pc.PanicStoreError?
    ensures var stored := m.(lastError := EnginePanic, pc := PanicStatus);
            Reachable(stored) && Reachable(stored.(status := Error, pc := CleanClose(false)))
  {
    var stored := m.(lastError := EnginePanic, pc := PanicStatus);
    HolderNext(m, Panics, stored);
    HolderNext(stored, Panics, stored.(status := Error, pc := CleanClose(false)));
  }

  lemma InstallSteps(m: Machine, c: ContextId, b: BoxId)
    requires Reachable(m) && m.pc == StartInstall(c, b)
    ensures var installed := m.(instance := Some(b), pc := StartHold(c));
            Reachable(installed) && Reachable(installed.(cancel := Some(c), pc := StartClearError(c)))
  {
    var installed := m.(instance := Some(b), pc := StartHold(c));
    HolderNext(m, Succeeds, installed);
    HolderNext(installed, Succeeds, installed.(cancel := Some(c), pc := StartClearError(c)));
  }

  lemma RunningSteps(m: Machine, c: ContextId)
    requires Reachable(m) && m.pc == StartClearError(c)
    ensures var cleared := m.(lastError := Empty, pc := StartRunning(c));
            Reachable(cleared) && Reachable(cleared.(status := Running, pc := StartPoller(c)))
  {
    var cleared := m.(lastError := Empty, pc := StartRunning(c));
    HolderNext(m, Succeeds, cleared);
    HolderNext(cleared, Succeeds, cleared.(status := Running, pc := StartPoller(c)));
  }

  lemma PollerStep(m: Machine, c: ContextId, o: Outcome)
    requires Reachable(m) && m.pc == StartPoller(c)
    ensures Reachable(if o.Panics? then m.(pc := PanicStoreError)
                      else if o.Fails? then m.(pc := Idle)
                      else m.(pollers := m.pollers + [Poller(c, Selecting)], pc := Idle))
  {
    HolderNext(m, o, AdvanceHolder(m, o));
  }

  lemma EnterStop(m: Machine)
    requires Reachable(m) && m.pc.Idle?
    ensures m.instance.None? ==> Reachable(m.(status := Stopped))
    ensures m.instance.Some? ==> Reachable(m.(status := Stopping, pc := CleanClose(true)))
  {
    var entered := m.(pc := StopEntered);
    ReachNext(m, CallStop);
    if m.instance.None? {
      HolderNext(entered, Succeeds, m.(status := Stopped));
    } else {
      HolderNext(entered, Succeeds, m.(pc := StopStopping));
      HolderNext(m.(pc := StopStopping), Succeeds, m.(status := Stopping, pc := CleanClose(true)));
    }
  }

  lemma CloseSteps(m: Machine, stopping: bool)
    requires Reachable(m) && m.pc == CleanClose(stopping)
    ensures m.instance.None? ==> Reachable(m.(pc := CleanCancel(stopping)))
    ensures m.instance.Some? ==>
              Reachable(m.(asked := m.asked + multiset{m.instance.value}, instance := None, pc := CleanCancel(stopping)))
  {
    if m.instance.None? {
      HolderNext(m, Succeeds, m.(pc := CleanCancel(stopping)));
    } else {
      var waiting := m.(asked := m.asked + multiset{m.instance.value}, pc := CleanWait(stopping));
      HolderNext(m, Succeeds, waiting);
      WaitSteps(waiting, stopping);
    }
  }

  lemma WaitSteps(m: Machine, stopping: bool)
    requires Reachable(m) && m.pc == CleanWait(stopping)
    ensures Reachable(m.(instance := None, pc := CleanCancel(stopping)))
  {
    var waited := m.(pc := CleanDropInstance(stopping));
    HolderNext(m, Succeeds, waited);
    HolderNext(waited, Succeeds, waited.(instance := None, pc := CleanCancel(stopping)));
  }

  lemma CancelSteps(m: Machine, stopping: bool)
    requires Reachable(m) && m.pc == CleanCancel(stopping)
    ensures m.cancel.None? ==> Reachable(m.(pc := AfterCleanup(stopping)))
    ensures m.cancel.Some? ==>
              Reachable(m.(cancelled := m.cancelled + {m.cancel.value}, cancel := None, pc := AfterCleanup(stopping)))
  {
    if m.cancel.None? {
      HolderNext(m, Succeeds, m.(pc := AfterCleanup(stopping)));
    } else {
      var cancelled := m.(cancelled := m.cancelled + {m.cancel.value}, pc := CleanDropCancel(stopping));
      HolderNext(m, Succeeds, cancelled);
      HolderNext(cancelled, Succeeds, cancelled.(cancel := None, pc := AfterCleanup(stopping)));
    }
  }

  lemma StoppedStep(m: Machine)
    requires Reachable(m) && m.pc.StopStopped?
    ensures Reachable(m.(status := Stopped, pc := Idle))
  {
    HolderNext(m, Succeeds, m.(status := Stopped, pc := Idle));
  }

  /**
   The engine struct under its mutex. `machine` moves by atomic steps only and is
   always reachable; after every store below the fields equal the machine's, so
   what is proved of all runs holds of this object at each of its stores.
   */
  class Engine {
    var status: Status
    var lastError: Message
    var instance: Option<BoxId>
    var cancel: Option<ContextId>
    var boxes: nat
    var contexts: nat
    ghost var machine: Machine

    /** The fields are those of the machine at this very step. */
    ghost predicate Mirrors()
      reads this
    {
      && Reachable(machine)
      && status == machine.status && lastError == machine.lastError
      && instance == machine.instance && cancel == machine.cancel
      && boxes == machine.boxes && contexts == machine.contexts
    }

    /** The lock is free. */
    ghost predicate Valid()
      reads this
    {
      Mirrors() && machine.pc.Idle?
    }

    constructor ()
      ensures Valid() && machine == INITIAL && status == Stopped && instance.None?
    {
      status, lastError, instance, cancel, boxes, contexts := Stopped, Empty, None, None, 0, 0;
      machine := INITIAL;
      assert Run(INITIAL, []) == INITIAL;
    }

    /** Close may hang: the wait ends by itself after five seconds either way. */
    method ForceCleanupLocked(ghost stopping: bool)
      requires Mirrors() && machine.pc == CleanClose(stopping)
      modifies `instance, `cancel, `machine
      ensures Mirrors() && machine.pc == AfterCleanup(stopping) && instance.None? && cancel.None?
      ensures machine.asked == old(machine).asked + if old(instance).Some? then multiset{old(instance).value} else multiset{}
      ensures machine.cancelled == old(machine).cancelled + if old(cancel).Some? then {old(cancel).value} else {}
    {
      CloseSteps(machine, stopping);
      if instance.Some? {
        machine := machine.(asked := machine.asked + multiset{instance.value}, instance := None, pc := CleanCancel(stopping));
        instance := None;
      } else {
        machine := machine.(pc := CleanCancel(stopping));
      }
      assert Mirrors();
      CancelSteps(machine, stopping);
      if cancel.Some? {
        machine := machine.(cancelled := machine.cancelled + {cancel.value}, cancel := None, pc := AfterCleanup(stopping));
        cancel := None;
      } else {
        machine := machine.(pc := AfterCleanup(stopping));
      }
    }

    /** The deferred recover of start: setError, then forceCleanupLocked. */
    method Recover() returns (err: Option<StartError>)
      requires Mirrors() && machine.pc.PanicStoreError?
      modifies `lastError, `status, `instance, `cancel, `machine
      ensures Valid() && FailedWith(err)
    {
      PanicSteps(machine);
      lastError := EnginePanic;
      machine := machine.(lastError := EnginePanic, pc := PanicStatus);
      assert Mirrors();
      status := Error;
      machine := machine.(status := Error, pc := CleanClose(false));
      assert Mirrors();
      ForceCleanupLocked(false);
      err := Some(Failed(EnginePanic));
    }

    /** start returned an error and left nothing running behind it. */
    ghost predicate FailedWith(err: Option<StartError>)
      reads this
    {
      err == Some(Failed(lastError)) && lastError != Empty && status == Error && instance.None? && cancel.None?
    }

    /** cancel(), setError(wrapped), return wrapped. */
    method FailWith(ctx: ContextId, m: Message) returns (err: Option<StartError>)
      requires Mirrors() && machine.pc == FailCancel(ctx, m) && m != Empty && instance.None? && cancel.None?
      modifies `lastError, `status, `machine
      ensures Valid() && FailedWith(err) && lastError == m
      ensures machine.cancelled == old(machine).cancelled + {ctx}
    {
      FailCancelStep(machine, ctx, m);
      machine := machine.(cancelled := machine.cancelled + {ctx}, pc := FailStoreError(m));
      FailErrorSteps(machine, m);
      lastError := m;
      machine := machine.(lastError := m, pc := FailStatus);
      assert Mirrors();
      status := Error;
      machine := machine.(status := Error, pc := Idle);
      err := Some(Failed(m));
    }

    /** From a started box to a running engine. */
    method Install(box: BoxId, ctx: ContextId, poller: Outcome) returns (err: Option<StartError>)
      requires Mirrors() && machine.pc == StartInstall(ctx, box)
      modifies `instance, `cancel, `lastError, `status, `machine
      ensures Valid()
      ensures !poller.Panics? ==> err.None? && status == Running && lastError == Empty && instance == Some(box) && cancel == Some(ctx)
      ensures poller.Panics? ==> FailedWith(err)
    {
      InstallSteps(machine, ctx, box);
      instance := Some(box);
      machine := machine.(instance := Some(box), pc := StartHold(ctx));
      assert Mirrors();
      cancel := Some(ctx);
      machine := machine.(cancel := Some(ctx), pc := StartClearError(ctx));
      assert Mirrors();
      RunningSteps(machine, ctx);
      lastError := Empty;
      machine := machine.(lastError := Empty, pc := StartRunning(ctx));
      assert Mirrors();
      status := Running;
      machine := machine.(status := Running, pc := StartPoller(ctx));
      assert Mirrors();
      PollerStep(machine, ctx, poller);
      if poller.Panics? {
        machine := machine.(pc := PanicStoreError);
        err := Recover();
      } else if poller.Fails? {
        machine := machine.(pc := Idle);
        err := None;
      } else {
        machine := machine.(pollers := machine.pollers + [Poller(ctx, Selecting)], pc := Idle);
        err := None;
      }
    }

    /** instance.Start() on a new box. */
    method StartTheBox(box: BoxId, ctx: ContextId, core: Core) returns (err: Option<StartError>)
      requires Mirrors() && machine.pc == StartBox(ctx, box) && instance.None? && cancel.None?
      modifies this
      ensures Valid()
      ensures err.None? <==> core.start.Succeeds? && !core.poller.Panics?
      ensures err.None? ==> status == Running && lastError == Empty && instance == Some(box) && cancel == Some(ctx)
      ensures err.Some? ==> FailedWith(err)
    {
      BoxStep(machine, ctx, box, core.start);
      match core.start
      case Panics =>
        machine := LosePanic(machine, {box});
        err := Recover();
      case Fails =>
        machine := machine.(pc := FailClose(ctx, box));
        FailCloseStep(machine, ctx, box, core.close);
        machine := machine.(asked := machine.asked + multiset{box});
        if core.close.Panics? {
          machine := LosePanic(machine, {});
          err := Recover();
        } else {
          machine := machine.(pc := FailCancel(ctx, StartFailed));
          err := FailWith(ctx, StartFailed);
        }
      case Succeeds =>
        machine := machine.(pc := StartInstall(ctx, box));
        err := Install(box, ctx, core.poller);
    }

    /** From a fresh context to a running engine, or an error return. */
    method Build(ctx: ContextId, core: Core) returns (err: Option<StartError>)
      requires Mirrors() && machine.pc == StartParse(ctx) && instance.None? && cancel.None?
      modifies this
      ensures Valid()
      ensures err.None? <==> core.parse.Succeeds? && core.create.Succeeds? && core.start.Succeeds? && !core.poller.Panics?
      ensures err.None? ==> status == Running && lastError == Empty && instance == Some(old(boxes)) && cancel == Some(ctx)
      ensures err.Some? ==> FailedWith(err)
    {
      ParseStep(machine, ctx, core.parse);
      if core.parse.Panics? {
        machine := LosePanic(machine, {});
        err := Recover();
        return;
      }
      if core.parse.Fails? {
        machine := machine.(pc := FailCancel(ctx, ParseFailed));
        err := FailWith(ctx, ParseFailed);
        return;
      }
      machine := machine.(pc := StartNew(ctx));
      CreateStep(machine, ctx, core.create);
      if core.create.Panics? {
        machine := LosePanic(machine, {});
        err := Recover();
        return;
      }
      if core.create.Fails? {
        machine := machine.(pc := FailCancel(ctx, CreateFailed));
        err := FailWith(ctx, CreateFailed);
        return;
      }
      machine := machine.(boxes := machine.boxes + 1, pc := StartBox(ctx, boxes));
      boxes := boxes + 1;
      err := StartTheBox(boxes - 1, ctx, core);
    }

    method Start(core: Core) returns (err: Option<StartError>)
      requires Valid()
      modifies this
      ensures Valid()
      ensures old(instance).Some? ==>
                && err == Some(AlreadyRunning) && machine == old(machine)
                && status == old(status) && lastError == old(lastError) && instance == old(instance) && cancel == old(cancel)
      ensures old(instance).None? ==>
                && (err.None? <==> core.parse.Succeeds? && core.create.Succeeds? && core.start.Succeeds? && !core.poller.Panics?)
                && (err.None? ==> status == Running && lastError == Empty && instance == Some(old(boxes)) && cancel == Some(old(contexts)))
                && (err.Some? ==> FailedWith(err))
    {
      ReachableIsLawful(machine);
      if instance.Some? { return Some(AlreadyRunning); }
      EnterStart(machine);
      status := Starting;
      machine := machine.(status := Starting, pc := StartContext);
      assert Mirrors();
      var ctx := contexts;
      contexts := contexts + 1;
      machine := machine.(contexts := contexts, pc := StartParse(ctx));
      err := Build(ctx, core);
    }

    method Stop()
      requires Valid()
      modifies this
      ensures Valid()
      ensures status == Stopped && instance.None? && cancel.None? && lastError == old(lastError)
      ensures machine.asked == old(machine).asked + if old(instance).Some? then multiset{old(instance).value} else multiset{}
      ensures machine.cancelled == old(machine).cancelled + if old(cancel).Some? then {old(cancel).value} else {}
    {
      ReachableIsLawful(machine);
      EnterStop(machine);
      if instance.None? {
        status := Stopped;
        machine := machine.(status := Stopped);
        return;
      }
      status := Stopping;
      machine := machine.(status := Stopping, pc := CleanClose(true));
      assert Mirrors();
      ForceCleanupLocked(true);
      StoppedStep(machine);
      status := Stopped;
      machine := machine.(status := Stopped, pc := Idle);
    }
  }
}
