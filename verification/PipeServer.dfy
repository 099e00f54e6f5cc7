/**
 The daemon's accept loop racing with stop(), one critical section or system call
 per step.
 */
module PipeServer {
  import opened Wrappers

  type Handle = nat

  /** Where acceptLoop stands. */
  datatype Loop =
    | MakeSecurity
    | Create
    | Register(h: Handle)              // about to publish the instance under the lock
    | Wait(h: Handle)                  // blocked in ConnectNamedPipe
    | Woken(h: Handle, connected: bool)
    | CloseAndReturn(h: Handle)
    | CloseAndRetry(h: Handle)
    | Verify(h: Handle)
    | Returned

  datatype Stopper = NotCalled | Closing(h: Option<Handle>) | Finished

  /** The fields under the server's mutex. */
  datatype Shared = Shared(cur: Option<Handle>, stopped: bool)

  /**
   `closes` counts CloseHandle calls; `workers` are the handles owned by a running
   `handle`. `taken` and `servedAfterStop` are history: the instance stop() took
   out of `cur`, and the clients handed to a worker after its critical section.
   */
  datatype Server = Server(
    shared: Shared, loop: Loop, stopper: Stopper, created: nat,
    closes: multiset<Handle>, workers: set<Handle>, taken: Option<Handle>, servedAfterStop: nat)

  const INITIAL := Server(Shared(None, false), MakeSecurity, NotCalled, 0, multiset{}, {}, None, 0)

  datatype Event =
    | LoopStep(ok: bool)     // acceptLoop's next step; `ok` is what the call it makes answers
    | StopEnter              // stop()'s critical section
    | StopClose              // stop() closes what it took
    | WorkerEnds(h: Handle)  // a client is gone: the deferred conn.Close()

  // ---- The three critical sections ------------------------------------------

  /** Publishes a new instance unless stop() has been called. */
  function AfterRegister(s: Shared, h: Handle): Shared { if s.stopped then s else s.(cur := Some(h)) }

  function AfterWake(s: Shared): Shared { s.(cur := None) }

  function AfterStop(s: Shared): Shared { Shared(None, true) }

  // ---- Steps ----------------------------------------------------------------

  function Close(s: Server, h: Handle): Server { s.(closes := s.closes + multiset{h}) }

  /** Connecting on a handle that stop() has closed fails. */
  function LoopNext(s: Server, ok: bool): Server {
    match s.loop
    case MakeSecurity => s.(loop := if ok then Create else Returned)
    case Create => if ok then s.(loop := Register(s.created), created := s.created + 1) else s.(loop := Returned)
    case Register(h) =>
      s.(shared := AfterRegister(s.shared, h), loop := if s.shared.stopped then CloseAndReturn(h) else Wait(h))
    case Wait(h) => s.(loop := Woken(h, ok && s.closes[h] == 0))
    case Woken(h, connected) =>
      s.(shared := AfterWake(s.shared),
         loop := if s.shared.stopped then CloseAndReturn(h) else if connected then Verify(h) else CloseAndRetry(h))
    case CloseAndReturn(h) => Close(s, h).(loop := Returned)
    case CloseAndRetry(h) => Close(s, h).(loop := Create)
    case Verify(h) =>
      if ok then s.(workers := s.workers + {h}, loop := Create,
                    servedAfterStop := s.servedAfterStop + if s.shared.stopped then 1 else 0)
      else Close(s, h).(loop := Create)
    case Returned => s
  }

  function Step(s: Server, e: Event): Server {
    match e
    case LoopStep(ok) => LoopNext(s, ok)
    case StopEnter =>
      if s.stopper != NotCalled then s
      else s.(shared := AfterStop(s.shared), stopper := Closing(s.shared.cur), taken := s.shared.cur)
    case StopClose =>
      if !s.stopper.Closing? then s
      else (if s.stopper.h.Some? then Close(s, s.stopper.h.value) else s).(stopper := Finished)
    case WorkerEnds(h) => if h in s.workers then Close(s, h).(workers := s.workers - {h}) else s
  }

  function Run(es: seq<Event>): Server {
    if es == [] then INITIAL else Step(Run(es[..|es| - 1]), es[|es| - 1])
  }

  // ---- Invariants -----------------------------------------------------------

  function Held(l: Loop): Option<Handle> {
    if l.MakeSecurity? || l.Create? || l.Returned? then None else Some(l.h)
  }

  /** How often stop() has closed `h` so far. */
  function StopClosed(s: Server, h: Handle): nat {
    if s.taken == Some(h) && s.stopper == Finished then 1 else 0
  }

  predicate HandleFits(s: Server, h: Handle) {
    && s.closes[h] <= 1 + StopClosed(s, h)
    && (h >= s.created ==> s.closes[h] == 0 && h !in s.workers && Held(s.loop) != Some(h))
    && (h in s.workers ==> s.closes[h] == 0 && s.taken != Some(h) && Held(s.loop) != Some(h))
    && (Held(s.loop) == Some(h) ==> s.closes[h] == StopClosed(s, h))
    && (h < s.created && h !in s.workers && Held(s.loop) != Some(h) ==> s.closes[h] >= 1)
  }

  ghost predicate HandlesFit(s: Server) {
    forall h: Handle :: HandleFits(s, h)
  }

  predicate StopFits(s: Server) {
    && (s.shared.stopped <==> s.stopper != NotCalled)
    && (s.stopper == NotCalled ==> s.taken.None? && s.servedAfterStop == 0)
    && (s.stopper.Closing? ==> s.stopper.h == s.taken)
    && (s.shared.cur.Some? ==>
          !s.shared.stopped && (s.loop == Wait(s.shared.cur.value) || (s.loop.Woken? && s.loop.h == s.shared.cur.value)))
    && (s.loop.Wait? ==> if s.shared.stopped then s.taken == Some(s.loop.h) else s.shared.cur == Some(s.loop.h))
    && (s.taken.Some? ==> s.taken.value < s.created && s.taken.value !in s.workers)
    && (s.loop.Register? || s.loop.Verify? ==> s.taken != Some(s.loop.h))
    && (s.loop.CloseAndRetry? ==> s.taken != Some(s.loop.h))
    && s.servedAfterStop + (if s.shared.stopped && s.loop.Verify? then 1 else 0) <= 1
  }

  lemma LoopKeepsHandle(s: Server, ok: bool, h: Handle)
    requires HandleFits(s, h) && StopFits(s) && (s.loop.Create? ==> HandleFits(s, s.created))
    ensures HandleFits(LoopNext(s, ok), h)
  {
  }

  lemma StopKeepsHandle(s: Server, e: Event, h: Handle)
    requires HandleFits(s, h) && StopFits(s) && !e.LoopStep?
    ensures HandleFits(Step(s, e), h)
  {
  }

  lemma LoopKeepsStop(s: Server, ok: bool)
    requires HandlesFit(s) && StopFits(s)
    ensures StopFits(LoopNext(s, ok))
  {
  }

  lemma StepKeepsStop(s: Server, e: Event)
    requires HandlesFit(s) && StopFits(s)
    ensures StopFits(Step(s, e))
  {
    if s.shared.cur.Some? { assert HandleFits(s, s.shared.cur.value); }
    if e.LoopStep? { LoopKeepsStop(s, e.ok); }
  }

  lemma StepKeepsInv(s: Server, e: Event)
    requires HandlesFit(s) && StopFits(s)
    ensures HandlesFit(Step(s, e)) && StopFits(Step(s, e))
  {
    StepKeepsStop(s, e);
    forall h: Handle ensures HandleFits(Step(s, e), h) {
      assert HandleFits(s, h) && HandleFits(s, s.created);
      if e.LoopStep? { LoopKeepsHandle(s, e.ok, h); } else { StopKeepsHandle(s, e, h); }
    }
  }

  lemma {:induction false} RunKeepsInv(es: seq<Event>)
    ensures HandlesFit(Run(es)) && StopFits(Run(es))
  {
    if es != [] {
      RunKeepsInv(es[..|es| - 1]);
      StepKeepsInv(Run(es[..|es| - 1]), es[|es| - 1]);
    }
  }

  /** A client is handed to a worker only when the check of its image has just succeeded. */
  lemma OnlyVerifiedClientsAreServed(s: Server, e: Event, h: Handle)
    requires h !in s.workers && h in Step(s, e).workers
    ensures s.loop == Verify(h) && e == LoopStep(true)
  {
  }

  // ---- No handle is leaked --------------------------------------------------

  /**
   In every interleaving each instance ever created is held by the loop, owned by
   a worker that will close it, or closed; it is closed at most twice, and twice
   only if stop() took it from `cur`.
   */
  lemma {:induction false} NoHandleIsLeaked(es: seq<Event>, h: Handle)
    ensures var s := Run(es);
            && (h < s.created ==> s.closes[h] >= 1 || h in s.workers || Held(s.loop) == Some(h))
            && s.closes[h] <= 2
            && (s.closes[h] == 2 ==> s.taken == Some(h))
  {
    RunKeepsInv(es);
    assert HandleFits(Run(es), h);
  }

  /** Once the loop has returned and the clients are gone, everything created is closed. */
  lemma {:induction false} EverythingIsClosedInTheEnd(es: seq<Event>, h: Handle)
    ensures var s := Run(es);
            s.loop.Returned? && s.workers == {} && h < s.created ==> s.closes[h] >= 1
  {
    RunKeepsInv(es);
    assert HandleFits(Run(es), h);
  }

  /** A worker's handle is open for as long as the worker runs, also while stop() is under way. */
  lemma {:induction false} WorkersKeepTheirHandles(es: seq<Event>, h: Handle)
    ensures var s := Run(es); h in s.workers ==> s.closes[h] == 0
  {
    RunKeepsInv(es);
    assert HandleFits(Run(es), h);
  }

  /** After stop()'s critical section at most one more client is served. */
  lemma {:induction false} AtMostOneMoreClient(es: seq<Event>)
    ensures Run(es).servedAfterStop <= 1
  {
    RunKeepsInv(es);
  }

  // ---- The loop returns -----------------------------------------------------

  /** Steps acceptLoop can still take once stop() has been called. */
  function StepsLeft(l: Loop): nat {
    match l
    case Returned => 0
    case CloseAndReturn(_) => 1
    case Register(_) => 2
    case Woken(_, _) => 2
    case Create => 3
    case Wait(_) => 3
    case Verify(_) => 4
    case CloseAndRetry(_) => 4
    case MakeSecurity => 4
  }

  /** The loop can go on: ConnectNamedPipe returns once its handle is closed. */
  predicate NotBlocked(s: Server) {
    s.loop.Wait? ==> s.closes[s.loop.h] >= 1
  }

  /** Nothing keeps the loop waiting once stop() is done, whatever happened before. */
  lemma {:induction false} StopUnblocksTheLoop(es: seq<Event>)
    ensures Run(es).stopper == Finished ==> NotBlocked(Run(es))
  {
    RunKeepsInv(es);
    if Run(es).loop.Wait? { assert HandleFits(Run(es), Run(es).loop.h); }
  }

  function LoopSteps(es: seq<Event>): nat {
    if es == [] then 0 else LoopSteps(es[..|es| - 1]) + if es[|es| - 1].LoopStep? then 1 else 0
  }

  lemma StepUsesUp(s: Server, e: Event)
    requires s.shared.stopped
    ensures var t := Step(s, e);
            t.shared.stopped
            && StepsLeft(t.loop) + (if e.LoopStep? && !s.loop.Returned? then 1 else 0) <= StepsLeft(s.loop)
            && (s.loop.Returned? ==> t.loop.Returned?)
  {
  }

  lemma {:induction false} StepsAreUsedUp(es: seq<Event>, more: seq<Event>)
    requires Run(es).shared.stopped
    ensures var s, t := Run(es), Run(es + more);
            t.shared.stopped && (t.loop.Returned? || StepsLeft(t.loop) + LoopSteps(more) <= StepsLeft(s.loop))
    decreases |more|
  {
    if more == [] {
      assert es + more == es;
    } else {
      var before := more[..|more| - 1];
      assert (es + more)[..|es + more| - 1] == es + before;
      StepsAreUsedUp(es, before);
      StepUsesUp(Run(es + before), more[|more| - 1]);
    }
  }

  /** stop() has had its critical section, and been followed up. */
  ghost predicate Completes(es: seq<Event>) {
    exists i, j :: 0 <= i < j < |es| && es[i] == StopEnter && es[j] == StopClose
  }

  lemma CompletesWith(es: seq<Event>, e: Event)
    ensures Completes(es + [e]) <==> Completes(es) || (e == StopClose && StopEnter in es)
  {
    var all := es + [e];
    assert all[|es|] == e && forall i :: 0 <= i < |es| ==> all[i] == es[i];
    if e == StopClose && StopEnter in es {
      var i :| 0 <= i < |es| && es[i] == StopEnter;
      assert all[i] == StopEnter && all[|es|] == StopClose;
    }
  }

  lemma StopperMoves(s: Server, e: Event)
    requires s.shared.stopped <==> s.stopper != NotCalled
    ensures var t := Step(s, e);
            && (t.shared.stopped <==> t.stopper != NotCalled)
            && (t.stopper != NotCalled <==> s.stopper != NotCalled || e == StopEnter)
            && (t.stopper == Finished <==> s.stopper == Finished || (s.stopper != NotCalled && e == StopClose))
  {
  }

  /** The server is stopped exactly if stop() has had its critical section, and stop() done exactly if that was followed up. */
  lemma {:induction false} StoppedExactly(es: seq<Event>)
    ensures var s := Run(es);
            && (s.shared.stopped <==> StopEnter in es)
            && (s.stopper != NotCalled <==> StopEnter in es)
            && (s.stopper == Finished <==> Completes(es))
  {
    if es != [] {
      var before, e := es[..|es| - 1], es[|es| - 1];
      StoppedExactly(before);
      StopperMoves(Run(before), e);
      CompletesWith(before, e);
      assert es == before + [e];
      assert StopEnter in es <==> StopEnter in before || e == StopEnter;
    }
  }

  /**
   From stop()'s critical section on the loop returns within four of its own steps,
   whatever the rest of stop() and the workers do in between.
   */
  lemma LoopReturns(es: seq<Event>, more: seq<Event>)
    requires StopEnter in es && LoopSteps(more) >= 4
    ensures Run(es + more).loop.Returned?
  {
    StoppedExactly(es);
    StepsAreUsedUp(es, more);
  }

  // ---- A client is served ---------------------------------------------------

  /** Until stop() is called the loop serves: a new instance, a client on it, its image verified, and it has a worker. */
  lemma AClientIsServed(es: seq<Event>)
    requires StopEnter !in es && Run(es).loop.Create?
    ensures var s := Run(es);
            var t := LoopNext(LoopNext(LoopNext(LoopNext(LoopNext(s, true), true), true), true), true);
            && t.workers == s.workers + {s.created} && t.loop.Create? && t.created == s.created + 1
            && t.closes == s.closes && t.shared == Shared(None, false)
  {
    StoppedExactly(es);
    RunKeepsInv(es);
    assert HandleFits(Run(es), Run(es).created);
  }

  /** What goes wrong closes the instance and tries again; without an instance the loop ends. */
  lemma FailuresCloseTheInstance(es: seq<Event>, ok: bool)
    requires StopEnter !in es && Run(es).loop.Create?
    ensures var s := Run(es);
            var waiting := LoopNext(LoopNext(s, true), true);
            var lost := LoopNext(LoopNext(LoopNext(waiting, false), ok), ok);
            var rejected := LoopNext(LoopNext(LoopNext(waiting, true), ok), false);
            && LoopNext(s, false) == s.(loop := Returned)
            && lost.loop.Create? && lost.workers == s.workers && lost.closes == s.closes + multiset{s.created}
            && rejected.loop.Create? && rejected.workers == s.workers && rejected.closes == s.closes + multiset{s.created}
  {
    StoppedExactly(es);
    RunKeepsInv(es);
    assert HandleFits(Run(es), Run(es).created);
  }

  /** The loop begins with the security descriptor, and waits in vain on an instance that is closed. */
  lemma LoopStarts(s: Server, ok: bool)
    ensures LoopNext(INITIAL, ok) == INITIAL.(loop := if ok then Create else Returned)
    ensures s.loop.Wait? && s.closes[s.loop.h] > 0 ==> LoopNext(s, ok).loop == Woken(s.loop.h, false)
  {
  }

  // ---- The Go object --------------------------------------------------------

  class PipeServer {
    var cur: Option<Handle>
    var stopped: bool

    /** The handles this object has closed, in order. */
    var closed: seq<Handle>

    function View(): Shared
      reads this
    {
      Shared(cur, stopped)
    }

    constructor ()
      ensures View() == INITIAL.shared && closed == []
    {
      cur, stopped, closed := None, false, [];
    }

    method Stop()
      modifies this
      ensures View() == AfterStop(old(View()))
      ensures closed == if old(cur).Some? then old(closed) + [old(cur).value] else old(closed)
    {
      stopped := true;
      var h := cur;
      cur := None;
      if h.Some? { closed := closed + [h.value]; }
    }

    /** Between CreateNamedPipe and ConnectNamedPipe; false means acceptLoop returns. */
    method Publish(h: Handle) returns (wait: bool)
      modifies this
      ensures View() == AfterRegister(old(View()), h)
      ensures wait == !old(stopped)
      ensures closed == if wait then old(closed) else old(closed) + [h]
    {
      if stopped {
        closed := closed + [h];
        return false;
      }
      cur := Some(h);
      wait := true;
    }

    /** After ConnectNamedPipe; answers whether the connection goes on to verification. */
    method Wake(h: Handle, connected: bool) returns (verify: bool)
      modifies this
      ensures View() == AfterWake(old(View()))
      ensures verify == (!old(stopped) && connected)
      ensures closed == if verify then old(closed) else old(closed) + [h]
    {
      var wasStopped := stopped;
      cur := None;
      if wasStopped || !connected {
        closed := closed + [h];
        return false;
      }
      verify := true;
    }
  }
}
