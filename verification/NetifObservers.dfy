/**
 The registry's observers: default-interface callbacks and the network manager's
 pulls. A registry call changes the state and copies the callback list in one
 critical section; everything it then owes the core happens step by step after
 the lock is released, and between any two of those steps the core may register
 or unregister callbacks, also from inside a callback.
 */
module NetifObservers {
  import opened Wrappers
  import opened Netif
  import R = NetifRegistry

  /**
   `owed` is what the running registry call still has to do outside the lock.
   `told` is the value each callback was last given, `pulled` the table each
   network manager last read. `due` and `dueManager` are history: the callbacks
   registered at the last default change, and the manager at the last change.
   */
  datatype State = State(
    registry: R.Registry, callbacks: seq<nat>, nextElement: nat, manager: Option<nat>,
    owed: seq<R.Action>,
    told: map<nat, Option<ControlInterface>>, pulled: map<nat, map<Handle, NetworkInterface>>,
    due: set<nat>, dueManager: Option<nat>)

  datatype Event =
    | CallRegistry(call: R.Call)
    | DoNext
    | Register
    | Unregister(callback: nat)
    | SetManager(manager: nat)

  const INITIAL := State(R.EMPTY_REGISTRY, [], 0, None, [], map[], map[], {}, None)

  function Without(callbacks: seq<nat>, e: nat): seq<nat> {
    if callbacks == [] then []
    else if callbacks[0] == e then callbacks[1..]
    else [callbacks[0]] + Without(callbacks[1..], e)
  }

  function Perform(s: State, a: R.Action): State {
    match a
    case Refresh(m) => s.(pulled := s.pulled[m := s.registry.ifaces])
    case Notify(c, value) => s.(told := s.told[c := value])
  }

  /** Downcalls are serialized: the next one starts when the last one owes nothing. */
  function Step(s: State, e: Event, p: R.Parser): State {
    match e
    case CallRegistry(call) =>
      if s.owed != [] then s
      else
        var after := s.(registry := R.Apply(s.registry, call, p),
                        owed := R.Aftermath(s.registry, call, s.manager, s.callbacks));
        if call.SetDefault? || call.Reset?
        then after.(due := (set c | c in s.callbacks), dueManager := s.manager)
        else if call.Lost? && call.handle !in s.registry.ifaces then after
        else after.(dueManager := s.manager)
    case DoNext => if s.owed == [] then s else Perform(s, s.owed[0]).(owed := s.owed[1..])
    case Register => s.(callbacks := s.callbacks + [s.nextElement], nextElement := s.nextElement + 1)
    case Unregister(c) => s.(callbacks := Without(s.callbacks, c))
    case SetManager(m) => s.(manager := Some(m))
  }

  function Run(es: seq<Event>, p: R.Parser): State {
    if es == [] then INITIAL else Step(Run(es[..|es| - 1], p), es[|es| - 1], p)
  }

  /** A callback that was registered at the last default change knows the default, or will be told. */
  ghost predicate Told(s: State) {
    forall c :: c in s.due ==> R.Notify(c, s.registry.defaultIface) in s.owed || (c in s.told && s.told[c] == s.registry.defaultIface)
  }

  /** Whatever is still owed tells the current default: no callback is ever given a stale one. */
  ghost predicate OwesCurrent(s: State) {
    forall a :: a in s.owed && a.Notify? ==> a.value == s.registry.defaultIface
  }

  predicate Pulled(s: State) {
    s.dueManager.Some? ==>
      var m := s.dueManager.value;
      R.Refresh(m) in s.owed || (m in s.pulled && s.pulled[m] == s.registry.ifaces)
  }

  ghost predicate Inv(s: State) { Told(s) && OwesCurrent(s) && Pulled(s) }

  lemma NotificationsReach(callbacks: seq<nat>, value: Option<ControlInterface>)
    ensures forall c :: c in callbacks ==> R.Notify(c, value) in R.Notifications(callbacks, value)
    ensures forall a :: a in R.Notifications(callbacks, value) ==> a == R.Notify(a.callback, value) && a.callback in callbacks
  {
    forall c | c in callbacks ensures R.Notify(c, value) in R.Notifications(callbacks, value) {
      var i :| 0 <= i < |callbacks| && callbacks[i] == c;
      assert R.Notifications(callbacks, value)[i] == R.Notify(c, value);
    }
  }

  lemma CallKeepsInv(s: State, call: R.Call, p: R.Parser)
    requires Inv(s) && s.owed == []
    ensures Inv(Step(s, CallRegistry(call), p))
  {
    match call
    case SetDefault(payload) => NotificationsReach(s.callbacks, R.NextDefault(s.registry, payload));
    case Reset => NotificationsReach(s.callbacks, None);
    case Update(_) =>
    case Lost(h) => if h !in s.registry.ifaces { assert s.registry.ifaces - {h} == s.registry.ifaces; }
  }

  lemma DoNextKeepsInv(s: State, p: R.Parser)
    requires Inv(s) && s.owed != []
    ensures Inv(Step(s, DoNext, p))
  {
    var t := Step(s, DoNext, p);
    assert s.owed == [s.owed[0]] + t.owed;
    assert forall a :: a in s.owed <==> a == s.owed[0] || a in t.owed;
  }

  lemma {:induction false} RunKeepsInv(es: seq<Event>, p: R.Parser)
    ensures Inv(Run(es, p))
  {
    if es != [] {
      var s, e := Run(es[..|es| - 1], p), es[|es| - 1];
      RunKeepsInv(es[..|es| - 1], p);
      match e
      case CallRegistry(call) => if s.owed == [] { CallKeepsInv(s, call, p); }
      case DoNext => if s.owed != [] { DoNextKeepsInv(s, p); }
      case Register =>
      case Unregister(_) =>
      case SetManager(_) =>
    }
  }

  /**
   At quiescence, in every interleaving: each callback that was registered at the
   last default change (still registered or not) has last been given the current
   default, and the manager known at the last change last pulled the current table.
   */
  lemma {:induction false} QuietObserversAreCurrent(es: seq<Event>, p: R.Parser)
    ensures var s := Run(es, p);
            s.owed == [] ==>
              && (forall c :: c in s.due ==> c in s.told && s.told[c] == s.registry.defaultIface)
              && (s.dueManager.Some? ==>
                    s.dueManager.value in s.pulled && s.pulled[s.dueManager.value] == s.registry.ifaces)
  {
    RunKeepsInv(es, p);
  }

  /** No interleaving ever hands a callback a value that is not the default at that moment. */
  lemma {:induction false} NoStaleNotification(es: seq<Event>, p: R.Parser)
    ensures var s := Run(es, p);
            s.owed != [] && s.owed[0].Notify? ==> s.owed[0].value == s.registry.defaultIface
  {
    RunKeepsInv(es, p);
    var s := Run(es, p);
    if s.owed != [] { assert s.owed[0] in s.owed; }
  }

  // ---- Who is registered, told by the events alone --------------------------

  /** How many registrations there were; a callback is the number of those before it. */
  function Registrations(es: seq<Event>): nat {
    if es == [] then 0 else Registrations(es[..|es| - 1]) + if es[|es| - 1].Register? then 1 else 0
  }

  predicate RegisteredAt(es: seq<Event>, i: nat, c: nat)
    requires i < |es|
  {
    es[i].Register? && Registrations(es[..i]) == c && Unregister(c) !in es[i + 1..]
  }

  /** Callback `c` was registered by some event and not unregistered by a later one. */
  ghost predicate Live(es: seq<Event>, c: nat) {
    exists i: nat :: i < |es| && RegisteredAt(es, i, c)
  }

  predicate Distinct(callbacks: seq<nat>) {
    forall i, j :: 0 <= i < j < |callbacks| ==> callbacks[i] != callbacks[j]
  }

  lemma {:induction false} WithoutExactly(callbacks: seq<nat>, e: nat)
    requires Distinct(callbacks)
    ensures Distinct(Without(callbacks, e))
    ensures forall c :: c in Without(callbacks, e) <==> c in callbacks && c != e
  {
    if callbacks != [] {
      var rest := callbacks[1..];
      WithoutExactly(rest, e);
      assert callbacks == [callbacks[0]] + rest;
      assert forall c :: c in callbacks <==> c == callbacks[0] || c in rest;
      assert callbacks[0] !in rest;
    }
  }

  lemma RegisteredAtSnoc(es: seq<Event>, e: Event, i: nat, c: nat)
    requires i < |es|
    ensures RegisteredAt(es + [e], i, c) <==> RegisteredAt(es, i, c) && e != Unregister(c)
  {
    var all := es + [e];
    assert all[..i] == es[..i] && all[i] == es[i] && all[i + 1..] == es[i + 1..] + [e];
  }

  lemma RegisteredLast(es: seq<Event>, e: Event, c: nat)
    ensures RegisteredAt(es + [e], |es|, c) <==> e.Register? && Registrations(es) == c
  {
    var all := es + [e];
    assert all[..|es|] == es && all[|es| + 1..] == [];
  }

  lemma LiveSnoc(es: seq<Event>, e: Event, c: nat)
    ensures Live(es + [e], c) <==> ((Live(es, c) && e != Unregister(c)) || (e.Register? && Registrations(es) == c))
  {
    var all := es + [e];
    RegisteredLast(es, e, c);
    if Live(es, c) && e != Unregister(c) {
      var i: nat :| i < |es| && RegisteredAt(es, i, c);
      RegisteredAtSnoc(es, e, i, c);
      assert RegisteredAt(all, i, c);
    }
    if e.Register? && Registrations(es) == c { assert RegisteredAt(all, |es|, c); }
    if Live(all, c) {
      var i: nat :| i < |all| && RegisteredAt(all, i, c);
      if i < |es| { RegisteredAtSnoc(es, e, i, c); }
    }
  }

  ghost predicate ListFits(s: State) {
    Distinct(s.callbacks) && forall c :: c in s.callbacks ==> c < s.nextElement
  }

  lemma StepKeepsList(s: State, e: Event, p: R.Parser)
    requires ListFits(s)
    ensures var t := Step(s, e, p);
            && ListFits(t) && t.nextElement == s.nextElement + (if e.Register? then 1 else 0)
            && forall c: nat :: c in t.callbacks <==> ((c in s.callbacks && e != Unregister(c)) || (e.Register? && c == s.nextElement))
  {
    if e.Unregister? { WithoutExactly(s.callbacks, e.callback); }
    assert forall i :: 0 <= i < |s.callbacks| ==> s.callbacks[i] in s.callbacks && s.callbacks[i] != s.nextElement;
  }

  /** The callback list is exactly what the events say: registered and not since unregistered. */
  lemma {:induction false} CallbacksAreTheLive(es: seq<Event>, p: R.Parser)
    ensures var s := Run(es, p);
            ListFits(s) && s.nextElement == Registrations(es) && forall c: nat :: c in s.callbacks <==> Live(es, c)
  {
    if es != [] {
      var before, e := es[..|es| - 1], es[|es| - 1];
      CallbacksAreTheLive(before, p);
      StepKeepsList(Run(before, p), e, p);
      assert es == before + [e];
      forall c: nat ensures c in Run(es, p).callbacks <==> Live(es, c) { LiveSnoc(before, e, c); }
    }
  }

  /** The j-th event is a default change the registry takes up. */
  predicate ChangesDefault(es: seq<Event>, j: nat, p: R.Parser)
    requires j < |es|
  {
    es[j].CallRegistry? && (es[j].call.SetDefault? || es[j].call.Reset?) && Run(es[..j], p).owed == []
  }

  lemma {:induction false} DueAreTheLive(es: seq<Event>, j: nat, p: R.Parser)
    requires j < |es| && ChangesDefault(es, j, p)
    requires forall k :: j < k < |es| ==> !ChangesDefault(es, k, p)
    ensures forall c :: c in Run(es, p).due <==> Live(es[..j], c)
    decreases |es|
  {
    var before, e := es[..|es| - 1], es[|es| - 1];
    if j == |es| - 1 {
      CallbacksAreTheLive(before, p);
    } else {
      assert before[..j] == es[..j] && before[j] == es[j];
      forall k | j < k < |before| ensures !ChangesDefault(before, k, p) {
        assert before[..k] == es[..k] && before[k] == es[k] && !ChangesDefault(es, k, p);
      }
      DueAreTheLive(before, j, p);
      assert !ChangesDefault(es, |es| - 1, p);
    }
  }

  /**
   At quiescence, in the events' own terms: every callback registered before the last
   default change, and not unregistered before it, has last been given the current
   default.
   */
  lemma {:induction false} RegisteredObserversAreCurrent(es: seq<Event>, j: nat, c: nat, p: R.Parser)
    requires j < |es| && ChangesDefault(es, j, p) && Live(es[..j], c)
    requires forall k :: j < k < |es| ==> !ChangesDefault(es, k, p)
    ensures var s := Run(es, p);
            s.owed == [] ==> c in s.told && s.told[c] == s.registry.defaultIface
  {
    DueAreTheLive(es, j, p);
    QuietObserversAreCurrent(es, p);
  }

  /** The manager set last, by the events. */
  function LastManager(es: seq<Event>): Option<nat> {
    if es == [] then None
    else if es[|es| - 1].SetManager? then Some(es[|es| - 1].manager)
    else LastManager(es[..|es| - 1])
  }

  /** A registry call that takes place: nothing of the one before is still owed. */
  predicate TakesPlace(es: seq<Event>, j: nat, p: R.Parser)
    requires j < |es|
  {
    es[j].CallRegistry? && Run(es[..j], p).owed == []
  }

  lemma {:induction false} ManagerIsTheLast(es: seq<Event>, p: R.Parser)
    ensures Run(es, p).manager == LastManager(es)
  {
    if es != [] { ManagerIsTheLast(es[..|es| - 1], p); }
  }

  lemma {:induction false} DueManagerIsTheLast(es: seq<Event>, j: nat, p: R.Parser)
    requires j < |es| && TakesPlace(es, j, p)
    requires es[j].call.Lost? ==> es[j].call.handle in Run(es[..j], p).registry.ifaces
    requires forall k :: j < k < |es| ==> !TakesPlace(es, k, p)
    ensures Run(es, p).dueManager == LastManager(es[..j])
    decreases |es|
  {
    var before := es[..|es| - 1];
    if j == |es| - 1 {
      ManagerIsTheLast(before, p);
    } else {
      assert before[..j] == es[..j] && before[j] == es[j];
      forall k | j < k < |before| ensures !TakesPlace(before, k, p) {
        assert before[..k] == es[..k] && before[k] == es[k] && !TakesPlace(es, k, p);
      }
      DueManagerIsTheLast(before, j, p);
      assert !TakesPlace(es, |es| - 1, p);
    }
  }

  /**
   At quiescence, in the events' own terms: the manager set last before the last
   registry call, unless that lost a network the registry did not have, has pulled the
   table as it is.
   */
  lemma {:induction false} TheManagerIsCurrent(es: seq<Event>, j: nat, p: R.Parser)
    requires j < |es| && TakesPlace(es, j, p)
    requires es[j].call.Lost? ==> es[j].call.handle in Run(es[..j], p).registry.ifaces
    requires forall k :: j < k < |es| ==> !TakesPlace(es, k, p)
    ensures var s, m := Run(es, p), LastManager(es[..j]);
            s.owed == [] && m.Some? ==> m.value in s.pulled && s.pulled[m.value] == s.registry.ifaces
  {
    DueManagerIsTheLast(es, j, p);
    QuietObserversAreCurrent(es, p);
  }

  // ---- Pull first, then notify ----------------------------------------------

  /** No pull is owed behind a notification. */
  predicate PullsFirst(owed: seq<R.Action>) {
    forall i, j :: 0 <= i < j < |owed| && owed[i].Notify? ==> owed[j].Notify?
  }

  lemma AftermathPullsFirst(r: R.Registry, call: R.Call, manager: Option<nat>, callbacks: seq<nat>)
    ensures PullsFirst(R.Aftermath(r, call, manager, callbacks))
  {
  }

  lemma {:induction false} OwesPullsFirst(es: seq<Event>, p: R.Parser)
    ensures PullsFirst(Run(es, p).owed)
  {
    if es != [] {
      var s, e := Run(es[..|es| - 1], p), es[|es| - 1];
      OwesPullsFirst(es[..|es| - 1], p);
      if e.CallRegistry? { AftermathPullsFirst(s.registry, e.call, s.manager, s.callbacks); }
    }
  }

  /** By the time a callback is told of a default, the manager has pulled the table that goes with it. */
  lemma {:induction false} PullPrecedesNotification(es: seq<Event>, p: R.Parser)
    ensures var s := Run(es, p);
            s.owed != [] && s.owed[0].Notify? && s.dueManager.Some? ==>
              s.dueManager.value in s.pulled && s.pulled[s.dueManager.value] == s.registry.ifaces
  {
    RunKeepsInv(es, p);
    OwesPullsFirst(es, p);
    var s := Run(es, p);
    if s.owed != [] && s.owed[0].Notify? && s.dueManager.Some? {
      assert forall j :: 0 <= j < |s.owed| ==> s.owed[j].Notify?;
      assert R.Refresh(s.dueManager.value) !in s.owed;
    }
  }
}
