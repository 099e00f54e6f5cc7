/**
 netifRegistry: the engine's cache of the platform's networks. `Registry` and
 `Apply` say what each call does to the cached state, `Aftermath` says which
 outside calls follow once the lock is released, and the class is the Go object
 proved against both.
 */
module NetifRegistry {
  import opened Wrappers
  import opened Netif
  import Csv

  type Parser = string -> bool

  /** The state under the lock that the core reads. */
  datatype Registry = Registry(ifaces: map<Handle, NetworkInterface>, defaultIface: Option<ControlInterface>)

  const EMPTY_REGISTRY := Registry(map[], None)

  datatype Call =
    | Update(s: Snapshot)
    | Lost(handle: Handle)
    | SetDefault(payload: Option<Snapshot>)
    | Reset

  /** A call the registry makes after it has released its lock. */
  datatype Action =
    | Refresh(manager: nat)
    | Notify(callback: nat, value: Option<ControlInterface>)

  function NextDefault(r: Registry, payload: Option<Snapshot>): Option<ControlInterface> {
    if payload.None? || payload.value.handle == NO_NETWORK_HANDLE then None
    else if payload.value.handle in r.ifaces then Some(r.ifaces[payload.value.handle].control)
    else Some(SparseInterface(payload.value))
  }

  function Apply(r: Registry, c: Call, p: Parser): Registry {
    match c
    case Update(s) => r.(ifaces := r.ifaces[s.handle := BuildInterface(s, p)])
    case Lost(h) => r.(ifaces := r.ifaces - {h})
    case SetDefault(payload) => r.(defaultIface := NextDefault(r, payload))
    case Reset => EMPTY_REGISTRY
  }

  function Refreshes(manager: Option<nat>): seq<Action> {
    if manager.Some? then [Refresh(manager.value)] else []
  }

  function Notifications(callbacks: seq<nat>, value: Option<ControlInterface>): seq<Action> {
    seq(|callbacks|, i requires 0 <= i < |callbacks| => Notify(callbacks[i], value))
  }

  /** The outside calls made by `c`, in order; `callbacks` is the list at lock time. */
  function Aftermath(r: Registry, c: Call, manager: Option<nat>, callbacks: seq<nat>): seq<Action> {
    match c
    case Update(_) => Refreshes(manager)
    case Lost(h) => if h in r.ifaces then Refreshes(manager) else []
    case SetDefault(payload) => Refreshes(manager) + Notifications(callbacks, NextDefault(r, payload))
    case Reset => Refreshes(manager) + Notifications(callbacks, None)
  }

  function ApplyAll(r: Registry, calls: seq<Call>, p: Parser): Registry {
    if calls == [] then r else Apply(ApplyAll(r, calls[..|calls| - 1], p), calls[|calls| - 1], p)
  }

  // ---- History: what the cache means ----------------------------------------

  /** The last word on `h` since the last reset. */
  function LastWritten(calls: seq<Call>, h: Handle, p: Parser): Option<NetworkInterface> {
    if calls == [] then None
    else
      var last, before := calls[|calls| - 1], calls[..|calls| - 1];
      match last
      case Update(s) => if s.handle == h then Some(BuildInterface(s, p)) else LastWritten(before, h, p)
      case Lost(g) => if g == h then None else LastWritten(before, h, p)
      case SetDefault(_) => LastWritten(before, h, p)
      case Reset => None
  }

  /**
   The default frozen at the last SetDefault or Reset: later updates and losses
   are skipped, and the entry copied is the one written before that call.
   */
  function FrozenDefault(calls: seq<Call>, p: Parser): Option<ControlInterface> {
    if calls == [] then None
    else
      var last, before := calls[|calls| - 1], calls[..|calls| - 1];
      match last
      case Update(_) => FrozenDefault(before, p)
      case Lost(_) => FrozenDefault(before, p)
      case Reset => None
      case SetDefault(payload) =>
        if payload.None? || payload.value.handle == NO_NETWORK_HANDLE then None
        else
          match LastWritten(before, payload.value.handle, p)
          case Some(i) => Some(i.control)
          case None => Some(SparseInterface(payload.value))
  }

  /** After any call sequence the cache is the last-writer map and the frozen default. */
  lemma {:induction false} RefinesHistory(calls: seq<Call>, p: Parser)
    ensures var r := ApplyAll(EMPTY_REGISTRY, calls, p);
            && r.defaultIface == FrozenDefault(calls, p)
            && forall h :: (h in r.ifaces <==> LastWritten(calls, h, p).Some?)
                        && (h in r.ifaces ==> LastWritten(calls, h, p) == Some(r.ifaces[h]))
  {
    if calls != [] { RefinesHistory(calls[..|calls| - 1], p); }
  }

  // ---- The Go object --------------------------------------------------------

  method BuildNetworkInterface(s: Snapshot, p: Parser) returns (i: NetworkInterface)
    ensures i == BuildInterface(s, p)
  {
    var addresses := Csv.ParsePrefixes(s.addresses, p);
    var servers := Csv.SplitNonEmpty(s.dnsServers);
    i := NetworkInterface(ControlInterface(s.ifIndex, NormalizeMtu(s.mtu), s.ifName, addresses),
                          InterfaceTypeOf(s.flags), servers,
                          HasBit(s.flags, FLAG_METERED), HasBit(s.flags, FLAG_CONSTRAINED));
  }

  class NetifRegistry {
    var ifaces: map<Handle, NetworkInterface>
    var defaultIface: Option<ControlInterface>
    var callbacks: seq<nat>
    var nextElement: nat
    var networkManager: Option<nat>

    /** Every call made into the core so far, in order. */
    var actions: seq<Action>

    const parses: Parser

    function View(): Registry
      reads this
    {
      Registry(ifaces, defaultIface)
    }

    /** No list element occurs twice and none is younger than the next one. */
    ghost predicate Valid()
      reads this
    {
      && (forall e :: e in callbacks ==> e < nextElement)
      && (forall i, j :: 0 <= i < j < |callbacks| ==> callbacks[i] != callbacks[j])
    }

    constructor (parses: Parser)
      ensures View() == EMPTY_REGISTRY && Valid()
      ensures callbacks == [] && networkManager == None && actions == [] && this.parses == parses
    {
      ifaces, defaultIface, callbacks := map[], None, [];
      nextElement, networkManager, actions := 0, None, [];
      this.parses := parses;
    }

    method RefreshInterfaces(manager: Option<nat>)
      modifies `actions
      ensures actions == old(actions) + Refreshes(manager)
    {
      if manager.Some? { actions := actions + [Refresh(manager.value)]; }
    }

    method FireCallbacks(snapshot: seq<nat>, value: Option<ControlInterface>)
      modifies `actions
      ensures actions == old(actions) + Notifications(snapshot, value)
    {
      for i := 0 to |snapshot|
        invariant actions == old(actions) + Notifications(snapshot, value)[..i]
      {
        actions := actions + [Notify(snapshot[i], value)];
      }
    }

    method Update(s: Snapshot)
      modifies `ifaces, `actions
      ensures View() == Apply(old(View()), Call.Update(s), parses)
      ensures actions == old(actions) + Aftermath(old(View()), Call.Update(s), networkManager, callbacks)
    {
      var iface := BuildNetworkInterface(s, parses);
      ifaces := ifaces[s.handle := iface];
      RefreshInterfaces(networkManager);
    }

    method Lost(handle: Handle)
      modifies `ifaces, `actions
      ensures View() == Apply(old(View()), Call.Lost(handle), parses)
      ensures actions == old(actions) + Aftermath(old(View()), Call.Lost(handle), networkManager, callbacks)
    {
      var existed := handle in ifaces;
      ifaces := ifaces - {handle};
      if existed { RefreshInterfaces(networkManager); }
    }

    method SetDefault(s: Option<Snapshot>)
      modifies `defaultIface, `actions
      ensures View() == Apply(old(View()), Call.SetDefault(s), parses)
      ensures actions == old(actions) + Aftermath(old(View()), Call.SetDefault(s), networkManager, callbacks)
    {
      var next: Option<ControlInterface> := None;
      if s.Some? && s.value.handle != NO_NETWORK_HANDLE {
        if s.value.handle in ifaces {
          next := Some(ifaces[s.value.handle].control);
        } else {
          next := Some(ControlInterface(s.value.ifIndex, NormalizeMtu(s.value.mtu), s.value.ifName, []));
        }
      }
      assert next == NextDefault(View(), s);
      defaultIface := next;
      RefreshAndFire(next);
    }

    /** What SetDefault and Reset do once the lock is free: pull first, then notify. */
    method RefreshAndFire(value: Option<ControlInterface>)
      modifies `actions
      ensures actions == old(actions) + (Refreshes(networkManager) + Notifications(callbacks, value))
    {
      RefreshInterfaces(networkManager);
      FireCallbacks(callbacks, value);
    }

    method Reset()
      modifies `ifaces, `defaultIface, `actions
      ensures View() == Apply(old(View()), Call.Reset, parses)
      ensures actions == old(actions) + Aftermath(old(View()), Call.Reset, networkManager, callbacks)
    {
      ifaces, defaultIface := map[], None;
      RefreshAndFire(None);
    }

    method SetNetworkManager(manager: nat)
      modifies `networkManager
      ensures networkManager == Some(manager)
    {
      networkManager := Some(manager);
    }

    /** Interfaces(): every entry once, in no particular order. */
    method Interfaces() returns (out: seq<NetworkInterface>)
      ensures exists order: seq<Handle> ::
                && |order| == |out| == |ifaces|
                && (forall h :: h in order <==> h in ifaces)
                && (forall i :: 0 <= i < |out| ==> order[i] in ifaces && out[i] == ifaces[order[i]])
    {
      var left := ifaces.Keys;
      ghost var order: seq<Handle> := [];
      out := [];
      while left != {}
        invariant left <= ifaces.Keys
        invariant |order| == |out| && |order| + |left| == |ifaces|
        invariant forall h :: h in order <==> h in ifaces && h !in left
        invariant forall i :: 0 <= i < |out| ==> order[i] in ifaces && out[i] == ifaces[order[i]]
        decreases left
      {
        var h := AnyOf(left);
        out, order := out + [ifaces[h]], order + [h];
        left := left - {h};
      }
    }

    method CurrentDefault() returns (d: Option<ControlInterface>)
      ensures d == View().defaultIface
    {
      d := defaultIface;
    }

    method RegisterCallback() returns (e: nat)
      requires Valid()
      modifies `callbacks, `nextElement
      ensures Valid()
      ensures e !in old(callbacks) && callbacks == old(callbacks) + [e]
    {
      e := nextElement;
      callbacks, nextElement := callbacks + [e], nextElement + 1;
    }

    /** list.List.Remove: ignores an element that is no longer in the list. */
    method UnregisterCallback(e: nat)
      requires Valid()
      modifies `callbacks
      ensures Valid()
      ensures e !in callbacks
      ensures e !in old(callbacks) ==> callbacks == old(callbacks)
      ensures forall i :: 0 <= i < |old(callbacks)| && old(callbacks)[i] == e ==>
                callbacks == old(callbacks)[..i] + old(callbacks)[i + 1..]
    {
      var i := 0;
      while i < |callbacks|
        invariant i <= |callbacks|
        invariant e !in callbacks[..i]
      {
        if callbacks[i] == e {
          ghost var was := callbacks;
          callbacks := callbacks[..i] + callbacks[i + 1..];
          assert forall x :: x in callbacks ==> x in was;
          return;
        }
        i := i + 1;
      }
    }
  }
}
