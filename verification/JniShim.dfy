/**
 The C++ shim between the monitor and the registry: a one-way bound gate in
 front of every downcall.
 */
module JniShim {
  import opened Wrappers
  import opened Netif
  import R = NetifRegistry

  /** The registry call a downcall turns into once the shim is bound. */
  function Forward(d: Downcall): R.Call {
    match d
    case NetworkUpdate(s) => R.Update(s)
    case NetworkLost(h) => R.Lost(h)
    case DefaultChanged(snapshot) =>
      if snapshot.handle < 0 then R.SetDefault(None) else R.SetDefault(Some(DefaultPayload(snapshot)))
    case MonitorReset => R.Reset
  }

  /** What one downcall does to the registry behind the gate. */
  function Deliver(r: R.Registry, d: Downcall, bound: bool, p: R.Parser): R.Registry {
    if bound then R.Apply(r, Forward(d), p) else r
  }

  function DeliverAll(r: R.Registry, ds: seq<Downcall>, bound: bool, p: R.Parser): R.Registry
    decreases |ds|
  {
    if ds == [] then r else DeliverAll(Deliver(r, ds[0], bound, p), ds[1..], bound, p)
  }

  lemma {:induction false} DeliverAppend(r: R.Registry, a: seq<Downcall>, b: seq<Downcall>, bound: bool, p: R.Parser)
    ensures DeliverAll(r, a + b, bound, p) == DeliverAll(DeliverAll(r, a, bound, p), b, bound, p)
    decreases |a|
  {
    if a == [] {
      assert a + b == b;
    } else {
      DeliverAppend(Deliver(r, a[0], bound, p), a[1..], b, bound, p);
      assert (a + b)[1..] == a[1..] + b;
    }
  }

  lemma DeliverOne(r: R.Registry, d: Downcall, bound: bool, p: R.Parser)
    ensures DeliverAll(r, [d], bound, p) == Deliver(r, d, bound, p)
  {
    assert DeliverAll(r, [d], bound, p) == DeliverAll(Deliver(r, d, bound, p), [], bound, p);
  }

  /** A warning counter that wraps like std::atomic<uint32_t>. */
  function Dropped(n: nat): nat { (n + 1) % 0x1_0000_0000 }

  function DroppedTimes(n: nat): nat { if n == 0 then 0 else Dropped(DroppedTimes(n - 1)) }

  /** The counter counts, modulo 2^32. */
  lemma {:induction false} DropsAreCounted(n: nat)
    returns (wraps: nat)
    ensures n == wraps * 4294967296 + DroppedTimes(n) && DroppedTimes(n) < 4294967296
  {
    wraps := 0;
    if n > 0 {
      wraps := DropsAreCounted(n - 1);
      if DroppedTimes(n - 1) == 4294967295 { wraps := wraps + 1; }
    }
  }

  class Shim {
    var bound: bool
    var dropped: nat
    const registry: R.NetifRegistry

    constructor (registry: R.NetifRegistry)
      ensures !bound && dropped == 0 && this.registry == registry
    {
      bound, dropped, this.registry := false, 0, registry;
    }

    /** `complete` is whether dlopen and all five dlsym lookups succeed. */
    method BindGoEngine(soname: string, complete: bool) returns (ok: bool)
      modifies `bound
      ensures old(bound) ==> bound && ok
      ensures !old(bound) ==> bound == ok == (soname != "" && complete)
    {
      if bound { return true; }
      if soname == "" { return false; }
      if !complete { return false; }
      bound := true;
      ok := true;
    }

    method WarnDropped()
      modifies `dropped
      ensures dropped == Dropped(old(dropped))
    {
      dropped := (dropped + 1) % 0x1_0000_0000;
    }

    method NetifUpdate(s: Snapshot)
      modifies `dropped, registry
      ensures registry.View() == Deliver(old(registry.View()), NetworkUpdate(s), bound, registry.parses)
      ensures dropped == if bound then old(dropped) else Dropped(old(dropped))
    {
      if !bound { WarnDropped(); return; }
      registry.Update(s);
    }

    method NetifLost(handle: Handle)
      modifies `dropped, registry
      ensures registry.View() == Deliver(old(registry.View()), NetworkLost(handle), bound, registry.parses)
      ensures dropped == if bound then old(dropped) else Dropped(old(dropped))
    {
      if !bound { WarnDropped(); return; }
      registry.Lost(handle);
    }

    method NetifDefaultChanged(d: DefaultSnapshot)
      modifies `dropped, registry
      ensures registry.View() == Deliver(old(registry.View()), DefaultChanged(d), bound, registry.parses)
      ensures dropped == if bound then old(dropped) else Dropped(old(dropped))
    {
      if !bound { WarnDropped(); return; }
      if d.handle < 0 {
        registry.SetDefault(None);
        return;
      }
      registry.SetDefault(Some(Snapshot(d.handle, d.ifName, d.ifIndex, 0, d.flags, "", "")));
    }

    /** The one downcall that is dropped without a warning. */
    method NetifReset()
      modifies registry
      ensures registry.View() == Deliver(old(registry.View()), MonitorReset, bound, registry.parses)
    {
      if !bound { return; }
      registry.Reset();
    }
  }
}
