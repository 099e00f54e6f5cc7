/**
 The records that cross the Kotlin / C++ / Go bridge and the pure functions that
 build them on either side.
 */
module Netif {
  import opened Wrappers
  import Csv

  /** android.net.Network#getNetworkHandle, an int64. */
  type Handle = int

  const NO_NETWORK_HANDLE: Handle := -1

  // The FF_NETIF_* bits, the same on the Kotlin and on the Go side.
  const FLAG_WIFI: int := 0x001
  const FLAG_CELLULAR: int := 0x002
  const FLAG_ETHERNET: int := 0x004
  const FLAG_BLUETOOTH: int := 0x008
  const FLAG_METERED: int := 0x100
  const FLAG_CONSTRAINED: int := 0x200
  const FLAG_VALIDATED: int := 0x400

  /** `flags & bit != 0` on a mask of distinct powers of two. */
  predicate HasBit(flags: int, bit: int)
    requires bit > 0
  {
    (flags / bit) % 2 == 1
  }

  const SDK_P := 28
  const SDK_Q := 29

  // ---- What the monitor observes --------------------------------------------

  datatype Transport = TransportWifi | TransportCellular | TransportEthernet | TransportBluetooth | TransportVpn

  datatype Caps = Caps(transports: set<Transport>, notMetered: bool, notCongested: bool, validated: bool)

  /** One link address; `host` is its textual form, absent when Java returns null. */
  datatype LinkAddress = LinkAddress(host: Option<string>, prefixLength: nat)

  datatype LinkProps = LinkProps(ifName: Option<string>, mtu: int, addresses: seq<LinkAddress>, dnsServers: seq<Option<string>>)

  /** What java.net.NetworkInterface.getByName answers at one moment. */
  datatype JavaInterface = JavaInterface(index: int, mtu: int)

  /** The outside world as one monitor task sees it. */
  datatype Env = Env(sdk: int, interfaces: map<string, JavaInterface>)

  // ---- What crosses the bridge ----------------------------------------------

  datatype Snapshot = Snapshot(
    handle: Handle, ifName: string, ifIndex: int, mtu: int, flags: int, addresses: string, dnsServers: string)

  datatype DefaultSnapshot = DefaultSnapshot(handle: Handle, ifName: string, ifIndex: int, flags: int)

  /** One sink call of the monitor. */
  datatype Downcall =
    | NetworkUpdate(s: Snapshot)
    | NetworkLost(handle: Handle)
    | DefaultChanged(d: DefaultSnapshot)
    | MonitorReset

  // ---- What the engine keeps ------------------------------------------------

  datatype InterfaceType = TypeWifi | TypeCellular | TypeEthernet | TypeOther

  /** control.Interface; its net.Flags are the same constant everywhere. */
  datatype ControlInterface = ControlInterface(index: int, mtu: int, name: string, addresses: seq<string>)

  datatype NetworkInterface = NetworkInterface(
    control: ControlInterface, kind: InterfaceType, dnsServers: seq<string>, expensive: bool, constrained: bool)

  // ---- Kotlin side ----------------------------------------------------------

  /** Each bit is set at most once, so the disjunction of the bits is their sum. */
  function FlagsOf(caps: Caps, sdk: int): int {
    (if TransportWifi in caps.transports then FLAG_WIFI else 0)
    + (if TransportCellular in caps.transports then FLAG_CELLULAR else 0)
    + (if TransportEthernet in caps.transports then FLAG_ETHERNET else 0)
    + (if TransportBluetooth in caps.transports then FLAG_BLUETOOTH else 0)
    + (if !caps.notMetered then FLAG_METERED else 0)
    + (if sdk >= SDK_P && !caps.notCongested then FLAG_CONSTRAINED else 0)
    + (if caps.validated then FLAG_VALIDATED else 0)
  }

  /** substringBefore('%'). */
  function WithoutZone(host: string): string {
    if host == "" || host[0] == '%' then "" else [host[0]] + WithoutZone(host[1..])
  }

  function AddressItems(addresses: seq<LinkAddress>): seq<string> {
    if addresses == [] then []
    else
      var a := addresses[0];
      (if a.host.None? then [] else [WithoutZone(a.host.value) + "/" + Decimal(a.prefixLength)]) + AddressItems(addresses[1..])
  }

  function DnsItems(servers: seq<Option<string>>): seq<string> {
    if servers == [] then []
    else (if servers[0].None? then [] else [WithoutZone(servers[0].value)]) + DnsItems(servers[1..])
  }

  function InterfaceIndexOf(name: string, env: Env): int {
    if name in env.interfaces then env.interfaces[name].index else -1
  }

  function MtuOf(name: string, props: LinkProps, env: Env): int {
    var declared := if env.sdk >= SDK_Q then props.mtu else 0;
    if declared > 0 then declared
    else if name in env.interfaces then env.interfaces[name].mtu
    else 0
  }

  function BuildSnapshot(handle: Handle, caps: Caps, props: LinkProps, env: Env): Option<Snapshot> {
    if props.ifName.None? then None
    else
      var name := props.ifName.value;
      Some(Snapshot(handle, name, InterfaceIndexOf(name, env), MtuOf(name, props, env), FlagsOf(caps, env.sdk),
                    Csv.Join(AddressItems(props.addresses)), Csv.Join(DnsItems(props.dnsServers))))
  }

  // ---- Go side --------------------------------------------------------------

  function NormalizeMtu(mtu: int): int { if mtu <= 0 then 1500 else mtu }

  function InterfaceTypeOf(flags: int): InterfaceType {
    if HasBit(flags, FLAG_WIFI) then TypeWifi
    else if HasBit(flags, FLAG_CELLULAR) then TypeCellular
    else if HasBit(flags, FLAG_ETHERNET) then TypeEthernet
    else TypeOther
  }

  /** `parses` stands for netip.ParsePrefix succeeding. */
  function BuildInterface(s: Snapshot, parses: string -> bool): NetworkInterface {
    NetworkInterface(
      ControlInterface(s.ifIndex, NormalizeMtu(s.mtu), s.ifName, Csv.Filter(Csv.Items(s.addresses), parses)),
      InterfaceTypeOf(s.flags),
      Csv.Items(s.dnsServers),
      HasBit(s.flags, FLAG_METERED),
      HasBit(s.flags, FLAG_CONSTRAINED))
  }

  /** The entry setDefault makes up for a handle it does not track. */
  function SparseInterface(s: Snapshot): ControlInterface {
    ControlInterface(s.ifIndex, NormalizeMtu(s.mtu), s.ifName, [])
  }

  /** The payload the shim sends for a default change: name, index and flags only. */
  function DefaultPayload(d: DefaultSnapshot): Snapshot {
    Snapshot(d.handle, d.ifName, d.ifIndex, 0, d.flags, "", "")
  }

  // ---- The bridge loses nothing ---------------------------------------------

  /** Host text the bridge can carry: not empty before its zone, no comma, no space. */
  predicate PlainHost(host: string) {
    host != "" && host[0] != '%' && ',' !in host && forall c :: c in host ==> !Csv.IsSpace(c)
  }

  /** The engine decodes from the flag bits exactly what the capabilities said. */
  lemma FlagsSurviveTheBridge(caps: Caps, sdk: int)
    ensures var flags := FlagsOf(caps, sdk);
            && (InterfaceTypeOf(flags) ==
                if TransportWifi in caps.transports then TypeWifi
                else if TransportCellular in caps.transports then TypeCellular
                else if TransportEthernet in caps.transports then TypeEthernet
                else TypeOther)
            && (HasBit(flags, FLAG_METERED) <==> !caps.notMetered)
            && (HasBit(flags, FLAG_CONSTRAINED) <==> sdk >= SDK_P && !caps.notCongested)
            && (HasBit(flags, FLAG_BLUETOOTH) <==> TransportBluetooth in caps.transports)
            && (HasBit(flags, FLAG_VALIDATED) <==> caps.validated)
  {
  }

  lemma {:induction false} WithoutZoneIsPlain(host: string)
    requires ',' !in host && forall c :: c in host ==> !Csv.IsSpace(c)
    ensures ',' !in WithoutZone(host) && forall c :: c in WithoutZone(host) ==> !Csv.IsSpace(c)
    ensures host != "" && host[0] != '%' ==> WithoutZone(host) != ""
  {
    if host != "" && host[0] != '%' {
      WithoutZoneIsPlain(host[1..]);
      assert host[0] in host;
    }
  }

  lemma {:induction false} DecimalIsPlain(n: nat)
    ensures Decimal(n) != "" && forall c :: c in Decimal(n) ==> '0' <= c <= '9'
  {
    if n >= 10 { DecimalIsPlain(n / 10); }
  }

  lemma {:induction false} AddressItemsClean(addresses: seq<LinkAddress>)
    requires forall a :: a in addresses && a.host.Some? ==> PlainHost(a.host.value)
    ensures forall x :: x in AddressItems(addresses) ==> Csv.Clean(x)
  {
    if addresses != [] {
      AddressItemsClean(addresses[1..]);
      var a := addresses[0];
      if a.host.Some? {
        WithoutZoneIsPlain(a.host.value);
        DecimalIsPlain(a.prefixLength);
        var item := WithoutZone(a.host.value) + "/" + Decimal(a.prefixLength);
        assert forall c :: c in item ==> !Csv.IsSpace(c) && c != ',';
        Csv.NothingToTrim(item);
      }
    }
  }

  lemma {:induction false} DnsItemsClean(servers: seq<Option<string>>)
    requires forall d :: d in servers && d.Some? ==> PlainHost(d.value)
    ensures forall x :: x in DnsItems(servers) ==> Csv.Clean(x)
  {
    if servers != [] {
      DnsItemsClean(servers[1..]);
      if servers[0].Some? {
        assert servers[0] in servers;
        WithoutZoneIsPlain(servers[0].value);
        Csv.NothingToTrim(WithoutZone(servers[0].value));
      }
    }
  }

  // ---- What one address and one resolver become, by value --------------------

  /** `z` is the part of `host` before its first '%', or all of it. */
  predicate UpToZone(host: string, z: string) {
    z <= host && '%' !in z && (|z| < |host| ==> host[|z|] == '%')
  }

  /** How a link address arrives. */
  ghost predicate ArrivesAs(a: LinkAddress, item: string) {
    a.host.Some? && exists z, digits :: UpToZone(a.host.value, z) && IsDecimalOf(digits, a.prefixLength) && item == z + "/" + digits
  }

  lemma {:induction false} WithoutZoneIsUpToZone(host: string)
    ensures UpToZone(host, WithoutZone(host))
  {
    if host != "" && host[0] != '%' {
      WithoutZoneIsUpToZone(host[1..]);
      var z := WithoutZone(host[1..]);
      assert host == [host[0]] + host[1..];
      assert |z| < |host[1..]| ==> host[1..][|z|] == host[|z| + 1];
    }
  }

  predicate Increasing(from: seq<nat>) {
    forall i, j :: 0 <= i < j < |from| ==> from[i] < from[j]
  }

  /** The j-th item is how the address at `from[j]` arrives. */
  ghost predicate Places(reported: seq<LinkAddress>, parses: string -> bool, items: seq<string>, from: seq<nat>) {
    |from| == |items|
    && forall j :: 0 <= j < |from| ==> from[j] < |reported| && ArrivesAs(reported[from[j]], items[j]) && parses(items[j])
  }

  ghost predicate DoesNotParse(a: LinkAddress, parses: string -> bool) {
    exists item :: ArrivesAs(a, item) && !parses(item)
  }

  ghost predicate MissesOnly(reported: seq<LinkAddress>, parses: string -> bool, from: seq<nat>) {
    forall k: nat :: k < |reported| && k !in from ==> reported[k].host.None? || DoesNotParse(reported[k], parses)
  }

  /**
   `from` lists the reported addresses that got through: in the reported order, each
   as its own item, and one is missing only if it had no text or does not parse.
   */
  ghost predicate GotThrough(reported: seq<LinkAddress>, parses: string -> bool, items: seq<string>, from: seq<nat>) {
    Increasing(from) && Places(reported, parses, items, from) && MissesOnly(reported, parses, from)
  }

  function Shifted(from: seq<nat>): seq<nat> {
    seq(|from|, i requires 0 <= i < |from| => from[i] + 1)
  }

  lemma ShiftedHas(from: seq<nat>, k: nat)
    ensures k in from <==> k + 1 in Shifted(from)
    ensures 0 !in Shifted(from)
  {
    if k in from {
      var j :| 0 <= j < |from| && from[j] == k;
      assert Shifted(from)[j] == k + 1;
    }
  }

  lemma ShiftedIncreases(from: seq<nat>)
    requires Increasing(from)
    ensures Increasing(Shifted(from)) && Increasing([0] + Shifted(from))
  {
  }

  lemma FirstArrives(a: LinkAddress)
    requires a.host.Some?
    ensures ArrivesAs(a, WithoutZone(a.host.value) + "/" + Decimal(a.prefixLength))
  {
    WithoutZoneIsUpToZone(a.host.value);
    DecimalIsDecimal(a.prefixLength);
  }

  lemma PlacesSkip(a: LinkAddress, rest: seq<LinkAddress>, parses: string -> bool, items: seq<string>, from: seq<nat>)
    requires Places(rest, parses, items, from)
    ensures Places([a] + rest, parses, items, Shifted(from))
  {
  }

  lemma PlacesTake(a: LinkAddress, rest: seq<LinkAddress>, parses: string -> bool, item: string, items: seq<string>, from: seq<nat>)
    requires Places(rest, parses, items, from) && ArrivesAs(a, item) && parses(item)
    ensures Places([a] + rest, parses, [item] + items, [0] + Shifted(from))
  {
  }

  lemma MissesSkip(a: LinkAddress, rest: seq<LinkAddress>, parses: string -> bool, from: seq<nat>)
    requires MissesOnly(rest, parses, from) && (a.host.None? || DoesNotParse(a, parses))
    ensures MissesOnly([a] + rest, parses, Shifted(from))
  {
    var all := [a] + rest;
    forall k: nat | k < |all| && k !in Shifted(from) ensures all[k].host.None? || DoesNotParse(all[k], parses) {
      if k > 0 { ShiftedHas(from, k - 1); }
    }
  }

  lemma MissesTake(a: LinkAddress, rest: seq<LinkAddress>, parses: string -> bool, from: seq<nat>)
    requires MissesOnly(rest, parses, from)
    ensures MissesOnly([a] + rest, parses, [0] + Shifted(from))
  {
    var all, up := [a] + rest, [0] + Shifted(from);
    forall k: nat | k < |all| && k !in up ensures all[k].host.None? || DoesNotParse(all[k], parses) {
      assert up[0] == 0 && forall x :: x in Shifted(from) ==> x in up;
      if k > 0 { ShiftedHas(from, k - 1); }
    }
  }

  lemma {:induction false} AddressesGetThrough(reported: seq<LinkAddress>, parses: string -> bool)
    returns (from: seq<nat>)
    ensures GotThrough(reported, parses, Csv.Filter(AddressItems(reported), parses), from)
  {
    from := [];
    if reported != [] {
      var a, rest := reported[0], reported[1..];
      var before := AddressesGetThrough(rest, parses);
      var items := Csv.Filter(AddressItems(rest), parses);
      assert reported == [a] + rest;
      ShiftedIncreases(before);
      if a.host.None? {
        PlacesSkip(a, rest, parses, items, before);
        MissesSkip(a, rest, parses, before);
        assert AddressItems(reported) == AddressItems(rest);
        from := Shifted(before);
      } else {
        from := FirstGetsThrough(a, rest, parses, before);
      }
    }
  }

  lemma FirstGetsThrough(a: LinkAddress, rest: seq<LinkAddress>, parses: string -> bool, before: seq<nat>)
    returns (from: seq<nat>)
    requires a.host.Some? && GotThrough(rest, parses, Csv.Filter(AddressItems(rest), parses), before)
    ensures GotThrough([a] + rest, parses, Csv.Filter(AddressItems([a] + rest), parses), from)
  {
    var items := Csv.Filter(AddressItems(rest), parses);
    var item := WithoutZone(a.host.value) + "/" + Decimal(a.prefixLength);
    FirstArrives(a);
    assert ([a] + rest)[1..] == rest;
    assert AddressItems([a] + rest) == [item] + AddressItems(rest);
    Csv.FilterCons(item, AddressItems(rest), parses);
    ShiftedIncreases(before);
    if parses(item) {
      PlacesTake(a, rest, parses, item, items, before);
      MissesTake(a, rest, parses, before);
      from := [0] + Shifted(before);
    } else {
      PlacesSkip(a, rest, parses, items, before);
      MissesSkip(a, rest, parses, before);
      from := Shifted(before);
    }
  }

  ghost predicate ResolverPlaces(reported: seq<Option<string>>, items: seq<string>, from: seq<nat>) {
    |from| == |items|
    && forall j :: 0 <= j < |from| ==>
         from[j] < |reported| && reported[from[j]].Some? && UpToZone(reported[from[j]].value, items[j])
  }

  ghost predicate MissesNoText(reported: seq<Option<string>>, from: seq<nat>) {
    forall k: nat :: k < |reported| && reported[k].Some? ==> k in from
  }

  /** `from` lists the reported resolvers that had a text: in order, each arriving without its zone. */
  ghost predicate ResolversThrough(reported: seq<Option<string>>, items: seq<string>, from: seq<nat>) {
    Increasing(from) && ResolverPlaces(reported, items, from) && MissesNoText(reported, from)
  }

  lemma ResolverPlacesSkip(rest: seq<Option<string>>, items: seq<string>, from: seq<nat>)
    requires ResolverPlaces(rest, items, from)
    ensures ResolverPlaces([None] + rest, items, Shifted(from))
  {
  }

  lemma ResolverPlacesTake(host: string, rest: seq<Option<string>>, item: string, items: seq<string>, from: seq<nat>)
    requires ResolverPlaces(rest, items, from) && UpToZone(host, item)
    ensures ResolverPlaces([Some(host)] + rest, [item] + items, [0] + Shifted(from))
  {
  }

  lemma TextsSkip(rest: seq<Option<string>>, from: seq<nat>)
    requires MissesNoText(rest, from)
    ensures MissesNoText([None] + rest, Shifted(from))
  {
    var all := [None] + rest;
    forall k: nat | k < |all| && all[k].Some? ensures k in Shifted(from) { ShiftedHas(from, k - 1); }
  }

  lemma TextsTake(host: string, rest: seq<Option<string>>, from: seq<nat>)
    requires MissesNoText(rest, from)
    ensures MissesNoText([Some(host)] + rest, [0] + Shifted(from))
  {
    var all, up := [Some(host)] + rest, [0] + Shifted(from);
    assert up[0] == 0 && forall x :: x in Shifted(from) ==> x in up;
    forall k: nat | k < |all| && all[k].Some? ensures k in up {
      if k > 0 { ShiftedHas(from, k - 1); }
    }
  }

  lemma {:induction false} ResolversGetThrough(reported: seq<Option<string>>)
    returns (from: seq<nat>)
    ensures ResolversThrough(reported, DnsItems(reported), from)
  {
    from := [];
    if reported != [] {
      var first, rest := reported[0], reported[1..];
      var before := ResolversGetThrough(rest);
      assert reported == [first] + rest;
      ShiftedIncreases(before);
      if first.None? {
        ResolverPlacesSkip(rest, DnsItems(rest), before);
        TextsSkip(rest, before);
        assert DnsItems(reported) == DnsItems(rest);
        from := Shifted(before);
      } else {
        var item := WithoutZone(first.value);
        WithoutZoneIsUpToZone(first.value);
        ResolverPlacesTake(first.value, rest, item, DnsItems(rest), before);
        TextsTake(first.value, rest, before);
        assert DnsItems(reported) == [item] + DnsItems(rest);
        from := [0] + Shifted(before);
      }
    }
  }

  /**
   End to end over the bridge: the interface the engine rebuilds has the name, the
   system's index, the declared MTU (from Android 10 on, if positive), else the
   system's, else 1500; the type, metered and constrained bits of the capabilities;
   the reported resolvers, and those reported addresses that parse, in order, each
   without its zone and with its prefix length in decimal.
   */
  lemma InterfaceSurvivesTheBridge(handle: Handle, caps: Caps, props: LinkProps, env: Env, parses: string -> bool)
    requires props.ifName.Some?
    requires forall a :: a in props.addresses && a.host.Some? ==> PlainHost(a.host.value)
    requires forall d :: d in props.dnsServers && d.Some? ==> PlainHost(d.value)
    ensures BuildSnapshot(handle, caps, props, env).Some? && BuildSnapshot(handle, caps, props, env).value.handle == handle
    ensures var i, name := BuildInterface(BuildSnapshot(handle, caps, props, env).value, parses), props.ifName.value;
            && i.control.name == name
            && i.control.index == (if name in env.interfaces then env.interfaces[name].index else -1)
            && i.control.mtu == (if env.sdk >= 29 && props.mtu > 0 then props.mtu
                                 else if name in env.interfaces && env.interfaces[name].mtu > 0 then env.interfaces[name].mtu
                                 else 1500)
            && (i.kind == TypeWifi <==> TransportWifi in caps.transports)
            && (i.kind == TypeCellular <==> TransportCellular in caps.transports && TransportWifi !in caps.transports)
            && (i.kind == TypeEthernet <==> TransportEthernet in caps.transports && i.kind != TypeWifi && i.kind != TypeCellular)
            && (i.expensive <==> !caps.notMetered)
            && (i.constrained <==> env.sdk >= 28 && !caps.notCongested)
            && (exists from :: ResolversThrough(props.dnsServers, i.dnsServers, from))
            && (exists from :: GotThrough(props.addresses, parses, i.control.addresses, from))
  {
    AddressItemsClean(props.addresses);
    DnsItemsClean(props.dnsServers);
    Csv.RoundTrip(AddressItems(props.addresses));
    Csv.RoundTrip(DnsItems(props.dnsServers));
    FlagsSurviveTheBridge(caps, env.sdk);
    var addresses := AddressesGetThrough(props.addresses, parses);
    var servers := ResolversGetThrough(props.dnsServers);
  }

  /**
   The default payload carries name, index and nothing else: the entry the engine
   makes up for a handle it does not track has no address and MTU 1500.
   */
  lemma DefaultSurvivesTheBridge(d: DefaultSnapshot)
    ensures SparseInterface(DefaultPayload(d)) == ControlInterface(d.ifIndex, 1500, d.ifName, [])
    ensures var payload := DefaultPayload(d);
            && payload.handle == d.handle && payload.ifName == d.ifName && payload.ifIndex == d.ifIndex
            && payload.flags == d.flags && payload.mtu == 0 && payload.addresses == "" && payload.dnsServers == ""
  {
  }
}
