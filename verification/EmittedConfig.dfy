/**
 The config the engine is handed, read key by key from the emitted JSON: which
 outbound a packet really leaves through, which resolver really answers, and
 where the engine really listens.
 */
module EmittedConfig {
  import opened Wrappers
  import opened AppSettings
  import opened ConfigBuilder
  import opened ConfigReading
  import DnsConfig
  import RouteConfig
  import Traffic

  // ---- Outbounds ------------------------------------------------------------

  /** The first outbound with that tag. */
  function Tagged(outbounds: seq<Json>, tag: string): Option<Json> {
    if outbounds == [] then None
    else if TextAt(outbounds[0], "tag") == Some(tag) then Some(outbounds[0])
    else Tagged(outbounds[1..], tag)
  }

  function TypeOf(outbounds: seq<Json>, tag: string): Option<string> {
    TextAt(Tagged(outbounds, tag).GetOrElse(Null), "type")
  }

  function ProxyType(p: Profile): string {
    if p.protocol == Vless then "vless" else "hysteria2"
  }

  predicate TagsDiffer(outbounds: seq<Json>) {
    forall i, j :: 0 <= i < j < |outbounds| ==> TextAt(outbounds[i], "tag") != TextAt(outbounds[j], "tag")
  }

  lemma TaggedCons(first: Json, rest: seq<Json>, tag: string)
    ensures Tagged([first] + rest, tag) == if TextAt(first, "tag") == Some(tag) then Some(first) else Tagged(rest, tag)
  {
    assert ([first] + rest)[1..] == rest;
  }

  lemma BuiltOutbounds(p: Profile, tag: string)
    ensures Tagged(BuildOutbounds(p), tag) ==
            if tag == "proxy" then Some(BuildProxy(p))
            else if tag == "direct" then Some(Outbound("direct", "direct"))
            else if tag == "block" then Some(Outbound("block", "block"))
            else if tag == "dns-out" then Some(Outbound("dns", "dns-out"))
            else None
  {
    var direct, block, dns := Outbound("direct", DIRECT_TAG), Outbound("block", BLOCK_TAG), Outbound("dns", DNS_TAG);
    assert BuildOutbounds(p) == [BuildProxy(p)] + ([direct] + ([block] + ([dns] + [])));
    TaggedCons(BuildProxy(p), [direct] + ([block] + ([dns] + [])), tag);
    TaggedCons(direct, [block] + ([dns] + []), tag);
    TaggedCons(block, [dns] + [], tag);
    TaggedCons(dns, [], tag);
  }

  predicate TypesFit(outbounds: seq<Json>, p: Profile) {
    && TypeOf(outbounds, "proxy") == Some(ProxyType(p))
    && TextAt(Tagged(outbounds, "proxy").GetOrElse(Null), "server") == Some(p.serverAddress)
    && TypeOf(outbounds, "direct") == Some("direct")
    && TypeOf(outbounds, "block") == Some("block")
    && TypeOf(outbounds, "dns-out") == Some("dns")
  }

  lemma BuiltTypesFit(p: Profile)
    ensures TypesFit(BuildOutbounds(p), p)
  {
    BuiltOutbounds(p, "proxy");
    BuiltOutbounds(p, "direct");
    BuiltOutbounds(p, "block");
    BuiltOutbounds(p, "dns-out");
  }

  /** The tags the other sections may refer to are the tags of the outbounds. */
  ghost predicate EveryTagIsThere(outbounds: seq<Json>) {
    forall tag :: tag in OUTBOUND_TAGS <==> Tagged(outbounds, tag).Some?
  }

  lemma BuiltTagsAreThere(p: Profile)
    ensures EveryTagIsThere(BuildOutbounds(p))
  {
    forall tag ensures tag in OUTBOUND_TAGS <==> Tagged(BuildOutbounds(p), tag).Some? { BuiltOutbounds(p, tag); }
  }

  lemma BuiltTagsDiffer(p: Profile)
    ensures TagsDiffer(BuildOutbounds(p))
  {
    var tags := ["proxy", "direct", "block", "dns-out"];
    assert forall i :: 0 <= i < 4 ==> TextAt(BuildOutbounds(p)[i], "tag") == Some(tags[i]);
  }

  /**
   The emitted outbounds are of the type their tag says, each tag once; the proxy
   is of the profile's protocol and dials the profile's server.
   */
  lemma OutboundsAreWhatTheirTagsSay(p: Profile, s: Settings, mode: InboundMode, session: Session, cachePath: Option<string>)
    requires BuildInbounds(s, mode, session).Ok?
    ensures var outbounds := ListAt(Obj(BuildMap(p, s, mode, session, cachePath).value), "outbounds");
            outbounds.Some? && TagsDiffer(outbounds.value) && TypesFit(outbounds.value, p) && EveryTagIsThere(outbounds.value)
  {
    Sections(p, s, mode, session, cachePath);
    BuiltTypesFit(p);
    BuiltTagsDiffer(p);
    BuiltTagsAreThere(p);
  }

  /**
   The type of the outbound a packet leaves through: the emitted rules, read back
   and evaluated, name a tag, and the emitted outbound of that tag has this type.
   */
  lemma PacketsLeaveAsDecided(p: Profile, s: Settings, mode: InboundMode, session: Session, cachePath: Option<string>,
                              packet: RouteConfig.Packet, inSet: string -> bool, clashMode: string)
    requires BuildInbounds(s, mode, session).Ok?
    ensures var config := Obj(BuildMap(p, s, mode, session, cachePath).value);
            var route, outbounds := ReadRoute(Under(config, "route")), ListAt(config, "outbounds");
            && route.Some? && outbounds.Some?
            && TypeOf(outbounds.value, RouteConfig.OutboundOf(route.value, packet, inSet, clashMode)) == Some(
               if packet.protocol == "dns" || packet.port == 53 then "dns"
               else if (s.routing.ipv6Mode == Disable && packet.ipVersion == 6) || (s.routing.adBlock && inSet("geosite-ads"))
               then "block"
               else if (s.routing.bypassLan && packet.isPrivate) || clashMode == "Direct" then "direct"
               else ProxyType(p))
  {
    Sections(p, s, mode, session, cachePath);
    RouteReadsBack(RouteConfig.BuildRoute(s.routing));
    RouteConfig.RouteMeansPolicy(s.routing, packet, inSet, clashMode);
    OutboundsAreWhatTheirTagsSay(p, s, mode, session, cachePath);
  }

  /** The ad rules: there when asked for, fetched from their host through an outbound of type direct. */
  predicate AdSourceFits(source: Json, outbounds: seq<Json>, host: string) {
    && TextAt(source, "tag") == Some("geosite-ads")
    && TextAt(source, "type") == Some("remote") && TextAt(source, "format") == Some("binary")
    && TextAt(source, "url").Some? && "https://" + host <= TextAt(source, "url").value
    && TextAt(source, "download_detour").Some?
    && TypeOf(outbounds, TextAt(source, "download_detour").value) == Some("direct")
  }

  lemma BuiltAdSource(p: Profile)
    ensures AdSourceFits(EncodeSource(RouteConfig.RuleSource(ADS_RULE_SET, DIRECT_TAG)), BuildOutbounds(p),
                         "raw.githubusercontent.com")
  {
    BuiltOutbounds(p, "direct");
  }

  lemma EncodedSources(r: Routing)
    ensures Mapped(EncodeSource, RouteConfig.BuildRoute(r).sources) ==
            if r.adBlock then [EncodeSource(RouteConfig.RuleSource(ADS_RULE_SET, DIRECT_TAG))] else []
  {
  }

  lemma AdRulesAreFetchedDirectly(p: Profile, s: Settings, mode: InboundMode, session: Session, cachePath: Option<string>)
    requires BuildInbounds(s, mode, session).Ok?
    ensures var config := Obj(BuildMap(p, s, mode, session, cachePath).value);
            var sources, outbounds := ListAt(Under(config, "route"), "rule_set"), ListAt(config, "outbounds");
            && sources.Some? && outbounds.Some?
            && |sources.value| == (if s.routing.adBlock then 1 else 0)
            && forall source :: source in sources.value ==> AdSourceFits(source, outbounds.value, "raw.githubusercontent.com")
  {
    Sections(p, s, mode, session, cachePath);
    RouteLists(RouteConfig.BuildRoute(s.routing));
    EncodedSources(s.routing);
    BuiltAdSource(p);
  }

  // ---- Resolvers ------------------------------------------------------------

  /**
   Where a query goes: the emitted dns rules name a server, and the emitted server
   of that tag has this address and is asked through this outbound.
   */
  lemma QueriesGoAsDecided(p: Profile, s: Settings, mode: InboundMode, session: Session, cachePath: Option<string>,
                           q: DnsConfig.Query, w: DnsConfig.World)
    requires BuildInbounds(s, mode, session).Ok?
    ensures var config := Obj(BuildMap(p, s, mode, session, cachePath).value);
            var dns := ReadDns(Under(config, "dns"));
            && dns.Some?
            && var server := DnsConfig.Lookup(dns.value.servers, DnsConfig.ServerFor(dns.value, q, w));
               && server.Some?
               && (server.value.address, server.value.detour) ==
                  if DnsConfig.IsHostName(p.serverAddress) && q.name == p.serverAddress then (s.dns.directDns, Some("direct"))
                  else if s.routing.adBlock && w.inSet("geosite-ads") then ("rcode://success", None)
                  else if w.mode == "Direct" then (s.dns.directDns, Some("direct"))
                  else if s.dns.enableFakeDns && w.mode != "Global" && !q.kind.OtherType? then ("fakeip", None)
                  else (s.dns.remoteDns, Some("proxy"))
  {
    Sections(p, s, mode, session, cachePath);
    DnsReadsBack(s, p);
    DnsConfig.DnsMeansPolicy(s, p, q, w);
    DnsConfig.ServersByTag(s.dns, DnsConfig.Decide(s, p, q, w));
  }

  /** The addresses the core looks up first: an explicit setting, or what the IPv6 mode asks for. */
  predicate StrategyFits(dns: Json, s: Settings) {
    TextAt(dns, "strategy") == Some(
      if s.dns.domainStrategy != "" then s.dns.domainStrategy
      else if s.routing.ipv6Mode == Disable then "ipv4_only"
      else if s.routing.ipv6Mode == Enable then "prefer_ipv4"
      else if s.routing.ipv6Mode == Prefer then "prefer_ipv6"
      else "ipv6_only")
  }

  /** Fake addresses are handed out if and only if asked for, v6 ones unless IPv6 is disabled. */
  predicate FakeIpFits(dns: Json, s: Settings) {
    var fake := Under(dns, "fakeip");
    && (FieldOf(dns, "fakeip").Some? <==> s.dns.enableFakeDns)
    && (s.dns.enableFakeDns ==>
          && FieldOf(fake, "enabled") == Some(Bool(true))
          && TextAt(fake, "inet4_range") == Some(s.dns.fakeIpv4Range)
          && TextAt(fake, "inet6_range") == if s.routing.ipv6Mode == Disable then None else Some(s.dns.fakeIpv6Range))
  }

  lemma SettingsOfTheSection(section: DnsConfig.Section, settings: map<string, Json>, key: string)
    requires key !in {"servers", "rules", "final"}
    ensures FieldOf(EncodeSection(section, settings), key) == FieldOf(Obj(settings), key)
  {
  }

  lemma SettingsFit(s: Settings)
    ensures StrategyFits(Obj(DnsSettings(s)), s) && FakeIpFits(Obj(DnsSettings(s)), s)
    ensures FieldOf(Obj(DnsSettings(s)), "independent_cache") == Some(Bool(s.dns.independentCache))
  {
  }

  lemma BuiltDnsFits(s: Settings, p: Profile)
    ensures StrategyFits(EncodeDns(s, p), s) && FakeIpFits(EncodeDns(s, p), s)
    ensures FieldOf(EncodeDns(s, p), "independent_cache") == Some(Bool(s.dns.independentCache))
  {
    SettingsFit(s);
    SettingsOfTheSection(DnsConfig.BuildDns(s, p), DnsSettings(s), "strategy");
    SettingsOfTheSection(DnsConfig.BuildDns(s, p), DnsSettings(s), "fakeip");
    SettingsOfTheSection(DnsConfig.BuildDns(s, p), DnsSettings(s), "independent_cache");
  }

  /** The dns settings of every emitted config. */
  lemma EmittedDnsFits(p: Profile, s: Settings, mode: InboundMode, session: Session, cachePath: Option<string>)
    requires BuildInbounds(s, mode, session).Ok?
    ensures var dns := Under(Obj(BuildMap(p, s, mode, session, cachePath).value), "dns");
            && StrategyFits(dns, s) && FakeIpFits(dns, s)
            && FieldOf(dns, "independent_cache") == Some(Bool(s.dns.independentCache))
  {
    Sections(p, s, mode, session, cachePath);
    BuiltDnsFits(s, p);
  }

  lemma InboundsFailExactly(s: Settings, mode: InboundMode, session: Session)
    ensures var built := BuildInbounds(s, mode, session);
            var usable := s.localProxy.mode != Disabled && s.localProxy.username != "" && s.localProxy.password != "";
            if mode.SystemProxy? && session.systemProxyPort.None? then
              built == Err("systemProxy mode requires an allocated system-proxy port")
            else if session.localProxyPort.Some? && !usable then
              built == Err("local proxy port allocated without credentials")
            else built.Ok?
  {
  }

  /** When a config cannot be built, and what is said first. */
  lemma BuildFailsExactly(p: Profile, s: Settings, mode: InboundMode, session: Session, cachePath: Option<string>)
    ensures var built := BuildMap(p, s, mode, session, cachePath);
            var usable := s.localProxy.mode != Disabled && s.localProxy.username != "" && s.localProxy.password != "";
            if mode.SystemProxy? && session.systemProxyPort.None? then
              built == Err("systemProxy mode requires an allocated system-proxy port")
            else if session.localProxyPort.Some? && !usable then
              built == Err("local proxy port allocated without credentials")
            else built.Ok?
  {
    InboundsFailExactly(s, mode, session);
    assert BuildInbounds(s, mode, session).Err? ==>
        BuildMap(p, s, mode, session, cachePath) == Err(BuildInbounds(s, mode, session).error);
  }

  // ---- Inbounds -------------------------------------------------------------

  predicate ListensAt(inbound: Json, address: string, port: int) {
    TextAt(inbound, "listen") == Some(address) && NumberAt(inbound, "listen_port") == Some(port)
  }

  ghost predicate SomeListener(inbounds: seq<Json>, address: string, port: int) {
    exists inbound :: inbound in inbounds && ListensAt(inbound, address, port)
  }

  function FirstInboundOf(s: Settings, mode: InboundMode, drawn: Draw): Json {
    if mode.Tun? then TunInbound(s) else SystemProxyInbound(s, drawn.systemProxyPort)
  }

  lemma FirstListens(s: Settings, mode: InboundMode, drawn: Draw, address: string, port: int)
    ensures ListensAt(FirstInboundOf(s, mode, drawn), address, port) <==>
            mode.SystemProxy? && address == "127.0.0.1" && port == drawn.systemProxyPort
  {
  }

  /** When the local proxy listens, and where. */
  predicate LocalProxyListensAt(lp: LocalProxy, drawn: Draw, address: string, port: int) {
    && lp.mode != Disabled && lp.username != "" && lp.password != ""
    && address == (if lp.mode == Lan then "0.0.0.0" else "127.0.0.1")
    && port == if lp.pinnedPort != 0 then lp.pinnedPort else drawn.localProxyPort
  }

  lemma BuiltListeners(s: Settings, mode: InboundMode, drawn: Draw, address: string, port: int)
    ensures var inbounds := BuildInbounds(s, mode, Allocate(s, mode, drawn));
            && inbounds.Ok?
            && (SomeListener(inbounds.value, address, port) <==>
                (|| (mode.SystemProxy? && address == "127.0.0.1" && port == drawn.systemProxyPort)
                 || LocalProxyListensAt(s.localProxy, drawn, address, port)))
  {
    var first := FirstInboundOf(s, mode, drawn);
    var inbounds := BuildInbounds(s, mode, Allocate(s, mode, drawn)).value;
    FirstListens(s, mode, drawn, address, port);
    assert first in inbounds;
    if CanListen(s.localProxy) {
      var local := if s.localProxy.pinnedPort != 0 then s.localProxy.pinnedPort else drawn.localProxyPort;
      SecondListens(s, local, address, port);
      assert inbounds == [first, LocalProxyInbound(s, local)];
      assert inbounds[1] in inbounds;
    } else {
      assert inbounds == [first];
    }
  }

  lemma SecondListens(s: Settings, local: nat, address: string, port: int)
    ensures ListensAt(LocalProxyInbound(s, local), address, port) <==>
            address == (if s.localProxy.mode == Lan then "0.0.0.0" else "127.0.0.1") && port == local
  {
  }

  /** Where the engine accepts connections: the two listeners a session can open, exactly when it opens them. */
  lemma ListensExactly(p: Profile, s: Settings, mode: InboundMode, drawn: Draw, cachePath: Option<string>,
                       address: string, port: int)
    ensures var built := BuildMap(p, s, mode, Allocate(s, mode, drawn), cachePath);
            && built.Ok? && ListAt(Obj(built.value), "inbounds").Some?
            && (SomeListener(ListAt(Obj(built.value), "inbounds").value, address, port) <==>
                (|| (mode.SystemProxy? && address == "127.0.0.1" && port == drawn.systemProxyPort)
                 || LocalProxyListensAt(s.localProxy, drawn, address, port)))
  {
    BuiltListeners(s, mode, drawn, address, port);
    Sections(p, s, mode, Allocate(s, mode, drawn), cachePath);
  }

  /** An inbound's type and tag, and whether it sniffs. */
  predicate Labelled(inbound: Json, kind: string, tag: string, sniffs: bool) {
    && TextAt(inbound, "type") == Some(kind) && TextAt(inbound, "tag") == Some(tag)
    && FieldOf(inbound, "sniff") == Some(Bool(sniffs))
  }

  lemma BuiltLabels(s: Settings, port: nat)
    ensures Labelled(TunInbound(s), "tun", "tun-in", s.routing.enableSniffing)
    ensures Labelled(SystemProxyInbound(s, port), "mixed", "sysproxy-in", s.routing.enableSniffing)
    ensures Labelled(LocalProxyInbound(s, port), "mixed", "proxy-in", s.routing.enableSniffing)
  {
  }

  /** The emitted inbounds: the tunnel or the system proxy, then the local proxy if its session has a port. */
  lemma InboundsExactly(p: Profile, s: Settings, mode: InboundMode, session: Session, cachePath: Option<string>)
    requires BuildInbounds(s, mode, session).Ok?
    ensures var inbounds := ListAt(Obj(BuildMap(p, s, mode, session, cachePath).value), "inbounds");
            && inbounds.Some?
            && |inbounds.value| == (if session.localProxyPort.Some? then 2 else 1)
            && (mode.Tun? ==> Labelled(inbounds.value[0], "tun", "tun-in", s.routing.enableSniffing))
            && (mode.SystemProxy? ==> Labelled(inbounds.value[0], "mixed", "sysproxy-in", s.routing.enableSniffing))
            && (session.localProxyPort.Some? ==> Labelled(inbounds.value[1], "mixed", "proxy-in", s.routing.enableSniffing))
  {
    Sections(p, s, mode, session, cachePath);
    BuiltLabels(s, session.systemProxyPort.GetOrElse(0));
    BuiltLabels(s, session.localProxyPort.GetOrElse(0));
  }

  predicate TakesEverything(tun: Json, s: Settings) {
    && TextAt(tun, "type") == Some("tun")
    && FieldOf(tun, "address") == Some(Arr([Str("172.19.0.1/28"), Str("fdfe:dcba:9876::1/126")]))
    && TextAt(tun, "interface_name") == Some("fastflow-tun") && NumberAt(tun, "mtu") == Some(9000)
    && FieldOf(tun, "auto_route") == Some(Bool(true))
    && FieldOf(tun, "strict_route") == Some(Bool(s.routing.strictRouting))
    && TextAt(tun, "stack") == Some(s.tunStack)
    && FieldOf(tun, "sniff") == Some(Bool(s.routing.enableSniffing))
    && FieldOf(tun, "sniff_override_destination") == Some(Bool(false))
    && FieldOf(tun, "endpoint_independent_nat") == Some(Bool(true))
  }

  lemma BuiltTun(s: Settings)
    ensures TakesEverything(TunInbound(s), s)
  {
  }

  /** The tunnel interface takes IPv6 whatever the settings, and with IPv6 disabled all but DNS ends in a block. */
  lemma TheTunTakesIpv6(p: Profile, s: Settings, session: Session, cachePath: Option<string>,
                        packet: RouteConfig.Packet, inSet: string -> bool, clashMode: string)
    requires BuildInbounds(s, Tun, session).Ok?
    requires packet.ipVersion == 6 && packet.protocol != "dns" && packet.port != 53
    ensures var config := Obj(BuildMap(p, s, Tun, session, cachePath).value);
            var inbounds, outbounds := ListAt(config, "inbounds"), ListAt(config, "outbounds");
            var route := ReadRoute(Under(config, "route"));
            && inbounds.Some? && inbounds.value != [] && TakesEverything(inbounds.value[0], s)
            && outbounds.Some? && route.Some?
            && (s.routing.ipv6Mode == Disable ==>
                  TypeOf(outbounds.value, RouteConfig.OutboundOf(route.value, packet, inSet, clashMode)) == Some("block"))
  {
    Sections(p, s, Tun, session, cachePath);
    BuiltTun(s);
    assert BuildInbounds(s, Tun, session).value[0] == TunInbound(s);
    PacketsLeaveAsDecided(p, s, Tun, session, cachePath, packet, inSet, clashMode);
  }

  // ---- The rest -------------------------------------------------------------

  predicate CacheFits(cache: Json, cachePath: Option<string>) {
    && FieldOf(cache, "enabled") == Some(Bool(true)) && FieldOf(cache, "store_fakeip") == Some(Bool(true))
    && TextAt(cache, "path") == (if cachePath.Some? && cachePath.value != "" then cachePath else None)
  }

  lemma BuiltCache(s: Settings, session: Session, cachePath: Option<string>)
    ensures Under(Obj(BuildExperimental(s, session, cachePath)), "cache_file") == CacheFile(cachePath)
  {
  }

  lemma BuiltCacheFits(cachePath: Option<string>)
    ensures CacheFits(CacheFile(cachePath), cachePath)
  {
  }

  lemma BuiltRoute(route: RouteConfig.Route)
    ensures FieldOf(EncodeRoute(route), "auto_detect_interface") == Some(Bool(true))
  {
  }

  lemma BuiltLog(dns: Json, inbounds: seq<Json>, outbounds: seq<Json>, route: Json, experimental: map<string, Json>)
    ensures var log := Under(Obj(Document(dns, inbounds, outbounds, route, experimental)), "log");
            TextAt(log, "level") == Some("warn") && FieldOf(log, "timestamp") == Some(Bool(true))
  {
  }

  /** Outbounds follow the default interface, and fake addresses outlive a restart in the cache file. */
  lemma TheRestFits(p: Profile, s: Settings, mode: InboundMode, session: Session, cachePath: Option<string>)
    requires BuildInbounds(s, mode, session).Ok?
    ensures var config := Obj(BuildMap(p, s, mode, session, cachePath).value);
            && FieldOf(Under(config, "route"), "auto_detect_interface") == Some(Bool(true))
            && CacheFits(Under(Under(config, "experimental"), "cache_file"), cachePath)
            && TextAt(Under(config, "log"), "level") == Some("warn")
            && FieldOf(Under(config, "log"), "timestamp") == Some(Bool(true))
  {
    BuiltLog(EncodeDns(s, p), BuildInbounds(s, mode, session).value, BuildOutbounds(p),
             EncodeRoute(RouteConfig.BuildRoute(s.routing)), BuildExperimental(s, session, cachePath));
    Sections(p, s, mode, session, cachePath);
    BuiltCache(s, session, cachePath);
    BuiltCacheFits(cachePath);
    BuiltRoute(RouteConfig.BuildRoute(s.routing));
  }

  // ---- Experimental ---------------------------------------------------------

  predicate DebugApiFits(experimental: Json, on: bool, digits: string, secret: string) {
    var api := Under(experimental, "clash_api");
    && (FieldOf(experimental, "clash_api").Some? <==> on)
    && (on ==> TextAt(api, "external_controller") == Some("127.0.0.1:" + digits) && TextAt(api, "secret") == Some(secret))
  }

  lemma BuiltDebugApi(s: Settings, mode: InboundMode, drawn: Draw, cachePath: Option<string>)
    ensures DebugApiFits(Obj(BuildExperimental(s, Allocate(s, mode, drawn), cachePath)), s.debugApiEnabled,
                         Decimal(drawn.clashApiPort), drawn.secret)
  {
    assert LOOPBACK + ":" == "127.0.0.1:";
  }

  /**
   The debug API listens on the loopback at the drawn port, behind the drawn secret,
   if and only if the user turned it on.
   */
  lemma DebugApiExactly(p: Profile, s: Settings, mode: InboundMode, drawn: Draw, cachePath: Option<string>)
    returns (digits: string)
    ensures IsDecimalOf(digits, drawn.clashApiPort)
    ensures DebugApiFits(Under(Obj(BuildMap(p, s, mode, Allocate(s, mode, drawn), cachePath).value), "experimental"),
                         s.debugApiEnabled, digits, drawn.secret)
  {
    digits := Decimal(drawn.clashApiPort);
    DecimalIsDecimal(drawn.clashApiPort);
    BuiltDebugApi(s, mode, drawn, cachePath);
    Sections(p, s, mode, Allocate(s, mode, drawn), cachePath);
  }

  function Texts(names: seq<string>): Json { Arr(Mapped((name: string) => Str(name), names)) }

  predicate StatsFit(experimental: Json, on: bool) {
    var api := Under(experimental, "v2ray_api");
    && (FieldOf(experimental, "v2ray_api").Some? <==> on)
    && (on ==>
          && TextAt(api, "listen") == Some("")
          && FieldOf(Under(api, "stats"), "enabled") == Some(Bool(true))
          && FieldOf(Under(api, "stats"), "outbounds") == Some(Texts(Traffic.OUTBOUND_TAGS)))
  }

  lemma BuiltStats(s: Settings, session: Session, cachePath: Option<string>)
    ensures StatsFit(Obj(BuildExperimental(s, session, cachePath)), s.enableStats)
  {
    assert Mapped((name: string) => Str(name), Traffic.OUTBOUND_TAGS) == [Str("proxy"), Str("direct")];
  }

  /** The core counts exactly the outbounds the meter sums, both of them emitted, and opens no socket for it. */
  lemma TheMeterIsFed(p: Profile, s: Settings, mode: InboundMode, session: Session, cachePath: Option<string>)
    requires BuildInbounds(s, mode, session).Ok?
    ensures var config := Obj(BuildMap(p, s, mode, session, cachePath).value);
            && StatsFit(Under(config, "experimental"), s.enableStats)
            && ListAt(config, "outbounds").Some?
            && forall tag :: tag in Traffic.OUTBOUND_TAGS ==> Tagged(ListAt(config, "outbounds").value, tag).Some?
  {
    Sections(p, s, mode, session, cachePath);
    BuiltStats(s, session, cachePath);
    forall tag | tag in Traffic.OUTBOUND_TAGS ensures Tagged(BuildOutbounds(p), tag).Some? { BuiltOutbounds(p, tag); }
  }
}
