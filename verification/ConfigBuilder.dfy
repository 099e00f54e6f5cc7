/**
 The whole config map, the session that goes into it, and what an exported
 config still shows of its secrets.
 */
module ConfigBuilder {
  import opened Wrappers
  import opened AppSettings
  import opened ConfigRedaction
  import DnsConfig
  import RouteConfig
  import opened RuleList

  function When(on: bool, m: map<string, Json>): map<string, Json> {
    if on then m else map[]
  }

  // ---- dns ------------------------------------------------------------------

  function EncodeServer(v: DnsConfig.Server): Json {
    Obj(map["tag" := Str(v.tag), "address" := Str(v.address)]
        + When(v.resolver.Some?, map["address_resolver" := Str(v.resolver.GetOrElse(""))])
        + When(v.detour.Some?, map["detour" := Str(v.detour.GetOrElse(""))]))
  }

  function EncodeQueryType(t: DnsConfig.QueryType): Json {
    match t
    case A => Str("A")
    case AAAA => Str("AAAA")
    case OtherType => Null
  }

  function EncodeDnsRule(r: Rule<DnsConfig.Condition>): Json {
    var server := map["server" := Str(r.target)];
    match r.condition
    case Domain(name) => Obj(server["domain" := Arr([Str(name)])])
    case RuleSet(tag) => Obj(server["rule_set" := Str(tag)]["disable_cache" := Bool(true)])
    case ClashMode(mode) => Obj(server["clash_mode" := Str(mode)])
    case QueryTypes(kinds) => Obj(server["query_type" := Arr(Mapped(EncodeQueryType, kinds))])
  }

  function Ipv6Strategy(mode: Ipv6Mode): string {
    match mode
    case Disable => "ipv4_only"
    case Enable => "prefer_ipv4"
    case Prefer => "prefer_ipv6"
    case Only => "ipv6_only"
  }

  function EncodeSection(section: DnsConfig.Section, settings: map<string, Json>): Json {
    Obj(settings["servers" := Arr(Mapped(EncodeServer, section.servers))]
                ["rules" := Arr(Mapped(EncodeDnsRule, section.rules))]["final" := Str(section.fallback)])
  }

  function FakeIp(s: Settings): Json {
    Obj(map["enabled" := Bool(true), "inet4_range" := Str(s.dns.fakeIpv4Range)]
        + When(s.routing.ipv6Mode != Disable, map["inet6_range" := Str(s.dns.fakeIpv6Range)]))
  }

  function DnsSettings(s: Settings): map<string, Json> {
    var strategy := if s.dns.domainStrategy != "" then s.dns.domainStrategy else Ipv6Strategy(s.routing.ipv6Mode);
    map["independent_cache" := Bool(s.dns.independentCache), "strategy" := Str(strategy)]
    + When(s.dns.enableFakeDns, map["fakeip" := FakeIp(s)])
  }

  function EncodeDns(s: Settings, p: Profile): Json {
    EncodeSection(DnsConfig.BuildDns(s, p), DnsSettings(s))
  }

  // ---- inbounds -------------------------------------------------------------

  const TUN_TAG := "tun-in"
  const SYSTEM_PROXY_TAG := "sysproxy-in"
  const LOCAL_PROXY_TAG := "proxy-in"
  const LOOPBACK := "127.0.0.1"
  const ANY_ADDRESS := "0.0.0.0"

  function TunInbound(s: Settings): Json {
    Obj(map["type" := Str("tun"), "tag" := Str(TUN_TAG), "interface_name" := Str("fastflow-tun"),
            "address" := Arr([Str("172.19.0.1/28"), Str("fdfe:dcba:9876::1/126")]), "mtu" := Num(9000),
            "auto_route" := Bool(true), "strict_route" := Bool(s.routing.strictRouting), "stack" := Str(s.tunStack),
            "endpoint_independent_nat" := Bool(true), "sniff" := Bool(s.routing.enableSniffing),
            "sniff_override_destination" := Bool(false)])
  }

  function SystemProxyInbound(s: Settings, port: nat): Json {
    Obj(map["type" := Str("mixed"), "tag" := Str(SYSTEM_PROXY_TAG), "listen" := Str(LOOPBACK),
            "listen_port" := Num(port), "sniff" := Bool(s.routing.enableSniffing)])
  }

  function LocalProxyInbound(s: Settings, port: nat): Json {
    Obj(map["type" := Str("mixed"), "tag" := Str(LOCAL_PROXY_TAG),
            "listen" := Str(if s.localProxy.mode == Lan then ANY_ADDRESS else LOOPBACK),
            "listen_port" := Num(port), "sniff" := Bool(s.routing.enableSniffing),
            "users" := Arr([Credentials(s.localProxy)])])
  }

  function Credentials(lp: LocalProxy): Json {
    Obj(map["username" := Str(lp.username), "password" := Str(lp.password)])
  }

  function BuildInbounds(s: Settings, mode: InboundMode, session: Session): Result<seq<Json>> {
    if mode.SystemProxy? && session.systemProxyPort.None? then
      Err("systemProxy mode requires an allocated system-proxy port")
    else if session.localProxyPort.Some? && !CanListen(s.localProxy) then
      Err("local proxy port allocated without credentials")
    else
      Ok((if mode.Tun? then [TunInbound(s)] else [SystemProxyInbound(s, session.systemProxyPort.value)])
         + (if session.localProxyPort.Some? then [LocalProxyInbound(s, session.localProxyPort.value)] else []))
  }

  // ---- outbounds and route --------------------------------------------------

  function Outbound(kind: string, tag: string): Json {
    Obj(map["type" := Str(kind), "tag" := Str(tag)])
  }

  function BuildProxy(p: Profile): Json {
    var kind := match p.protocol case Vless => "vless" case Hysteria2 => "hysteria2";
    Obj(p.details["type" := Str(kind)]["tag" := Str(PROXY_TAG)]["server" := Str(p.serverAddress)])
  }

  function BuildOutbounds(p: Profile): seq<Json> {
    [BuildProxy(p), Outbound("direct", DIRECT_TAG), Outbound("block", BLOCK_TAG), Outbound("dns", DNS_TAG)]
  }

  function EncodeRouteRule(r: Rule<RouteConfig.Condition>): Json {
    var outbound := map["outbound" := Str(r.target)];
    match r.condition
    case Protocol(name) => Obj(outbound["protocol" := Str(name)])
    case Port(number) => Obj(outbound["port" := Num(number)])
    case IpVersion(version) => Obj(outbound["ip_version" := Num(version)])
    case RuleSet(tag) => Obj(outbound["rule_set" := Str(tag)])
    case IpIsPrivate => Obj(outbound["ip_is_private" := Bool(true)])
    case ClashMode(mode) => Obj(outbound["clash_mode" := Str(mode)])
  }

  const ADS_PATH := "/SagerNet/sing-geosite/rule-set/geosite-category-ads-all.srs"
  const ADS_URL := "https://" + ADS_HOST + ADS_PATH

  function EncodeSource(src: RouteConfig.RuleSource): Json {
    Obj(map["tag" := Str(src.tag), "type" := Str("remote"), "format" := Str("binary"), "url" := Str(ADS_URL),
            "download_detour" := Str(src.downloadDetour)])
  }

  function EncodeRoute(route: RouteConfig.Route): Json {
    Obj(map["rules" := Arr(Mapped(EncodeRouteRule, route.rules)), "final" := Str(route.fallback),
            "auto_detect_interface" := Bool(true)]
        + When(route.sources != [], map["rule_set" := Arr(Mapped(EncodeSource, route.sources))]))
  }

  // ---- experimental ---------------------------------------------------------

  function CacheFile(cachePath: Option<string>): Json {
    var path := cachePath.GetOrElse("");
    Obj(map["enabled" := Bool(true), "store_fakeip" := Bool(true)] + When(path != "", map["path" := Str(path)]))
  }

  const TRAFFIC_STATS := Obj(map[
    "listen" := Str(""),
    "stats" := Obj(map["enabled" := Bool(true), "outbounds" := Arr([Str(PROXY_TAG), Str(DIRECT_TAG)])])])

  function ClashApi(port: nat, secret: Option<string>): Json {
    Obj(map["external_controller" := Str(LOOPBACK + ":" + Decimal(port)),
            "secret" := if secret.Some? then Str(secret.value) else Null])
  }

  function BuildExperimental(s: Settings, session: Session, cachePath: Option<string>): map<string, Json> {
    var experimental := map["cache_file" := CacheFile(cachePath)] + When(s.enableStats, map["v2ray_api" := TRAFFIC_STATS]);
    if session.clashApiPort.None? then experimental
    else experimental["clash_api" := ClashApi(session.clashApiPort.value, session.clashApiSecret)]
  }

  // ---- the map --------------------------------------------------------------

  function Document(dns: Json, inbounds: seq<Json>, outbounds: seq<Json>, route: Json, experimental: map<string, Json>)
    : map<string, Json>
  {
    map["log" := Obj(map["level" := Str("warn"), "timestamp" := Bool(true)]), "dns" := dns, "inbounds" := Arr(inbounds),
        "outbounds" := Arr(outbounds), "route" := route, "experimental" := Obj(experimental)]
  }

  function Assemble(p: Profile, s: Settings, inbounds: seq<Json>, session: Session, cachePath: Option<string>)
    : map<string, Json>
  {
    Document(EncodeDns(s, p), inbounds, BuildOutbounds(p), EncodeRoute(RouteConfig.BuildRoute(s.routing)),
             BuildExperimental(s, session, cachePath))
  }

  function BuildMap(p: Profile, s: Settings, mode: InboundMode, session: Session, cachePath: Option<string>)
    : Result<map<string, Json>>
  {
    var inbounds := BuildInbounds(s, mode, session);
    if inbounds.Err? then Err(inbounds.error) else Ok(Assemble(p, s, inbounds.value, session, cachePath))
  }

  /** What the export screen shows. */
  function Exported(p: Profile, s: Settings, mode: InboundMode, session: Session): Result<Json> {
    var built := BuildMap(p, s, mode, session, None);
    if built.Err? then Err(built.error) else Ok(Redacted(Config, Obj(built.value)))
  }

  method BuildPretty(p: Profile, s: Settings, mode: InboundMode, session: Session, redactSecrets: bool)
    returns (shown: Result<Json>)
    ensures redactSecrets ==> shown == Exported(p, s, mode, session)
    ensures !redactSecrets ==>
              var built := BuildMap(p, s, mode, session, None);
              shown == if built.Err? then Err(built.error) else Ok(Obj(built.value))
  {
    var built := BuildMap(p, s, mode, session, None);
    if built.Err? { return Err(built.error); }
    var config := new ConfigMap(built.value);
    if redactSecrets { config.RedactInPlace(); }
    return Ok(Obj(config.entries));
  }

  // ---- sessions -------------------------------------------------------------

  /** What the operating system and the random source hand out for one connection. */
  datatype Draw = Draw(systemProxyPort: nat, localProxyPort: nat, clashApiPort: nat, secret: string)

  function Allocate(s: Settings, mode: InboundMode, drawn: Draw): Session {
    Session(
      if mode.SystemProxy? then Some(drawn.systemProxyPort) else None,
      if !CanListen(s.localProxy) then None
      else if s.localProxy.pinnedPort != 0 then Some(s.localProxy.pinnedPort) else Some(drawn.localProxyPort),
      if s.debugApiEnabled then Some(drawn.clashApiPort) else None,
      if s.debugApiEnabled then Some(drawn.secret) else None)
  }

  // ---- Properties -----------------------------------------------------------

  predicate IsTun(inbound: Json) {
    inbound.Obj? && "type" in inbound.fields && inbound.fields["type"] == Str("tun")
  }

  /** A listener that turns away clients without the user's own, non-empty credentials. */
  predicate Authenticates(inbound: Json, s: Settings) {
    && inbound.Obj? && "users" in inbound.fields && inbound.fields["users"] == Arr([Credentials(s.localProxy)])
    && s.localProxy.username != "" && s.localProxy.password != ""
  }

  predicate ListensOn(inbound: Json, address: string) {
    inbound.Obj? && "listen" in inbound.fields && inbound.fields["listen"] == Str(address)
  }

  /** The local proxy keeps strangers out, and leaves the loopback only to share with the LAN. */
  lemma LocalProxyIsGuarded(s: Settings, port: nat)
    requires CanListen(s.localProxy)
    ensures var inbound := LocalProxyInbound(s, port);
            !IsTun(inbound) && Authenticates(inbound, s) && (ListensOn(inbound, ANY_ADDRESS) ==> s.localProxy.mode == Lan)
  {
  }

  lemma FirstInbound(s: Settings, port: nat)
    ensures IsTun(TunInbound(s)) && !ListensOn(TunInbound(s), ANY_ADDRESS)
    ensures var inbound := SystemProxyInbound(s, port);
            !IsTun(inbound) && ListensOn(inbound, LOOPBACK) && !ListensOn(inbound, ANY_ADDRESS)
  {
  }

  /** A session from the factory always builds, and a port opens only for a stated reason. */
  lemma EveryListenerIsJustified(p: Profile, s: Settings, mode: InboundMode, drawn: Draw)
    ensures var inbounds := BuildInbounds(s, mode, Allocate(s, mode, drawn));
            && inbounds.Ok?
            && |inbounds.value| == 1 + (if CanListen(s.localProxy) then 1 else 0)
            && (IsTun(inbounds.value[0]) <==> mode.Tun?)
            && (mode.SystemProxy? ==> ListensOn(inbounds.value[0], LOOPBACK))
            && (forall inbound :: inbound in inbounds.value[1..] ==> Authenticates(inbound, s))
            && (forall inbound :: inbound in inbounds.value && ListensOn(inbound, ANY_ADDRESS) ==> s.localProxy.mode == Lan)
  {
    var session := Allocate(s, mode, drawn);
    var inbounds := BuildInbounds(s, mode, session).value;
    FirstInbound(s, session.systemProxyPort.GetOrElse(0));
    if CanListen(s.localProxy) {
      var port := session.localProxyPort.value;
      LocalProxyIsGuarded(s, port);
      assert inbounds == [inbounds[0], LocalProxyInbound(s, port)];
    }
  }

  lemma CredentialsLookAlike(a: LocalProxy, b: LocalProxy)
    requires a.username == b.username
    ensures LookAlike(User, Credentials(a), Credentials(b))
  {
    var fields := map["username" := Str(a.username)];
    assert Credentials(a) == Obj(fields["password" := Str(a.password)]);
    assert Credentials(b) == Obj(fields["password" := Str(b.password)]);
    OneDifference(User, fields, "password", Str(a.password), Str(b.password));
  }

  lemma LocalProxiesLookAlike(s: Settings, t: Settings, port: nat)
    requires t == s.(localProxy := s.localProxy.(password := t.localProxy.password))
    ensures LookAlike(Inbound, LocalProxyInbound(s, port), LocalProxyInbound(t, port))
  {
    var a, b := LocalProxyInbound(s, port).fields, LocalProxyInbound(t, port).fields;
    CredentialsLookAlike(s.localProxy, t.localProxy);
    SameItems(Users, [Credentials(s.localProxy)], [Credentials(t.localProxy)]);
    assert a["users" := a["users"]] == a && a["users" := b["users"]] == b;
    OneDifference(Inbound, a, "users", a["users"], b["users"]);
  }

  lemma InboundsLookAlike(s: Settings, t: Settings, mode: InboundMode, session: Session)
    requires t == s.(localProxy := s.localProxy.(password := t.localProxy.password))
    requires BuildInbounds(s, mode, session).Ok? && BuildInbounds(t, mode, session).Ok?
    ensures LookAlike(Inbounds, Arr(BuildInbounds(s, mode, session).value), Arr(BuildInbounds(t, mode, session).value))
  {
    var a, b := BuildInbounds(s, mode, session).value, BuildInbounds(t, mode, session).value;
    if session.localProxyPort.Some? {
      LocalProxiesLookAlike(s, t, session.localProxyPort.value);
      assert LookAlike(Inbound, a[1], b[1]);
    }
    assert a[0] == b[0];
    SameItems(Inbounds, a, b);
  }

  lemma ClashLooksAlike(port: nat, a: Option<string>, b: Option<string>)
    ensures LookAlike(Clash, ClashApi(port, a), ClashApi(port, b))
  {
    var ca, cb := ClashApi(port, a).fields, ClashApi(port, b).fields;
    assert ca["secret" := ca["secret"]] == ca && ca["secret" := cb["secret"]] == cb;
    OneDifference(Clash, ca, "secret", ca["secret"], cb["secret"]);
  }

  lemma ExperimentalsLookAlike(s: Settings, session: Session, secret: Option<string>, cachePath: Option<string>)
    ensures LookAlike(Experimental, Obj(BuildExperimental(s, session, cachePath)),
                      Obj(BuildExperimental(s, session.(clashApiSecret := secret), cachePath)))
  {
    if session.clashApiPort.Some? {
      var port := session.clashApiPort.value;
      ClashLooksAlike(port, session.clashApiSecret, secret);
      OneDifference(Experimental, BuildExperimental(s, session.(clashApiPort := None), cachePath), "clash_api",
                    ClashApi(port, session.clashApiSecret), ClashApi(port, secret));
    }
  }

  lemma DocumentsLookAlike(dns: Json, a: seq<Json>, b: seq<Json>, outbounds: seq<Json>, route: Json,
                           ea: map<string, Json>, eb: map<string, Json>)
    requires LookAlike(Inbounds, Arr(a), Arr(b)) && LookAlike(Experimental, Obj(ea), Obj(eb))
    ensures LookAlike(Config, Obj(Document(dns, a, outbounds, route, ea)), Obj(Document(dns, b, outbounds, route, eb)))
  {
    var first, last := Document(dns, a, outbounds, route, ea), Document(dns, b, outbounds, route, eb);
    var middle := Document(dns, b, outbounds, route, ea);
    SameMap(first["inbounds" := Arr(a)], first);
    SameMap(first["inbounds" := Arr(b)], middle);
    OneDifference(Config, first, "inbounds", Arr(a), Arr(b));
    SameMap(middle["experimental" := Obj(ea)], middle);
    SameMap(middle["experimental" := Obj(eb)], last);
    OneDifference(Config, middle, "experimental", Obj(ea), Obj(eb));
  }

  lemma DnsIgnoresTheLocalProxy(s: Settings, t: Settings, p: Profile)
    requires t == s.(localProxy := t.localProxy)
    ensures EncodeDns(s, p) == EncodeDns(t, p)
  {
  }

  lemma AssembledLookAlike(p: Profile, s: Settings, t: Settings, a: seq<Json>, b: seq<Json>, session: Session,
                           secret: Option<string>, cachePath: Option<string>)
    requires t == s.(localProxy := s.localProxy.(password := t.localProxy.password))
    requires LookAlike(Inbounds, Arr(a), Arr(b))
    ensures LookAlike(Config, Obj(Assemble(p, s, a, session, cachePath)),
                      Obj(Assemble(p, t, b, session.(clashApiSecret := secret), cachePath)))
  {
    ExperimentalsLookAlike(s, session, secret, cachePath);
    DnsIgnoresTheLocalProxy(s, t, p);
    DocumentsLookAlike(EncodeDns(s, p), a, b, BuildOutbounds(p), EncodeRoute(RouteConfig.BuildRoute(s.routing)),
                       BuildExperimental(s, session, cachePath),
                       BuildExperimental(s, session.(clashApiSecret := secret), cachePath));
  }

  lemma BuiltLookAlike(p: Profile, s: Settings, t: Settings, mode: InboundMode, session: Session, secret: Option<string>)
    requires t == s.(localProxy := s.localProxy.(password := t.localProxy.password))
    requires BuildInbounds(s, mode, session).Ok? && BuildInbounds(t, mode, session).Ok?
    ensures Exported(p, s, mode, session) == Exported(p, t, mode, session.(clashApiSecret := secret))
  {
    var other := session.(clashApiSecret := secret);
    assert BuildInbounds(t, mode, session) == BuildInbounds(t, mode, other);
    InboundsLookAlike(s, t, mode, session);
    AssembledLookAlike(p, s, t, BuildInbounds(s, mode, session).value, BuildInbounds(t, mode, session).value,
                       session, secret, None);
  }

  /**
   Non-interference: change only the local-proxy password and the clash secret and
   the exported config, or the error, is the same; exactly unless the password's
   emptiness decides whether the local proxy may listen.
   */
  lemma {:induction false} ExportHidesSecrets(p: Profile, s: Settings, mode: InboundMode, session: Session,
                                                 password: string, secret: Option<string>)
    ensures var t := s.(localProxy := s.localProxy.(password := password));
            Exported(p, s, mode, session) == Exported(p, t, mode, session.(clashApiSecret := secret)) <==>
            (|| CanListen(s.localProxy) == CanListen(t.localProxy)
             || session.localProxyPort.None?
             || (mode.SystemProxy? && session.systemProxyPort.None?))
  {
    var t := s.(localProxy := s.localProxy.(password := password));
    if BuildInbounds(s, mode, session).Ok? && BuildInbounds(t, mode, session).Ok? {
      BuiltLookAlike(p, s, t, mode, session, secret);
    }
  }

  lemma DocumentShowsOutbounds(dns: Json, inbounds: seq<Json>, outbounds: seq<Json>, route: Json,
                               experimental: map<string, Json>)
    ensures var shown := Redacted(Config, Obj(Document(dns, inbounds, outbounds, route, experimental)));
            shown.Obj? && "outbounds" in shown.fields && shown.fields["outbounds"] == Arr(outbounds)
  {
    var config := Document(dns, inbounds, outbounds, route, experimental);
    SameKeys(Config, config);
    ChildOfRedacted(Config, Obj(config), Key("outbounds"));
  }

  /** The profile's own credentials are not redacted: the proxy outbound is exported whole. */
  lemma {:induction false} ExportShowsTheOutbound(p: Profile, s: Settings, mode: InboundMode, session: Session)
    requires BuildInbounds(s, mode, session).Ok?
    ensures Exported(p, s, mode, session).Ok?
    ensures var shown := Exported(p, s, mode, session).value;
            && shown.Obj? && "outbounds" in shown.fields
            && shown.fields["outbounds"].Arr? && |shown.fields["outbounds"].items| > 0
            && shown.fields["outbounds"].items[0].Obj?
            && (forall key :: key in p.details && key !in {"type", "tag", "server"} ==>
                  && key in shown.fields["outbounds"].items[0].fields
                  && shown.fields["outbounds"].items[0].fields[key] == p.details[key])
  {
    DocumentShowsOutbounds(EncodeDns(s, p), BuildInbounds(s, mode, session).value, BuildOutbounds(p),
                           EncodeRoute(RouteConfig.BuildRoute(s.routing)), BuildExperimental(s, session, None));
  }
}
