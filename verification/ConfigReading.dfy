/**
 The emitted JSON read back the way the core reads it, so that what is proved of
 the rule lists holds of the config the engine is handed.
 */
module ConfigReading {
  import opened Wrappers
  import opened AppSettings
  import opened RuleList
  import opened ConfigBuilder
  import DnsConfig
  import RouteConfig

  function TextAt(j: Json, key: string): Option<string> {
    if j.Obj? && key in j.fields && j.fields[key].Str? then Some(j.fields[key].s) else None
  }

  function NumberAt(j: Json, key: string): Option<int> {
    if j.Obj? && key in j.fields && j.fields[key].Num? then Some(j.fields[key].n) else None
  }

  /** A list that is not there reads as empty. */
  function ListAt(j: Json, key: string): Option<seq<Json>> {
    if !j.Obj? then None
    else if key !in j.fields then Some([])
    else if j.fields[key].Arr? then Some(j.fields[key].items)
    else None
  }

  /** Every item read, or nothing if one cannot be. */
  function ReadAll<T>(read: Json -> Option<T>, items: seq<Json>): Option<seq<T>> {
    if items == [] then Some([])
    else
      var first, rest := read(items[0]), ReadAll(read, items[1..]);
      if first.Some? && rest.Some? then Some([first.value] + rest.value) else None
  }

  lemma {:induction false} ReadsBack<T>(read: Json -> Option<T>, write: T -> Json, xs: seq<T>)
    requires forall x :: x in xs ==> read(write(x)) == Some(x)
    ensures ReadAll(read, Mapped(write, xs)) == Some(xs)
  {
    if xs != [] {
      assert read(write(xs[0])) == Some(xs[0]);
      ReadsBack(read, write, xs[1..]);
      assert Mapped(write, xs)[0] == write(xs[0]) && Mapped(write, xs)[1..] == Mapped(write, xs[1..]);
      assert [xs[0]] + xs[1..] == xs;
    }
  }

  // ---- route ----------------------------------------------------------------

  function ReadRouteCondition(j: Json): Option<RouteConfig.Condition> {
    if TextAt(j, "protocol").Some? then Some(RouteConfig.Protocol(TextAt(j, "protocol").value))
    else if NumberAt(j, "port").Some? then Some(RouteConfig.Port(NumberAt(j, "port").value))
    else if NumberAt(j, "ip_version").Some? then Some(RouteConfig.IpVersion(NumberAt(j, "ip_version").value))
    else if TextAt(j, "rule_set").Some? then Some(RouteConfig.RuleSet(TextAt(j, "rule_set").value))
    else if j.Obj? && "ip_is_private" in j.fields && j.fields["ip_is_private"] == Bool(true) then Some(RouteConfig.IpIsPrivate)
    else if TextAt(j, "clash_mode").Some? then Some(RouteConfig.ClashMode(TextAt(j, "clash_mode").value))
    else None
  }

  function ReadRouteRule(j: Json): Option<Rule<RouteConfig.Condition>> {
    var condition, outbound := ReadRouteCondition(j), TextAt(j, "outbound");
    if condition.Some? && outbound.Some? then Some(Rule(condition.value, outbound.value)) else None
  }

  function ReadSource(j: Json): Option<RouteConfig.RuleSource> {
    var tag, detour := TextAt(j, "tag"), TextAt(j, "download_detour");
    if tag.Some? && detour.Some? && TextAt(j, "type") == Some("remote") && TextAt(j, "format") == Some("binary")
    then Some(RouteConfig.RuleSource(tag.value, detour.value)) else None
  }

  function ReadRoute(j: Json): Option<RouteConfig.Route> {
    var rules, fallback, sources := ListAt(j, "rules"), TextAt(j, "final"), ListAt(j, "rule_set");
    if rules.None? || fallback.None? || sources.None? then None
    else
      var r, src := ReadAll(ReadRouteRule, rules.value), ReadAll(ReadSource, sources.value);
      if r.Some? && src.Some? then Some(RouteConfig.Route(r.value, fallback.value, src.value)) else None
  }

  lemma RouteRuleReadsBack(r: Rule<RouteConfig.Condition>)
    ensures ReadRouteRule(EncodeRouteRule(r)) == Some(r)
  {
  }

  lemma SourceReadsBack(src: RouteConfig.RuleSource)
    ensures ReadSource(EncodeSource(src)) == Some(src)
  {
  }

  /** Any route section at all survives being written and read. */
  lemma RouteReadsBack(route: RouteConfig.Route)
    ensures ReadRoute(EncodeRoute(route)) == Some(route)
  {
    var rules, sources := Mapped(EncodeRouteRule, route.rules), Mapped(EncodeSource, route.sources);
    forall x | x in route.rules ensures ReadRouteRule(EncodeRouteRule(x)) == Some(x) { RouteRuleReadsBack(x); }
    ReadsBack(ReadRouteRule, EncodeRouteRule, route.rules);
    forall x | x in route.sources ensures ReadSource(EncodeSource(x)) == Some(x) { SourceReadsBack(x); }
    ReadsBack(ReadSource, EncodeSource, route.sources);
    RouteLists(route);
  }

  lemma RouteLists(route: RouteConfig.Route)
    ensures var j := EncodeRoute(route);
            && ListAt(j, "rules") == Some(Mapped(EncodeRouteRule, route.rules))
            && ListAt(j, "rule_set") == Some(Mapped(EncodeSource, route.sources))
            && TextAt(j, "final") == Some(route.fallback)
  {
    if route.sources == [] { assert Mapped(EncodeSource, route.sources) == []; }
  }

  // ---- dns ------------------------------------------------------------------

  function ReadQueryType(j: Json): Option<DnsConfig.QueryType> {
    if j == Str("A") then Some(DnsConfig.A) else if j == Str("AAAA") then Some(DnsConfig.AAAA) else None
  }

  function ReadDnsCondition(j: Json): Option<DnsConfig.Condition> {
    var domains, kinds := ListAt(j, "domain"), ListAt(j, "query_type");
    if domains.Some? && |domains.value| == 1 && domains.value[0].Str? then Some(DnsConfig.Domain(domains.value[0].s))
    else if TextAt(j, "rule_set").Some? && FieldOf(j, "disable_cache") == Some(Bool(true)) then
      Some(DnsConfig.RuleSet(TextAt(j, "rule_set").value))
    else if TextAt(j, "clash_mode").Some? then Some(DnsConfig.ClashMode(TextAt(j, "clash_mode").value))
    else if kinds.Some? && kinds.value != [] && ReadAll(ReadQueryType, kinds.value).Some? then
      Some(DnsConfig.QueryTypes(ReadAll(ReadQueryType, kinds.value).value))
    else None
  }

  function ReadDnsRule(j: Json): Option<Rule<DnsConfig.Condition>> {
    var condition, server := ReadDnsCondition(j), TextAt(j, "server");
    if condition.Some? && server.Some? then Some(Rule(condition.value, server.value)) else None
  }

  function ReadServer(j: Json): Option<DnsConfig.Server> {
    var tag, address := TextAt(j, "tag"), TextAt(j, "address");
    if tag.None? || address.None? then None
    else Some(DnsConfig.Server(tag.value, address.value, TextAt(j, "address_resolver"), TextAt(j, "detour")))
  }

  function ReadDns(j: Json): Option<DnsConfig.Section> {
    var servers, rules, fallback := ListAt(j, "servers"), ListAt(j, "rules"), TextAt(j, "final");
    if servers.None? || rules.None? || fallback.None? then None
    else
      var v, r := ReadAll(ReadServer, servers.value), ReadAll(ReadDnsRule, rules.value);
      if v.Some? && r.Some? then Some(DnsConfig.Section(v.value, r.value, fallback.value)) else None
  }

  lemma QueryTypesReadBack()
    ensures ReadAll(ReadQueryType, Mapped(EncodeQueryType, [DnsConfig.A, DnsConfig.AAAA]))
            == Some([DnsConfig.A, DnsConfig.AAAA])
  {
    ReadsBack(ReadQueryType, EncodeQueryType, [DnsConfig.A, DnsConfig.AAAA]);
  }

  lemma DnsRuleReadsBack(r: Rule<DnsConfig.Condition>)
    requires r.condition.QueryTypes? ==> r.condition.kinds == [DnsConfig.A, DnsConfig.AAAA]
    ensures ReadDnsRule(EncodeDnsRule(r)) == Some(r)
  {
    QueryTypesReadBack();
  }

  lemma ServerReadsBack(v: DnsConfig.Server)
    ensures ReadServer(EncodeServer(v)) == Some(v)
  {
  }

  lemma SectionLists(section: DnsConfig.Section, settings: map<string, Json>)
    ensures var j := EncodeSection(section, settings);
            && ListAt(j, "servers") == Some(Mapped(EncodeServer, section.servers))
            && ListAt(j, "rules") == Some(Mapped(EncodeDnsRule, section.rules))
            && TextAt(j, "final") == Some(section.fallback)
  {
  }

  /** Any dns section whose query rules ask for A and AAAA survives being written and read. */
  lemma SectionReadsBack(section: DnsConfig.Section, settings: map<string, Json>)
    requires forall r :: r in section.rules && r.condition.QueryTypes? ==> r.condition.kinds == [DnsConfig.A, DnsConfig.AAAA]
    ensures ReadDns(EncodeSection(section, settings)) == Some(section)
  {
    forall x | x in section.rules ensures ReadDnsRule(EncodeDnsRule(x)) == Some(x) { DnsRuleReadsBack(x); }
    ReadsBack(ReadDnsRule, EncodeDnsRule, section.rules);
    forall x | x in section.servers ensures ReadServer(EncodeServer(x)) == Some(x) { ServerReadsBack(x); }
    ReadsBack(ReadServer, EncodeServer, section.servers);
    SectionLists(section, settings);
  }

  lemma BuiltKinds(s: Settings, p: Profile)
    ensures forall r :: r in DnsConfig.BuildRules(s, p) && r.condition.QueryTypes? ==>
              r.condition.kinds == [DnsConfig.A, DnsConfig.AAAA]
  {
  }

  lemma DnsReadsBack(s: Settings, p: Profile)
    ensures ReadDns(EncodeDns(s, p)) == Some(DnsConfig.BuildDns(s, p))
  {
    BuiltKinds(s, p);
    SectionReadsBack(DnsConfig.BuildDns(s, p), DnsSettings(s));
  }

  // ---- the whole config -----------------------------------------------------

  function FieldOf(j: Json, key: string): Option<Json> {
    if j.Obj? && key in j.fields then Some(j.fields[key]) else None
  }

  function Under(j: Json, key: string): Json {
    FieldOf(j, key).GetOrElse(Null)
  }

  lemma DocumentSections(dns: Json, inbounds: seq<Json>, outbounds: seq<Json>, route: Json, experimental: map<string, Json>)
    ensures var config := Obj(Document(dns, inbounds, outbounds, route, experimental));
            && Under(config, "dns") == dns && Under(config, "route") == route
            && ListAt(config, "inbounds") == Some(inbounds) && ListAt(config, "outbounds") == Some(outbounds)
            && Under(config, "experimental") == Obj(experimental)
  {
  }

  lemma Sections(p: Profile, s: Settings, mode: InboundMode, session: Session, cachePath: Option<string>)
    requires BuildInbounds(s, mode, session).Ok?
    ensures var config := Obj(BuildMap(p, s, mode, session, cachePath).value);
            && Under(config, "dns") == EncodeDns(s, p)
            && ListAt(config, "inbounds") == Some(BuildInbounds(s, mode, session).value)
            && ListAt(config, "outbounds") == Some(BuildOutbounds(p))
            && Under(config, "route") == EncodeRoute(RouteConfig.BuildRoute(s.routing))
            && Under(config, "experimental") == Obj(BuildExperimental(s, session, cachePath))
  {
    DocumentSections(EncodeDns(s, p), BuildInbounds(s, mode, session).value, BuildOutbounds(p),
                     EncodeRoute(RouteConfig.BuildRoute(s.routing)), BuildExperimental(s, session, cachePath));
  }

  /** Every config the builder emits reads back, and routes and resolves as the two policies say. */
  lemma {:induction false} EmittedConfigMeansThePolicies(
      p: Profile, s: Settings, mode: InboundMode, session: Session, cachePath: Option<string>,
      packet: RouteConfig.Packet, q: DnsConfig.Query, inSet: string -> bool, clashMode: string)
    requires BuildInbounds(s, mode, session).Ok?
    ensures BuildMap(p, s, mode, session, cachePath).Ok?
    ensures var config := Obj(BuildMap(p, s, mode, session, cachePath).value);
            var route, dns := ReadRoute(Under(config, "route")), ReadDns(Under(config, "dns"));
            && route.Some? && dns.Some?
            && RouteConfig.OutboundOf(route.value, packet, inSet, clashMode)
               == RouteConfig.Decide(s.routing, packet, inSet(ADS_RULE_SET), clashMode)
            && DnsConfig.ServerFor(dns.value, q, DnsConfig.World(inSet, clashMode))
               == DnsConfig.Decide(s, p, q, DnsConfig.World(inSet, clashMode))
  {
    Sections(p, s, mode, session, cachePath);
    RouteReadsBack(RouteConfig.BuildRoute(s.routing));
    DnsReadsBack(s, p);
    RouteConfig.RouteMeansPolicy(s.routing, packet, inSet, clashMode);
    DnsConfig.DnsMeansPolicy(s, p, q, DnsConfig.World(inSet, clashMode));
  }
}
