/**
 The dns section: servers, first-match rules, and what each lookup depends on
 before it can be answered.
 */
module DnsConfig {
  import opened Wrappers
  import opened AppSettings
  import opened RuleList
  import RouteConfig
  import Separated

  const REMOTE := "remote"
  const DIRECT := "direct"
  const BLOCK := "block"
  const FAKEIP := "fakeip"

  datatype Server = Server(tag: string, address: string, resolver: Option<string>, detour: Option<string>)

  datatype QueryType = A | AAAA | OtherType

  datatype Query = Query(name: string, kind: QueryType)

  datatype Condition =
    | Domain(name: string)
    | RuleSet(tag: string)
    | ClashMode(mode: string)
    | QueryTypes(kinds: seq<QueryType>)

  datatype Section = Section(servers: seq<Server>, rules: seq<Rule<Condition>>, fallback: string)

  // ---- Host names -----------------------------------------------------------

  predicate Digits(s: string) { forall c :: c in s ==> '0' <= c <= '9' }

  /** Four groups of one to three digits. */
  predicate LooksLikeV4(host: string) {
    var parts := Separated.Split(host, '.');
    |parts| == 4 && forall p :: p in parts ==> 1 <= |p| <= 3 && Digits(p)
  }

  predicate IsDomain(host: string) {
    host != "" && ':' !in host && !LooksLikeV4(host)
  }

  // ---- What a host name is, without splitting --------------------------------

  predicate Octet(s: string) { 1 <= |s| <= 3 && forall c :: c in s ==> c in "0123456789" }

  function Dotted(a: string, b: string, c: string, d: string): string { a + "." + b + "." + c + "." + d }

  /** Not empty, no colon, and not four groups of one to three digits with dots between them. */
  ghost predicate IsHostName(h: string) {
    && h != "" && ':' !in h
    && !exists a, b, c, d :: Octet(a) && Octet(b) && Octet(c) && Octet(d) && h == Dotted(a, b, c, d)
  }

  lemma OctetHasNoDot(s: string)
    requires Octet(s)
    ensures '.' !in s
  {
  }

  lemma DottedIsJoined(a: string, b: string, c: string, d: string)
    ensures Dotted(a, b, c, d) == Separated.Join([a, b, c, d], '.')
  {
    assert [a, b, c, d] == [a] + [b, c, d] && [b, c, d] == [b] + [c, d] && [c, d] == [c] + [d];
    Separated.JoinCons(a, [b, c, d], '.');
    Separated.JoinCons(b, [c, d], '.');
    Separated.JoinCons(c, [d], '.');
    assert a + "." + (b + "." + (c + "." + d)) == a + "." + b + "." + c + "." + d;
  }

  lemma V4IsDotted(h: string)
    returns (a: string, b: string, c: string, d: string)
    requires LooksLikeV4(h)
    ensures Octet(a) && Octet(b) && Octet(c) && Octet(d) && h == Dotted(a, b, c, d)
  {
    var parts := Separated.Split(h, '.');
    a, b, c, d := parts[0], parts[1], parts[2], parts[3];
    assert Octet(parts[0]) && Octet(parts[1]) && Octet(parts[2]) && Octet(parts[3]);
    assert parts == [a, b, c, d];
    Separated.JoinSplit(h, '.');
    DottedIsJoined(a, b, c, d);
  }

  lemma DottedIsV4(a: string, b: string, c: string, d: string)
    requires Octet(a) && Octet(b) && Octet(c) && Octet(d)
    ensures LooksLikeV4(Dotted(a, b, c, d))
  {
    DottedIsJoined(a, b, c, d);
    forall x | x in [a, b, c, d] ensures '.' !in x { OctetHasNoDot(x); }
    Separated.SplitJoin([a, b, c, d], '.');
  }

  lemma IsDomainExactly(h: string)
    ensures IsDomain(h) <==> IsHostName(h)
  {
    if LooksLikeV4(h) { var a, b, c, d := V4IsDotted(h); }
    forall a, b, c, d | Octet(a) && Octet(b) && Octet(c) && Octet(d) && h == Dotted(a, b, c, d) ensures LooksLikeV4(h) {
      DottedIsV4(a, b, c, d);
    }
  }

  // ---- The section ----------------------------------------------------------

  function BuildServers(d: Dns): seq<Server> {
    [Server(REMOTE, d.remoteDns, Some(DIRECT), Some(PROXY_TAG)),
     Server(DIRECT, d.directDns, None, Some(DIRECT_TAG)),
     Server(BLOCK, "rcode://success", None, None)]
    + if d.enableFakeDns then [Server(FAKEIP, "fakeip", None, None)] else []
  }

  function BuildRules(s: Settings, p: Profile): seq<Rule<Condition>> {
    Optional(IsDomain(p.serverAddress), Rule(Domain(p.serverAddress), DIRECT))
    + Optional(s.routing.adBlock, Rule(RuleSet(ADS_RULE_SET), BLOCK))
    + [Rule(ClashMode("Direct"), DIRECT), Rule(ClashMode("Global"), REMOTE)]
    + Optional(s.dns.enableFakeDns, Rule(QueryTypes([A, AAAA]), FAKEIP))
  }

  function BuildDns(s: Settings, p: Profile): Section {
    Section(BuildServers(s.dns), BuildRules(s, p), REMOTE)
  }

  // ---- Meaning --------------------------------------------------------------

  /** The outside answers one lookup sees: rule sets, and the clash mode. */
  datatype World = World(inSet: string -> bool, mode: string)

  predicate Matches(c: Condition, q: Query, w: World) {
    match c
    case Domain(name) => q.name == name
    case RuleSet(tag) => w.inSet(tag)
    case ClashMode(m) => w.mode == m
    case QueryTypes(kinds) => q.kind in kinds
  }

  function Matcher(q: Query, w: World): Condition -> bool {
    c => Matches(c, q, w)
  }

  function ServerFor(section: Section, q: Query, w: World): string {
    Evaluate(section.rules, section.fallback, Matcher(q, w))
  }

  /** The policy, without any rule list. */
  ghost function Decide(s: Settings, p: Profile, q: Query, w: World): string {
    if IsHostName(p.serverAddress) && q.name == p.serverAddress then DIRECT
    else if s.routing.adBlock && w.inSet(ADS_RULE_SET) then BLOCK
    else if w.mode == "Direct" then DIRECT
    else if s.dns.enableFakeDns && w.mode != "Global" && !q.kind.OtherType? then FAKEIP
    else REMOTE
  }

  function ModeRules(s: Settings): seq<Rule<Condition>> {
    [Rule(ClashMode("Direct"), DIRECT)]
    + ([Rule(ClashMode("Global"), REMOTE)] + (Optional(s.dns.enableFakeDns, Rule(QueryTypes([A, AAAA]), FAKEIP)) + []))
  }

  lemma ModesDecide(s: Settings, q: Query, w: World)
    ensures Evaluate(ModeRules(s), REMOTE, Matcher(q, w)) ==
            if w.mode == "Direct" then DIRECT
            else if s.dns.enableFakeDns && w.mode != "Global" && !q.kind.OtherType? then FAKEIP
            else REMOTE
  {
    var fake := Rule(QueryTypes([A, AAAA]), FAKEIP);
    var direct, global := Rule(ClashMode("Direct"), DIRECT), Rule(ClashMode("Global"), REMOTE);
    var matches, last := Matcher(q, w), Optional(s.dns.enableFakeDns, fake) + [];
    FirstMatchOptional(true, direct, [global] + last, matches);
    FirstMatchOptional(true, global, last, matches);
    FirstMatchOptional(s.dns.enableFakeDns, fake, [], matches);
  }

  lemma RulesInParts(s: Settings, p: Profile)
    ensures BuildRules(s, p) ==
            Optional(IsDomain(p.serverAddress), Rule(Domain(p.serverAddress), DIRECT))
            + (Optional(s.routing.adBlock, Rule(RuleSet(ADS_RULE_SET), BLOCK)) + ModeRules(s))
  {
  }

  /** For every profile, setting, query, ad set and clash mode the compiled list decides as the policy does. */
  lemma DnsMeansPolicy(s: Settings, p: Profile, q: Query, w: World)
    ensures ServerFor(BuildDns(s, p), q, w) == Decide(s, p, q, w)
  {
    var own, ads, rest := Rule(Domain(p.serverAddress), DIRECT), Rule(RuleSet(ADS_RULE_SET), BLOCK), ModeRules(s);
    var matches := Matcher(q, w);
    IsDomainExactly(p.serverAddress);
    RulesInParts(s, p);
    FirstMatchOptional(IsDomain(p.serverAddress), own, Optional(s.routing.adBlock, ads) + rest, matches);
    FirstMatchOptional(s.routing.adBlock, ads, rest, matches);
    ModesDecide(s, q, w);
  }

  /** The proxy's own name is never looked up through the proxy or answered with a fake address. */
  lemma ProxyHostGoesDirect(s: Settings, p: Profile, kind: QueryType, w: World)
    requires IsHostName(p.serverAddress)
    ensures ServerFor(BuildDns(s, p), Query(p.serverAddress, kind), w) == DIRECT
  {
    DnsMeansPolicy(s, p, Query(p.serverAddress, kind), w);
  }

  function Lookup(servers: seq<Server>, tag: string): Option<Server> {
    if servers == [] then None
    else if servers[0].tag == tag then Some(servers[0])
    else Lookup(servers[1..], tag)
  }

  lemma LookupCons(server: Server, rest: seq<Server>, tag: string)
    ensures Lookup([server] + rest, tag) == if server.tag == tag then Some(server) else Lookup(rest, tag)
  {
    assert ([server] + rest)[1..] == rest;
  }

  /** The servers, as the core finds them by tag. */
  lemma ServersByTag(d: Dns, tag: string)
    ensures Lookup(BuildServers(d), tag) ==
            if tag == REMOTE then Some(Server(REMOTE, d.remoteDns, Some(DIRECT), Some(PROXY_TAG)))
            else if tag == DIRECT then Some(Server(DIRECT, d.directDns, None, Some(DIRECT_TAG)))
            else if tag == BLOCK then Some(Server(BLOCK, "rcode://success", None, None))
            else if tag == FAKEIP && d.enableFakeDns then Some(Server(FAKEIP, "fakeip", None, None))
            else None
  {
    var remote := Server(REMOTE, d.remoteDns, Some(DIRECT), Some(PROXY_TAG));
    var direct := Server(DIRECT, d.directDns, None, Some(DIRECT_TAG));
    var block := Server(BLOCK, "rcode://success", None, None);
    var fakeip := Server(FAKEIP, "fakeip", None, None);
    var optional := if d.enableFakeDns then [fakeip] + [] else [];
    assert BuildServers(d) == [remote] + ([direct] + ([block] + optional));
    LookupCons(remote, [direct] + ([block] + optional), tag);
    LookupCons(direct, [block] + optional, tag);
    LookupCons(block, optional, tag);
    LookupCons(fakeip, [], tag);
  }

  /** Every lookup is sent to a server the section defines. */
  lemma EveryQueryHasAServer(s: Settings, p: Profile, q: Query, w: World)
    ensures Lookup(BuildDns(s, p).servers, ServerFor(BuildDns(s, p), q, w)).Some?
  {
    DnsMeansPolicy(s, p, q, w);
    ServersByTag(s.dns, Decide(s, p, q, w));
  }

  lemma RulesHaveServers(s: Settings, p: Profile)
    ensures forall r :: r in BuildRules(s, p) ==> Lookup(BuildServers(s.dns), r.target).Some?
  {
    forall r | r in BuildRules(s, p) ensures Lookup(BuildServers(s.dns), r.target).Some? {
      assert r.target in {DIRECT, BLOCK, REMOTE} || (s.dns.enableFakeDns && r.target == FAKEIP);
      ServersByTag(s.dns, r.target);
    }
  }

  lemma RuleSetsHaveSources(s: Settings, p: Profile)
    ensures forall r :: r in BuildRules(s, p) && r.condition.RuleSet? ==>
              exists src :: src in RouteConfig.BuildRoute(s.routing).sources && src.tag == r.condition.tag
  {
    forall r | r in BuildRules(s, p) && r.condition.RuleSet?
      ensures exists src :: src in RouteConfig.BuildRoute(s.routing).sources && src.tag == r.condition.tag
    {
      assert s.routing.adBlock;
      assert RouteConfig.RuleSource(ADS_RULE_SET, DIRECT_TAG) in RouteConfig.BuildRoute(s.routing).sources;
    }
  }

  lemma ServersHaveOutbounds(d: Dns)
    ensures forall v :: v in BuildServers(d) ==>
              && (v.detour.Some? ==> v.detour.value in OUTBOUND_TAGS)
              && (v.resolver.Some? ==> Lookup(BuildServers(d), v.resolver.value).Some?)
  {
    ServersByTag(d, DIRECT);
  }

  /** Every tag the section refers to is defined: servers, outbounds and, across builders, the ad rule set. */
  lemma DnsIsClosed(s: Settings, p: Profile)
    ensures var section := BuildDns(s, p);
            && Lookup(section.servers, section.fallback).Some?
            && (forall r :: r in section.rules ==> Lookup(section.servers, r.target).Some?)
            && (forall r :: r in section.rules && r.condition.RuleSet? ==>
                  exists src :: src in RouteConfig.BuildRoute(s.routing).sources && src.tag == r.condition.tag)
            && (forall v :: v in section.servers ==>
                  && (v.detour.Some? ==> v.detour.value in OUTBOUND_TAGS)
                  && (v.resolver.Some? ==> Lookup(section.servers, v.resolver.value).Some?))
  {
    ServersByTag(s.dns, REMOTE);
    RulesHaveServers(s, p);
    RuleSetsHaveSources(s, p);
    ServersHaveOutbounds(s.dns);
  }

  // ---- What has to be known first -------------------------------------------

  /** Something that must work before something else can. */
  datatype Node =
    | ServerNode(tag: string)
    | OutboundNode(tag: string)
    | HostNode(name: string, kind: QueryType)
    | RuleSetNode(tag: string)

  function SourceOf(sources: seq<RouteConfig.RuleSource>, tag: string): Option<RouteConfig.RuleSource> {
    if sources == [] then None
    else if sources[0].tag == tag then Some(sources[0])
    else SourceOf(sources[1..], tag)
  }

  /**
   What `n` needs. `hostOf` reads the host name out of a server address and finds
   none in `local`, an IP address, `fakeip` or an rcode. None when the core has no
   way at all: a server with a host name needs an address_resolver. A rule set is
   downloaded from its host, through its own outbound.
   */
  ghost function Needs(s: Settings, p: Profile, w: World, hostOf: string -> Option<string>, n: Node): Option<seq<Node>> {
    match n
    case ServerNode(tag) =>
      var found := Lookup(BuildServers(s.dns), tag);
      if found.None? then None
      else
        var server := found.value;
        var path := if server.detour.Some? then [OutboundNode(server.detour.value)] else [];
        if hostOf(server.address).None? then Some(path)
        else if server.resolver.None? then None
        else Some([ServerNode(server.resolver.value)] + path)
    case OutboundNode(tag) =>
      if tag == PROXY_TAG && IsHostName(p.serverAddress) then Some([HostNode(p.serverAddress, A)]) else Some([])
    case HostNode(name, kind) => Some([ServerNode(ServerFor(BuildDns(s, p), Query(name, kind), w))])
    case RuleSetNode(tag) =>
      var source := SourceOf(RouteConfig.BuildRoute(s.routing).sources, tag);
      if source.None? then None else Some([OutboundNode(source.value.downloadDetour), HostNode(ADS_HOST, A)])
  }

  /** Everything needed has a smaller rank. */
  ghost function Rank(p: Profile, n: Node): nat {
    match n
    case OutboundNode(tag) => if tag == PROXY_TAG then 3 else 0
    case ServerNode(tag) => if tag == REMOTE then 4 else 1
    case HostNode(name, _) => if name == p.serverAddress && IsHostName(name) then 2 else 5
    case RuleSetNode(_) => 6
  }

  /** The addresses the builder itself writes carry no host name. */
  predicate KnownForms(hostOf: string -> Option<string>) {
    hostOf("rcode://success").None? && hostOf("fakeip").None?
  }

  lemma NeedsAreSmaller(s: Settings, p: Profile, w: World, hostOf: string -> Option<string>, n: Node)
    requires KnownForms(hostOf)
    ensures var needs := Needs(s, p, w, hostOf, n);
            needs.Some? ==> forall m :: m in needs.value ==> Rank(p, m) < Rank(p, n)
  {
    match n
    case ServerNode(tag) => ServersByTag(s.dns, tag);
    case OutboundNode(_) =>
    case HostNode(name, kind) =>
      if name == p.serverAddress && IsHostName(name) { ProxyHostGoesDirect(s, p, kind, w); }
    case RuleSetNode(_) =>
  }

  /** `n` works: everything it needs exists and works. The recursion ends because ranks fall. */
  ghost predicate Works(s: Settings, p: Profile, w: World, hostOf: string -> Option<string>, n: Node)
    requires KnownForms(hostOf)
    decreases Rank(p, n)
  {
    var needs := Needs(s, p, w, hostOf, n);
    NeedsAreSmaller(s, p, w, hostOf, n);
    needs.Some? && forall m :: m in needs.value ==> Works(s, p, w, hostOf, m)
  }

  /** A path of needs, each entry needed by the one before. */
  ghost predicate IsChain(s: Settings, p: Profile, w: World, hostOf: string -> Option<string>, chain: seq<Node>) {
    |chain| < 2
    || (var needs := Needs(s, p, w, hostOf, chain[0]);
        needs.Some? && chain[1] in needs.value && IsChain(s, p, w, hostOf, chain[1..]))
  }

  /** No chain of needs is longer than seven: there is no cycle for any profile, flags or mode. */
  lemma {:induction false} ChainsAreShort(s: Settings, p: Profile, w: World, hostOf: string -> Option<string>, chain: seq<Node>)
    requires KnownForms(hostOf) && IsChain(s, p, w, hostOf, chain)
    ensures |chain| <= 7
    ensures chain != [] ==> |chain| <= Rank(p, chain[0]) + 1
  {
    if |chain| > 1 {
      NeedsAreSmaller(s, p, w, hostOf, chain[0]);
      ChainsAreShort(s, p, w, hostOf, chain[1..]);
    }
  }

  /** A node the config can ever ask for. */
  predicate Askable(s: Settings, n: Node) {
    && (n.ServerNode? ==> Lookup(BuildServers(s.dns), n.tag).Some?)
    && (n.RuleSetNode? ==> SourceOf(RouteConfig.BuildRoute(s.routing).sources, n.tag).Some?)
  }

  /** Bootstrap: every lookup, server, outbound and rule set works if and only if the direct resolver is no host name. */
  lemma BootstrapIsWellFounded(s: Settings, p: Profile, w: World, hostOf: string -> Option<string>)
    requires KnownForms(hostOf)
    ensures (forall n :: Askable(s, n) ==> Works(s, p, w, hostOf, n)) <==> hostOf(s.dns.directDns).None?
  {
    ServersByTag(s.dns, DIRECT);
    if hostOf(s.dns.directDns).None? {
      forall n | Askable(s, n) ensures Works(s, p, w, hostOf, n) { EverythingWorks(s, p, w, hostOf, n); }
    } else {
      assert Askable(s, ServerNode(DIRECT)) && !Works(s, p, w, hostOf, ServerNode(DIRECT));
    }
  }

  lemma {:induction false} EverythingWorks(s: Settings, p: Profile, w: World, hostOf: string -> Option<string>, n: Node)
    requires KnownForms(hostOf) && hostOf(s.dns.directDns).None? && Askable(s, n)
    ensures Works(s, p, w, hostOf, n)
    decreases Rank(p, n)
  {
    NeedsAreSmaller(s, p, w, hostOf, n);
    if n.ServerNode? {
      ServersByTag(s.dns, n.tag);
      ServersByTag(s.dns, DIRECT);
    }
    if n.HostNode? { EveryQueryHasAServer(s, p, Query(n.name, n.kind), w); }
    var needs := Needs(s, p, w, hostOf, n);
    forall m | m in needs.value ensures Works(s, p, w, hostOf, m) { EverythingWorks(s, p, w, hostOf, m); }
  }

  /** Bootstrap does fail: a direct resolver named by a host has nobody to resolve it. */
  lemma ANamedDirectResolverFails(s: Settings, p: Profile, w: World)
    requires s.dns.directDns == "https://dns.example/dns-query"
    ensures var hostOf := (address: string) =>
              if address == "https://dns.example/dns-query" then Some("dns.example") else None;
            KnownForms(hostOf) && !Works(s, p, w, hostOf, ServerNode(DIRECT))
  {
    ServersByTag(s.dns, DIRECT);
  }

  // ---- The ad rule set and the tunnel ---------------------------------------

  /** `n` needs the tunnel to be up, at once or through something it needs. */
  ghost predicate UsesProxy(s: Settings, p: Profile, w: World, hostOf: string -> Option<string>, n: Node)
    requires KnownForms(hostOf)
    decreases Rank(p, n)
  {
    var needs := Needs(s, p, w, hostOf, n);
    NeedsAreSmaller(s, p, w, hostOf, n);
    n == OutboundNode(PROXY_TAG) || (needs.Some? && exists m :: m in needs.value && UsesProxy(s, p, w, hostOf, m))
  }

  /** Of the servers only the remote one is asked through the tunnel. */
  lemma ServerUsesProxy(s: Settings, p: Profile, w: World, hostOf: string -> Option<string>, tag: string)
    requires KnownForms(hostOf) && Lookup(BuildServers(s.dns), tag).Some?
    ensures UsesProxy(s, p, w, hostOf, ServerNode(tag)) <==> tag == REMOTE
  {
    ServersByTag(s.dns, tag);
    var needs := Needs(s, p, w, hostOf, ServerNode(tag));
    if tag == REMOTE {
      assert OutboundNode(PROXY_TAG) in needs.value && UsesProxy(s, p, w, hostOf, OutboundNode(PROXY_TAG));
    } else if needs.Some? {
      assert forall m :: m in needs.value ==> m == OutboundNode(DIRECT_TAG);
      assert !UsesProxy(s, p, w, hostOf, OutboundNode(DIRECT_TAG));
    }
  }

  /** What needs one or two things uses the tunnel when one of them does. */
  lemma UsesProxyThrough(s: Settings, p: Profile, w: World, hostOf: string -> Option<string>, n: Node, a: Node, b: Node)
    requires KnownForms(hostOf) && n != OutboundNode(PROXY_TAG)
    requires Needs(s, p, w, hostOf, n) in {Some([a]), Some([a, b])} && (Needs(s, p, w, hostOf, n) == Some([a]) ==> a == b)
    ensures UsesProxy(s, p, w, hostOf, n) <==> UsesProxy(s, p, w, hostOf, a) || UsesProxy(s, p, w, hostOf, b)
  {
    var needs := Needs(s, p, w, hostOf, n).value;
    assert forall m :: m in needs <==> m == a || m == b;
  }

  lemma DirectDoesWithout(s: Settings, p: Profile, w: World, hostOf: string -> Option<string>)
    requires KnownForms(hostOf)
    ensures !UsesProxy(s, p, w, hostOf, OutboundNode(DIRECT_TAG))
  {
    assert Needs(s, p, w, hostOf, OutboundNode(DIRECT_TAG)) == Some([]);
  }

  /** A host is looked up through the tunnel if and only if its query goes to the remote server. */
  lemma LookupUsesProxy(s: Settings, p: Profile, w: World, hostOf: string -> Option<string>, name: string, kind: QueryType)
    requires KnownForms(hostOf)
    ensures UsesProxy(s, p, w, hostOf, HostNode(name, kind)) <==> Decide(s, p, Query(name, kind), w) == REMOTE
  {
    var tag := Decide(s, p, Query(name, kind), w);
    DnsMeansPolicy(s, p, Query(name, kind), w);
    ServersByTag(s.dns, tag);
    ServerUsesProxy(s, p, w, hostOf, tag);
    UsesProxyThrough(s, p, w, hostOf, HostNode(name, kind), ServerNode(tag), ServerNode(tag));
  }

  lemma AdRulesNeed(s: Settings, p: Profile, w: World, hostOf: string -> Option<string>)
    requires s.routing.adBlock
    ensures Needs(s, p, w, hostOf, RuleSetNode(ADS_RULE_SET)) == Some([OutboundNode(DIRECT_TAG), HostNode(ADS_HOST, A)])
  {
    assert SourceOf(RouteConfig.BuildRoute(s.routing).sources, ADS_RULE_SET).Some?;
  }

  /**
   The ad rules are downloaded through the direct outbound, but the download does
   without the tunnel if and only if the lookup of its host is not sent to the
   remote server.
   */
  lemma AdRulesAreIndependentExactly(s: Settings, p: Profile, w: World, hostOf: string -> Option<string>)
    requires KnownForms(hostOf) && s.routing.adBlock
    ensures !UsesProxy(s, p, w, hostOf, RuleSetNode(ADS_RULE_SET)) <==> Decide(s, p, Query(ADS_HOST, A), w) != REMOTE
  {
    AdRulesNeed(s, p, w, hostOf);
    UsesProxyThrough(s, p, w, hostOf, RuleSetNode(ADS_RULE_SET), OutboundNode(DIRECT_TAG), HostNode(ADS_HOST, A));
    DirectDoesWithout(s, p, w, hostOf);
    LookupUsesProxy(s, p, w, hostOf, ADS_HOST, A);
  }

  /** In rule mode without fake DNS it does not: the download waits for the tunnel. */
  lemma AdRulesWaitForTheTunnel(s: Settings, p: Profile, w: World, hostOf: string -> Option<string>)
    requires KnownForms(hostOf) && s.routing.adBlock && !s.dns.enableFakeDns
    requires p.serverAddress != ADS_HOST && w.mode == "Rule" && !w.inSet(ADS_RULE_SET)
    ensures UsesProxy(s, p, w, hostOf, RuleSetNode(ADS_RULE_SET))
  {
    AdRulesAreIndependentExactly(s, p, w, hostOf);
  }
}
