/**
 The route section: an ordered, first-match rule list, its meaning, and the
 policy it is meant to implement.
 */
module RouteConfig {
  import opened Wrappers
  import opened AppSettings
  import opened RuleList

  datatype Condition =
    | Protocol(name: string)
    | Port(number: int)
    | IpVersion(version: int)
    | RuleSet(tag: string)
    | IpIsPrivate
    | ClashMode(mode: string)

  /** A rule set the core downloads, through an outbound of its own. */
  datatype RuleSource = RuleSource(tag: string, downloadDetour: string)

  datatype Route = Route(rules: seq<Rule<Condition>>, fallback: string, sources: seq<RuleSource>)

  function BuildRules(r: Routing): seq<Rule<Condition>> {
    [Rule(Protocol("dns"), DNS_TAG), Rule(Port(53), DNS_TAG)]
    + Optional(r.ipv6Mode == Disable, Rule(IpVersion(6), BLOCK_TAG))
    + Optional(r.adBlock, Rule(RuleSet(ADS_RULE_SET), BLOCK_TAG))
    + Optional(r.bypassLan, Rule(IpIsPrivate, DIRECT_TAG))
    + [Rule(ClashMode("Direct"), DIRECT_TAG), Rule(ClashMode("Global"), PROXY_TAG)]
  }

  function BuildRoute(r: Routing): Route {
    Route(BuildRules(r), PROXY_TAG, if r.adBlock then [RuleSource(ADS_RULE_SET, DIRECT_TAG)] else [])
  }

  // ---- Meaning --------------------------------------------------------------

  /** What the rules can see of a packet; `protocol` is what sniffing found. */
  datatype Packet = Packet(protocol: string, port: int, ipVersion: int, isPrivate: bool)

  /** `inSet` answers rule-set lookups for this packet; `mode` is the clash mode. */
  predicate Matches(c: Condition, p: Packet, inSet: string -> bool, mode: string) {
    match c
    case Protocol(name) => p.protocol == name
    case Port(number) => p.port == number
    case IpVersion(version) => p.ipVersion == version
    case RuleSet(tag) => inSet(tag)
    case IpIsPrivate => p.isPrivate
    case ClashMode(m) => m == mode
  }

  function Matcher(p: Packet, inSet: string -> bool, mode: string): Condition -> bool {
    c => Matches(c, p, inSet, mode)
  }

  /** The outbound a packet leaves through. */
  function OutboundOf(route: Route, p: Packet, inSet: string -> bool, mode: string): string {
    Evaluate(route.rules, route.fallback, Matcher(p, inSet, mode))
  }

  /** The policy, without any rule list. */
  function Decide(r: Routing, p: Packet, isAd: bool, mode: string): string {
    if p.protocol == "dns" || p.port == 53 then DNS_TAG
    else if (r.ipv6Mode == Disable && p.ipVersion == 6) || (r.adBlock && isAd) then BLOCK_TAG
    else if (r.bypassLan && p.isPrivate) || mode == "Direct" then DIRECT_TAG
    else PROXY_TAG
  }

  function LanAndClashRules(r: Routing): seq<Rule<Condition>> {
    Optional(r.bypassLan, Rule(IpIsPrivate, DIRECT_TAG))
    + ([Rule(ClashMode("Direct"), DIRECT_TAG)] + [Rule(ClashMode("Global"), PROXY_TAG)])
  }

  lemma LanAndClashDecide(r: Routing, p: Packet, inSet: string -> bool, mode: string)
    ensures Evaluate(LanAndClashRules(r), PROXY_TAG, Matcher(p, inSet, mode)) ==
            if (r.bypassLan && p.isPrivate) || mode == "Direct" then DIRECT_TAG else PROXY_TAG
  {
    var direct, global := Rule(ClashMode("Direct"), DIRECT_TAG), Rule(ClashMode("Global"), PROXY_TAG);
    var matches := Matcher(p, inSet, mode);
    FirstMatchOptional(r.bypassLan, Rule(IpIsPrivate, DIRECT_TAG), [direct] + [global], matches);
    FirstMatchOptional(true, direct, [global], matches);
    FirstMatchOne(global, matches);
  }

  function BlockingRules(r: Routing): seq<Rule<Condition>> {
    Optional(r.ipv6Mode == Disable, Rule(IpVersion(6), BLOCK_TAG))
    + (Optional(r.adBlock, Rule(RuleSet(ADS_RULE_SET), BLOCK_TAG)) + LanAndClashRules(r))
  }

  lemma BlockingDecides(r: Routing, p: Packet, inSet: string -> bool, mode: string)
    ensures FirstMatch(BlockingRules(r), Matcher(p, inSet, mode)) ==
            if (r.ipv6Mode == Disable && p.ipVersion == 6) || (r.adBlock && inSet(ADS_RULE_SET)) then Some(BLOCK_TAG)
            else FirstMatch(LanAndClashRules(r), Matcher(p, inSet, mode))
  {
    var ads, rest := Rule(RuleSet(ADS_RULE_SET), BLOCK_TAG), LanAndClashRules(r);
    var matches := Matcher(p, inSet, mode);
    FirstMatchOptional(r.ipv6Mode == Disable, Rule(IpVersion(6), BLOCK_TAG), Optional(r.adBlock, ads) + rest, matches);
    FirstMatchOptional(r.adBlock, ads, rest, matches);
  }

  lemma RulesInThreeParts(r: Routing)
    ensures BuildRules(r) == [Rule(Protocol("dns"), DNS_TAG)] + ([Rule(Port(53), DNS_TAG)] + BlockingRules(r))
  {
  }

  /** For every setting, packet, ad set and clash mode the compiled list decides as the policy does. */
  lemma RouteMeansPolicy(r: Routing, p: Packet, inSet: string -> bool, mode: string)
    ensures OutboundOf(BuildRoute(r), p, inSet, mode) == Decide(r, p, inSet(ADS_RULE_SET), mode)
  {
    var dns, port, rest := Rule(Protocol("dns"), DNS_TAG), Rule(Port(53), DNS_TAG), BlockingRules(r);
    var matches := Matcher(p, inSet, mode);
    RulesInThreeParts(r);
    FirstMatchOptional(true, dns, [port] + rest, matches);
    FirstMatchOptional(true, port, rest, matches);
    BlockingDecides(r, p, inSet, mode);
    LanAndClashDecide(r, p, inSet, mode);
  }

  /** With IPv6 disabled no v6 packet leaves, in any clash mode, LAN bypass or not; only DNS is answered. */
  lemma DisabledIpv6NeverLeaves(r: Routing, p: Packet, inSet: string -> bool, mode: string)
    requires r.ipv6Mode == Disable && p.ipVersion == 6
    ensures OutboundOf(BuildRoute(r), p, inSet, mode) ==
            if p.protocol == "dns" || p.port == 53 then DNS_TAG else BLOCK_TAG
  {
    RouteMeansPolicy(r, p, inSet, mode);
  }

  /** The Global rule is redundant: without it every packet goes where it went. */
  lemma GlobalRuleIsRedundant(r: Routing, p: Packet, inSet: string -> bool, mode: string)
    ensures var route := BuildRoute(r);
            var shorter := route.(rules := route.rules[..|route.rules| - 1]);
            OutboundOf(shorter, p, inSet, mode) == OutboundOf(route, p, inSet, mode)
  {
    var route := BuildRoute(r);
    var shorter, last := route.rules[..|route.rules| - 1], route.rules[|route.rules| - 1];
    assert route.rules == shorter + [last] && last.target == route.fallback;
    FirstMatchAppend(shorter, [last], Matcher(p, inSet, mode));
    FirstMatchOne(last, Matcher(p, inSet, mode));
  }

  /** Nothing is looked up that the config does not define. */
  lemma RouteIsClosed(r: Routing)
    ensures var route := BuildRoute(r);
            && route.fallback in OUTBOUND_TAGS
            && (forall x :: x in route.rules ==> x.target in OUTBOUND_TAGS)
            && (forall x :: x in route.rules && x.condition.RuleSet? ==>
                  exists src :: src in route.sources && src.tag == x.condition.tag && src.downloadDetour in OUTBOUND_TAGS)
  {
    var route := BuildRoute(r);
    forall x | x in route.rules && x.condition.RuleSet?
      ensures exists src :: src in route.sources && src.tag == x.condition.tag && src.downloadDetour in OUTBOUND_TAGS
    {
      assert r.adBlock;
      assert RuleSource(ADS_RULE_SET, DIRECT_TAG) in route.sources;
    }
  }
}
