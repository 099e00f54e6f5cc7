/**
 The settings, profile and session values the config builders read; the fields
 they do not read are not part of this model.
 */
module AppSettings {
  import opened Wrappers

  datatype Json =
    | Null
    | Bool(b: bool)
    | Num(n: int)
    | Str(s: string)
    | Arr(items: seq<Json>)
    | Obj(fields: map<string, Json>)

  datatype Ipv6Mode = Disable | Enable | Prefer | Only

  datatype Routing = Routing(ipv6Mode: Ipv6Mode, strictRouting: bool, adBlock: bool, bypassLan: bool, enableSniffing: bool)

  datatype Dns = Dns(
    remoteDns: string, directDns: string, enableFakeDns: bool, fakeIpv4Range: string, fakeIpv6Range: string,
    independentCache: bool, domainStrategy: string)

  datatype LocalProxyMode = Disabled | Loopback | Lan

  datatype LocalProxy = LocalProxy(mode: LocalProxyMode, pinnedPort: nat, username: string, password: string)

  datatype Settings = Settings(
    tunStack: string, localProxy: LocalProxy, dns: Dns, routing: Routing, enableStats: bool, debugApiEnabled: bool)

  datatype ProxyProtocol = Vless | Hysteria2

  /** `details` stands for what the proxy outbound takes from the rest of the profile: keys, TLS, transport, limits. */
  datatype Profile = Profile(serverAddress: string, protocol: ProxyProtocol, details: map<string, Json>)

  datatype InboundMode = Tun | SystemProxy

  datatype Session = Session(
    systemProxyPort: Option<nat>, localProxyPort: Option<nat>, clashApiPort: Option<nat>, clashApiSecret: Option<string>)

  const PROXY_TAG := "proxy"
  const DIRECT_TAG := "direct"
  const BLOCK_TAG := "block"
  const DNS_TAG := "dns-out"
  const ADS_RULE_SET := "geosite-ads"
  const ADS_HOST := "raw.githubusercontent.com"

  /** The tags OutboundBuilder.build emits for every profile. */
  const OUTBOUND_TAGS := {PROXY_TAG, DIRECT_TAG, BLOCK_TAG, DNS_TAG}

  predicate CanListen(lp: LocalProxy) {
    lp.mode != Disabled && lp.username != "" && lp.password != ""
  }
}
