// core/protocols.py: which core owns a protocol, which inbounds nginx fronts, and
// the collision key stored with every inbound.
module Protocols {
  import opened Models
  import Decimal

  const WS_FAMILY_NETWORKS: set<string> := {"ws", "httpupgrade", "xhttp"}
  const UDP_ONLY_PROTOCOLS: set<string> := {"hysteria2", "tuic"}
  const FRONTED_PORTS: set<nat> := {80, 443}
  const XRAY_PROTOCOLS: set<string> := {"vless", "vmess", "trojan", "shadowsocks", "socks", "http"}

  // The registry's `core` column: None when the protocol is unsupported.
  function CoreOf(protocol: string): Option<CoreKind> {
    if protocol in XRAY_PROTOCOLS then Some(Xray)
    else if protocol in UDP_ONLY_PROTOCOLS then Some(Singbox)
    else None
  }

  predicate IsWsFamily(network: string) {
    network in WS_FAMILY_NETWORKS
  }

  predicate IsFronted(network: string, port: nat) {
    IsWsFamily(network) && port in FRONTED_PORTS
  }

  function L4Family(protocol: string): string {
    if protocol in UDP_ONLY_PROTOCOLS then "udp" else "tcp"
  }

  function DefaultPort(protocol: string, network: string): nat {
    if IsWsFamily(network) then 80
    else if protocol == "shadowsocks" then 8388
    else if protocol == "socks" then 1080
    else if protocol == "http" then 8080
    else 443
  }

  // nginx._path_for and the path inside compute_port_key: an absent or empty
  // path counts as "/".
  function PathFor(network: string, paths: map<string, string>): string {
    if network in paths && paths[network] != "" then paths[network] else "/"
  }

  function ComputePortKey(port: nat, protocol: string, network: string, paths: map<string, string>): string {
    if IsFronted(network, port) then "80:" + PathFor(network, paths)
    else Decimal.Render(port) + ":" + L4Family(protocol)
  }

  // What the two inbounds would really fight over: an nginx location, or a
  // socket of one L4 family.
  predicate SameBinding(a: Inbound, b: Inbound) {
    if IsFronted(a.network, a.port) then
      IsFronted(b.network, b.port) && PathFor(a.network, a.paths) == PathFor(b.network, b.paths)
    else
      && !IsFronted(b.network, b.port)
      && a.port == b.port && L4Family(a.protocol) == L4Family(b.protocol)
  }

  function KeyOf(ib: Inbound): string {
    ComputePortKey(ib.port, ib.protocol, ib.network, ib.paths)
  }

  // A fronted path can be told from an L4 family name.
  predicate PathIsNoFamily(ib: Inbound) {
    IsFronted(ib.network, ib.port) ==> PathFor(ib.network, ib.paths) !in {"tcp", "udp"}
  }

  lemma SplitAtColon(a: string, b: string, c: string, d: string)
    requires Decimal.AllDigits(a) && Decimal.AllDigits(c)
    requires a + ":" + b == c + ":" + d
    ensures a == c && b == d
  {
    var s := a + ":" + b;
    assert s[|a|] == ':' && s[|c|] == ':';
    assert forall i :: 0 <= i < |a| ==> Decimal.IsDigit(s[i]) by { assert s[..|a|] == a; }
    assert forall i :: 0 <= i < |c| ==> Decimal.IsDigit(s[i]) by { assert s[..|c|] == c; }
    assert |a| == |c|;
    assert s[..|a|] == a && s[..|c|] == c;
    assert s[|a| + 1..] == b && s[|c| + 1..] == d;
  }

  // Equal keys mean exactly an equal binding, in both directions.
  lemma PortKeyExact(a: Inbound, b: Inbound)
    requires PathIsNoFamily(a) && PathIsNoFamily(b)
    ensures KeyOf(a) == KeyOf(b) <==> SameBinding(a, b)
  {
    hide PathFor, IsFronted;
    var pa := if IsFronted(a.network, a.port) then "80" else Decimal.Render(a.port);
    var pb := if IsFronted(b.network, b.port) then "80" else Decimal.Render(b.port);
    var ra := if IsFronted(a.network, a.port) then PathFor(a.network, a.paths) else L4Family(a.protocol);
    var rb := if IsFronted(b.network, b.port) then PathFor(b.network, b.paths) else L4Family(b.protocol);
    assert "80:" == "80" + ":";
    assert KeyOf(a) == pa + ":" + ra && KeyOf(b) == pb + ":" + rb;
    Decimal.RoundTrip(a.port);
    Decimal.RoundTrip(b.port);
    if KeyOf(a) == KeyOf(b) {
      SplitAtColon(pa, ra, pb, rb);
    }
  }

  // Without that proviso the key is not exact: a fronted inbound whose path is
  // the bare word "tcp" would be taken for the direct TCP port 80.
  lemma PortKeyConfusesFamilyPath(a: Inbound, b: Inbound)
    requires a.network == "ws" && a.port == 443 && a.paths == map["ws" := "tcp"]
    requires b.network == "tcp" && b.port == 80 && b.protocol == "vless"
    ensures KeyOf(a) == KeyOf(b) && !SameBinding(a, b)
  {
    assert Decimal.Render(80) == "80";
    assert KeyOf(a) == "80:" + "tcp" == "80:tcp";
    assert KeyOf(b) == "80" + ":" + "tcp" == "80:tcp";
  }
}
