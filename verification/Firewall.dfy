// core/firewall.py, over the set of open (port, proto) rules the panel owns.
module Firewall {
  import Protocols

  type Rule = (nat, string)

  function ProtosFor(protocol: string): set<string> {
    if protocol in Protocols.UDP_ONLY_PROTOCOLS then {"udp"}
    else if protocol in {"shadowsocks", "socks"} then {"tcp", "udp"}
    else {"tcp"}
  }

  function RulesFor(ports: set<nat>, protocol: string): set<Rule> {
    set p, x | p in ports && x in ProtosFor(protocol) :: (p, x)
  }

  method Allow(open: set<Rule>, port: nat, protocol: string) returns (r: set<Rule>)
    ensures r == open + RulesFor({port}, protocol)
  {
    r := open;
    var protos := ProtosFor(protocol);
    while protos != {}
      invariant protos <= ProtosFor(protocol)
      invariant r == open + set x | x in ProtosFor(protocol) - protos :: (port, x)
      decreases |protos|
    {
      var x :| x in protos;
      r := r + {(port, x)};
      protos := protos - {x};
    }
  }

  method Revoke(open: set<Rule>, port: nat, protocol: string) returns (r: set<Rule>)
    ensures r == open - RulesFor({port}, protocol)
  {
    r := open;
    var protos := ProtosFor(protocol);
    while protos != {}
      invariant protos <= ProtosFor(protocol)
      invariant r == open - set x | x in ProtosFor(protocol) - protos :: (port, x)
      decreases |protos|
    {
      var x :| x in protos;
      r := r - {(port, x)};
      protos := protos - {x};
    }
  }
}
