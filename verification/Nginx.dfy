// core/nginx.py: the include file as its list of (path, loopback port) locations.
module Nginx {
  import opened Models
  import Protocols

  const RESERVED_PATHS: set<string> := {"/", "/zeta-ws"}

  predicate Routed(ib: Inbound) {
    && ib.enabled && ib.internalPort.Some? && Protocols.IsWsFamily(ib.network)
    && Protocols.PathFor(ib.network, ib.paths) !in RESERVED_PATHS
  }

  function RouteOf(ib: Inbound): (string, nat)
    requires Routed(ib)
  {
    (Protocols.PathFor(ib.network, ib.paths), ib.internalPort.value)
  }

  // generate(), over the rows in id order
  function Generated(rows: seq<Inbound>): seq<(string, nat)> {
    if rows == [] then []
    else
      var before := Generated(rows[..|rows| - 1]);
      var ib := rows[|rows| - 1];
      if Routed(ib) then before + [RouteOf(ib)] else before
  }

  method Generate(rows: seq<Inbound>) returns (blocks: seq<(string, nat)>)
    ensures blocks == Generated(rows)
  {
    blocks := [];
    for i := 0 to |rows|
      invariant blocks == Generated(rows[..i])
    {
      var ib := rows[i];
      assert rows[..i + 1][..i] == rows[..i];
      if !ib.enabled || ib.internalPort.None? {
        continue;
      }
      if !Protocols.IsWsFamily(ib.network) {
        continue;
      }
      var path := Protocols.PathFor(ib.network, ib.paths);
      if path in RESERVED_PATHS {
        continue;
      }
      blocks := blocks + [(path, ib.internalPort.value)];
    }
    assert rows[..|rows|] == rows;
  }

  lemma {:induction false} GeneratedMembers(rows: seq<Inbound>, route: (string, nat))
    ensures route in Generated(rows) <==> exists ib :: ib in rows && Routed(ib) && RouteOf(ib) == route
  {
    if rows != [] {
      var n := |rows| - 1;
      GeneratedMembers(rows[..n], route);
      assert rows == rows[..n] + [rows[n]];
    }
  }

  lemma {:induction false} GeneratedConcat(a: seq<Inbound>, b: seq<Inbound>)
    ensures Generated(a + b) == Generated(a) + Generated(b)
  {
    if b == [] {
      assert a + b == a;
    } else {
      var n := |b| - 1;
      GeneratedConcat(a, b[..n]);
      assert (a + b)[..|a + b| - 1] == a + b[..n];
    }
  }

  predicate Apart(a: (string, nat), b: (string, nat)) {
    a.0 != b.0 && a.1 != b.1
  }

  // Rows with pairwise different paths and ports give such locations.
  lemma {:induction false} GeneratedInjective(rows: seq<Inbound>)
    requires forall i, j :: 0 <= i < j < |rows| && Routed(rows[i]) && Routed(rows[j]) ==>
      Apart(RouteOf(rows[i]), RouteOf(rows[j]))
    ensures forall i, j :: 0 <= i < j < |Generated(rows)| ==> Apart(Generated(rows)[i], Generated(rows)[j])
  {
    if rows != [] {
      var n := |rows| - 1;
      GeneratedInjective(rows[..n]);
      if Routed(rows[n]) {
        forall i | 0 <= i < |Generated(rows[..n])|
          ensures Apart(Generated(rows[..n])[i], RouteOf(rows[n]))
        {
          GeneratedMembers(rows[..n], Generated(rows[..n])[i]);
          var ib :| ib in rows[..n] && Routed(ib) && RouteOf(ib) == Generated(rows[..n])[i];
          var k :| 0 <= k < n && rows[k] == ib;
        }
      }
    }
  }
}
