// What a consistent table of inbounds gives the outside: nginx locations that lead
// to the right loopback listener, listeners that share no port, and firewall rules
// that are exactly the needed ones.
module Routing {
  import opened Models
  import opened Protocols
  import opened Registry
  import opened Render
  import Cores
  import Firewall
  import Nginx
  import Serving

  // ------------------------------------------------------------------------
  // Rows the API has accepted
  // ------------------------------------------------------------------------

  lemma FrontedPath(ib: Inbound)
    requires RowOk(ib) && Fronted(ib)
    ensures ib.network in ib.paths && PathFor(ib.network, ib.paths) == ib.paths[ib.network]
    ensures PathFor(ib.network, ib.paths) !in Nginx.RESERVED_PATHS
    ensures PathFor(ib.network, ib.paths) !in {"tcp", "udp"}
  {
    hide ComputePortKey;
    assert Strip("/") == "/" && Strip("/zeta-ws") == "/zeta-ws";
    assert Strip("tcp") == "tcp" && Strip("udp") == "udp";
  }

  // Accepted rows meet the provisos of the tag and key lemmas.
  lemma AcceptedRow(ib: Inbound)
    requires RowOk(ib)
    ensures Serving.TagOk(ib) && PathIsNoFamily(ib)
    ensures L4Family(ib.protocol) == if ib.core == Xray then "tcp" else "udp"
  {
    hide ComputePortKey, FrontedPathOk;
    if Fronted(ib) {
      FrontedPath(ib);
    }
    forall i | 0 <= i < |ib.tag|
      ensures ib.tag[i] != '@'
    {
    }
  }

  // Two rows of a consistent table never want the same binding.
  lemma BindingsUnique(rows: seq<Inbound>, a: Inbound, b: Inbound)
    requires TableOk(rows) && a in rows && b in rows && SameBinding(a, b)
    ensures a == b
  {
    hide SameBinding, KeyOf, PathIsNoFamily, Direct;
    RowsApart(rows, a, b);
    AcceptedRow(a);
    AcceptedRow(b);
    PortKeyExact(a, b);
  }

  // ------------------------------------------------------------------------
  // nginx and the loopback listeners
  // ------------------------------------------------------------------------

  lemma RoutedIffFronted(ib: Inbound)
    requires RowOk(ib)
    ensures Nginx.Routed(ib) <==> ib.enabled && Fronted(ib)
    ensures Nginx.Routed(ib) ==> Nginx.RouteOf(ib) == (ib.paths[ib.network], INTERNAL_PORT_BASE + ib.id)
  {
    hide ComputePortKey, FrontedPathOk;
    if Fronted(ib) {
      FrontedPath(ib);
    }
  }

  // The map from paths to ports is one to one: no two locations share a path, and no
  // two share a port.
  lemma {:induction false} RoutesInjective(rows: seq<Inbound>)
    requires TableOk(rows)
    ensures forall i, j :: 0 <= i < j < |Nginx.Generated(rows)| ==>
      Nginx.Generated(rows)[i].0 != Nginx.Generated(rows)[j].0
        && Nginx.Generated(rows)[i].1 != Nginx.Generated(rows)[j].1
  {
    hide RowOk, Direct;
    forall i, j | 0 <= i < j < |rows| && Nginx.Routed(rows[i]) && Nginx.Routed(rows[j])
      ensures Nginx.Apart(Nginx.RouteOf(rows[i]), Nginx.RouteOf(rows[j]))
    {
      assert PairOk(rows[i], rows[j]);
      RowsApart(rows, rows[i], rows[j]);
      RoutedIffFronted(rows[i]);
      RoutedIffFronted(rows[j]);
      if PathFor(rows[i].network, rows[i].paths) == PathFor(rows[j].network, rows[j].paths) {
        BindingsUnique(rows, rows[i], rows[j]);
      }
    }
    Nginx.GeneratedInjective(rows);
  }

  // A location exists for a path exactly when an enabled fronted row has it, and it
  // leads to that row's loopback port.
  lemma {:induction false} RoutesExact(rows: seq<Inbound>, path: string, port: nat)
    requires TableOk(rows)
    ensures (path, port) in Nginx.Generated(rows) <==>
      exists ib :: ib in rows && ib.enabled && Fronted(ib) && ib.paths[ib.network] == path
        && port == INTERNAL_PORT_BASE + ib.id
  {
    hide RowOk;
    Nginx.GeneratedMembers(rows, (path, port));
    forall ib | ib in rows
      ensures RowOk(ib)
      ensures Nginx.Routed(ib) <==> ib.enabled && Fronted(ib)
      ensures Nginx.Routed(ib) ==> Nginx.RouteOf(ib) == (ib.paths[ib.network], INTERNAL_PORT_BASE + ib.id)
    {
      RowsApart(rows, ib, ib);
      RoutedIffFronted(ib);
    }
    assert forall ib :: ib in rows && Fronted(ib) ==> ib.network in ib.paths by {
      forall ib | ib in rows && Fronted(ib)
        ensures ib.network in ib.paths
      {
        FrontedPath(ib);
      }
    }
  }

  // The listener behind a location: loopback, plaintext; the row's extra ports stay
  // public with the row's own security.
  lemma RouteTarget(ib: Inbound, accounts: seq<Account>, served: set<nat>)
    requires RowOk(ib) && ib.core == Xray
    ensures
      var ls := BuildInbounds(ib, accounts, served);
      && |ls| == 1 + |ib.extraPorts|
      && (Fronted(ib) ==>
            && ls[0].listen == "127.0.0.1" && ls[0].port == INTERNAL_PORT_BASE + ib.id
            && ls[0].stream.security == "none" && !ls[0].stream.tls && !ls[0].stream.reality)
      && (!Fronted(ib) ==> ls[0].port == ib.port && ls[0].stream.security == ib.security)
      && forall k :: 0 < k < |ls| ==> ls[k].port == ib.extraPorts[k - 1] && ls[k].stream.security == ib.security
  {
    hide BuildSettings, ComputePortKey, FrontedPathOk;
    var ls := BuildInbounds(ib, accounts, served);
    forall k | 0 <= k < |ls|
      ensures ls[k] == Fill(Slots(ib)[k], accounts, served)
    {
    }
  }

  // ------------------------------------------------------------------------
  // No two listeners on one port
  // ------------------------------------------------------------------------

  // No direct port of a rendered row is the loopback port of a rendered fronted
  // row (its own included).
  predicate LoopbackClear(rows: seq<Inbound>) {
    forall a, b :: a in rows && b in rows && a.core == Xray && b.core == Xray && a.enabled && b.enabled && Fronted(a)
      ==> INTERNAL_PORT_BASE + a.id !in Direct(b)
  }

  // Everything a row listens on.
  function Binds(ib: Inbound): set<nat> {
    Direct(ib) + if Fronted(ib) then {INTERNAL_PORT_BASE + ib.id} else {}
  }

  lemma SlotPortAt(ib: Inbound, k: nat)
    requires RowOk(ib) && ib.core == Xray && k < |Slots(ib)|
    ensures Slots(ib)[k].port ==
      if k > 0 then ib.extraPorts[k - 1] else if Fronted(ib) then INTERNAL_PORT_BASE + ib.id else ib.port
    ensures Slots(ib)[k].port in Binds(ib)
  {
    hide ComputePortKey, FrontedPathOk;
  }

  lemma SlotPortsOfOneRow(ib: Inbound, i: nat, j: nat)
    requires RowOk(ib) && ib.core == Xray && i < j < |Slots(ib)|
    requires Fronted(ib) ==> INTERNAL_PORT_BASE + ib.id !in Direct(ib)
    ensures Slots(ib)[i].port != Slots(ib)[j].port
  {
    hide ComputePortKey, FrontedPathOk, Slots;
    SlotPortAt(ib, i);
    SlotPortAt(ib, j);
  }

  lemma {:induction false} SlotPortsApart(rows: seq<Inbound>, i: nat, j: nat)
    requires i < j < |AllSlots(rows)| && Serving.TagsUnique(rows)
    requires forall ib :: ib in rows ==>
      RowOk(ib) && ib.core == Xray && (Fronted(ib) ==> INTERNAL_PORT_BASE + ib.id !in Direct(ib))
    requires forall a, b :: a in rows && b in rows && a.tag != b.tag ==> Binds(a) !! Binds(b)
    ensures AllSlots(rows)[i].port != AllSlots(rows)[j].port
  {
    hide RowOk, Direct, Binds, Fronted, Slots;
    var ib, n := rows[0], |Slots(rows[0])|;
    var tail := AllSlots(rows[1..]);
    assert ib in rows;
    assert AllSlots(rows) == Slots(ib) + tail;
    hide AllSlots;
    if n <= i {
      SlotPortsApart(rows[1..], i - n, j - n);
    } else if j < n {
      SlotPortsOfOneRow(ib, i, j);
    } else {
      AllSlotsOwners(rows[1..]);
      var t := tail[j - n];
      var m :| 0 <= m < |rows[1..]| && rows[1..][m] == t.owner;
      var k :| 0 <= k < |Slots(t.owner)| && Slots(t.owner)[k] == t;
      assert rows[0].tag != rows[1 + m].tag;
      SlotPortAt(ib, i);
      SlotPortAt(t.owner, k);
    }
  }

  lemma BindsApart(rows: seq<Inbound>, a: Inbound, b: Inbound)
    requires TableOk(rows) && LoopbackClear(rows) && a in rows && b in rows && a != b
    requires a.core == Xray && b.core == Xray && a.enabled && b.enabled
    ensures Binds(a) !! Binds(b)
  {
    hide RowOk, Direct, Fronted;
    RowsApart(rows, a, b);
    AcceptedRow(a);
    AcceptedRow(b);
  }

  // Given a clear loopback range, the listeners xray is handed all have different
  // ports.
  lemma ListenersShareNoPort(rows: seq<Inbound>, i: nat, j: nat)
    requires TableOk(rows) && LoopbackClear(rows)
    requires i < j < |AllSlots(QueryInbounds(rows, Xray))|
    ensures AllSlots(QueryInbounds(rows, Xray))[i].port != AllSlots(QueryInbounds(rows, Xray))[j].port
  {
    hide RowOk, Direct, Fronted, Binds, AllSlots, QueryInbounds;
    var q := QueryInbounds(rows, Xray);
    QueryMembers(rows, Xray);
    QueryTagsUnique(rows);
    forall ib | ib in q
      ensures RowOk(ib) && ib.core == Xray && (Fronted(ib) ==> INTERNAL_PORT_BASE + ib.id !in Direct(ib))
    {
      RowsApart(rows, ib, ib);
    }
    forall a, b | a in q && b in q && a.tag != b.tag
      ensures Binds(a) !! Binds(b)
    {
      BindsApart(rows, a, b);
    }
    SlotPortsApart(q, i, j);
  }

  // xray's own API listener stays clear too when no row binds its port.
  const XRAY_API_PORT := 62789

  lemma ApiPortFree(rows: seq<Inbound>, i: nat)
    requires TableOk(rows) && i < |AllSlots(QueryInbounds(rows, Xray))|
    requires forall ib :: ib in rows && ib.core == Xray && ib.enabled ==> XRAY_API_PORT !in Binds(ib)
    ensures AllSlots(QueryInbounds(rows, Xray))[i].port != XRAY_API_PORT
  {
    hide RowOk, Binds, Slots;
    QueryMembers(rows, Xray);
    AllSlotsOwners(QueryInbounds(rows, Xray));
    var s := AllSlots(QueryInbounds(rows, Xray))[i];
    var k :| 0 <= k < |Slots(s.owner)| && Slots(s.owner)[k] == s;
    RowsApart(rows, s.owner, s.owner);
    SlotPortAt(s.owner, k);
  }

  lemma QueryTagsUnique(rows: seq<Inbound>)
    requires TableOk(rows)
    ensures Serving.TagsUnique(QueryInbounds(rows, Xray))
  {
    hide RowOk;
    assert Serving.TagsUnique(rows) by {
      forall i, j | 0 <= i < j < |rows|
        ensures rows[i].tag != rows[j].tag
      {
        assert PairOk(rows[i], rows[j]);
      }
    }
    Serving.EnabledOnTagsUnique(rows, Xray);
    Serving.OrderByPortTagsUnique(EnabledOn(rows, Xray));
  }

  // The loopback listener of a fronted row, and the listener on a direct port that
  // collides with it.
  lemma CollidingListeners(rows: seq<Inbound>, a: Inbound, b: Inbound) returns (i: nat, j: nat)
    requires TableOk(rows) && a in rows && b in rows && a.core == Xray && b.core == Xray && a.enabled && b.enabled
    requires Fronted(a) && INTERNAL_PORT_BASE + a.id in Direct(b)
    ensures i != j && i < |AllSlots(QueryInbounds(rows, Xray))| && j < |AllSlots(QueryInbounds(rows, Xray))|
    ensures AllSlots(QueryInbounds(rows, Xray))[i].port == INTERNAL_PORT_BASE + a.id
    ensures AllSlots(QueryInbounds(rows, Xray))[j].port == INTERNAL_PORT_BASE + a.id
  {
    hide QueryInbounds, AllSlots, RowOk, Slots, Direct, PairOk, TableOk;
    var q := QueryInbounds(rows, Xray);
    QueryMembers(rows, Xray);
    AllSlotsOwners(q);
    RowsApart(rows, a, b);
    var k := SlotOfDirect(b, INTERNAL_PORT_BASE + a.id);
    SlotPortAt(a, 0);
    assert Slots(a)[0] in AllSlots(q) && Slots(b)[k] in AllSlots(q);
    i :| 0 <= i < |AllSlots(q)| && AllSlots(q)[i] == Slots(a)[0];
    j :| 0 <= j < |AllSlots(q)| && AllSlots(q)[j] == Slots(b)[k];
    SlotsOfRowsDiffer(a, b, k);
  }

  lemma SlotsOfRowsDiffer(a: Inbound, b: Inbound, k: nat)
    requires k < |Slots(b)| && Fronted(a) && (k == 0 ==> !Fronted(b))
    ensures Slots(a)[0] != Slots(b)[k]
  {
    hide Slots;
    if Slots(a)[0] == Slots(b)[k] {
      assert Slots(a)[0].owner == a && Slots(b)[k].owner == b;
      ExtraTagDiffers(a, k);
    }
  }

  // And only then: otherwise two rendered listeners do share a port.
  lemma SharedPortWithoutClearance(rows: seq<Inbound>) returns (i: nat, j: nat)
    requires TableOk(rows) && !LoopbackClear(rows)
    ensures i != j && i < |AllSlots(QueryInbounds(rows, Xray))| && j < |AllSlots(QueryInbounds(rows, Xray))|
    ensures AllSlots(QueryInbounds(rows, Xray))[i].port == AllSlots(QueryInbounds(rows, Xray))[j].port
  {
    hide QueryInbounds, AllSlots, RowOk, Direct, PairOk, TableOk;
    var a, b :| a in rows && b in rows && a.core == Xray && b.core == Xray && a.enabled && b.enabled && Fronted(a)
                && INTERNAL_PORT_BASE + a.id in Direct(b);
    i, j := CollidingListeners(rows, a, b);
  }

  lemma ExtraTagDiffers(ib: Inbound, k: nat)
    requires 0 < k < |Slots(ib)|
    ensures Slots(ib)[0].tag != Slots(ib)[k].tag
  {
    Serving.SlotTagAt(ib, 0);
    Serving.SlotTagAt(ib, k);
    assert |Slots(ib)[k].tag| > |ib.tag|;
  }

  lemma SlotOfDirect(ib: Inbound, port: nat) returns (k: nat)
    requires RowOk(ib) && ib.core == Xray && port in Direct(ib)
    ensures k < |Slots(ib)| && Slots(ib)[k].port == port && (k == 0 ==> !Fronted(ib))
  {
    hide RowOk, Slots;
    if port in ib.extraPorts {
      var e :| 0 <= e < |ib.extraPorts| && ib.extraPorts[e] == port;
      k := e + 1;
    } else {
      k := 0;
    }
    SlotPortAt(ib, k);
  }

  // ------------------------------------------------------------------------
  // nginx and xray agree
  // ------------------------------------------------------------------------

  // A rendered listener that serves a location: loopback, plaintext, and of an enabled
  // row with that path.
  predicate Serves(l: Listener, owner: Inbound, route: (string, nat)) {
    && l.port == route.1 && l.listen == "127.0.0.1" && l.tag == owner.tag
    && l.stream.security == "none" && !l.stream.tls && !l.stream.reality
    && owner.enabled && Fronted(owner) && PathFor(owner.network, owner.paths) == route.0
  }

  // Exactly one listener of the rendered config is on the location's port, and it
  // serves the location.
  predicate LeadsHome(db: Db, served: set<nat>, route: (string, nat)) {
    var config, slots := ConfigFor(db, Xray, served), SlotsOf(db, Xray);
    && |config| == |slots|
    && exists i :: 0 <= i < |config| && Serves(config[i], slots[i].owner, route) &&
         (forall j :: 0 <= j < |config| && j != i ==> config[j].port != route.1)
  }

  predicate RoutingAgrees(db: Db, served: set<nat>) {
    forall route :: route in Nginx.Generated(db.inbounds) ==> LeadsHome(db, served, route)
  }

  // The schema does not tie a transport to a protocol: nginx would also route an
  // enabled QUIC row with a WebSocket transport on a fronted port.
  predicate NoFrontedQuic(rows: seq<Inbound>) {
    forall ib :: ib in rows && ib.enabled && Fronted(ib) ==> ib.core == Xray
  }

  lemma RenderedAt(db: Db, served: set<nat>, i: nat)
    requires i < |SlotsOf(db, Xray)|
    ensures |ConfigFor(db, Xray, served)| == |SlotsOf(db, Xray)|
    ensures ConfigFor(db, Xray, served)[i] == Fill(SlotsOf(db, Xray)[i], Accounts(db.clients), served)
  {
    FlattenFillsSlots(QueryInbounds(db.inbounds, Xray), Accounts(db.clients), served);
  }

  lemma RenderedLength(db: Db, served: set<nat>)
    ensures |ConfigFor(db, Xray, served)| == |SlotsOf(db, Xray)|
  {
    FlattenFillsSlots(QueryInbounds(db.inbounds, Xray), Accounts(db.clients), served);
  }

  lemma LoopbackSlot(ib: Inbound, accounts: seq<Account>, served: set<nat>)
    requires RowOk(ib) && ib.core == Xray && ib.enabled && Fronted(ib)
    ensures Serves(Fill(Slots(ib)[0], accounts, served), ib,
            (PathFor(ib.network, ib.paths), INTERNAL_PORT_BASE + ib.id))
  {
    hide BuildSettings, ComputePortKey, FrontedPathOk, PathFor;
  }

  // The row behind a location.
  lemma RouteOwner(rows: seq<Inbound>, route: (string, nat)) returns (ib: Inbound)
    requires TableOk(rows) && route in Nginx.Generated(rows)
    ensures ib in rows && ib.enabled && Fronted(ib) && RowOk(ib)
    ensures route == (PathFor(ib.network, ib.paths), INTERNAL_PORT_BASE + ib.id)
  {
    hide RowOk, Fronted;
    Nginx.GeneratedMembers(rows, route);
    ib :| ib in rows && Nginx.Routed(ib) && Nginx.RouteOf(ib) == route;
    RowsApart(rows, ib, ib);
    RoutedIffFronted(ib);
  }

  lemma OwnerRouted(rows: seq<Inbound>, ib: Inbound)
    requires TableOk(rows) && ib in rows && ib.enabled && Fronted(ib)
    ensures (PathFor(ib.network, ib.paths), INTERNAL_PORT_BASE + ib.id) in Nginx.Generated(rows)
  {
    hide RowOk, Fronted, PathFor;
    RowsApart(rows, ib, ib);
    RoutedIffFronted(ib);
    Nginx.GeneratedMembers(rows, Nginx.RouteOf(ib));
  }

  lemma RouteLeadsHome(db: Db, served: set<nat>, route: (string, nat))
    requires TableOk(db.inbounds) && NoFrontedQuic(db.inbounds) && LoopbackClear(db.inbounds)
    requires route in Nginx.Generated(db.inbounds)
    ensures LeadsHome(db, served, route)
  {
    hide RowOk, Fronted, Direct, ConfigFor, AllSlots, QueryInbounds, Slots, Fill, PathFor, Serves, TableOk,
         LoopbackClear;
    var ib := RouteOwner(db.inbounds, route);
    var q := QueryInbounds(db.inbounds, Xray);
    QueryMembers(db.inbounds, Xray);
    AllSlotsOwners(q);
    assert Slots(ib)[0] in SlotsOf(db, Xray);
    var i :| 0 <= i < |SlotsOf(db, Xray)| && SlotsOf(db, Xray)[i] == Slots(ib)[0];
    RenderedLength(db, served);
    RenderedAt(db, served, i);
    LoopbackSlot(ib, Accounts(db.clients), served);
    assert SlotsOf(db, Xray)[i].port == route.1 by {
      SlotPortAt(ib, 0);
    }
    forall j | 0 <= j < |ConfigFor(db, Xray, served)| && j != i
      ensures ConfigFor(db, Xray, served)[j].port != route.1
    {
      RenderedAt(db, served, j);
      FillKeepsPort(SlotsOf(db, Xray)[j], Accounts(db.clients), served);
      if i < j { ListenersShareNoPort(db.inbounds, i, j); } else { ListenersShareNoPort(db.inbounds, j, i); }
    }
  }

  lemma FillKeepsPort(slot: Slot, accounts: seq<Account>, served: set<nat>)
    ensures Fill(slot, accounts, served).port == slot.port
  {
  }

  // A location of a row that xray does not render leads to nothing.
  lemma QuicRouteLost(db: Db, served: set<nat>, ib: Inbound)
    requires TableOk(db.inbounds) && ib in db.inbounds && ib.enabled && Fronted(ib) && ib.core != Xray
    ensures !LeadsHome(db, served, (PathFor(ib.network, ib.paths), INTERNAL_PORT_BASE + ib.id))
  {
    hide RowOk, Direct, ConfigFor, AllSlots, QueryInbounds, Slots, PathFor, TableOk;
    var route := (PathFor(ib.network, ib.paths), INTERNAL_PORT_BASE + ib.id);
    QueryMembers(db.inbounds, Xray);
    AllSlotsOwners(QueryInbounds(db.inbounds, Xray));
    forall i | 0 <= i < |SlotsOf(db, Xray)|
      ensures |ConfigFor(db, Xray, served)| == |SlotsOf(db, Xray)|
      ensures !Serves(ConfigFor(db, Xray, served)[i], SlotsOf(db, Xray)[i].owner, route)
    {
      RenderedAt(db, served, i);
      var owner := SlotsOf(db, Xray)[i].owner;
      if Serves(ConfigFor(db, Xray, served)[i], owner, route) {
        BindingsUnique(db.inbounds, owner, ib);
      }
    }
  }

  lemma CrowdedRouteLost(db: Db, served: set<nat>, a: Inbound, b: Inbound)
    requires TableOk(db.inbounds) && a in db.inbounds && b in db.inbounds && a.core == Xray && b.core == Xray
    requires a.enabled && b.enabled && Fronted(a) && INTERNAL_PORT_BASE + a.id in Direct(b)
    ensures !LeadsHome(db, served, (PathFor(a.network, a.paths), INTERNAL_PORT_BASE + a.id))
  {
    hide RowOk, Direct, ConfigFor, AllSlots, QueryInbounds, Slots, PathFor, TableOk;
    var i, j := CollidingListeners(db.inbounds, a, b);
    RenderedAt(db, served, i);
    RenderedAt(db, served, j);
  }

  // Every location of the include leads to exactly one rendered listener, and that is
  // its own row's loopback listener, if and only if no enabled QUIC row is fronted and
  // no direct port is another's loopback port.
  lemma RoutingAgreesIff(db: Db, served: set<nat>)
    requires TableOk(db.inbounds)
    ensures RoutingAgrees(db, served) <==> NoFrontedQuic(db.inbounds) && LoopbackClear(db.inbounds)
  {
    hide RowOk, Direct, Fronted, TableOk, LeadsHome, PathFor;
    if !NoFrontedQuic(db.inbounds) {
      var ib :| ib in db.inbounds && ib.enabled && Fronted(ib) && ib.core != Xray;
      OwnerRouted(db.inbounds, ib);
      QuicRouteLost(db, served, ib);
    } else if !LoopbackClear(db.inbounds) {
      var a, b :| a in db.inbounds && b in db.inbounds && a.core == Xray && b.core == Xray && a.enabled && b.enabled
                  && Fronted(a) && INTERNAL_PORT_BASE + a.id in Direct(b);
      OwnerRouted(db.inbounds, a);
      CrowdedRouteLost(db, served, a, b);
    } else {
      forall route | route in Nginx.Generated(db.inbounds)
        ensures LeadsHome(db, served, route)
      {
        RouteLeadsHome(db, served, route);
      }
    }
  }

  // ------------------------------------------------------------------------
  // The firewall
  // ------------------------------------------------------------------------

  function RowRules(ib: Inbound): set<Firewall.Rule> {
    Firewall.RulesFor(Direct(ib), ib.protocol)
  }

  function Needed(rows: seq<Inbound>): set<Firewall.Rule> {
    set ib, rule | ib in rows && rule in RowRules(ib) :: rule
  }

  predicate Exact(s: Panel) {
    s.open == Needed(s.rows)
  }

  // A protocol that opens its port for both families, against one of UDP only: the two
  // may have the same port, and then both need its UDP rule.
  predicate ShareUdp(a: Inbound, b: Inbound) {
    || (a.protocol in {"shadowsocks", "socks"} && b.protocol in UDP_ONLY_PROTOCOLS)
    || (b.protocol in {"shadowsocks", "socks"} && a.protocol in UDP_ONLY_PROTOCOLS)
  }

  // Closing these ports of row k takes no rule from another row.
  predicate Spares(rows: seq<Inbound>, k: nat, gone: set<nat>)
    requires k < |rows|
  {
    forall j, p :: 0 <= j < |rows| && j != k && p in gone && p in Direct(rows[j]) ==> !ShareUdp(rows[k], rows[j])
  }

  lemma RuleIn(ports: set<nat>, protocol: string, rule: Firewall.Rule)
    ensures rule in Firewall.RulesFor(ports, protocol) <==> rule.0 in ports && rule.1 in Firewall.ProtosFor(protocol)
  {
  }

  // In a consistent table, two rows with a direct port in common are of different
  // families, and share a rule exactly if they share UDP.
  lemma SharedRule(rows: seq<Inbound>, a: Inbound, b: Inbound, p: nat, proto: string)
    requires TableOk(rows) && a in rows && b in rows && a != b && p in Direct(a) && p in Direct(b)
    ensures proto in Firewall.ProtosFor(a.protocol) && proto in Firewall.ProtosFor(b.protocol)
       <==> proto == "udp" && ShareUdp(a, b)
  {
    hide RowOk, Direct;
    RowsApart(rows, a, b);
  }

  lemma RowsDiffer(rows: seq<Inbound>, j: nat, k: nat)
    requires TableOk(rows) && j < |rows| && k < |rows| && j != k
    ensures rows[j] != rows[k]
  {
    hide RowOk, Direct;
    assert if j < k then PairOk(rows[j], rows[k]) else PairOk(rows[k], rows[j]);
  }

  lemma NeededElsewhere(rows: seq<Inbound>, k: nat, rule: Firewall.Rule)
    requires k < |rows|
    ensures rule in Needed(Without(rows, k)) <==> exists j :: 0 <= j < |rows| && j != k && rule in RowRules(rows[j])
  {
    hide RowRules;
    var rest := Without(rows, k);
    if rule in Needed(rest) {
      var ib :| ib in rest && rule in RowRules(ib);
      var m :| 0 <= m < |rest| && rest[m] == ib;
      assert rest[m] == rows[if m < k then m else m + 1];
    }
    if j :| 0 <= j < |rows| && j != k && rule in RowRules(rows[j]) {
      assert rest[if j < k then j else j - 1] == rows[j];
    }
  }

  lemma SparesIff(rows: seq<Inbound>, k: nat, gone: set<nat>)
    requires TableOk(rows) && k < |rows| && gone <= Direct(rows[k])
    ensures Firewall.RulesFor(gone, rows[k].protocol) !! Needed(Without(rows, k)) <==> Spares(rows, k, gone)
  {
    hide RowOk, Direct, TableOk, ShareUdp, Needed, Firewall.RulesFor, Firewall.ProtosFor;
    if Spares(rows, k, gone) {
      forall rule | rule in Firewall.RulesFor(gone, rows[k].protocol)
        ensures rule !in Needed(Without(rows, k))
      {
        NeededElsewhere(rows, k, rule);
        RuleIn(gone, rows[k].protocol, rule);
        if j :| 0 <= j < |rows| && j != k && rule in RowRules(rows[j]) {
          RuleIn(Direct(rows[j]), rows[j].protocol, rule);
          RowsDiffer(rows, j, k);
          SharedRule(rows, rows[k], rows[j], rule.0, rule.1);
        }
      }
    } else {
      var j, p :| 0 <= j < |rows| && j != k && p in gone && p in Direct(rows[j]) && ShareUdp(rows[k], rows[j]);
      RowsDiffer(rows, j, k);
      SharedRule(rows, rows[k], rows[j], p, "udp");
      RuleIn(gone, rows[k].protocol, (p, "udp"));
      RuleIn(Direct(rows[j]), rows[j].protocol, (p, "udp"));
      NeededElsewhere(rows, k, (p, "udp"));
    }
  }

  lemma NeededAppend(rows: seq<Inbound>, ib: Inbound)
    ensures Needed(rows + [ib]) == Needed(rows) + RowRules(ib)
  {
    hide RowRules;
    assert forall x :: x in rows + [ib] <==> x in rows || x == ib;
  }

  lemma NeededSplit(rows: seq<Inbound>, k: nat)
    requires k < |rows|
    ensures Needed(rows) == Needed(Without(rows, k)) + RowRules(rows[k])
  {
    hide RowRules;
    var rest := Without(rows, k);
    forall x
      ensures x in rows <==> x in rest || x == rows[k]
    {
      if x in rows {
        var m :| 0 <= m < |rows| && rows[m] == x;
        assert m < k ==> rest[m] == x;
        assert m > k ==> rest[m - 1] == x;
      }
    }
  }

  // Deleting a row leaves the rules exact if and only if no other row shares UDP with it
  // on one of its direct ports.
  lemma {:induction false} DeleteExactIff(env: Env, s: Panel, k: nat)
    requires Ok(s) && Exact(s) && k < |s.rows| && env.coreAccepts
    ensures Exact(Deleted(env, s, k)) <==> Spares(s.rows, k, Direct(s.rows[k]))
  {
    hide Ok, TableOk, Spares, Direct, Nginx.Generated, Firewall.RulesFor, Needed, Without;
    assert TableOk(s.rows) by { OkTable(s); }
    NeededSplit(s.rows, k);
    SparesIff(s.rows, k, Direct(s.rows[k]));
  }

  lemma CreateExact(env: Env, s: Panel, r: CreateRequest)
    requires Exact(s)
    ensures Exact(Created(env, s, r))
  {
    var made := NewRow(env, s.rows, s.nextId, r);
    if made.Some? {
      NeededAppend(s.rows, made.value);
    }
  }

  // Updating a row leaves them exact if and only if no other row shares UDP with it on a
  // direct port that it gives up.
  lemma {:induction false} UpdateExactIff(env: Env, s: Panel, k: nat, r: UpdateRequest)
    requires Ok(s) && Exact(s) && k < |s.rows|
    ensures
      var made := ChangedRow(env, s.rows, s.rows[k], r);
      Exact(Updated(env, s, k, r)) <==> made.None? || Spares(s.rows, k, Direct(s.rows[k]) - Direct(made.value))
  {
    hide Ok, TableOk, ChangedRow, Direct, Spares, Nginx.Generated, Needed, Firewall.RulesFor, Without;
    var ib := s.rows[k];
    var made := ChangedRow(env, s.rows, ib, r);
    assert TableOk(s.rows) by { OkTable(s); }
    ChangedRowOk(env, s.rows, k, r);
    if made.Some? {
      var rows := s.rows[k := made.value];
      NeededSplit(s.rows, k);
      NeededSplit(rows, k);
      SwapElsewhere(s.rows, k, made.value);
      RulesOfChange(Direct(ib), Direct(made.value), ib.protocol);
      SparesIff(s.rows, k, Direct(ib) - Direct(made.value));
    }
  }

  lemma SwapElsewhere(rows: seq<Inbound>, k: nat, ib: Inbound)
    requires k < |rows|
    ensures Without(rows[k := ib], k) == Without(rows, k)
  {
  }

  lemma OkTable(s: Panel)
    requires Ok(s)
    ensures TableOk(s.rows)
  {
  }

  lemma RulesOfChange(a: set<nat>, b: set<nat>, protocol: string)
    ensures Firewall.RulesFor(b, protocol)
         == Firewall.RulesFor(a, protocol) - Firewall.RulesFor(a - b, protocol) + Firewall.RulesFor(b - a, protocol)
    ensures Firewall.RulesFor(a - b, protocol) <= Firewall.RulesFor(a, protocol)
    ensures Firewall.RulesFor(a - b, protocol) !! Firewall.RulesFor(b, protocol)
  {
    hide Firewall.ProtosFor;
    forall rule
      ensures rule in Firewall.RulesFor(a, protocol) - Firewall.RulesFor(a - b, protocol)
                      + Firewall.RulesFor(b - a, protocol)
         <==> rule in Firewall.RulesFor(b, protocol)
    {
      assert rule in Firewall.RulesFor(b, protocol) <==> rule.0 in b && rule.1 in Firewall.ProtosFor(protocol);
    }
  }

  // What an operation must spare to keep the rules exact.
  predicate StepSpares(s: Panel, op: Op) {
    match op
    case Create(_, _) => true
    case Toggle(_, _) => true
    case Delete(env, id) =>
      var k := Find(s.rows, id);
      k.Some? && env.coreAccepts ==> Spares(s.rows, k.value, Direct(s.rows[k.value]))
    case Update(env, id, r) =>
      var k := Find(s.rows, id);
      k.Some? && ChangedRow(env, s.rows, s.rows[k.value], r).Some? ==>
        Spares(s.rows, k.value, Direct(s.rows[k.value]) - Direct(ChangedRow(env, s.rows, s.rows[k.value], r).value))
  }

  lemma ToggleExact(env: Env, s: Panel, k: nat)
    requires Exact(s) && k < |s.rows|
    ensures Exact(Toggled(env, s, k))
  {
    hide RowRules, Nginx.Generated;
    if env.coreAccepts {
      var next := s.rows[k].(enabled := !s.rows[k].enabled);
      NeededSplit(s.rows, k);
      NeededSplit(s.rows[k := next], k);
      SwapElsewhere(s.rows, k, next);
      ToggleKeepsRules(s.rows[k]);
    }
  }

  lemma ToggleKeepsRules(ib: Inbound)
    ensures RowRules(ib.(enabled := !ib.enabled)) == RowRules(ib)
  {
  }

  lemma {:induction false} StepExactIff(s: Panel, op: Op)
    requires Ok(s) && Exact(s)
    ensures Exact(Step(s, op)) <==> StepSpares(s, op)
  {
    hide Ok, Created, Updated, Toggled, Deleted, Exact, Spares, ChangedRow, Direct;
    match op
    case Create(env, r) => CreateExact(env, s, r);
    case Update(env, id, r) => if Find(s.rows, id).Some? { UpdateExactIff(env, s, Find(s.rows, id).value, r); }
    case Toggle(env, id) => if Find(s.rows, id).Some? { ToggleExact(env, s, Find(s.rows, id).value); }
    case Delete(env, id) =>
      if Find(s.rows, id).Some? {
        if env.coreAccepts {
          DeleteExactIff(env, s, Find(s.rows, id).value);
        } else {
          RefusedDelete(env, s, Find(s.rows, id).value);
        }
      }
  }

  lemma RefusedDelete(env: Env, s: Panel, k: nat)
    requires k < |s.rows| && !env.coreAccepts
    ensures Deleted(env, s, k) == s
  {
  }

  predicate ExactThroughout(s: Panel, ops: seq<Op>)
    decreases |ops|
  {
    Exact(s) && (ops != [] ==> ExactThroughout(Step(s, ops[0]), ops[1..]))
  }

  predicate SparesThroughout(s: Panel, ops: seq<Op>)
    decreases |ops|
  {
    ops != [] ==> StepSpares(s, ops[0]) && SparesThroughout(Step(s, ops[0]), ops[1..])
  }

  // Along any run, the open rules are at every moment exactly those the stored rows need
  // if and only if no delete or update closes a port whose UDP rule another row needs.
  lemma {:induction false} FirewallExactIff(s: Panel, ops: seq<Op>)
    requires Ok(s) && Exact(s)
    ensures ExactThroughout(s, ops) <==> SparesThroughout(s, ops)
    decreases |ops|
  {
    hide Ok, Exact, Step, StepSpares;
    if ops != [] {
      StepOk(s, ops[0]);
      StepExactIff(s, ops[0]);
      if StepSpares(s, ops[0]) {
        FirewallExactIff(Step(s, ops[0]), ops[1..]);
      } else {
        assert !ExactThroughout(Step(s, ops[0]), ops[1..]);
      }
    }
  }

  // No port that a shadowsocks or socks row opens for UDP too is also used by a QUIC row.
  predicate UdpClear(rows: seq<Inbound>) {
    forall a, b :: a in rows && b in rows && ShareUdp(a, b) ==> Direct(a) !! Direct(b)
  }

  predicate UdpClearThroughout(s: Panel, ops: seq<Op>)
    decreases |ops|
  {
    UdpClear(s.rows) && (ops != [] ==> UdpClearThroughout(Step(s, ops[0]), ops[1..]))
  }

  lemma ClearSpares(rows: seq<Inbound>, k: nat, gone: set<nat>)
    requires UdpClear(rows) && k < |rows| && gone <= Direct(rows[k])
    ensures Spares(rows, k, gone)
  {
    hide Direct;
  }

  lemma ClearStepSpares(s: Panel, op: Op)
    requires UdpClear(s.rows)
    ensures StepSpares(s, op)
  {
    hide UdpClear, Spares, ChangedRow, Direct;
    forall k, gone | 0 <= k < |s.rows| && gone <= Direct(s.rows[k])
      ensures Spares(s.rows, k, gone)
    {
      ClearSpares(s.rows, k, gone);
    }
  }

  // So tables without such a port keep the rules exact.
  lemma {:induction false} FirewallExact(s: Panel, ops: seq<Op>)
    requires Ok(s) && Exact(s) && UdpClearThroughout(s, ops)
    ensures ExactThroughout(s, ops)
    decreases |ops|
  {
    hide Ok, Exact, Step, UdpClear, StepSpares;
    if ops != [] {
      StepOk(s, ops[0]);
      ClearStepSpares(s, ops[0]);
      StepExactIff(s, ops[0]);
      FirewallExact(Step(s, ops[0]), ops[1..]);
    }
  }

  // ------------------------------------------------------------------------
  // The include and the rules, told by the columns
  // ------------------------------------------------------------------------

  // After any run of requests, a path leads to a port exactly when a row that is
  // switched on has a WebSocket-like transport on port 80 or 443 with that path, and the
  // port is 20000 and the row's id.
  lemma RoutesByColumns(ops: seq<Op>, path: string, port: nat)
    ensures
      (path, port) in After(EMPTY, ops).routes <==>
        exists ib :: ib in After(EMPTY, ops).rows && ib.enabled && ib.network in {"ws", "httpupgrade", "xhttp"}
          && (ib.port == 80 || ib.port == 443) && ib.network in ib.paths && ib.paths[ib.network] == path
          && port == 20000 + ib.id
  {
    hide After, TableOk, Nginx.Generated;
    EmptyOk();
    EveryRunOk(EMPTY, ops);
    RoutesOfTable(After(EMPTY, ops).rows, path, port);
  }

  lemma EmptyOk()
    ensures Ok(EMPTY)
  {
  }

  lemma RoutesOfTable(rows: seq<Inbound>, path: string, port: nat)
    requires TableOk(rows)
    ensures
      (path, port) in Nginx.Generated(rows) <==>
        exists ib :: ib in rows && ib.enabled && ib.network in {"ws", "httpupgrade", "xhttp"}
          && (ib.port == 80 || ib.port == 443) && ib.network in ib.paths && ib.paths[ib.network] == path
          && port == 20000 + ib.id
  {
    hide TableOk, RowOk, Nginx.Generated, FrontedPathOk, PathFor;
    RoutesExact(rows, path, port);
    forall ib | ib in rows
      ensures Fronted(ib) <==> ib.network in {"ws", "httpupgrade", "xhttp"} && (ib.port == 80 || ib.port == 443)
      ensures Fronted(ib) ==> ib.network in ib.paths
    {
      RowsApart(rows, ib, ib);
      if Fronted(ib) { FrontedPath(ib); }
    }
    hide Fronted;
  }

  predicate BindsItself(ib: Inbound, p: nat) {
    p in ib.extraPorts || (p == ib.port && !(ib.network in {"ws", "httpupgrade", "xhttp"} && ib.port in {80, 443}))
  }

  // Exact rules: a port is open for TCP exactly when a row of a TCP protocol binds it,
  // and for UDP exactly when a row of a UDP protocol does; two protocols are both.
  lemma OpenByColumns(s: Panel, p: nat)
    requires Exact(s)
    ensures (p, "tcp") in s.open <==>
      exists ib :: ib in s.rows && BindsItself(ib, p) && ib.protocol !in {"hysteria2", "tuic"}
    ensures (p, "udp") in s.open <==>
      exists ib :: ib in s.rows && BindsItself(ib, p) && ib.protocol in {"hysteria2", "tuic", "shadowsocks", "socks"}
    ensures forall rule :: rule in s.open ==> rule.1 in {"tcp", "udp"}
  {
    hide RowRules, BindsItself;
    forall ib
      ensures (p, "tcp") in RowRules(ib) <==> BindsItself(ib, p) && ib.protocol !in {"hysteria2", "tuic"}
      ensures (p, "udp") in RowRules(ib) <==>
        BindsItself(ib, p) && ib.protocol in {"hysteria2", "tuic", "shadowsocks", "socks"}
      ensures forall rule :: rule in RowRules(ib) ==> rule.1 in {"tcp", "udp"}
    {
      RulesByColumns(ib, p);
    }
  }

  lemma RulesByColumns(ib: Inbound, p: nat)
    ensures (p, "tcp") in RowRules(ib) <==> BindsItself(ib, p) && ib.protocol !in {"hysteria2", "tuic"}
    ensures (p, "udp") in RowRules(ib) <==>
      BindsItself(ib, p) && ib.protocol in {"hysteria2", "tuic", "shadowsocks", "socks"}
    ensures forall rule :: rule in RowRules(ib) ==> rule.1 in {"tcp", "udp"}
  {
  }
}
