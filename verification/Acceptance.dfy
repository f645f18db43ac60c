// Which create and update requests of api/inbounds.py go through: exactly those that
// ask for nothing another inbound or another service has.
module Acceptance {
  import opened Models
  import opened Protocols
  import opened Registry
  import Firewall
  import Nginx
  import Routing

  // ------------------------------------------------------------------------
  // The words of the rule
  // ------------------------------------------------------------------------

  // The ASCII characters that Python strips.
  const SPACES := " \t\n\U{0B}\U{0C}\r\U{1C}\U{1D}\U{1E}\U{1F}"

  lemma SpaceOrNot(c: char)
    ensures IsSpace(c) <==> c in SPACES
  {
  }

  lemma {:induction false} StripSplits(s: string) returns (i: nat, j: nat)
    ensures i <= j <= |s| && Strip(s) == s[i..j]
    ensures forall k :: 0 <= k < i || j <= k < |s| ==> IsSpace(s[k])
    ensures i < j ==> !IsSpace(s[i]) && !IsSpace(s[j - 1])
  {
    if s != "" && IsSpace(s[0]) {
      i, j := StripSplits(s[1..]);
      i, j := i + 1, j + 1;
      assert forall k :: 1 <= k < |s| ==> s[k] == s[1..][k - 1];
    } else if s != "" && IsSpace(s[|s| - 1]) {
      i, j := StripSplits(s[..|s| - 1]);
    } else {
      i, j := 0, |s|;
    }
  }

  // Stripping drops the white space on both sides and nothing else.
  lemma StripTrims(s: string) returns (i: nat, j: nat)
    ensures i <= j <= |s| && Strip(s) == s[i..j]
    ensures forall k :: 0 <= k < i || j <= k < |s| ==> s[k] in SPACES
    ensures i < j ==> s[i] !in SPACES && s[j - 1] !in SPACES
  {
    i, j := StripSplits(s);
    hide IsSpace, Strip;
    forall k | 0 <= k < |s|
      ensures IsSpace(s[k]) <==> s[k] in SPACES
    {
      SpaceOrNot(s[k]);
    }
  }

  // A path nginx can take: it starts with '/', and it is neither the panel's root nor
  // the tunnel's.
  predicate GoodPath(path: string) {
    Strip(path) != "" && Strip(path)[0] == '/' && Strip(path) != "/" && Strip(path) != "/zeta-ws"
  }

  predicate GoodTag(tag: string) {
    && 1 <= |tag| <= 64 && tag[0] !in " ._-"
    && forall i :: 0 <= i < |tag| ==>
         'a' <= tag[i] <= 'z' || 'A' <= tag[i] <= 'Z' || '0' <= tag[i] <= '9' || tag[i] in " ._-"
  }

  predicate BehindNginx(network: string, port: nat) {
    network in {"ws", "httpupgrade", "xhttp"} && (port == 80 || port == 443)
  }

  predicate OverUdp(protocol: string) {
    protocol == "hysteria2" || protocol == "tuic"
  }

  // Row `ib` has the socket of port p itself.
  predicate Binds(ib: Inbound, p: nat) {
    p in ib.extraPorts || (p == ib.port && !BehindNginx(ib.network, ib.port))
  }

  // No other row has this socket, and no other service, unless the row itself has it.
  predicate SocketFree(env: Env, rows: seq<Inbound>, self: Option<Inbound>, protocol: string, p: nat) {
    && (forall ib :: ib in rows && Some(ib) != self && OverUdp(ib.protocol) == OverUdp(protocol) ==> !Binds(ib, p))
    && ((self.Some? && Binds(self.value, p)) || (p, if OverUdp(protocol) then "udp" else "tcp") !in env.listening)
  }

  predicate SocketsFree(env: Env, rows: seq<Inbound>, self: Option<Inbound>, port: nat, protocol: string,
                        network: string, extras: seq<int>)
  {
    forall p :: p in AsksFor(port, network, extras) ==> SocketFree(env, rows, self, protocol, p)
  }

  predicate PathFree(rows: seq<Inbound>, self: Option<Inbound>, path: string) {
    forall ib :: ib in rows && Some(ib) != self && BehindNginx(ib.network, ib.port) ==>
      PathFor(ib.network, ib.paths) != path
  }

  // The sockets, or the nginx path, that these columns ask for are well formed and free.
  predicate Fits(env: Env, rows: seq<Inbound>, self: Option<Inbound>, port: nat, protocol: string, network: string,
                 paths: map<string, string>, extras: seq<int>)
  {
    && (forall p :: p in extras ==> 1 <= p <= 65535 && p != 80 && p != 443)
    && SocketsFree(env, rows, self, port, protocol, network, extras)
    && (BehindNginx(network, port) ==>
          network in paths && GoodPath(paths[network]) && PathFree(rows, self, paths[network]))
  }

  function AsksFor(port: nat, network: string, extras: seq<int>): set<nat> {
    (set p | p in extras && p >= 0 && p != port :: p) + if BehindNginx(network, port) then {} else {port}
  }

  // ------------------------------------------------------------------------
  // The checks against the rule
  // ------------------------------------------------------------------------

  lemma DirectIsBound(ib: Inbound, p: nat)
    ensures p in Direct(ib) <==> Binds(ib, p)
  {
  }

  // The collected ports are exactly those of the other rows of the family.
  lemma {:induction false} PanelPortsExact(rows: seq<Inbound>, exclude: Option<nat>, family: string, p: nat)
    requires forall ib :: ib in rows ==> RowOk(ib)
    ensures p in PanelDirectPorts(rows, exclude, family) <==>
      exists ib :: ib in rows && Some(ib.id) != exclude && L4Family(ib.protocol) == family && Binds(ib, p)
  {
    hide RowOk, L4Family;
    if rows != [] {
      var n := |rows| - 1;
      PanelPortsExact(rows[..n], exclude, family, p);
      LoopbackMeansFronted(rows[n]);
      assert rows == rows[..n] + [rows[n]];
    }
  }

  lemma LoopbackMeansFronted(ib: Inbound)
    requires RowOk(ib)
    ensures ib.internalPort.None? <==> !BehindNginx(ib.network, ib.port)
  {
    hide ComputePortKey, FrontedPathOk;
  }

  lemma PathsByRule(network: string, paths: map<string, string>)
    requires network in {"ws", "httpupgrade", "xhttp"}
    ensures FrontedPathOk(network, paths) <==> network in paths && GoodPath(paths[network])
  {
  }

  lemma TagsByRule(tag: string)
    ensures ValidTag(tag) <==> GoodTag(tag)
  {
    if |tag| > 0 {
      assert IsAlnum(tag[0]) ==> tag[0] !in " ._-";
    }
  }

  // The sockets a request asks for, once its extra ports are cleaned.
  lemma AskedPorts(port: nat, network: string, extras: seq<int>, protocol: string)
    ensures Cleaned(extras, port).Some? <==> forall p :: p in extras ==> 1 <= p <= 65535 && p != 80 && p != 443
    ensures
      var cleaned := Cleaned(extras, port);
      cleaned.Some? ==> NewDirect(cleaned.value, port, IsFronted(network, port)) == AsksFor(port, network, extras)
    ensures L4Family(protocol) == if OverUdp(protocol) then "udp" else "tcp"
  {
    CleanedOk(extras, port);
  }

  // The first half of the checks: ports.
  lemma PortsFree(env: Env, rows: seq<Inbound>, self: Option<Inbound>, port: nat, protocol: string, network: string,
                  extras: seq<int>)
    requires TableOk(rows) && (self.Some? ==> self.value in rows)
    ensures
      var exclude := if self.Some? then Some(self.value.id) else None;
      var own := if self.Some? then Direct(self.value) else {};
      ValidatedPorts(env, rows, port, IsFronted(network, port), protocol, extras, exclude, own).Some? <==>
        && (forall p :: p in extras ==> 1 <= p <= 65535 && p != 80 && p != 443)
        && SocketsFree(env, rows, self, port, protocol, network, extras)
  {
    hide RowOk, PairOk, Direct, Binds, PanelDirectPorts, AsksFor, L4Family, Cleaned, NewDirect;
    var exclude := if self.Some? then Some(self.value.id) else None;
    var family := L4Family(protocol);
    AskedPorts(port, network, extras, protocol);
    forall p
      ensures p in PanelDirectPorts(rows, exclude, family) <==>
        exists ib :: ib in rows && Some(ib) != self && OverUdp(ib.protocol) == OverUdp(protocol) && Binds(ib, p)
    {
      assert forall ib :: ib in rows ==> RowOk(ib);
      PanelPortsExact(rows, exclude, family, p);
      TakenIff(rows, self, protocol, p);
    }
    if self.Some? {
      forall p
        ensures p in Direct(self.value) <==> Binds(self.value, p)
      {
        DirectIsBound(self.value, p);
      }
    }
  }

  lemma TakenIff(rows: seq<Inbound>, self: Option<Inbound>, protocol: string, p: nat)
    requires TableOk(rows) && (self.Some? ==> self.value in rows)
    ensures
      (exists ib :: ib in rows && Some(ib) != self && OverUdp(ib.protocol) == OverUdp(protocol) && Binds(ib, p)) <==>
      exists ib :: ib in rows && Some(ib.id) != (if self.Some? then Some(self.value.id) else None)
        && L4Family(ib.protocol) == L4Family(protocol) && Binds(ib, p)
  {
    hide TableOk, Binds;
    forall ib | ib in rows && self.Some?
      ensures ib.id == self.value.id <==> ib == self.value
    {
      RowsApart(rows, ib, self.value);
    }
  }

  lemma GoodPathStored(network: string, paths: map<string, string>)
    requires network in paths && GoodPath(paths[network])
    ensures PathFor(network, paths) == paths[network] && paths[network] !in {"tcp", "udp"}
  {
    assert Strip("tcp") == "tcp" && Strip("udp") == "udp" && Strip("") == "";
  }

  predicate Candidate(c: Inbound) {
    Fronted(c) ==> c.network in c.paths && GoodPath(c.paths[c.network])
  }

  lemma KeyTakenIff(rows: seq<Inbound>, self: Option<Inbound>, c: Inbound)
    requires TableOk(rows) && (self.Some? ==> self.value in rows) && Candidate(c)
    ensures
      PortKeyTaken(rows, KeyOf(c), if self.Some? then Some(self.value.id) else None) <==>
        exists ib :: ib in rows && Some(ib) != self && SameBinding(c, ib)
  {
    assert PathIsNoFamily(c) by {
      if Fronted(c) { GoodPathStored(c.network, c.paths); }
    }
    hide SameBinding, GoodPath, KeyOf, PathIsNoFamily;
    forall ib | ib in rows
      ensures ib.portKey == KeyOf(c) <==> SameBinding(c, ib)
      ensures self.Some? ==> (ib.id == self.value.id <==> ib == self.value)
    {
      RowsApart(rows, ib, ib);
      Routing.AcceptedRow(ib);
      PortKeyExact(c, ib);
      if self.Some? { RowsApart(rows, ib, self.value); }
    }
  }

  lemma FrontedConflict(rows: seq<Inbound>, self: Option<Inbound>, c: Inbound)
    requires Candidate(c) && BehindNginx(c.network, c.port)
    ensures (exists ib :: ib in rows && Some(ib) != self && SameBinding(c, ib)) <==>
      !PathFree(rows, self, c.paths[c.network])
  {
    GoodPathStored(c.network, c.paths);
  }

  lemma NoDirectConflict(env: Env, rows: seq<Inbound>, self: Option<Inbound>, c: Inbound, extras: seq<int>)
    requires !BehindNginx(c.network, c.port)
    requires SocketsFree(env, rows, self, c.port, c.protocol, c.network, extras)
    ensures forall ib :: ib in rows && Some(ib) != self ==> !SameBinding(c, ib)
  {
    assert c.port in AsksFor(c.port, c.network, extras);
    assert SocketFree(env, rows, self, c.protocol, c.port);
  }

  // The second half of the checks: with its sockets free, a row's key can only be taken
  // by another row with its path.
  lemma KeyFree(env: Env, rows: seq<Inbound>, self: Option<Inbound>, c: Inbound, extras: seq<int>)
    requires TableOk(rows) && (self.Some? ==> self.value in rows) && Candidate(c)
    requires SocketsFree(env, rows, self, c.port, c.protocol, c.network, extras)
    ensures
      PortKeyTaken(rows, KeyOf(c), if self.Some? then Some(self.value.id) else None) <==>
        BehindNginx(c.network, c.port) && !PathFree(rows, self, c.paths[c.network])
  {
    hide TableOk, KeyOf, PortKeyTaken, SocketsFree, PathFree, SameBinding, GoodPath;
    KeyTakenIff(rows, self, c);
    if BehindNginx(c.network, c.port) {
      FrontedConflict(rows, self, c);
    } else {
      NoDirectConflict(env, rows, self, c, extras);
    }
  }

  // A create request goes through exactly if the core takes the result, its tag is well
  // formed and new, its protocol is one of its core's, and its port and paths are well
  // formed and free.
  lemma CreateAcceptedIff(env: Env, s: Panel, r: CreateRequest)
    requires Ok(s)
    ensures NewRow(env, s.rows, s.nextId, r).Some? <==>
      && env.coreAccepts
      && GoodTag(r.tag) && (forall ib :: ib in s.rows ==> ib.tag != r.tag)
      && r.protocol in (if r.core == Xray then {"vless", "vmess", "trojan", "shadowsocks", "socks", "http"}
                        else {"hysteria2", "tuic"})
      && (r.port.Some? ==> 1 <= r.port.value <= 65535)
      && Fits(env, s.rows, None, PortFor(r), r.protocol, r.network, r.paths, r.extraPorts)
  {
    hide TableOk, ValidTag, GoodTag, FrontedPathOk, GoodPath, ValidatedPorts, ComputePortKey, PortKeyTaken, SocketsFree,
         PathFree;
    var port := PortFor(r);
    TagsByRule(r.tag);
    PortsFree(env, s.rows, None, port, r.protocol, r.network, r.extraPorts);
    if IsFronted(r.network, port) {
      PathsByRule(r.network, r.paths);
    }
    var c := Inbound(s.nextId, r.tag, r.enabled, r.core, r.protocol, r.listen, port, None, "", [], r.network,
                     r.security, r.settings, r.paths);
    if Candidate(c) && SocketsFree(env, s.rows, None, port, r.protocol, r.network, r.extraPorts) {
      KeyFree(env, s.rows, None, c, r.extraPorts);
    }
  }

  // An update request goes through exactly if the core takes the result and the ports
  // and paths it leaves the row with are well formed and free.
  lemma UpdateAcceptedIff(env: Env, s: Panel, k: nat, r: UpdateRequest)
    requires Ok(s) && k < |s.rows|
    ensures
      var ib := s.rows[k];
      var port := if r.port.Some? then r.port.value else ib.port;
      var network := if r.network.Some? then r.network.value else ib.network;
      var paths := if r.paths.Some? then r.paths.value else ib.paths;
      var extras: seq<int> := if r.extraPorts.Some? then r.extraPorts.value else ib.extraPorts;
      ChangedRow(env, s.rows, ib, r).Some? <==>
        && env.coreAccepts
        && (r.port.Some? ==> 1 <= r.port.value <= 65535)
        && Fits(env, s.rows, Some(ib), port, ib.protocol, network, paths, extras)
  {
    var ib, next := s.rows[k], WithFields(s.rows[k], r);
    assert RowOk(ib) && ib in s.rows;
    hide TableOk, RowOk, FrontedPathOk, GoodPath, ValidatedPorts, ComputePortKey, PortKeyTaken, SocketsFree,
         PathFree, Direct, KeyOf;
    var extras: seq<int> := if r.extraPorts.Some? then r.extraPorts.value else ib.extraPorts;
    PortsFree(env, s.rows, Some(ib), next.port, next.protocol, next.network, extras);
    if IsFronted(next.network, next.port) {
      PathsByRule(next.network, next.paths);
    }
    OwnKey(s.rows, ib);
    if Candidate(next) && SocketsFree(env, s.rows, Some(ib), next.port, next.protocol, next.network, extras) {
      KeyFree(env, s.rows, Some(ib), next, extras);
    }
  }

  // A row's own key is nobody else's.
  lemma OwnKey(rows: seq<Inbound>, ib: Inbound)
    requires TableOk(rows) && ib in rows
    ensures !PortKeyTaken(rows, ib.portKey, Some(ib.id))
  {
    forall other | other in rows && other.id != ib.id
      ensures other.portKey != ib.portKey
    {
      RowsApart(rows, other, ib);
    }
  }
}
