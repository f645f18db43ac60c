// api/inbounds.py: the table of inbounds. Direct ports, fronted paths, loopback
// ports, the nginx include and the firewall have to stay consistent through every
// create, update, toggle and delete.
module Registry {
  import opened Models
  import opened Protocols
  import Nginx
  import Firewall

  const INTERNAL_PORT_BASE := 20000

  predicate IsSpace(c: char) {
    c == ' ' || '\t' <= c <= '\r' || '\U{1C}' <= c <= '\U{1F}'
  }

  // Python's str.strip(), for ASCII white space
  function Strip(s: string): string {
    if s != "" && IsSpace(s[0]) then Strip(s[1..])
    else if s != "" && IsSpace(s[|s| - 1]) then Strip(s[..|s| - 1])
    else s
  }

  function WsPath(network: string, paths: map<string, string>): string {
    if network in paths then Strip(paths[network]) else ""
  }

  predicate FrontedPathOk(network: string, paths: map<string, string>) {
    var path := WsPath(network, paths);
    path != "" && path[0] == '/' && path !in Nginx.RESERVED_PATHS
  }

  // schemas.InboundBase: the tag validator
  predicate ValidTag(tag: string) {
    && 1 <= |tag| <= 64 && IsAlnum(tag[0])
    && forall i :: 0 <= i < |tag| ==> IsAlnum(tag[i]) || tag[i] in " ._-"
  }

  predicate IsAlnum(c: char) {
    'a' <= c <= 'z' || 'A' <= c <= 'Z' || '0' <= c <= '9'
  }

  predicate ValidPort(p: int) {
    1 <= p <= 65535
  }

  predicate Fronted(ib: Inbound) {
    IsFronted(ib.network, ib.port)
  }

  // The ports the row binds publicly itself.
  function Direct(ib: Inbound): set<nat> {
    (set p | p in ib.extraPorts) + if Fronted(ib) then {} else {ib.port}
  }

  // _panel_direct_ports
  function PanelDirectPorts(rows: seq<Inbound>, exclude: Option<nat>, family: string): set<nat> {
    if rows == [] then {}
    else
      var before := PanelDirectPorts(rows[..|rows| - 1], exclude, family);
      var ib := rows[|rows| - 1];
      if Some(ib.id) == exclude || L4Family(ib.protocol) != family then before
      else before + (set p | p in ib.extraPorts) + if ib.internalPort.None? then {ib.port} else {}
  }

  // The loop of _validate_ports; None is a 400.
  function Cleaned(extras: seq<int>, primary: nat): Option<seq<nat>> {
    if extras == [] then Some([])
    else
      match Cleaned(extras[..|extras| - 1], primary)
      case None => None
      case Some(before) =>
        var p := extras[|extras| - 1];
        if !ValidPort(p) || p in FRONTED_PORTS then None
        else if p == primary || p in before then Some(before)
        else Some(before + [p])
  }

  // What a request sees: the sockets other services hold, and the core's verdict.
  datatype Env = Env(listening: set<(nat, string)>, coreAccepts: bool)

  function NewDirect(cleaned: seq<nat>, primary: nat, fronted: bool): set<nat> {
    (set p | p in cleaned) + if fronted then {} else {primary}
  }

  // _validate_ports; None is any rejection
  function ValidatedPorts(env: Env, rows: seq<Inbound>, primary: nat, fronted: bool, protocol: string,
                          extras: seq<int>, exclude: Option<nat>, ownExisting: set<nat>): Option<seq<nat>>
  {
    var family := L4Family(protocol);
    var owned := PanelDirectPorts(rows, exclude, family);
    match Cleaned(extras, primary)
    case None => None
    case Some(cleaned) =>
      var direct := NewDirect(cleaned, primary, fronted);
      if direct !! owned
         && forall p :: p in direct && p !in owned + ownExisting ==> (p, family) !in env.listening
      then Some(cleaned) else None
  }

  datatype CreateRequest = CreateRequest(
    tag: string, enabled: bool, core: CoreKind, protocol: string, listen: string, port: Option<nat>, network: string,
    security: string, settings: map<string, string>, paths: map<string, string>, extraPorts: seq<int>)

  datatype UpdateRequest = UpdateRequest(
    enabled: Option<bool>, listen: Option<string>, port: Option<nat>, network: Option<string>, security: Option<string>,
    settings: Option<map<string, string>>, paths: Option<map<string, string>>, extraPorts: Option<seq<int>>)

  datatype Panel = Panel(rows: seq<Inbound>, nextId: nat, routes: seq<(string, nat)>, open: set<Firewall.Rule>)

  predicate PortKeyTaken(rows: seq<Inbound>, key: string, exclude: Option<nat>) {
    exists ib :: ib in rows && ib.portKey == key && Some(ib.id) != exclude
  }

  function PortFor(r: CreateRequest): nat {
    if r.port.Some? then r.port.value
    else if IsWsFamily(r.network) then 80
    else DefaultPort(r.protocol, r.network)
  }

  // The row a create request asks for, or None if it is refused.
  function NewRow(env: Env, rows: seq<Inbound>, id: nat, r: CreateRequest): Option<Inbound> {
    var port := PortFor(r);
    var fronted := IsFronted(r.network, port);
    if !ValidTag(r.tag) || (r.port.Some? && !ValidPort(r.port.value)) then None
    else if CoreOf(r.protocol) != Some(r.core) then None
    else if exists ib :: ib in rows && ib.tag == r.tag then None
    else if fronted && !FrontedPathOk(r.network, r.paths) then None
    else
      match ValidatedPorts(env, rows, port, fronted, r.protocol, r.extraPorts, None, {})
      case None => None
      case Some(extras) =>
        var key := ComputePortKey(port, r.protocol, r.network, r.paths);
        if PortKeyTaken(rows, key, None) || !env.coreAccepts then None
        else Some(Inbound(id, r.tag, r.enabled, r.core, r.protocol, r.listen, port,
                          if fronted then Some(INTERNAL_PORT_BASE + id) else None,
                          key, extras, r.network, r.security, r.settings, r.paths))
  }

  // Row `ib` with the request's fields set, before ports are looked at.
  function WithFields(ib: Inbound, r: UpdateRequest): Inbound {
    ib.(enabled := Or(r.enabled, ib.enabled), listen := Or(r.listen, ib.listen), port := Or(r.port, ib.port),
        network := Or(r.network, ib.network), security := Or(r.security, ib.security),
        settings := Or(r.settings, ib.settings), paths := Or(r.paths, ib.paths))
  }

  function ChangedRow(env: Env, rows: seq<Inbound>, ib: Inbound, r: UpdateRequest): Option<Inbound> {
    var next := WithFields(ib, r);
    var fronted := Fronted(next);
    if r.port.Some? && !ValidPort(r.port.value) then None
    else if fronted && !FrontedPathOk(next.network, next.paths) then None
    else
      var extras: seq<int> := if r.extraPorts.Some? then r.extraPorts.value else ib.extraPorts;
      match ValidatedPorts(env, rows, next.port, fronted, next.protocol, extras, Some(ib.id), Direct(ib))
      case None => None
      case Some(cleaned) =>
        var key := KeyOf(next);
        if (key != ib.portKey && PortKeyTaken(rows, key, Some(ib.id))) || !env.coreAccepts then None
        else
          var internal := if !fronted then None
                          else if ib.internalPort.None? then Some(INTERNAL_PORT_BASE + ib.id) else ib.internalPort;
          Some(next.(extraPorts := cleaned, portKey := key, internalPort := internal))
  }

  // create_inbound, update_inbound, toggle_inbound, delete_inbound; a refused
  // request changes nothing.
  function Created(env: Env, s: Panel, r: CreateRequest): Panel {
    match NewRow(env, s.rows, s.nextId, r)
    case None => s
    case Some(ib) =>
      var rows := s.rows + [ib];
      Panel(rows, s.nextId + 1,
            if Fronted(ib) then Nginx.Generated(rows) else s.routes,
            s.open + Firewall.RulesFor(Direct(ib), ib.protocol))
  }

  function Updated(env: Env, s: Panel, k: nat, r: UpdateRequest): Panel
    requires k < |s.rows|
  {
    var ib := s.rows[k];
    match ChangedRow(env, s.rows, ib, r)
    case None => s
    case Some(next) =>
      var rows := s.rows[k := next];
      s.(rows := rows,
         routes := if Fronted(ib) || Fronted(next) then Nginx.Generated(rows) else s.routes,
         open := s.open - Firewall.RulesFor(Direct(ib) - Direct(next), ib.protocol)
                        + Firewall.RulesFor(Direct(next) - Direct(ib), ib.protocol))
  }

  function Toggled(env: Env, s: Panel, k: nat): Panel
    requires k < |s.rows|
  {
    if !env.coreAccepts then s
    else
      var rows := s.rows[k := s.rows[k].(enabled := !s.rows[k].enabled)];
      s.(rows := rows, routes := if Fronted(s.rows[k]) then Nginx.Generated(rows) else s.routes)
  }

  function Without(rows: seq<Inbound>, k: nat): seq<Inbound>
    requires k < |rows|
  {
    rows[..k] + rows[k + 1..]
  }

  function Deleted(env: Env, s: Panel, k: nat): Panel
    requires k < |s.rows|
  {
    if !env.coreAccepts then s
    else
      var ib, rows := s.rows[k], Without(s.rows, k);
      s.(rows := rows,
         routes := if Fronted(ib) then Nginx.Generated(rows) else s.routes,
         open := s.open - Firewall.RulesFor(Direct(ib), ib.protocol))
  }

  // ------------------------------------------------------------------------
  // What every reachable table satisfies
  // ------------------------------------------------------------------------

  predicate ExtrasOk(ib: Inbound) {
    && (forall a, b :: 0 <= a < b < |ib.extraPorts| ==> ib.extraPorts[a] != ib.extraPorts[b])
    && (forall p :: p in ib.extraPorts ==> ValidPort(p) && p !in FRONTED_PORTS && p != ib.port)
  }

  predicate RowOk(ib: Inbound) {
    && ValidTag(ib.tag)
    && CoreOf(ib.protocol) == Some(ib.core)
    && ib.portKey == KeyOf(ib)
    && ib.internalPort == (if Fronted(ib) then Some(INTERNAL_PORT_BASE + ib.id) else None)
    && (Fronted(ib) ==> FrontedPathOk(ib.network, ib.paths))
    && ExtrasOk(ib)
  }

  predicate PairOk(a: Inbound, b: Inbound) {
    && a.id < b.id && a.tag != b.tag && a.portKey != b.portKey
    && (L4Family(a.protocol) == L4Family(b.protocol) ==> Direct(a) !! Direct(b))
  }

  predicate TableOk(rows: seq<Inbound>) {
    && (forall i :: 0 <= i < |rows| ==> RowOk(rows[i]))
    && (forall i, j :: 0 <= i < j < |rows| ==> PairOk(rows[i], rows[j]))
  }

  predicate Ok(s: Panel) {
    && TableOk(s.rows)
    && (forall i :: 0 <= i < |s.rows| ==> s.rows[i].id < s.nextId)
    && s.routes == Nginx.Generated(s.rows)
  }

  lemma {:induction false} CleanedOk(extras: seq<int>, primary: nat)
    ensures
      var c := Cleaned(extras, primary);
      c.Some? ==>
        && (forall a, b :: 0 <= a < b < |c.value| ==> c.value[a] != c.value[b])
        && (forall p :: p in c.value ==> ValidPort(p) && p !in FRONTED_PORTS && p != primary)
        && (forall p :: p in c.value <==> p in extras && p != primary)
    ensures Cleaned(extras, primary).None? <==> exists p :: p in extras && (!ValidPort(p) || p in FRONTED_PORTS)
  {
    if extras != [] {
      var n := |extras| - 1;
      CleanedOk(extras[..n], primary);
      assert extras == extras[..n] + [extras[n]];
    }
  }

  lemma {:induction false} PanelPortsCover(rows: seq<Inbound>, exclude: Option<nat>, family: string, k: nat)
    requires k < |rows| && RowOk(rows[k]) && Some(rows[k].id) != exclude && L4Family(rows[k].protocol) == family
    ensures Direct(rows[k]) <= PanelDirectPorts(rows, exclude, family)
  {
    if k < |rows| - 1 {
      PanelPortsCover(rows[..|rows| - 1], exclude, family, k);
    }
  }

  lemma NewRowOk(env: Env, rows: seq<Inbound>, id: nat, r: CreateRequest)
    requires TableOk(rows) && forall i :: 0 <= i < |rows| ==> rows[i].id < id
    ensures var ib := NewRow(env, rows, id, r);
            ib.Some? ==> TableOk(rows + [ib.value]) && ib.value.id == id
  {
    var made := NewRow(env, rows, id, r);
    if made.Some? {
      CleanedOk(r.extraPorts, PortFor(r));
      forall i | 0 <= i < |rows|
        ensures PairOk(rows[i], made.value)
      {
        if L4Family(rows[i].protocol) == L4Family(r.protocol) {
          PanelPortsCover(rows, None, L4Family(r.protocol), i);
        }
        assert rows[i] in rows;
      }
    }
  }

  lemma ChangedPairOk(env: Env, rows: seq<Inbound>, k: nat, r: UpdateRequest, i: nat)
    requires TableOk(rows) && k < |rows| && i < |rows| && i != k
    ensures var ib := ChangedRow(env, rows, rows[k], r);
            ib.Some? ==> if i < k then PairOk(rows[i], ib.value) else PairOk(ib.value, rows[i])
  {
    var ib := rows[k];
    if ChangedRow(env, rows, ib, r).Some? {
      var extras: seq<int> := if r.extraPorts.Some? then r.extraPorts.value else ib.extraPorts;
      CleanedOk(extras, WithFields(ib, r).port);
      assert if i < k then PairOk(rows[i], ib) else PairOk(ib, rows[i]);
      assert rows[i] in rows;
      if L4Family(rows[i].protocol) == L4Family(ib.protocol) {
        PanelPortsCover(rows, Some(ib.id), L4Family(ib.protocol), i);
      }
    }
  }

  lemma ChangedExtrasOk(env: Env, rows: seq<Inbound>, ib: Inbound, r: UpdateRequest)
    ensures var made := ChangedRow(env, rows, ib, r); made.Some? ==> ExtrasOk(made.value)
  {
    hide ValidTag, FrontedPathOk, ComputePortKey, PortKeyTaken, ValidatedPorts, Direct, Fronted;
    var next := WithFields(ib, r);
    var extras: seq<int> := if r.extraPorts.Some? then r.extraPorts.value else ib.extraPorts;
    ValidatedIsCleaned(env, rows, next.port, Fronted(next), next.protocol, extras, Some(ib.id), Direct(ib));
    CleanedOk(extras, next.port);
  }

  lemma ChangedSelfOk(env: Env, rows: seq<Inbound>, k: nat, r: UpdateRequest)
    requires TableOk(rows) && k < |rows|
    ensures var ib := ChangedRow(env, rows, rows[k], r);
            ib.Some? ==> RowOk(ib.value) && ib.value.id == rows[k].id && ib.value.protocol == rows[k].protocol
  {
    assert RowOk(rows[k]);
    ChangedExtrasOk(env, rows, rows[k], r);
    hide TableOk, ValidTag, FrontedPathOk, ComputePortKey, PortKeyTaken, ValidatedPorts, Direct;
  }

  lemma ValidatedIsCleaned(env: Env, rows: seq<Inbound>, primary: nat, fronted: bool, protocol: string,
                           extras: seq<int>, exclude: Option<nat>, ownExisting: set<nat>)
    ensures
      var r := ValidatedPorts(env, rows, primary, fronted, protocol, extras, exclude, ownExisting);
      r.Some? ==> r == Cleaned(extras, primary)
  {
  }

  lemma ChangedRowOk(env: Env, rows: seq<Inbound>, k: nat, r: UpdateRequest)
    requires TableOk(rows) && k < |rows|
    ensures
      var ib := ChangedRow(env, rows, rows[k], r);
      ib.Some? ==>
        TableOk(rows[k := ib.value]) && ib.value.id == rows[k].id && ib.value.protocol == rows[k].protocol
  {
    hide ChangedRow, RowOk, PairOk;
    ChangedSelfOk(env, rows, k, r);
    forall i | 0 <= i < |rows| && i != k
      ensures var ib := ChangedRow(env, rows, rows[k], r);
              ib.Some? ==> if i < k then PairOk(rows[i], ib.value) else PairOk(ib.value, rows[i])
    {
      ChangedPairOk(env, rows, k, r, i);
    }
  }

  lemma UnroutedRow(ib: Inbound)
    requires RowOk(ib) && !Fronted(ib)
    ensures Nginx.Generated([ib]) == [] == Nginx.Generated([])
  {
    assert [ib][..0] == [];
  }

  // Replacing, adding or dropping rows nginx does not route leaves the include as
  // it is.
  lemma RoutesUnchanged(pre: seq<Inbound>, mid: seq<Inbound>, post: seq<Inbound>, other: seq<Inbound>)
    requires Nginx.Generated(mid) == Nginx.Generated(other)
    ensures Nginx.Generated(pre + mid + post) == Nginx.Generated(pre + other + post)
  {
    Nginx.GeneratedConcat(pre + mid, post);
    Nginx.GeneratedConcat(pre, mid);
    Nginx.GeneratedConcat(pre + other, post);
    Nginx.GeneratedConcat(pre, other);
  }

  lemma UnroutedSwap(rows: seq<Inbound>, k: nat, next: Inbound)
    requires k < |rows| && RowOk(rows[k]) && RowOk(next) && !Fronted(rows[k]) && !Fronted(next)
    ensures Nginx.Generated(rows[k := next]) == Nginx.Generated(rows)
  {
    UnroutedRow(rows[k]);
    UnroutedRow(next);
    RoutesUnchanged(rows[..k], [rows[k]], rows[k + 1..], [next]);
    assert rows == rows[..k] + [rows[k]] + rows[k + 1..];
    assert rows[k := next] == rows[..k] + [next] + rows[k + 1..];
  }

  lemma {:induction false} UnroutedDrop(rows: seq<Inbound>, k: nat)
    requires k < |rows| && RowOk(rows[k]) && !Fronted(rows[k])
    ensures Nginx.Generated(Without(rows, k)) == Nginx.Generated(rows)
  {
    hide RowOk, Fronted, Nginx.Generated;
    var pre, mid, post, none: seq<Inbound> := rows[..k], [rows[k]], rows[k + 1..], [];
    UnroutedRow(rows[k]);
    RoutesUnchanged(pre, mid, post, none);
    assert rows == pre + mid + post;
    assert pre + none == pre;
  }

  // Every operation keeps the table, and keeps the include the one generated from
  // it, also where it does not regenerate it.
  lemma CreateOk(env: Env, s: Panel, r: CreateRequest)
    requires Ok(s)
    ensures Ok(Created(env, s, r))
  {
    var made := NewRow(env, s.rows, s.nextId, r);
    NewRowOk(env, s.rows, s.nextId, r);
    if made.Some? && !Fronted(made.value) {
      var rows := s.rows + [made.value];
      assert rows[|s.rows|] == made.value && RowOk(made.value);
      UnroutedRow(made.value);
      Nginx.GeneratedConcat(s.rows, [made.value]);
    }
  }

  lemma UpdateOk(env: Env, s: Panel, k: nat, r: UpdateRequest)
    requires Ok(s) && k < |s.rows|
    ensures Ok(Updated(env, s, k, r))
  {
    hide ChangedRow, RowOk, PairOk, Fronted, Direct;
    var made := ChangedRow(env, s.rows, s.rows[k], r);
    ChangedRowOk(env, s.rows, k, r);
    if made.Some? && !Fronted(s.rows[k]) && !Fronted(made.value) {
      assert s.rows[k := made.value][k] == made.value;
      UnroutedSwap(s.rows, k, made.value);
    }
  }

  lemma ToggleOk(env: Env, s: Panel, k: nat)
    requires Ok(s) && k < |s.rows|
    ensures Ok(Toggled(env, s, k))
  {
    var ib := s.rows[k];
    var next := ib.(enabled := !ib.enabled);
    assert RowOk(ib) && RowOk(next);
    TogglePairs(s.rows, k, next);
    hide TableOk, RowOk;
    if !Fronted(ib) {
      UnroutedSwap(s.rows, k, next);
    }
  }

  lemma TogglePairs(rows: seq<Inbound>, k: nat, next: Inbound)
    requires TableOk(rows) && k < |rows| && next == rows[k].(enabled := next.enabled) && RowOk(next)
    ensures TableOk(rows[k := next])
  {
    hide RowOk;
    var after := rows[k := next];
    forall i, j | 0 <= i < j < |after|
      ensures PairOk(after[i], after[j])
    {
      assert PairOk(rows[i], rows[j]);
    }
  }

  lemma WithoutOk(rows: seq<Inbound>, k: nat)
    requires TableOk(rows) && k < |rows|
    ensures TableOk(Without(rows, k))
    ensures |Without(rows, k)| == |rows| - 1
    ensures forall i :: 0 <= i < |rows| - 1 ==> Without(rows, k)[i] == rows[if i < k then i else i + 1]
  {
    hide RowOk, PairOk;
    var after := Without(rows, k);
    forall i, j | 0 <= i < j < |after|
      ensures PairOk(after[i], after[j])
    {
      assert PairOk(rows[if i < k then i else i + 1], rows[if j < k then j else j + 1]);
    }
  }

  lemma DeleteOk(env: Env, s: Panel, k: nat)
    requires Ok(s) && k < |s.rows|
    ensures Ok(Deleted(env, s, k))
  {
    hide RowOk, PairOk, Fronted, Direct, Without;
    WithoutOk(s.rows, k);
    if !Fronted(s.rows[k]) {
      UnroutedDrop(s.rows, k);
    }
  }

  // ------------------------------------------------------------------------
  // Runs
  // ------------------------------------------------------------------------

  datatype Op =
    | Create(env: Env, create: CreateRequest)
    | Update(env: Env, id: nat, update: UpdateRequest)
    | Toggle(env: Env, id: nat)
    | Delete(env: Env, id: nat)

  function Find(rows: seq<Inbound>, id: nat): (r: Option<nat>)
    ensures r.Some? ==> r.value < |rows| && rows[r.value].id == id
    ensures r.None? ==> forall ib :: ib in rows ==> ib.id != id
  {
    if rows == [] then None
    else if rows[|rows| - 1].id == id then Some(|rows| - 1)
    else Find(rows[..|rows| - 1], id)
  }

  // An operation on an unknown id is a 404 and changes nothing.
  function Step(s: Panel, op: Op): Panel {
    match op
    case Create(env, r) => Created(env, s, r)
    case Update(env, id, r) => (match Find(s.rows, id) case None => s case Some(k) => Updated(env, s, k, r))
    case Toggle(env, id) => (match Find(s.rows, id) case None => s case Some(k) => Toggled(env, s, k))
    case Delete(env, id) => (match Find(s.rows, id) case None => s case Some(k) => Deleted(env, s, k))
  }

  function After(s: Panel, ops: seq<Op>): Panel
    decreases |ops|
  {
    if ops == [] then s else After(Step(s, ops[0]), ops[1..])
  }

  lemma StepOk(s: Panel, op: Op)
    requires Ok(s)
    ensures Ok(Step(s, op))
  {
    hide Ok, Created, Updated, Toggled, Deleted;
    match op
    case Create(env, r) => CreateOk(env, s, r);
    case Update(env, id, r) => if Find(s.rows, id).Some? { UpdateOk(env, s, Find(s.rows, id).value, r); }
    case Toggle(env, id) => if Find(s.rows, id).Some? { ToggleOk(env, s, Find(s.rows, id).value); }
    case Delete(env, id) => if Find(s.rows, id).Some? { DeleteOk(env, s, Find(s.rows, id).value); }
  }

  lemma {:induction false} EveryRunOk(s: Panel, ops: seq<Op>)
    requires Ok(s)
    ensures Ok(After(s, ops))
    decreases |ops|
  {
    if ops != [] {
      StepOk(s, ops[0]);
      EveryRunOk(Step(s, ops[0]), ops[1..]);
    }
  }

  const EMPTY := Panel([], 1, [], {})

  // In every table the API can reach, direct ports of one L4 family belong to one
  // row, extras are clean, and a loopback port is set exactly for fronted rows.
  lemma DirectPortsDisjoint(ops: seq<Op>, a: Inbound, b: Inbound)
    requires a in After(EMPTY, ops).rows && b in After(EMPTY, ops).rows
    ensures a.id != b.id && L4Family(a.protocol) == L4Family(b.protocol) ==> Direct(a) !! Direct(b)
    ensures a.id == b.id ==> a == b
    ensures a.internalPort == if Fronted(a) then Some(INTERNAL_PORT_BASE + a.id) else None
    ensures a.port !in a.extraPorts && 80 !in a.extraPorts && 443 !in a.extraPorts
    ensures forall i, j :: 0 <= i < j < |a.extraPorts| ==> a.extraPorts[i] != a.extraPorts[j]
  {
    hide After, Direct;
    assert Ok(EMPTY);
    EveryRunOk(EMPTY, ops);
    RowsApart(After(EMPTY, ops).rows, a, b);
    assert RowOk(a);
  }

  lemma RowsApart(rows: seq<Inbound>, a: Inbound, b: Inbound)
    requires TableOk(rows) && a in rows && b in rows
    ensures RowOk(a) && RowOk(b)
    ensures a != b ==> PairOk(a, b) || PairOk(b, a)
    ensures a.id == b.id ==> a == b
  {
    hide RowOk;
    var i :| 0 <= i < |rows| && rows[i] == a;
    var j :| 0 <= j < |rows| && rows[j] == b;
    assert i < j ==> PairOk(a, b);
    assert j < i ==> PairOk(b, a);
  }

  // ------------------------------------------------------------------------
  // What a request writes, column by column
  // ------------------------------------------------------------------------

  // The extra ports asked for, once each, without the primary.
  predicate SamePorts(stored: seq<nat>, asked: seq<int>, primary: nat) {
    && (forall p :: p in stored ==> p in asked && p != primary)
    && (forall p :: p in asked && p != primary ==> p in stored)
    && (forall a, b :: 0 <= a < b < |stored| ==> stored[a] != stored[b])
  }

  // An update request on a row: what it names is written, what it does not name stays,
  // and some columns it cannot name.
  predicate Rewritten(was: Inbound, row: Inbound, r: UpdateRequest) {
    && row.id == was.id && row.tag == was.tag && row.core == was.core && row.protocol == was.protocol
    && row.enabled == (if r.enabled.Some? then r.enabled.value else was.enabled)
    && row.listen == (if r.listen.Some? then r.listen.value else was.listen)
    && row.port == (if r.port.Some? then r.port.value else was.port)
    && row.network == (if r.network.Some? then r.network.value else was.network)
    && row.security == (if r.security.Some? then r.security.value else was.security)
    && row.settings == (if r.settings.Some? then r.settings.value else was.settings)
    && row.paths == (if r.paths.Some? then r.paths.value else was.paths)
    && SamePorts(row.extraPorts, if r.extraPorts.Some? then r.extraPorts.value else was.extraPorts, row.port)
  }

  // A create request and its row; a port that is not named is the protocol's usual one.
  predicate Written(row: Inbound, r: CreateRequest) {
    && row.tag == r.tag && row.core == r.core && row.protocol == r.protocol && row.enabled == r.enabled
    && row.listen == r.listen && row.network == r.network && row.security == r.security
    && row.settings == r.settings && row.paths == r.paths
    && SamePorts(row.extraPorts, r.extraPorts, row.port)
    && (if r.port.Some? then row.port == r.port.value
        else if r.network in {"ws", "httpupgrade", "xhttp"} then row.port == 80
        else if r.protocol == "shadowsocks" then row.port == 8388
        else if r.protocol == "socks" then row.port == 1080
        else if r.protocol == "http" then row.port == 8080
        else row.port == 443)
  }

  lemma NewRowWritten(env: Env, rows: seq<Inbound>, id: nat, r: CreateRequest)
    ensures var made := NewRow(env, rows, id, r); made.Some? ==> Written(made.value, r) && made.value.id == id
  {
    hide ValidTag, FrontedPathOk, ValidatedPorts, ComputePortKey, PortKeyTaken;
    var port := PortFor(r);
    CleanedOk(r.extraPorts, port);
    ValidatedIsCleaned(env, rows, port, IsFronted(r.network, port), r.protocol, r.extraPorts, None, {});
  }

  lemma ChangedRowRewritten(env: Env, rows: seq<Inbound>, ib: Inbound, r: UpdateRequest)
    ensures var made := ChangedRow(env, rows, ib, r); made.Some? ==> Rewritten(ib, made.value, r)
  {
    hide ValidTag, FrontedPathOk, ValidatedPorts, ComputePortKey, PortKeyTaken, Direct;
    var next := WithFields(ib, r);
    var extras: seq<int> := if r.extraPorts.Some? then r.extraPorts.value else ib.extraPorts;
    CleanedOk(extras, next.port);
    ValidatedIsCleaned(env, rows, next.port, Fronted(next), next.protocol, extras, Some(ib.id), Direct(ib));
  }

  // Kept extra ports stay in the order of their first mention.
  lemma {:induction false} CleanedInOrder(extras: seq<int>, primary: nat, a: nat, b: nat)
    requires Cleaned(extras, primary).Some? && a < b < |Cleaned(extras, primary).value|
    ensures
      var stored := Cleaned(extras, primary).value;
      exists i :: 0 <= i < |extras| && extras[i] == stored[a] && forall j :: 0 <= j <= i ==> extras[j] != stored[b]
  {
    var n := |extras| - 1;
    var before := Cleaned(extras[..n], primary).value;
    CleanedOk(extras[..n], primary);
    if b < |before| {
      CleanedInOrder(extras[..n], primary, a, b);
      var i :| 0 <= i < n && extras[..n][i] == before[a] && forall j :: 0 <= j <= i ==> extras[..n][j] != before[b];
      assert forall j :: 0 <= j <= i ==> extras[j] == extras[..n][j];
      assert extras[i] == before[a];
    } else {
      assert before[a] in extras[..n];
      var i :| 0 <= i < n && extras[..n][i] == before[a];
      assert forall j :: 0 <= j <= i ==> extras[j] == extras[..n][j] && extras[j] in extras[..n];
      assert extras[i] == before[a];
    }
  }

  // One step of a run, told by the columns: a create adds one row at the end, an update
  // rewrites one row, a toggle flips one row's switch, a delete drops one row, and no
  // other row moves. A refused request moves none.
  predicate StepWrites(s: Panel, op: Op, next: Panel) {
    match op
    case Create(_, r) =>
      || next == s
      || (&& next.nextId == s.nextId + 1 && |next.rows| == |s.rows| + 1 && next.rows[..|s.rows|] == s.rows
          && next.rows[|s.rows|].id == s.nextId && Written(next.rows[|s.rows|], r))
    case Update(_, id, r) =>
      || next == s
      || (exists k :: 0 <= k < |s.rows| && s.rows[k].id == id && next.nextId == s.nextId && |next.rows| == |s.rows|
            && Rewritten(s.rows[k], next.rows[k], r) && next.rows == s.rows[k := next.rows[k]])
    case Toggle(env, id) =>
      if env.coreAccepts && exists ib :: ib in s.rows && ib.id == id then
        exists k :: 0 <= k < |s.rows| && s.rows[k].id == id && next.nextId == s.nextId && |next.rows| == |s.rows|
          && next.rows[k] == s.rows[k].(enabled := !s.rows[k].enabled) && next.rows == s.rows[k := next.rows[k]]
      else next == s
    case Delete(env, id) =>
      if env.coreAccepts && exists ib :: ib in s.rows && ib.id == id then
        exists k :: 0 <= k < |s.rows| && s.rows[k].id == id && next.nextId == s.nextId
          && next.rows == s.rows[..k] + s.rows[k + 1..]
      else next == s
  }

  lemma StepWritten(s: Panel, op: Op)
    ensures StepWrites(s, op, Step(s, op))
  {
    hide NewRow, ChangedRow, Written, Rewritten, Fronted, Direct;
    match op
    case Create(env, r) => NewRowWritten(env, s.rows, s.nextId, r);
    case Update(env, id, r) =>
      var k := Find(s.rows, id);
      if k.Some? {
        ChangedRowRewritten(env, s.rows, s.rows[k.value], r);
      }
    case Toggle(env, id) => FoundRow(s.rows, id);
    case Delete(env, id) => FoundRow(s.rows, id);
  }

  lemma FoundRow(rows: seq<Inbound>, id: nat)
    ensures Find(rows, id).Some? ==> rows[Find(rows, id).value] in rows
  {
  }

  // ------------------------------------------------------------------------
  // The handlers, in place
  // ------------------------------------------------------------------------

  class InboundApi {
    var rows: seq<Inbound>
    var nextId: nat
    var routes: seq<(string, nat)>
    var open: set<Firewall.Rule>

    constructor ()
      ensures State() == EMPTY
    {
      rows, nextId, routes, open := [], 1, [], {};
    }

    function State(): Panel
      reads this
    {
      Panel(rows, nextId, routes, open)
    }

    method ValidatePorts(env: Env, primary: nat, fronted: bool, protocol: string,
                         extras: seq<int>, exclude: Option<nat>, ownExisting: set<nat>)
      returns (r: Option<seq<nat>>)
      ensures r == ValidatedPorts(env, rows, primary, fronted, protocol, extras, exclude, ownExisting)
    {
      var cleaned: seq<nat> := [];
      for i := 0 to |extras|
        invariant Cleaned(extras[..i], primary) == Some(cleaned)
        invariant forall j :: 0 <= j < i ==> ValidPort(extras[j]) && extras[j] !in FRONTED_PORTS
      {
        var p := extras[i];
        assert extras[..i + 1][..i] == extras[..i];
        if !ValidPort(p) || p in FRONTED_PORTS {
          CleanedOk(extras, primary);
          return None;
        }
        if p != primary && p !in cleaned {
          cleaned := cleaned + [p];
        }
      }
      assert extras[..|extras|] == extras;
      var family := L4Family(protocol);
      var direct := cleaned + if fronted then [] else [primary];
      assert forall p :: p in direct <==> p in NewDirect(cleaned, primary, fronted);
      var owned := PanelDirectPorts(rows, exclude, family);
      for i := 0 to |direct|
        invariant forall j :: 0 <= j < i ==> direct[j] !in owned
      {
        if direct[i] in owned {
          assert direct[i] in NewDirect(cleaned, primary, fronted);
          return None;
        }
      }
      var exempt := owned + ownExisting;
      for i := 0 to |direct|
        invariant forall j :: 0 <= j < i ==> direct[j] in exempt || (direct[j], family) !in env.listening
      {
        if direct[i] !in exempt && (direct[i], family) in env.listening {
          assert direct[i] in NewDirect(cleaned, primary, fronted);
          return None;
        }
      }
      r := Some(cleaned);
    }

    // Opening or closing one port at a time, as the handlers do.
    method AllowAll(ports: set<nat>, protocol: string)
      modifies this
      ensures rows == old(rows) && nextId == old(nextId) && routes == old(routes)
      ensures open == old(open) + Firewall.RulesFor(ports, protocol)
    {
      var todo := ports;
      while todo != {}
        invariant todo <= ports && rows == old(rows) && nextId == old(nextId) && routes == old(routes)
        invariant open == old(open) + Firewall.RulesFor(ports - todo, protocol)
        decreases |todo|
      {
        var p :| p in todo;
        open := Firewall.Allow(open, p, protocol);
        todo := todo - {p};
      }
    }

    method RevokeAll(ports: set<nat>, protocol: string)
      modifies this
      ensures rows == old(rows) && nextId == old(nextId) && routes == old(routes)
      ensures open == old(open) - Firewall.RulesFor(ports, protocol)
    {
      var todo := ports;
      while todo != {}
        invariant todo <= ports && rows == old(rows) && nextId == old(nextId) && routes == old(routes)
        invariant open == old(open) - Firewall.RulesFor(ports - todo, protocol)
        decreases |todo|
      {
        var p :| p in todo;
        open := Firewall.Revoke(open, p, protocol);
        todo := todo - {p};
      }
    }

    // The checks of create_inbound, up to the core's verdict.
    method CheckNew(env: Env, r: CreateRequest) returns (made: Option<Inbound>)
      ensures made == NewRow(env, rows, nextId, r)
    {
      hide ValidTag, FrontedPathOk, ValidatedPorts, ComputePortKey, PortKeyTaken, CoreOf;
      if !ValidTag(r.tag) || (r.port.Some? && !ValidPort(r.port.value)) || CoreOf(r.protocol) != Some(r.core)
         || exists ib :: ib in rows && ib.tag == r.tag {
        return None;
      }
      var port := PortFor(r);
      var fronted := IsFronted(r.network, port);
      if fronted && !FrontedPathOk(r.network, r.paths) {
        return None;
      }
      var extras := ValidatePorts(env, port, fronted, r.protocol, r.extraPorts, None, {});
      if extras.None? {
        return None;
      }
      var key := ComputePortKey(port, r.protocol, r.network, r.paths);
      if PortKeyTaken(rows, key, None) {
        return None;
      }
      var ib := Inbound(nextId, r.tag, r.enabled, r.core, r.protocol, r.listen, port, None, key, extras.value,
                        r.network, r.security, r.settings, r.paths);
      if fronted {
        ib := ib.(internalPort := Some(INTERNAL_PORT_BASE + ib.id));
      }
      made := if env.coreAccepts then Some(ib) else None;
    }

    method CreateInbound(env: Env, r: CreateRequest) returns (ok: bool)
      modifies this
      ensures State() == Created(env, old(State()), r)
      ensures ok == NewRow(env, old(rows), old(nextId), r).Some?
      ensures ok ==>
        && nextId == old(nextId) + 1 && |rows| == |old(rows)| + 1 && rows[..|old(rows)|] == old(rows)
        && rows[|old(rows)|].id == old(nextId) && Written(rows[|old(rows)|], r)
      ensures !ok ==> State() == old(State())
    {
      hide NewRow, Written;
      NewRowWritten(env, rows, nextId, r);
      var made := CheckNew(env, r);
      if made.None? {
        return false;
      }
      var ib := made.value;
      rows := rows + [ib];
      nextId := nextId + 1;
      if Fronted(ib) {
        routes := Nginx.Generate(rows);
      } else {
        AllowAll({ib.port}, ib.protocol);
      }
      AllowAll((set p | p in ib.extraPorts), ib.protocol);
      ok := true;
    }

    // The checks of update_inbound, up to the core's verdict.
    method CheckChanged(env: Env, ib: Inbound, r: UpdateRequest) returns (made: Option<Inbound>)
      ensures made == ChangedRow(env, rows, ib, r)
    {
      hide FrontedPathOk, ValidatedPorts, KeyOf, PortKeyTaken, Direct;
      var next := WithFields(ib, r);
      var fronted := Fronted(next);
      if (r.port.Some? && !ValidPort(r.port.value)) || (fronted && !FrontedPathOk(next.network, next.paths)) {
        return None;
      }
      var key := KeyOf(next);
      var asked: seq<int> := if r.extraPorts.Some? then r.extraPorts.value else ib.extraPorts;
      var extras := ValidatePorts(env, next.port, fronted, next.protocol, asked, Some(ib.id), Direct(ib));
      if extras.None? {
        return None;
      }
      if key != ib.portKey && PortKeyTaken(rows, key, Some(ib.id)) {
        return None;
      }
      next := next.(extraPorts := extras.value, portKey := key);
      if !fronted {
        next := next.(internalPort := None);
      } else if next.internalPort.None? {
        next := next.(internalPort := Some(INTERNAL_PORT_BASE + ib.id));
      }
      made := if env.coreAccepts then Some(next) else None;
    }

    method UpdateInbound(env: Env, k: nat, r: UpdateRequest) returns (ok: bool)
      requires k < |rows|
      modifies this
      ensures State() == Updated(env, old(State()), k, r)
      ensures ok == ChangedRow(env, old(rows), old(rows[k]), r).Some?
      ensures ok ==>
        && |rows| == |old(rows)| && Rewritten(old(rows)[k], rows[k], r)
        && forall i :: 0 <= i < |rows| && i != k ==> rows[i] == old(rows)[i]
      ensures !ok ==> State() == old(State())
    {
      hide ChangedRow, Direct, Rewritten;
      ChangedRowRewritten(env, rows, rows[k], r);
      var ib := rows[k];
      var oldFronted, oldDirect := Fronted(ib), Direct(ib);
      var made := CheckChanged(env, ib, r);
      if made.None? {
        return false;
      }
      var next := made.value;
      rows := rows[k := next];
      if oldFronted || Fronted(next) {
        routes := Nginx.Generate(rows);
      }
      var newDirect := Direct(next);
      RevokeAll(oldDirect - newDirect, ib.protocol);
      AllowAll(newDirect - oldDirect, ib.protocol);
      ok := true;
    }

    method ToggleInbound(env: Env, k: nat) returns (ok: bool)
      requires k < |rows|
      modifies this
      ensures State() == Toggled(env, old(State()), k) && ok == env.coreAccepts
      ensures ok ==> rows == old(rows)[k := old(rows)[k].(enabled := !old(rows)[k].enabled)]
      ensures !ok ==> State() == old(State())
    {
      if !env.coreAccepts {
        return false;
      }
      var ib := rows[k];
      rows := rows[k := ib.(enabled := !ib.enabled)];
      if Fronted(ib) {
        routes := Nginx.Generate(rows);
      }
      ok := true;
    }

    method DeleteInbound(env: Env, k: nat) returns (ok: bool)
      requires k < |rows|
      modifies this
      ensures State() == Deleted(env, old(State()), k) && ok == env.coreAccepts
      ensures ok ==> rows == old(rows)[..k] + old(rows)[k + 1..]
      ensures !ok ==> State() == old(State())
    {
      if !env.coreAccepts {
        return false;
      }
      var ib := rows[k];
      rows := Without(rows, k);
      if Fronted(ib) {
        routes := Nginx.Generate(rows);
      }
      RevokeAll(Direct(ib), ib.protocol);
      ok := true;
    }
  }
}
