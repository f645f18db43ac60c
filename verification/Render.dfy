// core/xray.py and core/singbox.py: how the database is rendered into a core's
// config. A config is the list of its listeners; the constant log, api, routing
// and outbound blocks are left out, since they never make two configs differ.
module Render {
  import opened Models
  import Protocols
  import Tags

  // Transport details are left out except the path and the two security blocks.
  datatype Stream = Stream(network: string, path: string, security: string, tls: bool, reality: bool)

  // One user inside a listener's settings.
  datatype Entry = Entry(email: string, uuid: string, password: string, flow: string)

  // `base` is the row's own settings block; `single` is the one password of a
  // legacy Shadowsocks listener.
  datatype Settings = Settings(base: map<string, string>, users: seq<Entry>, single: string)

  datatype Listener = Listener(
    tag: string, listen: string, port: nat, protocol: string, stream: Stream, settings: Settings)

  type Config = seq<Listener>

  const LIVE_USER_PROTOCOLS: set<string> := {"vless", "vmess", "trojan"}

  function PathOf(ib: Inbound): string {
    if ib.network in ib.paths then ib.paths[ib.network] else "/"
  }

  function BuildStream(ib: Inbound): Stream {
    Stream(ib.network, PathOf(ib), ib.security, ib.security == "tls", ib.security == "reality")
  }

  function ClientEntry(protocol: string, a: Account): Entry {
    match protocol
    case "vless" => Entry(a.email, a.uuid, "", a.flow)
    case "vmess" => Entry(a.email, a.uuid, "", "")
    case "tuic" => Entry(a.email, a.uuid, a.password, "")
    case _ => Entry(a.email, "", a.password, "")
  }

  // Entry `e` lets account `a` in by this protocol, and tells nothing else of it: by
  // its id, by its password, or by both.
  predicate Carries(e: Entry, protocol: string, a: Account) {
    && e.email == a.email
    && e.uuid == (if protocol in {"vless", "vmess", "tuic"} then a.uuid else "")
    && e.password == (if protocol in {"vless", "vmess"} then "" else a.password)
    && e.flow == (if protocol == "vless" then a.flow else "")
  }

  // The accounts of one inbound that are let in, in table order.
  function AccountsOf(accounts: seq<Account>, inboundId: nat, served: set<nat>): seq<Account> {
    if accounts == [] then []
    else
      var rest := AccountsOf(accounts[..|accounts| - 1], inboundId, served);
      var a := accounts[|accounts| - 1];
      if a.inboundId == inboundId && a.id in served then rest + [a] else rest
  }

  function Entries(protocol: string, accounts: seq<Account>): (r: seq<Entry>)
    ensures |r| == |accounts|
  {
    seq(|accounts|, i requires 0 <= i < |accounts| => ClientEntry(protocol, accounts[i]))
  }

  function MethodOf(ib: Inbound): string {
    if "method" in ib.settings then ib.settings["method"] else "2022-blake3-aes-128-gcm"
  }

  predicate IsLegacyShadowsocks(ib: Inbound) {
    ib.protocol == "shadowsocks" && !("2022" <= MethodOf(ib))
  }

  function BuildSettings(ib: Inbound, accounts: seq<Account>, served: set<nat>): Settings {
    var clients := AccountsOf(accounts, ib.id, served);
    if IsLegacyShadowsocks(ib) then
      var base := if "password" in ib.settings then ib.settings["password"] else "";
      Settings(ib.settings, [], if clients == [] then base else clients[0].password)
    else
      Settings(ib.settings, Entries(ib.protocol, clients), "")
  }

  // A listener of a row before its users are filled in.
  datatype Slot = Slot(owner: Inbound, tag: string, listen: string, port: nat, stream: Stream)

  function PrimarySlot(ib: Inbound): Slot {
    var stream := BuildStream(ib);
    match ib.core
    case Singbox =>
      var listen := if ib.listen in {"0.0.0.0", "", "::"} then "::" else ib.listen;
      Slot(ib, ib.tag, listen, ib.port, stream)
    case Xray =>
      if Protocols.IsWsFamily(ib.network) && ib.internalPort.Some? && ib.internalPort.value != 0 then
        // nginx talks plaintext to this loopback socket.
        Slot(ib, ib.tag, "127.0.0.1", ib.internalPort.value,
          stream.(security := "none", tls := false, reality := false))
      else
        Slot(ib, ib.tag, if ib.listen == "" then "0.0.0.0" else ib.listen, ib.port, stream)
  }

  function ExtraSlot(ib: Inbound, port: nat): Slot {
    var listen := match ib.core
                  case Singbox => PrimarySlot(ib).listen
                  case Xray => if ib.listen == "" then "0.0.0.0" else ib.listen;
    Slot(ib, Tags.ExtraTag(ib.tag, port), listen, port, BuildStream(ib))
  }

  function Slots(ib: Inbound): (r: seq<Slot>)
    ensures |r| == 1 + |ib.extraPorts|
    ensures forall i :: 0 <= i < |r| ==> r[i].owner == ib
  {
    [PrimarySlot(ib)] +
    seq(|ib.extraPorts|, i requires 0 <= i < |ib.extraPorts| => ExtraSlot(ib, ib.extraPorts[i]))
  }

  function Fill(s: Slot, accounts: seq<Account>, served: set<nat>): Listener {
    Listener(s.tag, s.listen, s.port, s.owner.protocol, s.stream, BuildSettings(s.owner, accounts, served))
  }

  function BuildInbounds(ib: Inbound, accounts: seq<Account>, served: set<nat>): Config {
    seq(|Slots(ib)|, i requires 0 <= i < |Slots(ib)| => Fill(Slots(ib)[i], accounts, served))
  }

  // The order_by(port) of the config query; equal ports keep table order.
  function Insert(ib: Inbound, rows: seq<Inbound>): seq<Inbound> {
    if rows == [] || ib.port < rows[0].port then [ib] + rows
    else [rows[0]] + Insert(ib, rows[1..])
  }

  function OrderByPort(rows: seq<Inbound>): seq<Inbound> {
    if rows == [] then []
    else Insert(rows[|rows| - 1], OrderByPort(rows[..|rows| - 1]))
  }

  function EnabledOn(rows: seq<Inbound>, core: CoreKind): seq<Inbound> {
    if rows == [] then []
    else
      var rest := EnabledOn(rows[..|rows| - 1], core);
      var ib := rows[|rows| - 1];
      if ib.core == core && ib.enabled then rest + [ib] else rest
  }

  function QueryInbounds(rows: seq<Inbound>, core: CoreKind): seq<Inbound> {
    OrderByPort(EnabledOn(rows, core))
  }

  function Flatten(rows: seq<Inbound>, accounts: seq<Account>, served: set<nat>): Config {
    if rows == [] then []
    else BuildInbounds(rows[0], accounts, served) + Flatten(rows[1..], accounts, served)
  }

  function Accounts(clients: seq<Client>): (r: seq<Account>)
    ensures |r| == |clients|
  {
    seq(|clients|, i requires 0 <= i < |clients| => clients[i].account)
  }

  function UsableIds(clients: seq<Client>, now: real): set<nat> {
    set c | c in clients && c.enabled && c.IsUsable(now) :: c.Id()
  }

  // The config that serves exactly the given client ids.
  function ConfigFor(db: Db, core: CoreKind, served: set<nat>): Config {
    Flatten(QueryInbounds(db.inbounds, core), Accounts(db.clients), served)
  }

  // generate_config of either core.
  function Generate(db: Db, core: CoreKind, now: real): Config {
    ConfigFor(db, core, UsableIds(db.clients, now))
  }

  // ------------------------------------------------------------------------
  // Configs by listener index
  // ------------------------------------------------------------------------

  function AllSlots(rows: seq<Inbound>): seq<Slot> {
    if rows == [] then [] else Slots(rows[0]) + AllSlots(rows[1..])
  }

  function SlotsOf(db: Db, core: CoreKind): seq<Slot> {
    AllSlots(QueryInbounds(db.inbounds, core))
  }

  lemma {:induction false} FlattenFillsSlots(rows: seq<Inbound>, accounts: seq<Account>, served: set<nat>)
    ensures |Flatten(rows, accounts, served)| == |AllSlots(rows)|
    ensures forall i :: 0 <= i < |AllSlots(rows)| ==>
      Flatten(rows, accounts, served)[i] == Fill(AllSlots(rows)[i], accounts, served)
  {
    if rows != [] {
      FlattenFillsSlots(rows[1..], accounts, served);
      var n := |Slots(rows[0])|;
      forall i | 0 <= i < |AllSlots(rows)|
        ensures Flatten(rows, accounts, served)[i] == Fill(AllSlots(rows)[i], accounts, served)
      {
        if i >= n {
          assert AllSlots(rows)[i] == AllSlots(rows[1..])[i - n];
          assert Flatten(rows, accounts, served)[i] == Flatten(rows[1..], accounts, served)[i - n];
        }
      }
    }
  }

  lemma {:induction false} InsertMembers(ib: Inbound, rows: seq<Inbound>)
    ensures forall x :: x in Insert(ib, rows) <==> x == ib || x in rows
  {
    if !(rows == [] || ib.port < rows[0].port) {
      InsertMembers(ib, rows[1..]);
      assert rows == [rows[0]] + rows[1..];
    }
  }

  lemma {:induction false} OrderByPortMembers(rows: seq<Inbound>)
    ensures forall x :: x in OrderByPort(rows) <==> x in rows
  {
    if rows != [] {
      var n := |rows| - 1;
      OrderByPortMembers(rows[..n]);
      InsertMembers(rows[n], OrderByPort(rows[..n]));
      assert rows == rows[..n] + [rows[n]];
    }
  }

  lemma {:induction false} EnabledOnMembers(rows: seq<Inbound>, core: CoreKind)
    ensures forall x :: x in EnabledOn(rows, core) <==> x in rows && x.core == core && x.enabled
  {
    if rows != [] {
      var n := |rows| - 1;
      EnabledOnMembers(rows[..n], core);
      assert rows == rows[..n] + [rows[n]];
    }
  }

  // The rendered rows are exactly the enabled rows of that core.
  lemma QueryMembers(rows: seq<Inbound>, core: CoreKind)
    ensures forall x :: x in QueryInbounds(rows, core) <==> x in rows && x.core == core && x.enabled
  {
    EnabledOnMembers(rows, core);
    OrderByPortMembers(EnabledOn(rows, core));
  }

  lemma {:induction false} AllSlotsOwners(rows: seq<Inbound>)
    ensures forall i :: 0 <= i < |AllSlots(rows)| ==>
      AllSlots(rows)[i].owner in rows && AllSlots(rows)[i] in Slots(AllSlots(rows)[i].owner)
    ensures forall ib, k :: ib in rows && 0 <= k < |Slots(ib)| ==> Slots(ib)[k] in AllSlots(rows)
  {
    if rows != [] {
      AllSlotsOwners(rows[1..]);
      var head, tail := Slots(rows[0]), AllSlots(rows[1..]);
      forall i | 0 <= i < |AllSlots(rows)|
        ensures AllSlots(rows)[i].owner in rows && AllSlots(rows)[i] in Slots(AllSlots(rows)[i].owner)
      {
        if i < |head| {
          assert AllSlots(rows)[i] == head[i];
        } else {
          assert AllSlots(rows)[i] == tail[i - |head|];
        }
      }
      forall ib, k | ib in rows && 0 <= k < |Slots(ib)|
        ensures Slots(ib)[k] in AllSlots(rows)
      {
        if ib == rows[0] {
          assert Slots(ib)[k] in head;
        } else {
          assert ib in rows[1..];
        }
      }
    }
  }

  // xray._listener_tags names the listeners of build_inbounds, in order.
  lemma ListenerTagsMatch(ib: Inbound, accounts: seq<Account>, served: set<nat>)
    ensures |Tags.ListenerTags(ib.tag, ib.extraPorts)| == |BuildInbounds(ib, accounts, served)|
    ensures forall i :: 0 <= i < |Tags.ListenerTags(ib.tag, ib.extraPorts)| ==>
      Tags.ListenerTags(ib.tag, ib.extraPorts)[i] == BuildInbounds(ib, accounts, served)[i].tag
  {
    forall i | 0 <= i < |Tags.ListenerTags(ib.tag, ib.extraPorts)|
      ensures Tags.ListenerTags(ib.tag, ib.extraPorts)[i] == BuildInbounds(ib, accounts, served)[i].tag
    {
      assert BuildInbounds(ib, accounts, served)[i] == Fill(Slots(ib)[i], accounts, served);
    }
  }
}
