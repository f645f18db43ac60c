// What the rows' columns mean for who gets in: every statement here is about the
// columns themselves, on one side, and about files and processes, on the other.
module Access {
  import opened Models
  import opened Render
  import opened Cores
  import opened Serving
  import opened Enforcer
  import Decimal
  import IpLimits
  import Registry
  import Runs

  // ------------------------------------------------------------------------
  // Who gets in
  // ------------------------------------------------------------------------

  lemma UsableByColumns(c: Client, now: real)
    ensures c.IsUsable(now) <==>
      && c.enabled
      && (c.expiryTime == 0 || now * 1000.0 < c.expiryTime as real)
      && (c.totalBytes == 0 || c.up + c.down < c.totalBytes)
      && !c.ipLimitExceeded
  {
  }

  // In a converged panel, a client is let in at a listener of either core exactly when
  // the listener is of its inbound and names its users, and the client is switched on,
  // not past its expiry (milliseconds; 0 is never), below its data cap (0 is none) and
  // not flagged for too many IPs.
  lemma LetInIff(db: Db, now: real, s: Panel, core: CoreKind, i: nat, j: nat)
    requires WellFormed(db) && Converged(db, now, s) && i < |SlotsOf(db, core)| && j < |db.clients|
    ensures |CoreOf(s, core).running| == |SlotsOf(db, core)|
    ensures
      var c, ib := db.clients[j], SlotsOf(db, core)[i].owner;
      c.account.email in Admitted(CoreOf(s, core).running[i]) <==>
        && c.account.inboundId == ib.id
        && !(ib.protocol == "shadowsocks" && "method" in ib.settings && !("2022" <= ib.settings["method"]))
        && c.enabled
        && (c.expiryTime == 0 || now * 1000.0 < c.expiryTime as real)
        && (c.totalBytes == 0 || c.up + c.down < c.totalBytes)
        && !c.ipLimitExceeded
  {
    hide WellFormed, UsableIds, SlotsOf, Admitted, ConfigFor, Load;
    var usable := UsableIds(db.clients, now);
    LookAdmitted(db, core, usable, i, j);
    UsableById(db, now, j);
    UsableByColumns(db.clients[j], now);
    LegacyByColumns(SlotsOf(db, core)[i].owner);
  }

  lemma LegacyByColumns(ib: Inbound)
    ensures IsLegacyShadowsocks(ib) <==>
      ib.protocol == "shadowsocks" && "method" in ib.settings && !("2022" <= ib.settings["method"])
  {
    assert "2022" <= "2022-blake3-aes-128-gcm";
  }

  // The memo then holds exactly the clients that are switched on and held back.
  lemma MemoIff(db: Db, now: real, s: Panel, j: nat)
    requires WellFormed(db) && Converged(db, now, s) && j < |db.clients|
    ensures
      var c := db.clients[j];
      c.account.id in s.cut <==>
        c.enabled &&
        (|| (c.expiryTime != 0 && now * 1000.0 >= c.expiryTime as real)
         || (c.totalBytes != 0 && c.up + c.down >= c.totalBytes)
         || c.ipLimitExceeded)
  {
    hide WellFormed, UsableIds, ConfigFor, Load;
    UsableById(db, now, j);
    UsableByColumns(db.clients[j], now);
  }

  // ------------------------------------------------------------------------
  // With what
  // ------------------------------------------------------------------------

  lemma EntryCarries(protocol: string, a: Account)
    ensures Carries(ClientEntry(protocol, a), protocol, a)
  {
  }

  // A served client is let in with the credential of its inbound's protocol, as its
  // row has it.
  lemma Credential(db: Db, core: CoreKind, served: set<nat>, i: nat, j: nat)
    requires WellFormed(db) && i < |SlotsOf(db, core)| && j < |db.clients|
    requires db.clients[j].account.inboundId == SlotsOf(db, core)[i].owner.id && db.clients[j].account.id in served
    requires !IsLegacyShadowsocks(SlotsOf(db, core)[i].owner)
    ensures |Loaded(db, core, served)| == |SlotsOf(db, core)|
    ensures
      var protocol, a := SlotsOf(db, core)[i].owner.protocol, db.clients[j].account;
      var users := Admitted(Loaded(db, core, served)[i]);
      && a.email in users && users[a.email].email == a.email
      && (protocol == "vless" ==> users[a.email] == Entry(a.email, a.uuid, "", a.flow))
      && (protocol == "vmess" ==> users[a.email] == Entry(a.email, a.uuid, "", ""))
      && (protocol == "tuic" ==> users[a.email] == Entry(a.email, a.uuid, a.password, ""))
      && (protocol in {"trojan", "shadowsocks", "socks", "http", "hysteria2"} ==>
            users[a.email] == Entry(a.email, "", a.password, ""))
  {
    hide WellFormed, SlotsOf, Admitted, Loaded, IsLegacyShadowsocks;
    LookAdmitted(db, core, served, i, j);
    EntryCarries(SlotsOf(db, core)[i].owner.protocol, db.clients[j].account);
  }

  // The file says the same: the users of a listener are its inbound's served clients, in
  // table order, each with that credential.
  lemma FiledCredentials(db: Db, core: CoreKind, served: set<nat>, i: nat)
    requires i < |SlotsOf(db, core)| && !IsLegacyShadowsocks(SlotsOf(db, core)[i].owner)
    ensures |ConfigFor(db, core, served)| == |SlotsOf(db, core)|
    ensures
      var ib, users := SlotsOf(db, core)[i].owner, ConfigFor(db, core, served)[i].settings.users;
      && |users| == |ServedAt(db, ib, served)|
      && forall k :: 0 <= k < |users| ==> Carries(users[k], ib.protocol, ServedAt(db, ib, served)[k])
  {
    FlattenFillsSlots(QueryInbounds(db.inbounds, core), Accounts(db.clients), served);
    var ib, accounts := SlotsOf(db, core)[i].owner, ServedAt(db, SlotsOf(db, core)[i].owner, served);
    forall k | 0 <= k < |accounts|
      ensures Carries(Entries(ib.protocol, accounts)[k], ib.protocol, accounts[k])
    {
      EntryCarries(ib.protocol, accounts[k]);
    }
  }

  // A client that a legacy Shadowsocks listener could serve.
  predicate Active(c: Client, now: real) {
    && c.enabled && !c.ipLimitExceeded
    && (c.expiryTime == 0 || now * 1000.0 < c.expiryTime as real)
    && (c.totalBytes == 0 || c.up + c.down < c.totalBytes)
  }

  // In a converged panel, a legacy Shadowsocks listener has the password of the first
  // active client of its inbound in table order, and the inbound's own if there is none.
  lemma LegacyPasswordIff(db: Db, now: real, s: Panel, core: CoreKind, i: nat)
    requires WellFormed(db) && Converged(db, now, s) && i < |SlotsOf(db, core)|
    requires
      var ib := SlotsOf(db, core)[i].owner;
      ib.protocol == "shadowsocks" && "method" in ib.settings && !("2022" <= ib.settings["method"])
    ensures |CoreOf(s, core).running| == |SlotsOf(db, core)|
    ensures
      var ib, password := SlotsOf(db, core)[i].owner, CoreOf(s, core).running[i].shape.settings.single;
      || (exists j :: 0 <= j < |db.clients| && Active(db.clients[j], now) && db.clients[j].account.inboundId == ib.id
            && password == db.clients[j].account.password
            && forall k :: 0 <= k < j && Active(db.clients[k], now) ==> db.clients[k].account.inboundId != ib.id)
      || ((forall c :: c in db.clients && Active(c, now) ==> c.account.inboundId != ib.id)
            && password == if "password" in ib.settings then ib.settings["password"] else "")
  {
    hide WellFormed, UsableIds, SlotsOf, ConfigFor, Load;
    var ib, usable := SlotsOf(db, core)[i].owner, UsableIds(db.clients, now);
    LegacyByColumns(ib);
    LegacyPassword(db, core, usable, i);
    forall j | 0 <= j < |db.clients|
      ensures db.clients[j].Id() in usable <==> Active(db.clients[j], now)
    {
      UsableById(db, now, j);
      UsableByColumns(db.clients[j], now);
    }
    var accounts := Accounts(db.clients);
    var first := FirstServed(accounts, ib.id, usable);
    assert forall k :: 0 <= k < |accounts| ==>
      accounts[k].inboundId == db.clients[k].account.inboundId && accounts[k].id == db.clients[k].Id();
  }

  lemma {:induction false} FirstServed(accounts: seq<Account>, inboundId: nat, served: set<nat>) returns (first: nat)
    ensures first <= |accounts|
    ensures forall k :: 0 <= k < first ==> !(accounts[k].inboundId == inboundId && accounts[k].id in served)
    ensures
      var clients := AccountsOf(accounts, inboundId, served);
      if first == |accounts| then clients == []
      else
        && accounts[first].inboundId == inboundId && accounts[first].id in served
        && clients != [] && clients[0] == accounts[first]
  {
    if accounts == [] {
      first := 0;
    } else {
      var n := |accounts| - 1;
      first := FirstServed(accounts[..n], inboundId, served);
      if first == n && !(accounts[n].inboundId == inboundId && accounts[n].id in served) {
        first := n + 1;
      }
    }
  }

  // ------------------------------------------------------------------------
  // Where
  // ------------------------------------------------------------------------

  predicate BehindNginx(ib: Inbound) {
    && ib.core == Xray && ib.network in {"ws", "httpupgrade", "xhttp"}
    && ib.internalPort.Some? && ib.internalPort.value != 0
  }

  // Listener number k of a row: number 0 is the primary, the rest are its extra ports.
  // Only the primary of a row behind nginx is on the loopback, in plain text.
  predicate Presents(l: Listener, ib: Inbound, k: nat)
    requires k <= |ib.extraPorts|
  {
    && l.protocol == ib.protocol && l.settings.base == ib.settings
    && l.stream.network == ib.network
    && l.stream.path == (if ib.network in ib.paths then ib.paths[ib.network] else "/")
    && l.tag == (if k == 0 then ib.tag else ib.tag + "@" + Decimal.Render(ib.extraPorts[k - 1]))
    && if k == 0 && BehindNginx(ib) then
         && l.listen == "127.0.0.1" && l.port == ib.internalPort.value
         && l.stream.security == "none" && !l.stream.tls && !l.stream.reality
       else
         && l.port == (if k == 0 then ib.port else ib.extraPorts[k - 1])
         && l.listen == (if ib.core == Singbox && ib.listen in {"", "0.0.0.0", "::"} then "::"
                         else if ib.listen == "" then "0.0.0.0" else ib.listen)
         && l.stream.security == ib.security
         && (l.stream.tls <==> ib.security == "tls") && (l.stream.reality <==> ib.security == "reality")
  }

  lemma SlotPresents(ib: Inbound, accounts: seq<Account>, served: set<nat>, k: nat)
    requires k <= |ib.extraPorts|
    ensures Presents(Fill(Slots(ib)[k], accounts, served), ib, k)
  {
    hide Presents, Fill, PrimarySlot, ExtraSlot;
    if k == 0 {
      PrimaryPresents(ib, accounts, served);
    } else {
      ExtraPresents(ib, accounts, served, k);
    }
  }

  lemma PrimaryPresents(ib: Inbound, accounts: seq<Account>, served: set<nat>)
    ensures Presents(Fill(PrimarySlot(ib), accounts, served), ib, 0)
  {
    hide AccountsOf, Entries;
  }

  lemma ExtraPresents(ib: Inbound, accounts: seq<Account>, served: set<nat>, k: nat)
    requires 0 < k <= |ib.extraPorts|
    ensures Presents(Fill(ExtraSlot(ib, ib.extraPorts[k - 1]), accounts, served), ib, k)
  {
    hide AccountsOf, Entries, Decimal.Render;
  }

  // A config has each listener of each enabled row of its core.
  lemma RowShows(db: Db, core: CoreKind, served: set<nat>, ib: Inbound, k: nat) returns (i: nat)
    requires ib in db.inbounds && ib.enabled && ib.core == core && k <= |ib.extraPorts|
    ensures i < |ConfigFor(db, core, served)| == |SlotsOf(db, core)|
    ensures SlotsOf(db, core)[i].owner == ib && Presents(ConfigFor(db, core, served)[i], ib, k)
  {
    var rows := QueryInbounds(db.inbounds, core);
    QueryMembers(db.inbounds, core);
    AllSlotsOwners(rows);
    FlattenFillsSlots(rows, Accounts(db.clients), served);
    SlotPresents(ib, Accounts(db.clients), served, k);
    hide QueryInbounds, Slots, Fill, Presents, AllSlots;
    i :| 0 <= i < |AllSlots(rows)| && AllSlots(rows)[i] == Slots(ib)[k];
  }

  // And no others.
  lemma ListenerHasRow(db: Db, core: CoreKind, served: set<nat>, i: nat) returns (ib: Inbound, k: nat)
    requires i < |ConfigFor(db, core, served)|
    ensures ib in db.inbounds && ib.enabled && ib.core == core && k <= |ib.extraPorts|
    ensures Presents(ConfigFor(db, core, served)[i], ib, k)
    ensures |ConfigFor(db, core, served)| == |SlotsOf(db, core)| && SlotsOf(db, core)[i].owner == ib
  {
    var rows := QueryInbounds(db.inbounds, core);
    QueryMembers(db.inbounds, core);
    AllSlotsOwners(rows);
    FlattenFillsSlots(rows, Accounts(db.clients), served);
    ib := AllSlots(rows)[i].owner;
    k :| 0 <= k < |Slots(ib)| && Slots(ib)[k] == AllSlots(rows)[i];
    SlotPresents(ib, Accounts(db.clients), served, k);
  }

  // An update that goes through shows at every listener of the row, if the row is
  // switched on: what the request names is what they have, the rest is as it was.
  lemma UpdateShows(db: Db, served: set<nat>, was: Inbound, row: Inbound, r: Registry.UpdateRequest, k: nat)
    returns (i: nat)
    requires Registry.Rewritten(was, row, r) && row in db.inbounds && k <= |row.extraPorts|
    requires if r.enabled.Some? then r.enabled.value else was.enabled
    ensures i < |ConfigFor(db, was.core, served)| == |SlotsOf(db, was.core)| && SlotsOf(db, was.core)[i].owner == row
    ensures
      var l := ConfigFor(db, was.core, served)[i];
      var network := if r.network.Some? then r.network.value else was.network;
      var security := if r.security.Some? then r.security.value else was.security;
      var paths := if r.paths.Some? then r.paths.value else was.paths;
      && l.protocol == was.protocol && l.stream.network == network
      && l.stream.path == (if network in paths then paths[network] else "/")
      && l.settings.base == (if r.settings.Some? then r.settings.value else was.settings)
      && (k == 0 ==> l.tag == was.tag)
      && (k == 0 && !BehindNginx(row) ==> l.port == if r.port.Some? then r.port.value else was.port)
      && (k > 0 || !BehindNginx(row) ==>
            l.stream.security == security && (l.stream.tls <==> security == "tls")
            && (l.stream.reality <==> security == "reality"))
  {
    hide SlotsOf, ConfigFor;
    i := RowShows(db, was.core, served, row, k);
  }

  // Listeners come in the order of their rows' ports.
  lemma {:induction false} ListenersOrdered(db: Db, core: CoreKind, i: nat, j: nat)
    requires i < j < |SlotsOf(db, core)|
    ensures SlotsOf(db, core)[i].owner.port <= SlotsOf(db, core)[j].owner.port
  {
    OrderedByPort(EnabledOn(db.inbounds, core));
    OwnersInOrder(QueryInbounds(db.inbounds, core), i, j);
  }

  predicate PortOrder(rows: seq<Inbound>) {
    forall i, j :: 0 <= i < j < |rows| ==> rows[i].port <= rows[j].port
  }

  lemma {:induction false} InsertOrdered(ib: Inbound, rows: seq<Inbound>)
    requires PortOrder(rows)
    ensures PortOrder(Insert(ib, rows))
  {
    if !(rows == [] || ib.port < rows[0].port) {
      InsertOrdered(ib, rows[1..]);
      InsertMembers(ib, rows[1..]);
      forall x | x in Insert(ib, rows[1..])
        ensures rows[0].port <= x.port
      {
        if x != ib {
          var k :| 0 <= k < |rows[1..]| && rows[1..][k] == x;
          assert rows[1 + k] == x;
        }
      }
    }
  }

  lemma {:induction false} OrderedByPort(rows: seq<Inbound>)
    ensures PortOrder(OrderByPort(rows))
  {
    if rows != [] {
      OrderedByPort(rows[..|rows| - 1]);
      InsertOrdered(rows[|rows| - 1], OrderByPort(rows[..|rows| - 1]));
    }
  }

  lemma {:induction false} OwnersInOrder(rows: seq<Inbound>, i: nat, j: nat)
    requires PortOrder(rows) && i < j < |AllSlots(rows)|
    ensures AllSlots(rows)[i].owner.port <= AllSlots(rows)[j].owner.port
  {
    var n := |Slots(rows[0])|;
    var tail := AllSlots(rows[1..]);
    assert AllSlots(rows) == Slots(rows[0]) + tail;
    if n <= i {
      OwnersInOrder(rows[1..], i - n, j - n);
    } else if n <= j {
      AllSlotsOwners(rows[1..]);
      assert tail[j - n].owner in rows[1..];
    }
  }

  // ------------------------------------------------------------------------
  // At every poll
  // ------------------------------------------------------------------------

  // In every run without requests from a synchronised start: a client whose log shows
  // more IPs than its cap is let in nowhere after the poll that sees it.
  lemma OverCapIsCut(w: Runs.World, events: seq<Runs.Event>, poll: Runs.Event, j: nat, core: CoreKind, i: nat)
    requires Runs.Initial(w) && Runs.Run(w, events) && forall e :: e in events ==> Runs.Unattended(e)
    requires poll.PollNow? && Runs.Unattended(poll) && Runs.Allowed(Runs.After(w, events), poll)
    requires j < |Runs.After(w, events).db.clients|
    requires
      var c := Runs.After(w, events).db.clients[j];
      c.limitIp > 0 && c.account.email in poll.counts && poll.counts[c.account.email] > c.limitIp
    requires i < |SlotsOf(Runs.Next(Runs.After(w, events), poll).db, core)|
    ensures
      var v := Runs.After(w, events);
      var next := Runs.Next(v, poll);
      && |CoreOf(next.panel, core).running| == |SlotsOf(next.db, core)|
      && v.db.clients[j].account.email !in Admitted(CoreOf(next.panel, core).running[i])
  {
    assert w.panel.cut !! w.served;
    hide Runs.Run, Runs.After, Runs.Initial, Admitted, Converged, SlotsOf, Enforced, ConfigFor;
    var v := Runs.After(w, events);
    Runs.EveryUnattendedPollConverges(w, events, poll);
    Runs.InitialSound(w);
    Runs.UnattendedRunSound(w, events);
    Runs.FlaggedKeepsRows(v, poll.counts);
    IpLimits.FlagByRule(v.db.clients, v.okSince, poll.counts, v.now, j);
    LetInIff(Runs.FlaggedDb(v, poll.counts), v.now, Runs.Next(v, poll).panel, core, i, j);
  }
}
