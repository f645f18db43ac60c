// Who can connect where: what the loaded listeners look like, user by user, for a
// config that serves a given set of clients.
module Serving {
  import opened Models
  import opened Render
  import opened Cores
  import Tags

  // What the database's own constraints guarantee: unique ids, emails and tags, a
  // row for every foreign key, validated tags, distinct extra ports.
  predicate WellFormed(db: Db) {
    && (forall i, j :: 0 <= i < j < |db.inbounds| ==>
          db.inbounds[i].id != db.inbounds[j].id && db.inbounds[i].tag != db.inbounds[j].tag)
    && (forall i, j :: 0 <= i < j < |db.clients| ==>
          db.clients[i].Id() != db.clients[j].Id() && db.clients[i].account.email != db.clients[j].account.email)
    && (forall i :: 0 <= i < |db.inbounds| ==> TagOk(db.inbounds[i]))
    && (forall c :: c in db.clients ==> FindInbound(db.inbounds, c.account.inboundId).Some?)
  }

  predicate TagOk(ib: Inbound) {
    && '@' !in ib.tag
    && (forall a, b :: 0 <= a < b < |ib.extraPorts| ==> ib.extraPorts[a] != ib.extraPorts[b])
  }

  function FindInbound(rows: seq<Inbound>, id: nat): (r: Option<Inbound>)
    ensures r.Some? ==> r.value in rows && r.value.id == id
    ensures r.None? ==> forall ib :: ib in rows ==> ib.id != id
  {
    if rows == [] then None
    else if rows[|rows| - 1].id == id then Some(rows[|rows| - 1])
    else FindInbound(rows[..|rows| - 1], id)
  }

  function Look(users: map<string, Entry>, email: string): Option<Entry> {
    if email in users then Some(users[email]) else None
  }

  // The listeners a config serving `served` loads into.
  function Loaded(db: Db, core: CoreKind, served: set<nat>): seq<Live> {
    Load(ConfigFor(db, core, served))
  }

  lemma TagDecidesRow(db: Db, a: Inbound, b: Inbound)
    requires WellFormed(db) && a in db.inbounds && b in db.inbounds && a.tag == b.tag
    ensures a == b
  {
    var i :| 0 <= i < |db.inbounds| && db.inbounds[i] == a;
    var j :| 0 <= j < |db.inbounds| && db.inbounds[j] == b;
  }

  lemma OwnerByTag(db: Db, core: CoreKind, i: nat, ib: Inbound)
    requires WellFormed(db) && i < |SlotsOf(db, core)| && ib in db.inbounds
    ensures SlotsOf(db, core)[i].owner in db.inbounds
    ensures SlotsOf(db, core)[i].owner.core == core && SlotsOf(db, core)[i].owner.enabled
    ensures SlotsOf(db, core)[i].tag in TagsOf(ib) <==> SlotsOf(db, core)[i].owner == ib
  {
    var rows := QueryInbounds(db.inbounds, core);
    var s := SlotsOf(db, core)[i];
    QueryMembers(db.inbounds, core);
    SlotTagFoldsBack(rows, i);
    if s.owner == ib {
      AllSlotsOwners(rows);
      var k :| 0 <= k < |Slots(ib)| && Slots(ib)[k] == s;
      SlotTagAt(ib, k);
    } else if s.tag in TagsOf(ib) {
      var m :| 0 <= m < |TagsOf(ib)| && TagsOf(ib)[m] == s.tag;
      Tags.BaseTagOfListener(ib.tag, ib.extraPorts, m);
      TagDecidesRow(db, s.owner, ib);
    }
  }

  predicate TagsUnique(rows: seq<Inbound>) {
    forall i, j :: 0 <= i < j < |rows| ==> rows[i].tag != rows[j].tag
  }

  lemma {:induction false} EnabledOnTagsUnique(rows: seq<Inbound>, core: CoreKind)
    requires TagsUnique(rows)
    ensures TagsUnique(EnabledOn(rows, core))
  {
    if rows != [] {
      EnabledOnTagsUnique(rows[..|rows| - 1], core);
      EnabledOnMembers(rows[..|rows| - 1], core);
    }
  }

  lemma {:induction false} InsertTagsUnique(ib: Inbound, rows: seq<Inbound>)
    requires TagsUnique(rows) && forall x :: x in rows ==> x.tag != ib.tag
    ensures TagsUnique(Insert(ib, rows))
  {
    if !(rows == [] || ib.port < rows[0].port) {
      InsertTagsUnique(ib, rows[1..]);
      InsertMembers(ib, rows[1..]);
      forall x | x in Insert(ib, rows[1..])
        ensures x.tag != rows[0].tag
      {
        if x != ib {
          var k :| 0 <= k < |rows[1..]| && rows[1..][k] == x;
          assert rows[1 + k] == x;
        }
        assert rows[0] in rows;
      }
    }
  }

  lemma {:induction false} OrderByPortTagsUnique(rows: seq<Inbound>)
    requires TagsUnique(rows)
    ensures TagsUnique(OrderByPort(rows))
  {
    if rows != [] {
      var n := |rows| - 1;
      OrderByPortTagsUnique(rows[..n]);
      OrderByPortMembers(rows[..n]);
      InsertTagsUnique(rows[n], OrderByPort(rows[..n]));
    }
  }

  lemma SlotTagAt(ib: Inbound, k: nat)
    requires k < |Slots(ib)|
    ensures |Slots(ib)| == |TagsOf(ib)| && Slots(ib)[k].tag == TagsOf(ib)[k]
  {
  }

  lemma SlotTagFoldsBack(rows: seq<Inbound>, i: nat)
    requires i < |AllSlots(rows)| && forall ib :: ib in rows ==> TagOk(ib)
    ensures AllSlots(rows)[i].owner in rows
    ensures Tags.BaseTag(AllSlots(rows)[i].tag) == AllSlots(rows)[i].owner.tag
  {
    AllSlotsOwners(rows);
    var s := AllSlots(rows)[i];
    var k :| 0 <= k < |Slots(s.owner)| && Slots(s.owner)[k] == s;
    SlotTagAt(s.owner, k);
    Tags.BaseTagOfListener(s.owner.tag, s.owner.extraPorts, k);
  }

  lemma {:induction false} SlotTagsDistinct(rows: seq<Inbound>, i: nat, j: nat)
    requires TagsUnique(rows) && forall ib :: ib in rows ==> TagOk(ib)
    requires i < j < |AllSlots(rows)|
    ensures AllSlots(rows)[i].tag != AllSlots(rows)[j].tag
  {
    var ib, n := rows[0], |Slots(rows[0])|;
    var head, tail := Slots(ib), AllSlots(rows[1..]);
    assert AllSlots(rows) == head + tail;
    assert TagOk(ib);
    if n <= i {
      SlotTagsDistinct(rows[1..], i - n, j - n);
    } else if j < n {
      SlotTagAt(ib, i);
      SlotTagAt(ib, j);
      Tags.ListenerTagsDistinct(ib.tag, ib.extraPorts, i, j);
    } else {
      SlotTagAt(ib, i);
      Tags.BaseTagOfListener(ib.tag, ib.extraPorts, i);
      SlotTagFoldsBack(rows[1..], j - n);
      var m :| 0 <= m < |rows[1..]| && rows[1..][m] == tail[j - n].owner;
      assert rows[1 + m].tag != rows[0].tag;
    }
  }

  // Over the whole table, both cores and disabled rows included, all listener tags are
  // pairwise distinct, and folding the extra-port suffix away leads back to the owner.
  lemma {:induction false} AllTagsDistinct(db: Db, i: nat)
    requires WellFormed(db) && i < |AllSlots(db.inbounds)|
    ensures forall j :: 0 <= j < |AllSlots(db.inbounds)| && j != i ==>
      AllSlots(db.inbounds)[i].tag != AllSlots(db.inbounds)[j].tag
    ensures AllSlots(db.inbounds)[i].owner in db.inbounds
    ensures Tags.BaseTag(AllSlots(db.inbounds)[i].tag) == AllSlots(db.inbounds)[i].owner.tag
  {
    hide AllSlots, Tags.BaseTag;
    var rows := db.inbounds;
    forall j | 0 <= j < |AllSlots(rows)| && j != i
      ensures AllSlots(rows)[i].tag != AllSlots(rows)[j].tag
    {
      if i < j { SlotTagsDistinct(rows, i, j); } else { SlotTagsDistinct(rows, j, i); }
    }
    SlotTagFoldsBack(rows, i);
  }

  // A rendered config names its listeners after that table.
  lemma {:induction false} RenderedTags(db: Db, core: CoreKind, served: set<nat>)
    ensures |ConfigFor(db, core, served)| == |SlotsOf(db, core)|
    ensures forall i :: 0 <= i < |SlotsOf(db, core)| ==>
      ConfigFor(db, core, served)[i].tag == SlotsOf(db, core)[i].tag && SlotsOf(db, core)[i] in AllSlots(db.inbounds)
  {
    var rows := QueryInbounds(db.inbounds, core);
    FlattenFillsSlots(rows, Accounts(db.clients), served);
    QueryMembers(db.inbounds, core);
    hide AllSlots, QueryInbounds, Fill;
    AllSlotsOwners(rows);
    AllSlotsOwners(db.inbounds);
    forall i | 0 <= i < |AllSlots(rows)|
      ensures AllSlots(rows)[i] in AllSlots(db.inbounds)
    {
      var slot := AllSlots(rows)[i];
      var k :| 0 <= k < |Slots(slot.owner)| && Slots(slot.owner)[k] == slot;
    }
    assert forall i :: 0 <= i < |AllSlots(rows)| ==>
      Fill(AllSlots(rows)[i], Accounts(db.clients), served).tag == AllSlots(rows)[i].tag by {
      FillKeepsTag(Accounts(db.clients), served);
    }
  }

  lemma FillKeepsTag(accounts: seq<Account>, served: set<nat>)
    ensures forall slot :: Fill(slot, accounts, served).tag == slot.tag
  {
  }

  predicate UniqueEmails(accounts: seq<Account>) {
    forall i, j :: 0 <= i < j < |accounts| ==> accounts[i].email != accounts[j].email
  }

  function ServedTable(protocol: string, accounts: seq<Account>, inboundId: nat, served: set<nat>): map<string, Entry> {
    Table(Entries(protocol, AccountsOf(accounts, inboundId, served)))
  }

  lemma ServedTableStep(protocol: string, accounts: seq<Account>, inboundId: nat, served: set<nat>)
    requires accounts != []
    ensures
      var n := |accounts| - 1;
      var before := ServedTable(protocol, accounts[..n], inboundId, served);
      var a := accounts[n];
      ServedTable(protocol, accounts, inboundId, served) ==
        if a.inboundId == inboundId && a.id in served then before[a.email := ClientEntry(protocol, a)] else before
  {
    var n := |accounts| - 1;
    var a := accounts[n];
    var rest := AccountsOf(accounts[..n], inboundId, served);
    if a.inboundId == inboundId && a.id in served {
      var users := Entries(protocol, rest + [a]);
      assert users == Entries(protocol, rest) + [ClientEntry(protocol, a)];
      assert users[..|users| - 1] == Entries(protocol, rest);
    }
  }

  lemma {:induction false} LookUnknown(protocol: string, accounts: seq<Account>, inboundId: nat, served: set<nat>,
                                       email: string)
    requires forall a :: a in accounts ==> a.email != email
    ensures Look(ServedTable(protocol, accounts, inboundId, served), email) == None
  {
    if accounts != [] {
      ServedTableStep(protocol, accounts, inboundId, served);
      LookUnknown(protocol, accounts[..|accounts| - 1], inboundId, served, email);
    }
  }

  lemma {:induction false} LookServed(protocol: string, accounts: seq<Account>, inboundId: nat, served: set<nat>,
                                      k: nat)
    requires UniqueEmails(accounts) && k < |accounts|
    ensures Look(ServedTable(protocol, accounts, inboundId, served), accounts[k].email) ==
            if accounts[k].inboundId == inboundId && accounts[k].id in served
            then Some(ClientEntry(protocol, accounts[k])) else None
  {
    var n := |accounts| - 1;
    ServedTableStep(protocol, accounts, inboundId, served);
    if k < n {
      LookServed(protocol, accounts[..n], inboundId, served, k);
    } else {
      LookUnknown(protocol, accounts[..n], inboundId, served, accounts[k].email);
    }
  }

  // A loaded listener: its shape comes from its slot, its table from the accounts.
  lemma LoadedAt(db: Db, core: CoreKind, served: set<nat>, i: nat)
    requires i < |SlotsOf(db, core)|
    ensures |Loaded(db, core, served)| == |SlotsOf(db, core)|
    ensures Loaded(db, core, served)[i] == LoadOne(Fill(SlotsOf(db, core)[i], Accounts(db.clients), served))
    ensures Loaded(db, core, served)[i].shape.tag == SlotsOf(db, core)[i].tag
    ensures HasUserTable(SlotsOf(db, core)[i].owner.protocol) ==>
      var ib := SlotsOf(db, core)[i].owner;
      Loaded(db, core, served)[i].users == ServedTable(ib.protocol, Accounts(db.clients), ib.id, served)
  {
    FlattenFillsSlots(QueryInbounds(db.inbounds, core), Accounts(db.clients), served);
  }

  // Whether a client is in a loaded listener's table: exactly when the listener
  // belongs to its inbound, keeps a table, and the client is served.
  lemma LookTable(db: Db, core: CoreKind, served: set<nat>, i: nat, j: nat)
    requires WellFormed(db) && i < |SlotsOf(db, core)| && j < |db.clients|
    ensures |Loaded(db, core, served)| == |SlotsOf(db, core)|
    ensures
      var ib := SlotsOf(db, core)[i].owner;
      var a := db.clients[j].account;
      Look(Loaded(db, core, served)[i].users, a.email) ==
        if HasUserTable(ib.protocol) && a.inboundId == ib.id && a.id in served
        then Some(ClientEntry(ib.protocol, a)) else None
  {
    hide SlotsOf, Loaded;
    LoadedAt(db, core, served, i);
    var ib := SlotsOf(db, core)[i].owner;
    if HasUserTable(ib.protocol) {
      var accounts := Accounts(db.clients);
      assert forall a, b :: 0 <= a < b < |accounts| ==>
        accounts[a].email == db.clients[a].account.email && accounts[b].email == db.clients[b].account.email;
      assert accounts[j] == db.clients[j].account;
      LookServed(ib.protocol, accounts, ib.id, served, j);
    }
  }

  lemma LookNobody(db: Db, core: CoreKind, served: set<nat>, i: nat, email: string)
    requires i < |SlotsOf(db, core)|
    requires forall c :: c in db.clients ==> c.account.email != email
    ensures |Loaded(db, core, served)| == |SlotsOf(db, core)|
    ensures Look(Loaded(db, core, served)[i].users, email) == None
  {
    LoadedAt(db, core, served, i);
    var ib := SlotsOf(db, core)[i].owner;
    if HasUserTable(ib.protocol) {
      LookUnknown(ib.protocol, Accounts(db.clients), ib.id, served, email);
    }
  }

  // ------------------------------------------------------------------------
  // Two served sets that agree on a core's clients give one config
  // ------------------------------------------------------------------------

  predicate AgreeOn(accounts: seq<Account>, inboundId: nat, s: set<nat>, t: set<nat>) {
    forall a :: a in accounts && a.inboundId == inboundId ==> (a.id in s <==> a.id in t)
  }

  lemma {:induction false} AccountsOfAgree(accounts: seq<Account>, inboundId: nat, s: set<nat>, t: set<nat>)
    requires AgreeOn(accounts, inboundId, s, t)
    ensures AccountsOf(accounts, inboundId, s) == AccountsOf(accounts, inboundId, t)
  {
    if accounts != [] {
      AccountsOfAgree(accounts[..|accounts| - 1], inboundId, s, t);
    }
  }

  predicate ClientsAgree(db: Db, core: CoreKind, s: set<nat>, t: set<nat>) {
    forall c, ib | c in db.clients && ib in db.inbounds && ib.core == core && ib.enabled
                   && c.account.inboundId == ib.id ::
      c.Id() in s <==> c.Id() in t
  }

  lemma {:induction false} FlattenSame(rows: seq<Inbound>, a: seq<Account>, b: seq<Account>, s: set<nat>, t: set<nat>)
    requires forall ib :: ib in rows ==> AccountsOf(a, ib.id, s) == AccountsOf(b, ib.id, t)
    ensures Flatten(rows, a, s) == Flatten(rows, b, t)
  {
    if rows != [] {
      assert BuildInbounds(rows[0], a, s) == BuildInbounds(rows[0], b, t);
      FlattenSame(rows[1..], a, b, s, t);
    }
  }

  lemma ConfigAgree(db: Db, core: CoreKind, s: set<nat>, t: set<nat>)
    requires ClientsAgree(db, core, s, t)
    ensures ConfigFor(db, core, s) == ConfigFor(db, core, t)
  {
    var rows, accounts := QueryInbounds(db.inbounds, core), Accounts(db.clients);
    QueryMembers(db.inbounds, core);
    forall ib | ib in rows
      ensures AccountsOf(accounts, ib.id, s) == AccountsOf(accounts, ib.id, t)
    {
      forall a | a in accounts && a.inboundId == ib.id
        ensures a.id in s <==> a.id in t
      {
        var j :| 0 <= j < |accounts| && accounts[j] == a;
        assert db.clients[j] in db.clients && db.clients[j].account == a;
      }
      AccountsOfAgree(accounts, ib.id, s, t);
    }
    FlattenSame(rows, accounts, accounts, s, t);
  }

  // ------------------------------------------------------------------------
  // Two databases that differ only in clients nobody is serving
  // ------------------------------------------------------------------------

  lemma {:induction false} AccountsOfConcat(a: seq<Account>, b: seq<Account>, inboundId: nat, served: set<nat>)
    ensures AccountsOf(a + b, inboundId, served) == AccountsOf(a, inboundId, served) + AccountsOf(b, inboundId, served)
  {
    if b == [] {
      assert a + b == a;
    } else {
      var n := |b| - 1;
      AccountsOfConcat(a, b[..n], inboundId, served);
      assert (a + b)[..|a + b| - 1] == a + b[..n];
    }
  }

  lemma ConfigSkipsUnserved(db: Db, pre: seq<Client>, mid: seq<Client>, post: seq<Client>, core: CoreKind,
                            served: set<nat>)
    requires db.clients == pre + mid + post
    requires forall c :: c in mid ==> c.Id() !in served
    ensures ConfigFor(db, core, served) == ConfigFor(db.(clients := pre + post), core, served)
  {
    var rows := QueryInbounds(db.inbounds, core);
    var with, without := Accounts(db.clients), Accounts(pre + post);
    assert with == Accounts(pre) + Accounts(mid) + Accounts(post);
    assert without == Accounts(pre) + Accounts(post);
    forall ib | ib in rows
      ensures AccountsOf(with, ib.id, served) == AccountsOf(without, ib.id, served)
    {
      AccountsOfConcat(Accounts(pre) + Accounts(mid), Accounts(post), ib.id, served);
      AccountsOfConcat(Accounts(pre), Accounts(mid), ib.id, served);
      AccountsOfConcat(Accounts(pre), Accounts(post), ib.id, served);
      assert forall k :: 0 <= k < |mid| ==> Accounts(mid)[k].id == mid[k].Id();
      NobodyServed(Accounts(mid), ib.id, served);
    }
    FlattenSame(rows, with, without, served, served);
  }

  lemma {:induction false} NobodyServed(accounts: seq<Account>, inboundId: nat, served: set<nat>)
    requires forall k :: 0 <= k < |accounts| ==> accounts[k].id !in served
    ensures AccountsOf(accounts, inboundId, served) == []
  {
    if accounts != [] {
      NobodyServed(accounts[..|accounts| - 1], inboundId, served);
    }
  }

  // ------------------------------------------------------------------------
  // Who is let in
  // ------------------------------------------------------------------------

  // The named users a running listener lets in, whether its core keeps them in a live
  // table or in the listener's settings.
  function Admitted(l: Live): map<string, Entry> {
    l.users + Table(l.shape.settings.users)
  }

  // The accounts served at a row, in table order.
  function ServedAt(db: Db, ib: Inbound, served: set<nat>): seq<Account> {
    AccountsOf(Accounts(db.clients), ib.id, served)
  }

  lemma AdmittedAt(db: Db, core: CoreKind, served: set<nat>, i: nat)
    requires i < |SlotsOf(db, core)|
    ensures |Loaded(db, core, served)| == |SlotsOf(db, core)|
    ensures
      var ib := SlotsOf(db, core)[i].owner;
      Admitted(Loaded(db, core, served)[i]) ==
        if IsLegacyShadowsocks(ib) then map[] else ServedTable(ib.protocol, Accounts(db.clients), ib.id, served)
  {
    LoadedAt(db, core, served, i);
    var ib := SlotsOf(db, core)[i].owner;
    var table := ServedTable(ib.protocol, Accounts(db.clients), ib.id, served);
    assert table + map[] == table && map[] + table == table;
  }

  // Client j at listener i of either core: it is let in, with its own credential,
  // exactly when the listener is of its row and the client is served.
  lemma LookAdmitted(db: Db, core: CoreKind, served: set<nat>, i: nat, j: nat)
    requires WellFormed(db) && i < |SlotsOf(db, core)| && j < |db.clients|
    ensures |Loaded(db, core, served)| == |SlotsOf(db, core)|
    ensures
      var ib, a := SlotsOf(db, core)[i].owner, db.clients[j].account;
      Look(Admitted(Loaded(db, core, served)[i]), a.email) ==
        if !IsLegacyShadowsocks(ib) && a.inboundId == ib.id && a.id in served
        then Some(ClientEntry(ib.protocol, a)) else None
  {
    hide SlotsOf, Loaded, Admitted, ServedTable;
    AdmittedAt(db, core, served, i);
    var ib := SlotsOf(db, core)[i].owner;
    if !IsLegacyShadowsocks(ib) {
      var accounts := Accounts(db.clients);
      assert UniqueEmails(accounts) by {
        AccountsUnique(db);
      }
      LookServed(ib.protocol, accounts, ib.id, served, j);
    }
  }

  lemma AccountsUnique(db: Db)
    requires WellFormed(db)
    ensures UniqueEmails(Accounts(db.clients))
  {
    var accounts := Accounts(db.clients);
    assert forall a, b :: 0 <= a < b < |accounts| ==>
      accounts[a].email == db.clients[a].account.email && accounts[b].email == db.clients[b].account.email;
  }

  lemma AdmitsNobody(db: Db, core: CoreKind, served: set<nat>, i: nat, email: string)
    requires i < |SlotsOf(db, core)|
    requires forall c :: c in db.clients ==> c.account.email != email
    ensures |Loaded(db, core, served)| == |SlotsOf(db, core)|
    ensures Look(Admitted(Loaded(db, core, served)[i]), email) == None
  {
    hide SlotsOf, Loaded, Admitted, ServedTable;
    AdmittedAt(db, core, served, i);
    var ib := SlotsOf(db, core)[i].owner;
    if !IsLegacyShadowsocks(ib) {
      LookUnknown(ib.protocol, Accounts(db.clients), ib.id, served, email);
    }
  }

  // At every listener of either core that names its users, an email is let in exactly
  // when a served client of the row has it.
  lemma AdmitsExactly(db: Db, core: CoreKind, served: set<nat>, i: nat, email: string)
    requires WellFormed(db) && i < |SlotsOf(db, core)|
    ensures |Loaded(db, core, served)| == |SlotsOf(db, core)|
    ensures
      var ib := SlotsOf(db, core)[i].owner;
      email in Admitted(Loaded(db, core, served)[i]) <==>
        !IsLegacyShadowsocks(ib) &&
        exists c :: c in db.clients && c.account.email == email && c.Id() in served && c.account.inboundId == ib.id
  {
    hide SlotsOf, Loaded, Admitted;
    if j :| 0 <= j < |db.clients| && db.clients[j].account.email == email {
      LookAdmitted(db, core, served, i, j);
      assert db.clients[j] in db.clients;
      forall c | c in db.clients && c.account.email == email
        ensures c == db.clients[j]
      {
        var m :| 0 <= m < |db.clients| && db.clients[m] == c;
      }
    } else {
      AdmitsNobody(db, core, served, i, email);
    }
  }

  // A legacy Shadowsocks listener lets in one password: that of the row's first served
  // client, or the row's own when nobody is served.
  lemma LegacyPassword(db: Db, core: CoreKind, served: set<nat>, i: nat)
    requires i < |SlotsOf(db, core)| && IsLegacyShadowsocks(SlotsOf(db, core)[i].owner)
    ensures |Loaded(db, core, served)| == |SlotsOf(db, core)|
    ensures
      var ib := SlotsOf(db, core)[i].owner;
      var clients := ServedAt(db, ib, served);
      Loaded(db, core, served)[i].shape.settings.single ==
        if clients != [] then clients[0].password else if "password" in ib.settings then ib.settings["password"] else ""
  {
    LoadedAt(db, core, served, i);
  }

  // ------------------------------------------------------------------------
  // Live calls on loaded listeners
  // ------------------------------------------------------------------------

  function LiveEffect(c: Client, ib: Inbound, isCut: bool, running: seq<Live>, o: Outcome): seq<Live> {
    if isCut then RemoveOn(running, o.landed, c.account.email)
    else AddOn(running, o.landed, ClientEntry(ib.protocol, c.account))
  }

  lemma OtherOwner(db: Db, a: Inbound, b: Inbound)
    requires WellFormed(db) && a in db.inbounds && b in db.inbounds && a != b
    ensures a.id != b.id
  {
    var i :| 0 <= i < |db.inbounds| && db.inbounds[i] == a;
    var j :| 0 <= j < |db.inbounds| && db.inbounds[j] == b;
  }

  lemma FindsOwner(db: Db, ib: Inbound)
    requires WellFormed(db) && ib in db.inbounds
    ensures FindInbound(db.inbounds, ib.id) == Some(ib)
  {
    var found := FindInbound(db.inbounds, ib.id);
    if found.value != ib {
      OtherOwner(db, found.value, ib);
    }
  }

  lemma LoadedLengths(db: Db, core: CoreKind, s: set<nat>)
    ensures |Loaded(db, core, s)| == |SlotsOf(db, core)|
  {
    FlattenFillsSlots(QueryInbounds(db.inbounds, core), Accounts(db.clients), s);
  }

  lemma LooksDecide(a: map<string, Entry>, b: map<string, Entry>)
    requires forall e :: Look(a, e) == Look(b, e)
    ensures a == b
  {
    forall e
      ensures e in a <==> e in b
      ensures e in a ==> a[e] == b[e]
    {
      assert Look(a, e) == Look(b, e);
    }
  }

  // A live call for client j at listener i, towards a config serving `target`: it
  // writes the client's target entry where it lands, and where it was confirmed it
  // certainly landed.
  lemma LiveEffectAt(db: Db, target: set<nat>, j: nat, binary: bool, o: Outcome, running: seq<Live>, i: nat)
    requires WellFormed(db) && j < |db.clients| && i < |SlotsOf(db, Xray)|
    requires
      var ib := FindInbound(db.inbounds, db.clients[j].account.inboundId);
      ib.Some? && SupportsLive(ib.value, binary) && Possible(o, TagsOf(ib.value))
    requires |running| == |SlotsOf(db, Xray)| && running[i].shape.tag == SlotsOf(db, Xray)[i].tag
    ensures |Loaded(db, Xray, target)| == |SlotsOf(db, Xray)|
    ensures
      var c := db.clients[j];
      var ib := FindInbound(db.inbounds, c.account.inboundId).value;
      var after := LiveEffect(c, ib, c.Id() !in target, running, o)[i];
      var will := Loaded(db, Xray, target)[i];
      && after.shape == running[i].shape
      && (forall e :: e != c.account.email ==> Look(after.users, e) == Look(running[i].users, e))
      && Look(after.users, c.account.email)
           in {Look(running[i].users, c.account.email), Look(will.users, c.account.email)}
      && (o.ok && SlotsOf(db, Xray)[i].owner == ib ==>
            Look(after.users, c.account.email) == Look(will.users, c.account.email))
      && (SlotsOf(db, Xray)[i].owner != ib ==> after == running[i])
  {
    hide WellFormed, SlotsOf, Loaded;
    var ib := FindInbound(db.inbounds, db.clients[j].account.inboundId).value;
    OwnerByTag(db, Xray, i, ib);
    LookTable(db, Xray, target, i, j);
  }

  // Two served sets that differ at most in client j.
  predicate DifferAt(db: Db, j: nat, s: set<nat>, t: set<nat>)
    requires j < |db.clients|
  {
    forall k :: 0 <= k < |db.clients| && k != j ==> (db.clients[k].Id() in s <==> db.clients[k].Id() in t)
  }

  lemma LooksSameElsewhere(db: Db, j: nat, s: set<nat>, t: set<nat>, i: nat, e: string)
    requires WellFormed(db) && j < |db.clients| && DifferAt(db, j, s, t) && i < |SlotsOf(db, Xray)|
    requires e != db.clients[j].account.email || SlotsOf(db, Xray)[i].owner.id != db.clients[j].account.inboundId
          || (db.clients[j].Id() in s <==> db.clients[j].Id() in t)
    ensures |Loaded(db, Xray, s)| == |Loaded(db, Xray, t)| == |SlotsOf(db, Xray)|
    ensures Look(Loaded(db, Xray, s)[i].users, e) == Look(Loaded(db, Xray, t)[i].users, e)
  {
    if k :| 0 <= k < |db.clients| && db.clients[k].account.email == e {
      LookTable(db, Xray, s, i, k);
      LookTable(db, Xray, t, i, k);
    } else {
      LookNobody(db, Xray, s, i, e);
      LookNobody(db, Xray, t, i, e);
    }
  }

  lemma ShapeSameElsewhere(db: Db, j: nat, s: set<nat>, t: set<nat>, i: nat)
    requires WellFormed(db) && j < |db.clients| && DifferAt(db, j, s, t) && i < |SlotsOf(db, Xray)|
    requires HasUserTable(SlotsOf(db, Xray)[i].owner.protocol)
          || SlotsOf(db, Xray)[i].owner.id != db.clients[j].account.inboundId
    ensures |Loaded(db, Xray, s)| == |Loaded(db, Xray, t)| == |SlotsOf(db, Xray)|
    ensures Loaded(db, Xray, s)[i].shape == Loaded(db, Xray, t)[i].shape
  {
    LoadedAt(db, Xray, s, i);
    LoadedAt(db, Xray, t, i);
    var ib := SlotsOf(db, Xray)[i].owner;
    if !HasUserTable(ib.protocol) {
      var accounts := Accounts(db.clients);
      forall a | a in accounts && a.inboundId == ib.id
        ensures a.id in s <==> a.id in t
      {
        var k :| 0 <= k < |accounts| && accounts[k] == a;
        assert db.clients[k].Id() == a.id;
      }
      AccountsOfAgree(accounts, ib.id, s, t);
    }
  }

  // One live call between two configs that differ at most in client j: confirmed,
  // it turns the old running state into the new one; unconfirmed, it still does
  // when the two configs are the same.
  lemma LiveCallSwitches(db: Db, s: set<nat>, t: set<nat>, j: nat, binary: bool, o: Outcome)
    requires WellFormed(db) && j < |db.clients| && DifferAt(db, j, s, t)
    requires
      var ib := FindInbound(db.inbounds, db.clients[j].account.inboundId);
      ib.Some? && SupportsLive(ib.value, binary) && Possible(o, TagsOf(ib.value))
    requires o.ok || ConfigFor(db, Xray, s) == ConfigFor(db, Xray, t)
    ensures
      var c := db.clients[j];
      var ib := FindInbound(db.inbounds, c.account.inboundId).value;
      LiveEffect(c, ib, c.Id() !in t, Loaded(db, Xray, s), o) == Loaded(db, Xray, t)
  {
    var c := db.clients[j];
    var ib := FindInbound(db.inbounds, c.account.inboundId).value;
    var running := Loaded(db, Xray, s);
    var after := LiveEffect(c, ib, c.Id() !in t, running, o);
    LoadedLengths(db, Xray, s);
    LoadedLengths(db, Xray, t);
    forall i | 0 <= i < |after|
      ensures after[i] == Loaded(db, Xray, t)[i]
    {
      LiveCallSwitchesAt(db, s, t, j, binary, o, i);
    }
  }

  lemma LiveCallSwitchesAt(db: Db, s: set<nat>, t: set<nat>, j: nat, binary: bool, o: Outcome, i: nat)
    requires WellFormed(db) && j < |db.clients| && DifferAt(db, j, s, t) && i < |SlotsOf(db, Xray)|
    requires
      var ib := FindInbound(db.inbounds, db.clients[j].account.inboundId);
      ib.Some? && SupportsLive(ib.value, binary) && Possible(o, TagsOf(ib.value))
    requires o.ok || ConfigFor(db, Xray, s) == ConfigFor(db, Xray, t)
    ensures
      var c := db.clients[j];
      var ib := FindInbound(db.inbounds, c.account.inboundId).value;
      && |LiveEffect(c, ib, c.Id() !in t, Loaded(db, Xray, s), o)| == |Loaded(db, Xray, t)| == |SlotsOf(db, Xray)|
      && LiveEffect(c, ib, c.Id() !in t, Loaded(db, Xray, s), o)[i] == Loaded(db, Xray, t)[i]
  {
    var c := db.clients[j];
    var ib := FindInbound(db.inbounds, c.account.inboundId).value;
    var running := Loaded(db, Xray, s);
    LoadedLengths(db, Xray, s);
    LoadedLengths(db, Xray, t);
    LoadedAt(db, Xray, s, i);
    LiveEffectAt(db, t, j, binary, o, running, i);
    var after := LiveEffect(c, ib, c.Id() !in t, running, o)[i];
    var owner := SlotsOf(db, Xray)[i].owner;
    OwnerByTag(db, Xray, i, ib);
    if owner != ib {
      OtherOwner(db, owner, ib);
    }
    ShapeSameElsewhere(db, j, s, t, i);
    forall e
      ensures Look(after.users, e) == Look(Loaded(db, Xray, t)[i].users, e)
    {
      if e != c.account.email || owner != ib {
        LooksSameElsewhere(db, j, s, t, i, e);
      }
    }
    LooksDecide(after.users, Loaded(db, Xray, t)[i].users);
  }
}
