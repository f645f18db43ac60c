// api/clients.py: create, edit, delete and reset of one client, and how each edit
// reaches the cores: by live calls where possible, else by a full apply.
module ClientEdits {
  import opened Models
  import opened Render
  import opened Cores
  import opened Serving
  import opened Enforcer

  datatype BothCores = BothCores(xray: CoreState, singbox: CoreState)

  predicate InSync(env: Env, db: Db, s: BothCores) {
    Synced(db, env.now, s.xray, s.singbox)
  }

  // clients._apply, without the rollback
  function ApplyCore(env: Env, core: CoreKind, db: Db, s: BothCores): (BothCores, bool) {
    match core
    case Xray =>
      var (next, ok) := Applied(s.xray, db, Xray, env.binary, env.now, env.xrayValid);
      (s.(xray := next), ok)
    case Singbox =>
      var (next, ok) := Applied(s.singbox, db, Singbox, env.sbBinary, env.now, env.sbValid);
      (s.(singbox := next), ok)
  }

  // A confirmed live change is followed by persist_config.
  function Persisted(env: Env, db: Db, s: BothCores, running: seq<Live>): BothCores {
    s.(xray := CoreState(Generate(db, Xray, env.now), running))
  }

  function WithRunning(s: BothCores, running: seq<Live>): BothCores {
    s.(xray := s.xray.(running := running))
  }

  predicate Validated(env: Env) {
    !env.binary || env.xrayValid
  }

  // clients._apply_add; `o` is what the live add does if it is made
  function AppliedAdd(env: Env, db: Db, s: BothCores, ib: Inbound, c: Client, o: Outcome): (BothCores, bool) {
    if SupportsLive(ib, env.binary) && c.enabled && c.IsUsable(env.now) then
      var running := AddOn(s.xray.running, o.landed, ClientEntry(ib.protocol, c.account));
      if o.ok then (Persisted(env, db, s, running), true)
      else ApplyCore(env, ib.core, db, WithRunning(s, running))
    else ApplyCore(env, ib.core, db, s)
  }

  // clients._apply_remove
  function AppliedRemove(env: Env, db: Db, s: BothCores, ib: Inbound, email: string, o: Outcome): (BothCores, bool) {
    if SupportsLive(ib, env.binary) then
      var running := RemoveOn(s.xray.running, o.landed, email);
      if o.ok then (Persisted(env, db, s, running), true)
      else ApplyCore(env, ib.core, db, WithRunning(s, running))
    else ApplyCore(env, ib.core, db, s)
  }

  // clients._apply_sync; `gone` and `back` are what the two live calls do
  function AppliedSync(env: Env, db: Db, s: BothCores, ib: Inbound, c: Client, oldEmail: string,
                       gone: Outcome, back: Outcome): (BothCores, bool)
  {
    if SupportsLive(ib, env.binary) && Validated(env) then
      var removed := RemoveOn(s.xray.running, gone.landed, oldEmail);
      if !gone.ok then ApplyCore(env, ib.core, db, WithRunning(s, removed))
      else if !(c.enabled && c.IsUsable(env.now)) then (Persisted(env, db, s, removed), true)
      else
        var added := AddOn(removed, back.landed, ClientEntry(ib.protocol, c.account));
        if back.ok then (Persisted(env, db, s, added), true)
        else ApplyCore(env, ib.core, db, WithRunning(s, added))
    else ApplyCore(env, ib.core, db, s)
  }

  predicate EmailTaken(db: Db, email: string, exceptId: Option<nat>) {
    exists c :: c in db.clients && c.account.email == email && Some(c.Id()) != exceptId
  }

  // The single-user Shadowsocks rule: one client per inbound. The handler takes a row
  // without a method for a legacy one, while the renderer takes it for a 2022 one.
  predicate SingleUserFull(db: Db, ib: Inbound) {
    && ib.protocol == "shadowsocks" && !("method" in ib.settings && "2022" <= ib.settings["method"])
    && exists c :: c in db.clients && c.account.inboundId == ib.id
  }

  // create_client: the database, the cores, and whether the request succeeded. A
  // refused or rejected request leaves the database as it was.
  function Created(env: Env, db: Db, s: BothCores, c: Client, o: Outcome): (Db, BothCores, bool) {
    match FindInbound(db.inbounds, c.account.inboundId)
    case None => (db, s, false)
    case Some(ib) =>
      if EmailTaken(db, c.account.email, None) || SingleUserFull(db, ib) then (db, s, false)
      else
        var next := db.(clients := db.clients + [c]);
        var (cores, ok) := AppliedAdd(env, next, s, ib, c, o);
        (if ok then next else db, cores, ok)
  }

  function WithoutClient(db: Db, j: nat): Db
    requires j < |db.clients|
  {
    db.(clients := db.clients[..j] + db.clients[j + 1..])
  }

  // delete_client
  function Deleted(env: Env, db: Db, s: BothCores, j: nat, o: Outcome): (Db, BothCores, bool)
    requires j < |db.clients|
  {
    var c := db.clients[j];
    match FindInbound(db.inbounds, c.account.inboundId)
    case None => (db, s, false)
    case Some(ib) =>
      var (cores, ok) := AppliedRemove(env, WithoutClient(db, j), s, ib, c.account.email, o);
      (if ok then WithoutClient(db, j) else db, cores, ok)
  }

  // The fields a PATCH may carry; absent ones stay as they are.
  datatype Patch = Patch(
    email: Option<string>, password: Option<string>, flow: Option<string>, limitIp: Option<nat>,
    totalBytes: Option<nat>, expiryTime: Option<nat>, enabled: Option<bool>)

  // Lifting the IP cap also clears a leftover over-limit flag.
  function Patched(c: Client, p: Patch): Client {
    var limit := Or(p.limitIp, c.limitIp);
    c.(account := c.account.(email := Or(p.email, c.account.email), password := Or(p.password, c.account.password),
                             flow := Or(p.flow, c.account.flow)),
       limitIp := limit, totalBytes := Or(p.totalBytes, c.totalBytes), expiryTime := Or(p.expiryTime, c.expiryTime),
       enabled := Or(p.enabled, c.enabled), ipLimitExceeded := c.ipLimitExceeded && limit != 0)
  }

  // update_client
  function Updated(env: Env, db: Db, s: BothCores, j: nat, p: Patch, gone: Outcome, back: Outcome)
    : (Db, BothCores, bool)
    requires j < |db.clients|
  {
    var prior := db.clients[j];
    var c := Patched(prior, p);
    match FindInbound(db.inbounds, prior.account.inboundId)
    case None => (db, s, false)
    case Some(ib) =>
      if EmailTaken(db, c.account.email, Some(prior.Id())) then (db, s, false)
      else
        var next := db.(clients := db.clients[j := c]);
        var (cores, ok) := AppliedSync(env, next, s, ib, c, prior.account.email, gone, back);
        (if ok then next else db, cores, ok)
  }

  // reset_traffic of a client: always a full apply
  function Reset(env: Env, db: Db, s: BothCores, j: nat): (Db, BothCores, bool)
    requires j < |db.clients|
  {
    var c := db.clients[j];
    match FindInbound(db.inbounds, c.account.inboundId)
    case None => (db, s, false)
    case Some(ib) =>
      var next := db.(clients := db.clients[j := c.(up := 0, down := 0)]);
      var (cores, ok) := ApplyCore(env, ib.core, next, s);
      (if ok then next else db, cores, ok)
  }

  // ------------------------------------------------------------------------
  // Staying in sync
  // ------------------------------------------------------------------------

  predicate PossibleFor(db: Db, inboundId: nat, o: Outcome) {
    var ib := FindInbound(db.inbounds, inboundId);
    ib.Some? ==> Possible(o, TagsOf(ib.value))
  }

  // The other core's config does not notice client j.
  lemma OtherCoreSame(db: Db, ib: Inbound, core: CoreKind, j: nat, s: set<nat>, t: set<nat>)
    requires WellFormed(db) && j < |db.clients| && DifferAt(db, j, s, t)
    requires FindInbound(db.inbounds, db.clients[j].account.inboundId) == Some(ib)
    requires core != ib.core || !ib.enabled
    ensures ConfigFor(db, core, s) == ConfigFor(db, core, t)
  {
    forall c, r | c in db.clients && r in db.inbounds && r.core == core && r.enabled && c.account.inboundId == r.id
      ensures c.Id() in s <==> c.Id() in t
    {
      var k :| 0 <= k < |db.clients| && db.clients[k] == c;
      FindsOwner(db, r);
    }
    ConfigAgree(db, core, s, t);
  }

  predicate Runs(db: Db, s: BothCores, served: set<nat>) {
    && s.xray == CoreState(ConfigFor(db, Xray, served), Loaded(db, Xray, served))
    && s.singbox == CoreState(ConfigFor(db, Singbox, served), Loaded(db, Singbox, served))
  }

  // A full apply for client j's inbound moves both cores from one served set to
  // the other, when they ran the first or are bound to restart.
  lemma ApplyCoreSyncs(env: Env, db: Db, s: BothCores, ib: Inbound, j: nat, was: set<nat>)
    requires WellFormed(db) && Accepted(env) && j < |db.clients|
    requires FindInbound(db.inbounds, db.clients[j].account.inboundId) == Some(ib)
    requires DifferAt(db, j, was, UsableIds(db.clients, env.now))
    requires s.singbox == CoreState(ConfigFor(db, Singbox, was), Loaded(db, Singbox, was))
    requires s.xray.disk == ConfigFor(db, Xray, was)
    requires s.xray.running == Loaded(db, Xray, was)
          || (ib.core == Xray && ConfigFor(db, Xray, was) != Generate(db, Xray, env.now))
    ensures ApplyCore(env, ib.core, db, s).1
    ensures InSync(env, db, ApplyCore(env, ib.core, db, s).0)
  {
    var will := UsableIds(db.clients, env.now);
    if ib.core == Xray {
      OtherCoreSame(db, ib, Singbox, j, was, will);
      AppliedSyncs(s.xray, db, Xray, env.binary, env.now);
    } else {
      OtherCoreSame(db, ib, Xray, j, was, will);
      AppliedSyncs(s.singbox, db, Singbox, env.sbBinary, env.now);
    }
  }

  // A live call for client j between two served sets, then persist if confirmed,
  // full apply if not: in sync in either case.
  lemma LiveThenApply(env: Env, db: Db, s: BothCores, ib: Inbound, j: nat, was: set<nat>, o: Outcome)
    requires WellFormed(db) && Accepted(env) && j < |db.clients| && Runs(db, s, was)
    requires FindInbound(db.inbounds, db.clients[j].account.inboundId) == Some(ib)
    requires SupportsLive(ib, env.binary) && Possible(o, TagsOf(ib))
    requires DifferAt(db, j, was, UsableIds(db.clients, env.now))
    ensures
      var c := db.clients[j];
      var running := LiveEffect(c, ib, c.Id() !in UsableIds(db.clients, env.now), s.xray.running, o);
      if o.ok then InSync(env, db, Persisted(env, db, s, running))
      else
        var (cores, ok) := ApplyCore(env, ib.core, db, WithRunning(s, running));
        ok && InSync(env, db, cores)
  {
    var c := db.clients[j];
    var will := UsableIds(db.clients, env.now);
    var running := LiveEffect(c, ib, c.Id() !in will, s.xray.running, o);
    OtherCoreSame(db, ib, Singbox, j, was, will);
    if o.ok || ConfigFor(db, Xray, was) == ConfigFor(db, Xray, will) {
      LiveCallSwitches(db, was, will, j, env.binary, o);
    }
    if !o.ok {
      if ConfigFor(db, Xray, was) == ConfigFor(db, Xray, will) {
        AppliedSyncs(WithRunning(s, running).xray, db, Xray, env.binary, env.now);
      } else {
        ApplyCoreSyncs(env, db, WithRunning(s, running), ib, j, was);
      }
    }
  }

  lemma UsableAppend(clients: seq<Client>, c: Client, now: real)
    requires forall d :: d in clients ==> d.Id() != c.Id()
    ensures UsableIds(clients + [c], now) - {c.Id()} == UsableIds(clients, now)
  {
    var all := clients + [c];
    assert forall d :: d in all <==> d in clients || d == c;
  }

  // Creating a client keeps both cores in sync, whatever the live call does.
  lemma CreateKeepsSync(env: Env, db: Db, s: BothCores, c: Client, o: Outcome)
    requires InSync(env, db, s) && Accepted(env) && PossibleFor(db, c.account.inboundId, o)
    requires WellFormed(db) && forall d :: d in db.clients ==> d.Id() != c.Id()
    ensures
      var (next, cores, ok) := Created(env, db, s, c, o);
      WellFormed(next) && InSync(env, next, cores)
    ensures Created(env, db, s, c, o).2 <==>
      && FindInbound(db.inbounds, c.account.inboundId).Some?
      && !EmailTaken(db, c.account.email, None)
      && !SingleUserFull(db, FindInbound(db.inbounds, c.account.inboundId).value)
  {
    hide ConfigFor, Load, AddOn;
    var found := FindInbound(db.inbounds, c.account.inboundId);
    if found.Some? && !EmailTaken(db, c.account.email, None) && !SingleUserFull(db, found.value) {
      var ib, j := found.value, |db.clients|;
      var next := db.(clients := db.clients + [c]);
      var was, will := UsableIds(db.clients, env.now), UsableIds(next.clients, env.now);
      assert WellFormed(next);
      UsableAppend(db.clients, c, env.now);
      assert DifferAt(next, j, was, will);
      assert db.clients + [] == db.clients;
      assert next.clients == db.clients + [c] + [];
      ConfigSkipsUnserved(next, db.clients, [c], [], Xray, was);
      ConfigSkipsUnserved(next, db.clients, [c], [], Singbox, was);
      assert db == next.(clients := db.clients + []);
      assert Runs(next, s, was);
      if SupportsLive(ib, env.binary) && c.enabled && c.IsUsable(env.now) {
        UsableById(next, env.now, j);
        LiveThenApply(env, next, s, ib, j, was, o);
      } else {
        ApplyCoreSyncs(env, next, s, ib, j, was);
      }
    }
  }

  lemma UsableWithout(db: Db, j: nat, now: real)
    requires WellFormed(db) && j < |db.clients|
    ensures UsableIds(WithoutClient(db, j).clients, now) == UsableIds(db.clients, now) - {db.clients[j].Id()}
  {
    var rest := db.clients[..j] + db.clients[j + 1..];
    forall c
      ensures c in rest <==> c in db.clients && c.Id() != db.clients[j].Id()
    {
      if c in db.clients {
        var k :| 0 <= k < |db.clients| && db.clients[k] == c;
        assert k < j ==> c == rest[k];
        assert k > j ==> c == rest[k - 1];
      }
    }
  }

  // The database without client j renders what the database with it does when
  // client j is not served.
  lemma WithoutRenders(db: Db, j: nat, core: CoreKind, now: real)
    requires WellFormed(db) && j < |db.clients|
    ensures ConfigFor(db, core, UsableIds(db.clients, now) - {db.clients[j].Id()})
         == Generate(WithoutClient(db, j), core, now)
  {
    UsableWithout(db, j, now);
    assert db.clients == db.clients[..j] + [db.clients[j]] + db.clients[j + 1..];
    ConfigSkipsUnserved(db, db.clients[..j], [db.clients[j]], db.clients[j + 1..], core,
                        UsableIds(db.clients, now) - {db.clients[j].Id()});
  }

  lemma WellFormedWithout(db: Db, j: nat)
    requires WellFormed(db) && j < |db.clients|
    ensures WellFormed(WithoutClient(db, j))
  {
    hide TagOk, FindInbound;
    var rest := WithoutClient(db, j).clients;
    forall a, b | 0 <= a < b < |rest|
      ensures rest[a].Id() != rest[b].Id() && rest[a].account.email != rest[b].account.email
    {
      var x, y := if a < j then a else a + 1, if b < j then b else b + 1;
      assert rest[a] == db.clients[x] && rest[b] == db.clients[y];
    }
    assert forall c :: c in rest ==> c in db.clients;
  }

  // The served set without one client, as seen from the database that has it.
  function Minus(db: Db, j: nat, now: real): set<nat>
    requires j < |db.clients|
  {
    UsableIds(db.clients, now) - {db.clients[j].Id()}
  }

  lemma MinusDiffers(db: Db, j: nat, now: real)
    requires WellFormed(db) && j < |db.clients|
    ensures DifferAt(db, j, UsableIds(db.clients, now), Minus(db, j, now))
    ensures DifferAt(db, j, Minus(db, j, now), UsableIds(db.clients, now))
  {
  }

  // A removal by live call takes the running state from the config with client j
  // to the one without it, if confirmed or if the two configs coincide.
  lemma RemovalSwitches(env: Env, db: Db, s: BothCores, ib: Inbound, j: nat, o: Outcome)
    requires WellFormed(db) && j < |db.clients| && InSync(env, db, s)
    requires FindInbound(db.inbounds, db.clients[j].account.inboundId) == Some(ib)
    requires SupportsLive(ib, env.binary) && Possible(o, TagsOf(ib))
    requires o.ok || ConfigFor(db, Xray, Minus(db, j, env.now)) == Generate(db, Xray, env.now)
    ensures RemoveOn(s.xray.running, o.landed, db.clients[j].account.email) == Loaded(db, Xray, Minus(db, j, env.now))
  {
    MinusDiffers(db, j, env.now);
    LiveCallSwitches(db, UsableIds(db.clients, env.now), Minus(db, j, env.now), j, env.binary, o);
  }

  lemma SingboxIgnores(env: Env, db: Db, s: BothCores, ib: Inbound, j: nat)
    requires WellFormed(db) && j < |db.clients| && InSync(env, db, s) && ib.core == Xray
    requires FindInbound(db.inbounds, db.clients[j].account.inboundId) == Some(ib)
    ensures s.singbox
            == CoreState(ConfigFor(db, Singbox, Minus(db, j, env.now)), Loaded(db, Singbox, Minus(db, j, env.now)))
  {
    MinusDiffers(db, j, env.now);
    OtherCoreSame(db, ib, Singbox, j, UsableIds(db.clients, env.now), Minus(db, j, env.now));
  }

  // Deleting a client keeps both cores in sync, whatever the live calls do.
  lemma DeleteKeepsSync(env: Env, db: Db, s: BothCores, j: nat, o: Outcome)
    requires WellFormed(db) && InSync(env, db, s) && Accepted(env) && j < |db.clients|
    requires PossibleFor(db, db.clients[j].account.inboundId, o)
    ensures
      var (next, cores, ok) := Deleted(env, db, s, j, o);
      ok && next == WithoutClient(db, j) && WellFormed(next) && InSync(env, next, cores)
  {
    var ib := FindInbound(db.inbounds, db.clients[j].account.inboundId).value by {
      assert db.clients[j] in db.clients;
    }
    var next := WithoutClient(db, j);
    var email := db.clients[j].account.email;
    WellFormedWithout(db, j);
    WithoutRenders(db, j, Xray, env.now);
    WithoutRenders(db, j, Singbox, env.now);
    var same := Generate(next, Xray, env.now) == Generate(db, Xray, env.now);
    if SupportsLive(ib, env.binary) {
      SingboxIgnores(env, db, s, ib, j);
      if o.ok || same {
        RemovalSwitches(env, db, s, ib, j, o);
      }
      if !o.ok {
        var running := RemoveOn(s.xray.running, o.landed, email);
        AppliedSyncs(CoreState(s.xray.disk, running), next, Xray, env.binary, env.now);
      }
    } else if ib.core == Xray {
      SingboxIgnores(env, db, s, ib, j);
      AppliedSyncs(s.xray, next, Xray, env.binary, env.now);
    } else {
      MinusDiffers(db, j, env.now);
      OtherCoreSame(db, ib, Xray, j, UsableIds(db.clients, env.now), Minus(db, j, env.now));
      AppliedSyncs(s.singbox, next, Singbox, env.sbBinary, env.now);
    }
  }

  // Editing row j in place leaves everything else rendered as it was.
  lemma EditRenders(db: Db, j: nat, c: Client, core: CoreKind, now: real)
    requires WellFormed(db) && j < |db.clients| && c.Id() == db.clients[j].Id()
    requires WellFormed(db.(clients := db.clients[j := c]))
    ensures
      var next := db.(clients := db.clients[j := c]);
      && Minus(next, j, now) == Minus(db, j, now)
      && ConfigFor(next, core, Minus(next, j, now)) == ConfigFor(db, core, Minus(db, j, now))
  {
    var next := db.(clients := db.clients[j := c]);
    assert WithoutClient(next, j) == WithoutClient(db, j);
    UsableWithout(db, j, now);
    UsableWithout(next, j, now);
    WithoutRenders(db, j, core, now);
    WithoutRenders(next, j, core, now);
  }

  lemma WellFormedEdit(db: Db, j: nat, c: Client)
    requires WellFormed(db) && j < |db.clients| && c.Id() == db.clients[j].Id()
    requires c.account.inboundId == db.clients[j].account.inboundId
    requires !EmailTaken(db, c.account.email, Some(c.Id()))
    ensures WellFormed(db.(clients := db.clients[j := c]))
  {
    var next := db.clients[j := c];
    forall a, b | 0 <= a < b < |next|
      ensures next[a].Id() != next[b].Id() && next[a].account.email != next[b].account.email
    {
      assert db.clients[a] in db.clients && db.clients[b] in db.clients;
    }
    forall d | d in next
      ensures FindInbound(db.inbounds, d.account.inboundId).Some?
    {
      if d != c {
        assert d in db.clients;
      } else {
        assert db.clients[j] in db.clients;
      }
    }
  }

  predicate Editable(env: Env, db: Db, s: BothCores, j: nat, p: Patch) {
    && WellFormed(db) && InSync(env, db, s) && Accepted(env) && j < |db.clients|
    && !EmailTaken(db, Patched(db.clients[j], p).account.email, Some(db.clients[j].Id()))
  }

  function Edited(db: Db, j: nat, p: Patch): Db
    requires j < |db.clients|
  {
    db.(clients := db.clients[j := Patched(db.clients[j], p)])
  }

  // The edit's two live calls in a row, from the old row to the new one.
  lemma ResyncSwitches(env: Env, db: Db, s: BothCores, ib: Inbound, j: nat, p: Patch, gone: Outcome, back: Outcome)
    requires Editable(env, db, s, j, p)
    requires FindInbound(db.inbounds, db.clients[j].account.inboundId) == Some(ib)
    requires SupportsLive(ib, env.binary) && Possible(gone, TagsOf(ib)) && Possible(back, TagsOf(ib))
    requires Patched(db.clients[j], p).IsUsable(env.now) && gone.ok
    requires back.ok || Minus(Edited(db, j, p), j, env.now) == UsableIds(Edited(db, j, p).clients, env.now)
             || !ib.enabled
    ensures
      var removed := RemoveOn(s.xray.running, gone.landed, db.clients[j].account.email);
      AddOn(removed, back.landed, ClientEntry(ib.protocol, Patched(db.clients[j], p).account))
        == Load(Generate(Edited(db, j, p), Xray, env.now))
  {
    var next := Edited(db, j, p);
    WellFormedEdit(db, j, Patched(db.clients[j], p));
    EditRenders(db, j, Patched(db.clients[j], p), Xray, env.now);
    RemovalSwitches(env, db, s, ib, j, gone);
    MinusDiffers(next, j, env.now);
    UsableById(next, env.now, j);
    if !ib.enabled {
      OtherCoreSame(next, ib, Xray, j, Minus(next, j, env.now), UsableIds(next.clients, env.now));
    }
    LiveCallSwitches(next, Minus(next, j, env.now), UsableIds(next.clients, env.now), j, env.binary, back);
  }

  // The one situation an edit cannot be trusted in: a live-capable, enabled inbound,
  // a client that stays usable, and an edit that leaves the rendered config alone
  // (a new comment or IP limit, say). Then apply() sees nothing to do.
  predicate Fragile(env: Env, db: Db, j: nat, p: Patch)
    requires j < |db.clients|
  {
    var ib := FindInbound(db.inbounds, db.clients[j].account.inboundId);
    && ib.Some? && ib.value.enabled && SupportsLive(ib.value, env.binary)
    && Patched(db.clients[j], p).IsUsable(env.now)
    && Generate(Edited(db, j, p), Xray, env.now) == Generate(db, Xray, env.now)
  }

  // An edit keeps both cores in sync when its live calls are confirmed, and for
  // every outcome when the edit is not fragile.
  lemma UpdateKeepsSync(env: Env, db: Db, s: BothCores, j: nat, p: Patch, gone: Outcome, back: Outcome)
    requires Editable(env, db, s, j, p)
    requires PossibleFor(db, db.clients[j].account.inboundId, gone)
             && PossibleFor(db, db.clients[j].account.inboundId, back)
    requires !Fragile(env, db, j, p) || (gone.ok && back.ok)
    ensures
      var (next, cores, ok) := Updated(env, db, s, j, p, gone, back);
      ok && next == Edited(db, j, p) && WellFormed(next) && InSync(env, next, cores)
  {
    hide ConfigFor, Load, UsableIds;
    assert db.clients[j] in db.clients;
    var ib := FindInbound(db.inbounds, db.clients[j].account.inboundId).value;
    var c, next := Patched(db.clients[j], p), Edited(db, j, p);
    WellFormedEdit(db, j, c);
    EditRenders(db, j, c, Xray, env.now);
    EditRenders(db, j, c, Singbox, env.now);
    MinusDiffers(db, j, env.now);
    MinusDiffers(next, j, env.now);
    if ib.core == Singbox {
      OtherCoreSame(db, ib, Xray, j, UsableIds(db.clients, env.now), Minus(db, j, env.now));
      OtherCoreSame(next, ib, Xray, j, Minus(next, j, env.now), UsableIds(next.clients, env.now));
      AppliedSyncs(s.singbox, next, Singbox, env.sbBinary, env.now);
    } else {
      OtherCoreSame(db, ib, Singbox, j, UsableIds(db.clients, env.now), Minus(db, j, env.now));
      OtherCoreSame(next, ib, Singbox, j, Minus(next, j, env.now), UsableIds(next.clients, env.now));
      if SupportsLive(ib, env.binary) {
        UpdateLive(env, db, s, ib, j, p, gone, back);
      } else {
        AppliedSyncs(s.xray, next, Xray, env.binary, env.now);
      }
    }
  }

  lemma UpdateLive(env: Env, db: Db, s: BothCores, ib: Inbound, j: nat, p: Patch, gone: Outcome, back: Outcome)
    requires Editable(env, db, s, j, p)
    requires FindInbound(db.inbounds, db.clients[j].account.inboundId) == Some(ib)
    requires SupportsLive(ib, env.binary) && Possible(gone, TagsOf(ib)) && Possible(back, TagsOf(ib))
    requires !Fragile(env, db, j, p) || (gone.ok && back.ok)
    ensures
      var (cores, ok) := AppliedSync(env, Edited(db, j, p), s, ib, Patched(db.clients[j], p),
        db.clients[j].account.email, gone, back);
      && ok && cores.singbox == s.singbox
      && cores.xray.disk == Generate(Edited(db, j, p), Xray, env.now)
      && cores.xray.running == Load(Generate(Edited(db, j, p), Xray, env.now))
  {
    hide ConfigFor, Load, AddOn, RemoveOn;
    var c, next := Patched(db.clients[j], p), Edited(db, j, p);
    var will := Generate(next, Xray, env.now);
    var removed := RemoveOn(s.xray.running, gone.landed, db.clients[j].account.email);
    var added := AddOn(removed, back.landed, ClientEntry(ib.protocol, c.account));
    WellFormedEdit(db, j, c);
    EditRenders(db, j, c, Xray, env.now);
    UsableById(next, env.now, j);
    if !c.IsUsable(env.now) {
      assert Minus(next, j, env.now) == UsableIds(next.clients, env.now);
      if gone.ok || will == s.xray.disk {
        RemovalSwitches(env, db, s, ib, j, gone);
      }
    } else if gone.ok && (back.ok || !ib.enabled) {
      ResyncSwitches(env, db, s, ib, j, p, gone, back);
    } else if !ib.enabled {
      MinusDiffers(db, j, env.now);
      MinusDiffers(next, j, env.now);
      OtherCoreSame(db, ib, Xray, j, UsableIds(db.clients, env.now), Minus(db, j, env.now));
      OtherCoreSame(next, ib, Xray, j, Minus(next, j, env.now), UsableIds(next.clients, env.now));
      RemovalSwitches(env, db, s, ib, j, gone);
    }
    var running := if gone.ok && c.IsUsable(env.now) then added else removed;
    AppliedSyncs(CoreState(s.xray.disk, running), next, Xray, env.binary, env.now);
  }

  // The primary listener of an enabled row is among those rendered.
  lemma PrimaryListener(db: Db, ib: Inbound) returns (i: nat)
    requires ib in db.inbounds && ib.core == Xray && ib.enabled
    ensures i < |SlotsOf(db, Xray)| && SlotsOf(db, Xray)[i] == Slots(ib)[0]
  {
    QueryMembers(db.inbounds, Xray);
    AllSlotsOwners(QueryInbounds(db.inbounds, Xray));
    assert Slots(ib)[0] in SlotsOf(db, Xray);
    i :| 0 <= i < |SlotsOf(db, Xray)| && SlotsOf(db, Xray)[i] == Slots(ib)[0];
  }

  // A fragile edit cannot have renamed the client, and the client belongs there.
  lemma FragileKeepsEmail(env: Env, db: Db, s: BothCores, j: nat, p: Patch, ib: Inbound, i: nat)
    requires Editable(env, db, s, j, p) && Fragile(env, db, j, p)
    requires FindInbound(db.inbounds, db.clients[j].account.inboundId) == Some(ib)
    requires i < |SlotsOf(db, Xray)| && SlotsOf(db, Xray)[i] == Slots(ib)[0]
    ensures Patched(db.clients[j], p).account.email == db.clients[j].account.email
    ensures |Load(Generate(Edited(db, j, p), Xray, env.now))| == |SlotsOf(db, Xray)|
    ensures db.clients[j].account.email in Load(Generate(Edited(db, j, p), Xray, env.now))[i].users
  {
    var c, next := Patched(db.clients[j], p), Edited(db, j, p);
    WellFormedEdit(db, j, c);
    UsableById(next, env.now, j);
    LookTable(next, Xray, UsableIds(next.clients, env.now), i, j);
    if db.clients[j].account.email != c.account.email {
      forall d | d in db.clients
        ensures d.account.email != c.account.email
      {
        var k :| 0 <= k < |db.clients| && db.clients[k] == d;
        assert k != j ==> d.Id() != db.clients[j].Id();
      }
      LookNobody(db, Xray, UsableIds(db.clients, env.now), i, c.account.email);
    }
  }

  function RemovedEverywhere(ib: Inbound): Outcome {
    Outcome(set t | t in TagsOf(ib), true)
  }

  // A fragile edit does break: the removal is confirmed, the re-add is not, and
  // apply() skips the restart, so a usable client stays off its listeners.
  lemma FragileEditDisconnects(env: Env, db: Db, s: BothCores, j: nat, p: Patch)
    requires Editable(env, db, s, j, p) && Fragile(env, db, j, p)
    ensures
      var ib := FindInbound(db.inbounds, db.clients[j].account.inboundId).value;
      var email := Patched(db.clients[j], p).account.email;
      var (next, cores, ok) := Updated(env, db, s, j, p, RemovedEverywhere(ib), NOTHING);
      && Possible(RemovedEverywhere(ib), TagsOf(ib)) && Possible(NOTHING, TagsOf(ib))
      && ok && next == Edited(db, j, p)
      && |cores.xray.running| == |Load(Generate(next, Xray, env.now))|
      && exists i :: 0 <= i < |cores.xray.running| && cores.xray.running[i].shape.tag == ib.tag
           && email !in cores.xray.running[i].users
           && email in Load(Generate(next, Xray, env.now))[i].users
  {
    hide WellFormed;
    var ib := FindInbound(db.inbounds, db.clients[j].account.inboundId).value;
    var i := PrimaryListener(db, ib);
    FragileKeepsEmail(env, db, s, j, p, ib, i);
    LoadedAt(db, Xray, UsableIds(db.clients, env.now), i);
    assert TagsOf(ib)[0] == ib.tag && ib.tag in RemovedEverywhere(ib).landed;
    var removed := RemoveOn(s.xray.running, RemovedEverywhere(ib).landed, db.clients[j].account.email);
    var added := AddOn(removed, {}, ClientEntry(ib.protocol, Patched(db.clients[j], p).account));
    assert removed[i].users == s.xray.running[i].users - {db.clients[j].account.email};
    assert added[i] == removed[i] && added[i].shape.tag == ib.tag;
    assert Updated(env, db, s, j, p, RemovedEverywhere(ib), NOTHING).1.xray.running == added;
  }

  // An edit is safe against every outcome of its live calls exactly when it is
  // not fragile.
  lemma UpdateSafeIffNotFragile(env: Env, db: Db, s: BothCores, j: nat, p: Patch)
    requires Editable(env, db, s, j, p)
    ensures
      (forall gone, back | PossibleFor(db, db.clients[j].account.inboundId, gone)
                        && PossibleFor(db, db.clients[j].account.inboundId, back) ::
         InSync(env, Edited(db, j, p), Updated(env, db, s, j, p, gone, back).1))
      <==> !Fragile(env, db, j, p)
  {
    if Fragile(env, db, j, p) {
      FragileEditDisconnects(env, db, s, j, p);
      var ib := FindInbound(db.inbounds, db.clients[j].account.inboundId).value;
      assert !InSync(env, Edited(db, j, p), Updated(env, db, s, j, p, RemovedEverywhere(ib), NOTHING).1);
    } else {
      forall gone, back | PossibleFor(db, db.clients[j].account.inboundId, gone)
                       && PossibleFor(db, db.clients[j].account.inboundId, back)
        ensures InSync(env, Edited(db, j, p), Updated(env, db, s, j, p, gone, back).1)
      {
        UpdateKeepsSync(env, db, s, j, p, gone, back);
      }
    }
  }

  // Resetting a client's usage keeps both cores in sync.
  lemma ResetKeepsSync(env: Env, db: Db, s: BothCores, j: nat)
    requires WellFormed(db) && InSync(env, db, s) && Accepted(env) && j < |db.clients|
    ensures
      var (next, cores, ok) := Reset(env, db, s, j);
      && ok && next == db.(clients := db.clients[j := db.clients[j].(up := 0, down := 0)])
      && WellFormed(next) && InSync(env, next, cores)
  {
    hide ConfigFor, Load, UsableIds, Minus;
    assert db.clients[j] in db.clients;
    var ib := FindInbound(db.inbounds, db.clients[j].account.inboundId).value;
    var c := db.clients[j].(up := 0, down := 0);
    var next := db.(clients := db.clients[j := c]);
    WellFormedEdit(db, j, c) by {
      assert forall d :: d in db.clients && d.account.email == c.account.email ==> d.Id() == c.Id();
    }
    EditRenders(db, j, c, Xray, env.now);
    EditRenders(db, j, c, Singbox, env.now);
    MinusDiffers(db, j, env.now);
    MinusDiffers(next, j, env.now);
    if ib.core == Singbox {
      OtherCoreSame(db, ib, Xray, j, UsableIds(db.clients, env.now), Minus(db, j, env.now));
      OtherCoreSame(next, ib, Xray, j, Minus(next, j, env.now), UsableIds(next.clients, env.now));
      AppliedSyncs(s.singbox, next, Singbox, env.sbBinary, env.now);
    } else {
      OtherCoreSame(db, ib, Singbox, j, UsableIds(db.clients, env.now), Minus(db, j, env.now));
      OtherCoreSame(next, ib, Singbox, j, Minus(next, j, env.now), UsableIds(next.clients, env.now));
      AppliedSyncs(s.xray, next, Xray, env.binary, env.now);
    }
  }

  // ------------------------------------------------------------------------
  // What a request writes, column by column
  // ------------------------------------------------------------------------

  // A patch on a row: what it names is written, the rest stays, and a lifted IP cap
  // takes the over-limit flag with it.
  predicate Patches(was: Client, c: Client, p: Patch) {
    && c.account.id == was.account.id && c.account.inboundId == was.account.inboundId
    && c.account.uuid == was.account.uuid && c.up == was.up && c.down == was.down
    && c.account.email == (if p.email.Some? then p.email.value else was.account.email)
    && c.account.password == (if p.password.Some? then p.password.value else was.account.password)
    && c.account.flow == (if p.flow.Some? then p.flow.value else was.account.flow)
    && c.limitIp == (if p.limitIp.Some? then p.limitIp.value else was.limitIp)
    && c.totalBytes == (if p.totalBytes.Some? then p.totalBytes.value else was.totalBytes)
    && c.expiryTime == (if p.expiryTime.Some? then p.expiryTime.value else was.expiryTime)
    && c.enabled == (if p.enabled.Some? then p.enabled.value else was.enabled)
    && (c.ipLimitExceeded <==> was.ipLimitExceeded && c.limitIp != 0)
  }

  predicate OnlyRowDiffers(db: Db, next: Db, j: nat) {
    && next.inbounds == db.inbounds && |next.clients| == |db.clients|
    && forall k :: 0 <= k < |db.clients| && k != j ==> next.clients[k] == db.clients[k]
  }

  predicate SameFiles(s: BothCores, next: BothCores) {
    next.xray.disk == s.xray.disk && next.singbox.disk == s.singbox.disk
  }

  lemma FailedHelpers(env: Env, db: Db, s: BothCores, ib: Inbound, c: Client, email: string, gone: Outcome,
                      back: Outcome)
    ensures !AppliedAdd(env, db, s, ib, c, back).1 ==> SameFiles(s, AppliedAdd(env, db, s, ib, c, back).0)
    ensures !AppliedRemove(env, db, s, ib, email, gone).1 ==>
      SameFiles(s, AppliedRemove(env, db, s, ib, email, gone).0)
    ensures !AppliedSync(env, db, s, ib, c, email, gone, back).1 ==>
      SameFiles(s, AppliedSync(env, db, s, ib, c, email, gone, back).0)
    ensures !ApplyCore(env, ib.core, db, s).1 ==> SameFiles(s, ApplyCore(env, ib.core, db, s).0)
  {
    hide Generate, AddOn, RemoveOn, Load;
  }

  // A request that fails leaves the table and both files as they were; what its live
  // calls did to the process before it failed may stay there.
  lemma FailureKeepsFiles(env: Env, db: Db, s: BothCores, j: nat, c: Client, p: Patch, gone: Outcome, back: Outcome)
    requires j < |db.clients|
    ensures
      var r := Created(env, db, s, c, back);
      !r.2 ==> r.0 == db && SameFiles(s, r.1)
    ensures
      var r := Updated(env, db, s, j, p, gone, back);
      !r.2 ==> r.0 == db && SameFiles(s, r.1)
    ensures
      var r := Deleted(env, db, s, j, gone);
      !r.2 ==> r.0 == db && SameFiles(s, r.1)
    ensures
      var r := Reset(env, db, s, j);
      !r.2 ==> r.0 == db && SameFiles(s, r.1)
  {
    hide ApplyCore, AppliedAdd, AppliedRemove, AppliedSync, EmailTaken, SingleUserFull;
    var ib := FindInbound(db.inbounds, c.account.inboundId);
    if ib.Some? {
      FailedHelpers(env, db.(clients := db.clients + [c]), s, ib.value, c, "", gone, back);
    }
    var d := db.clients[j];
    var of := FindInbound(db.inbounds, d.account.inboundId);
    if of.Some? {
      FailedHelpers(env, Edited(db, j, p), s, of.value, Patched(d, p), d.account.email, gone, back);
      FailedHelpers(env, WithoutClient(db, j), s, of.value, d, d.account.email, gone, back);
      FailedHelpers(env, db.(clients := db.clients[j := d.(up := 0, down := 0)]), s, of.value, d, "", gone, back);
    }
  }

  function FileOf(s: BothCores, core: CoreKind): Config {
    match core
    case Xray => s.xray.disk
    case Singbox => s.singbox.disk
  }

  lemma DoneHelpers(env: Env, db: Db, s: BothCores, ib: Inbound, c: Client, email: string, gone: Outcome,
                    back: Outcome)
    ensures
      var (next, ok) := AppliedAdd(env, db, s, ib, c, back);
      ok ==> FileOf(next, ib.core) == Generate(db, ib.core, env.now)
    ensures
      var (next, ok) := AppliedRemove(env, db, s, ib, email, gone);
      ok ==> FileOf(next, ib.core) == Generate(db, ib.core, env.now)
    ensures
      var (next, ok) := AppliedSync(env, db, s, ib, c, email, gone, back);
      ok ==> FileOf(next, ib.core) == Generate(db, ib.core, env.now)
    ensures
      var (next, ok) := ApplyCore(env, ib.core, db, s);
      ok ==> FileOf(next, ib.core) == Generate(db, ib.core, env.now)
  {
    hide Generate, AddOn, RemoveOn, Load;
  }

  // A request that goes through leaves the file of its inbound's core current, whether
  // or not configs are accepted.
  lemma SuccessIsFiled(env: Env, db: Db, s: BothCores, j: nat, c: Client, p: Patch, gone: Outcome, back: Outcome,
                       ib: Inbound)
    requires j < |db.clients| && FindInbound(db.inbounds, db.clients[j].account.inboundId) == Some(ib)
    ensures
      var r := Created(env, db, s, c, back);
      r.2 && c.account.inboundId == ib.id ==> FileOf(r.1, ib.core) == Generate(r.0, ib.core, env.now)
    ensures
      var r := Updated(env, db, s, j, p, gone, back);
      r.2 ==> FileOf(r.1, ib.core) == Generate(r.0, ib.core, env.now)
    ensures
      var r := Deleted(env, db, s, j, gone);
      r.2 ==> FileOf(r.1, ib.core) == Generate(r.0, ib.core, env.now)
    ensures
      var r := Reset(env, db, s, j);
      r.2 ==> FileOf(r.1, ib.core) == Generate(r.0, ib.core, env.now)
  {
    hide ApplyCore, AppliedAdd, AppliedRemove, AppliedSync, EmailTaken, SingleUserFull, Generate, FileOf;
    var d := db.clients[j];
    DoneHelpers(env, db.(clients := db.clients + [c]), s, ib, c, "", gone, back);
    DoneHelpers(env, Edited(db, j, p), s, ib, Patched(d, p), d.account.email, gone, back);
    DoneHelpers(env, WithoutClient(db, j), s, ib, d, d.account.email, gone, back);
    DoneHelpers(env, db.(clients := db.clients[j := d.(up := 0, down := 0)]), s, ib, d, "", gone, back);
  }

  // An edit of a client on Xray that Xray would reject changes nothing at all: it is
  // validated before the process is touched.
  lemma RejectedEditChangesNothing(env: Env, db: Db, s: BothCores, j: nat, p: Patch, gone: Outcome, back: Outcome)
    requires j < |db.clients| && env.binary && !env.xrayValid
    requires
      var ib := FindInbound(db.inbounds, db.clients[j].account.inboundId);
      ib.Some? && ib.value.core == Xray
    ensures Updated(env, db, s, j, p, gone, back) == (db, s, false)
  {
  }

  // With accepted configs, an edit fails only if another client has the new email.
  lemma UpdateAcceptedIff(env: Env, db: Db, s: BothCores, j: nat, p: Patch, gone: Outcome, back: Outcome)
    requires WellFormed(db) && Accepted(env) && j < |db.clients|
    ensures Updated(env, db, s, j, p, gone, back).2 <==>
      p.email.None? || forall k :: 0 <= k < |db.clients| && k != j ==> db.clients[k].account.email != p.email.value
  {
    hide Generate, AddOn, RemoveOn, Load;
    assert db.clients[j] in db.clients;
    var email := Patched(db.clients[j], p).account.email;
    if k :| 0 <= k < |db.clients| && k != j && db.clients[k].account.email == email {
      assert db.clients[k] in db.clients && db.clients[k].Id() != db.clients[j].Id();
    }
  }

  // With accepted configs, a client is created exactly if its inbound exists, no client
  // has its email, and the inbound is not a single-user Shadowsocks one with a client.
  lemma CreateAcceptedIff(env: Env, db: Db, s: BothCores, c: Client, o: Outcome)
    requires Accepted(env)
    ensures Created(env, db, s, c, o).2 <==>
      && (forall d :: d in db.clients ==> d.account.email != c.account.email)
      && exists ib :: FindInbound(db.inbounds, c.account.inboundId) == Some(ib)
           && !(ib.protocol == "shadowsocks" && !("method" in ib.settings && "2022" <= ib.settings["method"])
                && exists d :: d in db.clients && d.account.inboundId == ib.id)
  {
    hide Generate, AddOn, Load;
  }

  // ------------------------------------------------------------------------
  // The request handlers
  // ------------------------------------------------------------------------

  class ClientApi {
    const xray: Core
    const singbox: Core
    var db: Db

    constructor (xray: Core, singbox: Core, db: Db)
      requires xray.kind == Xray && singbox.kind == Singbox
      ensures Valid() && this.xray == xray && this.singbox == singbox && this.db == db
    {
      this.xray, this.singbox, this.db := xray, singbox, db;
    }

    predicate Valid() {
      xray.kind == Xray && singbox.kind == Singbox
    }

    function Cores(): BothCores
      reads xray, singbox
    {
      BothCores(xray.State(), singbox.State())
    }

    predicate Sees(env: Env) {
      env.binary == xray.binary && env.sbBinary == singbox.binary
    }

    method Apply(env: Env, next: Db, core: CoreKind) returns (ok: bool)
      requires Valid() && Sees(env)
      modifies xray, singbox
      ensures (Cores(), ok) == ApplyCore(env, core, next, old(Cores()))
    {
      if core == Xray {
        ok := xray.Apply(next, env.now, env.xrayValid);
      } else {
        ok := singbox.Apply(next, env.now, env.sbValid);
      }
    }

    method ApplyAdd(env: Env, next: Db, ib: Inbound, c: Client) returns (ok: bool, ghost o: Outcome)
      requires Valid() && Sees(env)
      modifies xray, singbox
      ensures Possible(o, TagsOf(ib))
      ensures (Cores(), ok) == AppliedAdd(env, next, old(Cores()), ib, c, o)
    {
      o := NOTHING;
      if SupportsLive(ib, env.binary) && c.enabled && c.IsUsable(env.now) {
        var added;
        added, o := xray.AddUserLive(ib, c.account);
        if added {
          xray.PersistConfig(next, env.now);
          return true, o;
        }
      }
      ok := Apply(env, next, ib.core);
    }

    method ApplyRemove(env: Env, next: Db, ib: Inbound, email: string) returns (ok: bool, ghost o: Outcome)
      requires Valid() && Sees(env)
      modifies xray, singbox
      ensures Possible(o, TagsOf(ib))
      ensures (Cores(), ok) == AppliedRemove(env, next, old(Cores()), ib, email, o)
    {
      o := NOTHING;
      if SupportsLive(ib, env.binary) {
        var removed;
        removed, o := xray.RemoveUserLive(ib, email);
        if removed {
          xray.PersistConfig(next, env.now);
          return true, o;
        }
      }
      ok := Apply(env, next, ib.core);
    }

    method ApplySync(env: Env, next: Db, ib: Inbound, c: Client, oldEmail: string)
      returns (ok: bool, ghost gone: Outcome, ghost back: Outcome)
      requires Valid() && Sees(env)
      modifies xray, singbox
      ensures Possible(gone, TagsOf(ib)) && Possible(back, TagsOf(ib))
      ensures (Cores(), ok) == AppliedSync(env, next, old(Cores()), ib, c, oldEmail, gone, back)
    {
      gone, back := NOTHING, NOTHING;
      if SupportsLive(ib, env.binary) && Validated(env) {
        var removed;
        removed, gone := xray.RemoveUserLive(ib, oldEmail);
        if removed {
          if !(c.enabled && c.IsUsable(env.now)) {
            xray.PersistConfig(next, env.now);
            return true, gone, back;
          }
          var added;
          added, back := xray.AddUserLive(ib, c.account);
          if added {
            xray.PersistConfig(next, env.now);
            return true, gone, back;
          }
        }
      }
      ok := Apply(env, next, ib.core);
    }

    method CreateClient(env: Env, c: Client) returns (ok: bool, ghost o: Outcome)
      requires Valid() && Sees(env)
      modifies this, xray, singbox
      ensures PossibleFor(old(db), c.account.inboundId, o)
      ensures (db, Cores(), ok) == Created(env, old(db), old(Cores()), c, o)
      ensures db.inbounds == old(db).inbounds
      ensures db.clients == if ok then old(db).clients + [c] else old(db).clients
    {
      o := NOTHING;
      var found := FindInbound(db.inbounds, c.account.inboundId);
      if found.None? || EmailTaken(db, c.account.email, None) || SingleUserFull(db, found.value) {
        return false, o;
      }
      var next := db.(clients := db.clients + [c]);
      ok, o := ApplyAdd(env, next, found.value, c);
      if ok {
        db := next;
      }
    }

    method UpdateClient(env: Env, j: nat, p: Patch) returns (ok: bool, ghost gone: Outcome, ghost back: Outcome)
      requires Valid() && Sees(env) && j < |db.clients|
      modifies this, xray, singbox
      ensures PossibleFor(old(db), old(db.clients[j]).account.inboundId, gone)
      ensures PossibleFor(old(db), old(db.clients[j]).account.inboundId, back)
      ensures (db, Cores(), ok) == Updated(env, old(db), old(Cores()), j, p, gone, back)
      ensures OnlyRowDiffers(old(db), db, j)
      ensures if ok then Patches(old(db).clients[j], db.clients[j], p) else db == old(db)
    {
      gone, back := NOTHING, NOTHING;
      var prior := db.clients[j];
      var c := Patched(prior, p);
      var found := FindInbound(db.inbounds, prior.account.inboundId);
      if found.None? || EmailTaken(db, c.account.email, Some(prior.Id())) {
        return false, gone, back;
      }
      var next := db.(clients := db.clients[j := c]);
      ok, gone, back := ApplySync(env, next, found.value, c, prior.account.email);
      if ok {
        db := next;
      }
    }

    method DeleteClient(env: Env, j: nat) returns (ok: bool, ghost o: Outcome)
      requires Valid() && Sees(env) && j < |db.clients|
      modifies this, xray, singbox
      ensures PossibleFor(old(db), old(db.clients[j]).account.inboundId, o)
      ensures (db, Cores(), ok) == Deleted(env, old(db), old(Cores()), j, o)
      ensures db.inbounds == old(db).inbounds
      ensures db.clients == if ok then old(db).clients[..j] + old(db).clients[j + 1..] else old(db).clients
    {
      o := NOTHING;
      var c := db.clients[j];
      var found := FindInbound(db.inbounds, c.account.inboundId);
      if found.None? {
        return false, o;
      }
      var next := WithoutClient(db, j);
      ok, o := ApplyRemove(env, next, found.value, c.account.email);
      if ok {
        db := next;
      }
    }

    method ResetTraffic(env: Env, j: nat) returns (ok: bool)
      requires Valid() && Sees(env) && j < |db.clients|
      modifies this, xray, singbox
      ensures (db, Cores(), ok) == Reset(env, old(db), old(Cores()), j)
      ensures OnlyRowDiffers(old(db), db, j)
      ensures db.clients[j] == if ok then old(db).clients[j].(up := 0, down := 0) else old(db).clients[j]
    {
      var c := db.clients[j];
      var found := FindInbound(db.inbounds, c.account.inboundId);
      if found.None? {
        return false;
      }
      var next := db.(clients := db.clients[j := c.(up := 0, down := 0)]);
      ok := Apply(env, next, found.value.core);
      if ok {
        db := next;
      }
    }
  }
}
