// Concrete tables, requests and runs in which a client is left stranded: the smallest
// instances of the conditions under which the cores do not end up right.
module Stranded {
  import opened Models
  import opened Render
  import opened Cores
  import opened Serving
  import opened Enforcer
  import opened ClientEdits
  import opened IpLimits
  import Drift
  import Provisioning
  import Runs

  const VLESS := Inbound(1, "v", true, Xray, "vless", "", 443, None, "443:tcp", [], "tcp", "none", map[], map[])
  const SOCKS := Inbound(2, "s", true, Xray, "socks", "", 1080, None, "1080:tcp", [], "tcp", "none", map[], map[])

  // A client of each, with a data cap of one byte.
  const ANNA := Client(Account(1, 1, "anna", "u1", "p1", ""), true, 0, 1, 0, false, 0, 0)
  const BERT := Client(Account(2, 2, "bert", "u2", "p2", ""), true, 0, 1, 0, false, 0, 0)
  const CARL := Client(Account(3, 1, "carl", "u3", "p3", ""), true, 0, 0, 0, false, 0, 0)
  const DORA := Client(Account(4, 2, "dora", "u4", "p4", ""), true, 0, 0, 0, false, 0, 0)

  const TABLE := Db([VLESS, SOCKS], [ANNA, BERT])
  const ENV := Env(0.0, true, true, true, true)
  const NO_CHANGE := Patch(None, None, None, None, None, None, None)

  function Right(db: Db): BothCores {
    BothCores(CoreState(Generate(db, Xray, 0.0), Load(Generate(db, Xray, 0.0))),
              CoreState(Generate(db, Singbox, 0.0), Load(Generate(db, Singbox, 0.0))))
  }

  predicate TwoRows(db: Db) {
    db.inbounds == [VLESS, SOCKS]
  }

  lemma Finds(db: Db)
    requires TwoRows(db)
    ensures FindInbound(db.inbounds, 1) == Some(VLESS) && FindInbound(db.inbounds, 2) == Some(SOCKS)
  {
    assert db.inbounds[..1] == [VLESS];
  }

  lemma TwoRowsWellFormed(db: Db)
    requires TwoRows(db) && forall c :: c in db.clients ==> c.account.inboundId in {1, 2}
    requires forall i, j :: 0 <= i < j < |db.clients| ==>
      db.clients[i].Id() != db.clients[j].Id() && db.clients[i].account.email != db.clients[j].account.email
    ensures WellFormed(db)
  {
    Finds(db);
  }

  // A client served in one config and not in the other shows at its row's listener, in
  // the file and in the process.
  lemma ServedShows(db: Db, ib: Inbound, j: nat, s: set<nat>, t: set<nat>) returns (i: nat)
    requires WellFormed(db) && j < |db.clients| && db.clients[j].Id() in s && db.clients[j].Id() !in t
    requires FindInbound(db.inbounds, db.clients[j].account.inboundId) == Some(ib)
    requires ib.core == Xray && ib.enabled && !IsLegacyShadowsocks(ib)
    ensures |Loaded(db, Xray, s)| == |Loaded(db, Xray, t)| == |SlotsOf(db, Xray)| && i < |SlotsOf(db, Xray)|
    ensures SlotsOf(db, Xray)[i].owner == ib
    ensures Loaded(db, Xray, s)[i] != Loaded(db, Xray, t)[i]
    ensures ConfigFor(db, Xray, s) != ConfigFor(db, Xray, t)
  {
    hide WellFormed, IsLegacyShadowsocks;
    i := PrimaryListener(db, ib);
    LookAdmitted(db, Xray, s, i, j);
    LookAdmitted(db, Xray, t, i, j);
    assert Slots(ib)[0].owner == ib;
  }

  // ------------------------------------------------------------------------
  // Single requests
  // ------------------------------------------------------------------------

  // An edit that changes nothing can disconnect a usable client of a VLESS inbound.
  lemma EmptyPatchDisconnects()
    ensures Editable(ENV, TABLE, Right(TABLE), 0, NO_CHANGE) && Fragile(ENV, TABLE, 0, NO_CHANGE)
    ensures
      exists gone, back :: Possible(gone, TagsOf(VLESS)) && Possible(back, TagsOf(VLESS)) &&
        !InSync(ENV, TABLE, Updated(ENV, TABLE, Right(TABLE), 0, NO_CHANGE, gone, back).1)
  {
    hide ConfigFor, Load, AppliedSync;
    Finds(TABLE);
    TwoRowsWellFormed(TABLE);
    assert Edited(TABLE, 0, NO_CHANGE) == TABLE;
    UpdateSafeIffNotFragile(ENV, TABLE, Right(TABLE), 0, NO_CHANGE);
  }

  // Anna is replaced by Dora, from VLESS to SOCKS.
  const TO_SOCKS := Provisioning.Job(ENV, TABLE, Some(0), DORA)

  // Bert is replaced by Carl, from SOCKS to VLESS.
  const TO_VLESS := Provisioning.Job(ENV, TABLE, Some(1), CARL)

  lemma ToSocksOk()
    ensures TO_SOCKS.Ok() && TO_SOCKS.After() == Db([VLESS, SOCKS], [BERT, DORA])
  {
    hide WellFormed, FindInbound;
    Finds(TABLE);
    TwoRowsWellFormed(TABLE);
    SocksAfter();
    TwoRowsWellFormed(TO_SOCKS.After());
  }

  lemma SocksAfter()
    ensures TO_SOCKS.After() == Db([VLESS, SOCKS], [BERT, DORA])
  {
    assert TO_SOCKS.Mid() == Db([VLESS, SOCKS], [BERT]);
  }

  lemma VlessAfter()
    ensures TO_VLESS.After() == Db([VLESS, SOCKS], [ANNA, CARL])
  {
    assert TO_VLESS.Mid() == Db([VLESS, SOCKS], [ANNA]);
  }

  lemma ToVlessOk()
    ensures TO_VLESS.Ok() && TO_VLESS.After() == Db([VLESS, SOCKS], [ANNA, CARL])
  {
    hide WellFormed, FindInbound;
    Finds(TABLE);
    TwoRowsWellFormed(TABLE);
    VlessAfter();
    TwoRowsWellFormed(TO_VLESS.After());
  }

  // All calls confirmed, and Dora is never loaded.
  lemma DoraNeverLoaded(gone: Outcome, back: Outcome)
    requires Possible(gone, TagsOf(VLESS)) && Possible(back, TagsOf(SOCKS)) && gone.ok && back.ok
    ensures TO_SOCKS.Ok() && Provisioning.NewNeverLoaded(TO_SOCKS)
    ensures !InSync(ENV, TO_SOCKS.After(), Provisioning.Replacement(TO_SOCKS, Right(TABLE), gone, back).0)
  {
    hide ConfigFor, Load, Provisioning.Replaced, WellFormed;
    ToSocksOk();
    var after := TO_SOCKS.After();
    assert TABLE.clients[0] == ANNA;
    Finds(TABLE);
    Provisioning.MidFromAfter(TO_SOCKS, Xray);
    UsableById(after, 0.0, 1);
    assert after.clients[1] == DORA;
    var i := ServedShows(after, SOCKS, 1, UsableIds(after.clients, 0.0), UsableIds(TO_SOCKS.Mid().clients, 0.0));
    Provisioning.ReplaceInSyncIff(TO_SOCKS, Right(TABLE), gone, back);
  }

  // All calls confirmed, and Bert is never unloaded.
  lemma BertNeverUnloaded(gone: Outcome, back: Outcome)
    requires Possible(gone, TagsOf(SOCKS)) && Possible(back, TagsOf(VLESS)) && gone.ok && back.ok
    ensures TO_VLESS.Ok() && Provisioning.OldNeverUnloaded(TO_VLESS)
    ensures !InSync(ENV, TO_VLESS.After(), Provisioning.Replacement(TO_VLESS, Right(TABLE), gone, back).0)
  {
    hide ConfigFor, Load, Provisioning.Replaced, WellFormed;
    ToVlessOk();
    assert TABLE.clients[1] == BERT;
    Finds(TABLE);
    WithoutRenders(TABLE, 1, Xray, 0.0);
    UsableById(TABLE, 0.0, 1);
    var i := ServedShows(TABLE, SOCKS, 1, UsableIds(TABLE.clients, 0.0), Minus(TABLE, 1, 0.0));
    Provisioning.ReplaceInSyncIff(TO_VLESS, Right(TABLE), gone, back);
  }

  // Anna is replaced by Emma, from VLESS to Trojan, both live-capable.
  const TROJAN := Inbound(3, "t", true, Xray, "trojan", "", 8443, None, "8443:tcp", [], "tcp", "none", map[], map[])
  const EMMA := Client(Account(5, 3, "emma", "u5", "p5", ""), true, 0, 0, 0, false, 0, 0)
  const LIVE_TABLE := Db([VLESS, TROJAN], [ANNA])
  const TO_TROJAN := Provisioning.Job(ENV, LIVE_TABLE, Some(0), EMMA)

  lemma LiveTablesFind()
    ensures FindInbound([VLESS, TROJAN], 1) == Some(VLESS) && FindInbound([VLESS, TROJAN], 3) == Some(TROJAN)
  {
    assert [VLESS, TROJAN][..1] == [VLESS];
  }

  lemma LiveTableWellFormed(c: Client)
    requires c.account.inboundId in {1, 3}
    ensures WellFormed(Db([VLESS, TROJAN], [c]))
  {
    hide FindInbound;
    LiveTablesFind();
  }

  lemma LiveTablesAfter()
    ensures TO_TROJAN.Mid() == Db([VLESS, TROJAN], []) && TO_TROJAN.After() == Db([VLESS, TROJAN], [EMMA])
  {
    assert TO_TROJAN.Mid() == Db([VLESS, TROJAN], []);
  }

  lemma ToTrojanOk()
    ensures TO_TROJAN.Ok() && TO_TROJAN.Ib() == TROJAN && TO_TROJAN.Old() == Some((VLESS, "anna"))
    ensures TO_TROJAN.Mid().clients == [] && TO_TROJAN.After() == Db([VLESS, TROJAN], [EMMA])
  {
    hide WellFormed, FindInbound;
    LiveTablesFind();
    LiveTablesAfter();
    LiveTableWellFormed(ANNA);
    LiveTableWellFormed(EMMA);
  }

  // The removal lands everywhere, the addition nowhere: Emma is in the file, the
  // fallback sees a file that is current already, and she is never loaded.
  lemma EmmaNeverLoaded()
    ensures TO_TROJAN.Ok() && !Provisioning.Safe(TO_TROJAN)
    ensures
      exists gone :: Possible(gone, TagsOf(VLESS)) && gone.ok &&
        !InSync(ENV, TO_TROJAN.After(), Provisioning.Replacement(TO_TROJAN, Right(LIVE_TABLE), gone, NOTHING).0)
  {
    hide ConfigFor, Load, Provisioning.Replaced, WellFormed, UsableIds;
    ToTrojanOk();
    var after := TO_TROJAN.After();
    Provisioning.MidFromAfter(TO_TROJAN, Xray);
    Provisioning.AfterFinds(TO_TROJAN);
    UsableById(after, 0.0, 0);
    assert after.clients[0] == EMMA;
    var i := ServedShows(after, TROJAN, 0, UsableIds(after.clients, 0.0), UsableIds(TO_TROJAN.Mid().clients, 0.0));
    var gone, back := Provisioning.Unsafe(TO_TROJAN, Right(LIVE_TABLE));
  }

  // ------------------------------------------------------------------------
  // Runs
  // ------------------------------------------------------------------------

  // The table, both cores right, nothing remembered.
  function Begin(): Runs.World {
    Runs.World(TABLE, 0.0, Panel(Right(TABLE).xray, Right(TABLE).singbox, {}), map[], UsableIds(TABLE.clients, 0.0))
  }

  lemma BeginInitial()
    ensures Runs.Initial(Begin())
  {
    hide ConfigFor, Load;
    TwoRowsWellFormed(TABLE);
  }

  // Polls of a table without IP caps flag nobody.
  lemma NobodyFlagged(w: Runs.World, counts: map<string, nat>)
    requires WellFormed(w.db) && forall c :: c in w.db.clients ==> c.limitIp == 0 && !c.ipLimitExceeded
    ensures Runs.FlaggedDb(w, counts) == w.db
  {
    var rows := FlagAll(w.db.clients, w.okSince, counts, w.now).0;
    forall j | 0 <= j < |w.db.clients|
      ensures rows[j] == w.db.clients[j]
    {
      assert w.db.clients[j] in w.db.clients;
      FlagFirstAt(w.db.clients, w.okSince, counts, w.now, |w.db.clients|, j);
    }
    assert rows == w.db.clients;
  }

  // Bert reaches his cap. Before the next poll, Anna is edited and all calls are
  // confirmed: the file is written without Bert.
  const BERT_MASKED: seq<Runs.Event> := [
    Runs.Use(1, 1, 0),
    Runs.Update(ENV, 0, NO_CHANGE, Everywhere(VLESS), Everywhere(VLESS))]

  const BERT_SPENT := Db([VLESS, SOCKS], [ANNA, BERT.(up := 1)])

  lemma MaskedRun()
    ensures Runs.Run(Begin(), BERT_MASKED)
    ensures
      var w := Runs.After(Begin(), BERT_MASKED);
      && w.db == BERT_SPENT && w.now == 0.0 && w.panel.cut == {}
      && w.panel.xray.disk == Generate(BERT_SPENT, Xray, 0.0)
      && w.panel.xray.running
           == AddOn(RemoveOn(Load(Generate(TABLE, Xray, 0.0)), Everywhere(VLESS).landed, "anna"),
                    Everywhere(VLESS).landed, ClientEntry("vless", ANNA.account))
  {
    hide ConfigFor, Load, AddOn, RemoveOn, Applied, Runs.Run, Runs.After;
    Finds(TABLE);
    Finds(BERT_SPENT);
    var use, edit := BERT_MASKED[0], BERT_MASKED[1];
    var spent := Runs.Next(Begin(), use);
    assert TABLE.clients[1 := BERT.(up := 1)] == BERT_SPENT.clients;
    assert spent.db == BERT_SPENT;
    assert Runs.Allowed(spent, edit);
    assert BERT_SPENT.clients[0 := Patched(ANNA, NO_CHANGE)] == BERT_SPENT.clients;
    assert !EmailTaken(BERT_SPENT, "anna", Some(1));
    Unrolled(Begin(), use, [edit]);
    Unrolled(spent, edit, []);
    assert BERT_MASKED == [use] + [edit];
    assert [edit] == [edit] + [];
    NoEvents(Runs.Next(spent, edit));
  }

  lemma Unrolled(w: Runs.World, e: Runs.Event, rest: seq<Runs.Event>)
    requires Runs.Allowed(w, e)
    ensures Runs.Run(w, [e] + rest) <==> Runs.Run(Runs.Next(w, e), rest)
    ensures Runs.Run(w, [e] + rest) ==> Runs.After(w, [e] + rest) == Runs.After(Runs.Next(w, e), rest)
  {
    hide Runs.Allowed, Runs.Next;
    assert ([e] + rest)[1..] == rest;
  }

  lemma NoEvents(w: Runs.World)
    ensures Runs.Run(w, []) && Runs.After(w, []) == w
  {
  }

  // Then no poll disconnects him, whatever it finds: his inbound needs a reload, and the
  // reload is skipped.
  lemma BertStaysConnected(env: Env, counts: map<string, nat>, outs: seq<Outcome>)
    requires Accepted(env) && env.now == 0.0
    ensures Runs.Initial(Begin()) && Runs.Run(Begin(), BERT_MASKED)
    ensures
      var w := Runs.After(Begin(), BERT_MASKED);
      Runs.Allowed(w, Runs.PollNow(env, counts, outs)) ==> !Runs.Right(Runs.Next(w, Runs.PollNow(env, counts, outs)))
  {
    hide ConfigFor, Load, AddOn, RemoveOn, Enforced, WellFormed, Runs.After, Runs.Run;
    BeginInitial();
    MaskedRun();
    var w := Runs.After(Begin(), BERT_MASKED);
    TwoRowsWellFormed(BERT_SPENT);
    NobodyFlagged(w, counts);
    if Runs.Allowed(w, Runs.PollNow(env, counts, outs)) {
      var p := Poll(BERT_SPENT, env, outs);
      OnlyBertTurns(env);
      Drift.CurrentFileKeepsRunning(p, w.panel);
      BertStillRuns();
    }
  }

  lemma OnlyBertTurns(env: Env)
    requires env.now == 0.0
    ensures forall j :: 0 <= j < |BERT_SPENT.clients| ==> !Drift.TurnsLive(BERT_SPENT, env, {}, j)
  {
    Finds(BERT_SPENT);
    assert ANNA.IsUsable(0.0);
  }

  lemma BertStillRuns()
    ensures
      AddOn(RemoveOn(Load(Generate(TABLE, Xray, 0.0)), Everywhere(VLESS).landed, "anna"), Everywhere(VLESS).landed,
            ClientEntry("vless", ANNA.account))
        != Load(Generate(BERT_SPENT, Xray, 0.0))
  {
    hide ConfigFor, Load, WellFormed, UsableIds;
    TwoRowsWellFormed(TABLE);
    TwoRowsWellFormed(BERT_SPENT);
    Finds(TABLE);
    var usable, later := UsableIds(TABLE.clients, 0.0), UsableIds(BERT_SPENT.clients, 0.0);
    UsableById(TABLE, 0.0, 1);
    UsableById(BERT_SPENT, 0.0, 1);
    assert TABLE.clients[1] == BERT && BERT_SPENT.clients[1] == BERT.(up := 1);
    var i := ServedShows(TABLE, SOCKS, 1, usable, later);
    UsageNotRendered(later);
    OwnerByTag(TABLE, Xray, i, VLESS);
    LoadedAt(TABLE, Xray, usable, i);
    var running := Loaded(TABLE, Xray, usable);
    var removed := RemoveOn(running, Everywhere(VLESS).landed, "anna");
    var added := AddOn(removed, Everywhere(VLESS).landed, ClientEntry("vless", ANNA.account));
    assert removed[i] == running[i] && added[i] == removed[i];
  }

  lemma UsageNotRendered(served: set<nat>)
    ensures ConfigFor(BERT_SPENT, Xray, served) == ConfigFor(TABLE, Xray, served) == ConfigFor(ANNA_SPENT, Xray, served)
  {
    assert Accounts(BERT_SPENT.clients) == Accounts(TABLE.clients) == Accounts(ANNA_SPENT.clients);
  }

  // Anna reaches her cap and is cut at a poll; her usage is reset, which puts her back,
  // and she reaches the cap again before the next poll.
  const ANNA_SPENT := Db([VLESS, SOCKS], [ANNA.(up := 1), BERT])

  const ANNA_HIDDEN: seq<Runs.Event> := [
    Runs.Use(0, 1, 0),
    Runs.PollNow(ENV, map[], Drift.AllConfirmed(ANNA_SPENT)),
    Runs.ResetUsage(ENV, 0),
    Runs.Use(0, 1, 0)]

  lemma AnnaSpends(w: Runs.World)
    requires w.db == TABLE
    ensures Runs.Allowed(w, ANNA_HIDDEN[0]) && Runs.Next(w, ANNA_HIDDEN[0]) == w.(db := ANNA_SPENT)
  {
    assert TABLE.clients[0 := ANNA.(up := 1)] == ANNA_SPENT.clients;
  }

  lemma AnnaPolled(w: Runs.World)
    requires w == Begin().(db := ANNA_SPENT)
    ensures Runs.Sound(w) && w.panel.cut !! w.served && Runs.FlaggedDb(w, map[]) == ANNA_SPENT
    ensures Runs.Allowed(w, ANNA_HIDDEN[1])
  {
    hide ConfigFor, Load, Runs.Sound, WellFormed, Drift.AllConfirmed, UsableIds, FlagAll;
    BeginInitial();
    Runs.InitialSound(Begin());
    AnnaSpends(Begin());
    Runs.UnattendedSound(Begin(), ANNA_HIDDEN[0]);
    TwoRowsWellFormed(ANNA_SPENT);
    NobodyFlagged(w, map[]);
    Drift.ConfirmedPossible(ANNA_SPENT, ENV);
  }

  lemma AnnaCut(w: Runs.World)
    requires w == Begin().(db := ANNA_SPENT)
    ensures Runs.Allowed(w, ANNA_HIDDEN[1])
    ensures
      var next := Runs.Next(w, ANNA_HIDDEN[1]);
      next.db == ANNA_SPENT && next.now == 0.0 && Converged(ANNA_SPENT, 0.0, next.panel)
  {
    hide ConfigFor, Load, Enforced, Runs.Sound, WellFormed, Drift.AllConfirmed, UsableIds, FlagAll, Runs.FlaggedDb,
         Converged, Right;
    AnnaPolled(w);
    hide Runs.Allowed;
    Runs.UnattendedSound(w, ANNA_HIDDEN[1]);
  }

  lemma AnnaReset(w: Runs.World)
    requires w.db == ANNA_SPENT && w.now == 0.0 && Converged(ANNA_SPENT, 0.0, w.panel)
    ensures Runs.Allowed(w, ANNA_HIDDEN[2])
    ensures
      var next := Runs.Next(w, ANNA_HIDDEN[2]);
      && next.db == TABLE && next.now == 0.0 && next.panel.cut == w.panel.cut
      && Synced(TABLE, 0.0, next.panel.xray, next.panel.singbox)
  {
    hide ConfigFor, Load, WellFormed, UnusableIds;
    TwoRowsWellFormed(ANNA_SPENT);
    assert ANNA_SPENT.clients[0 := ANNA_SPENT.clients[0].(up := 0, down := 0)] == TABLE.clients;
    ResetKeepsSync(ENV, ANNA_SPENT, Runs.CoresOf(w), 0);
  }

  lemma HiddenRun()
    ensures Runs.Run(Begin(), ANNA_HIDDEN)
    ensures
      var w := Runs.After(Begin(), ANNA_HIDDEN);
      && w.db == ANNA_SPENT && w.now == 0.0 && w.panel.cut == UnusableIds(ANNA_SPENT.clients, 0.0)
      && w.panel.xray.disk == Generate(TABLE, Xray, 0.0)
  {
    hide ConfigFor, Load, Runs.Allowed, Runs.Run, Runs.After, Runs.Next, UnusableIds, Right;
    var use, poll, reset := ANNA_HIDDEN[0], ANNA_HIDDEN[1], ANNA_HIDDEN[2];
    AnnaSpends(Begin());
    var w1 := Runs.Next(Begin(), use);
    AnnaCut(w1);
    var w2 := Runs.Next(w1, poll);
    AnnaReset(w2);
    var w3 := Runs.Next(w2, reset);
    AnnaSpends(w3);
    Unrolled(Begin(), use, [poll, reset, use]);
    Unrolled(w1, poll, [reset, use]);
    Unrolled(w2, reset, [use]);
    Unrolled(w3, use, []);
    NoEvents(Runs.Next(w3, use));
    assert ANNA_HIDDEN == [use] + [poll, reset, use];
    assert [poll, reset, use] == [poll] + [reset, use];
    assert [reset, use] == [reset] + [use];
    assert [use] == [use] + [];
  }

  // Then no poll disconnects her, whatever it finds: the memo says she is cut already.
  lemma AnnaStaysConnected(env: Env, counts: map<string, nat>, outs: seq<Outcome>)
    requires Accepted(env) && env.now == 0.0
    ensures Runs.Initial(Begin()) && Runs.Run(Begin(), ANNA_HIDDEN)
    ensures
      var w := Runs.After(Begin(), ANNA_HIDDEN);
      Runs.Allowed(w, Runs.PollNow(env, counts, outs)) ==> !Runs.Right(Runs.Next(w, Runs.PollNow(env, counts, outs)))
  {
    hide ConfigFor, Load, Enforced, WellFormed, Runs.After, Runs.Run, UsableIds, UnusableIds;
    BeginInitial();
    HiddenRun();
    var w := Runs.After(Begin(), ANNA_HIDDEN);
    TwoRowsWellFormed(ANNA_SPENT);
    NobodyFlagged(w, counts);
    if Runs.Allowed(w, Runs.PollNow(env, counts, outs)) {
      Drift.SettledMemoHidesEverything(Poll(ANNA_SPENT, env, outs), w.panel);
      AnnaStillFiled();
    }
  }

  lemma AnnaStillFiled()
    ensures Generate(TABLE, Xray, 0.0) != Generate(ANNA_SPENT, Xray, 0.0)
  {
    hide ConfigFor, Load, WellFormed, UsableIds;
    TwoRowsWellFormed(TABLE);
    TwoRowsWellFormed(ANNA_SPENT);
    Finds(TABLE);
    UsableById(TABLE, 0.0, 0);
    UsableById(ANNA_SPENT, 0.0, 0);
    assert TABLE.clients[0] == ANNA && ANNA_SPENT.clients[0] == ANNA.(up := 1);
    var i := ServedShows(TABLE, VLESS, 0, UsableIds(TABLE.clients, 0.0), UsableIds(ANNA_SPENT.clients, 0.0));
    assert ConfigFor(ANNA_SPENT, Xray, UsableIds(ANNA_SPENT.clients, 0.0))
           == ConfigFor(TABLE, Xray, UsableIds(ANNA_SPENT.clients, 0.0)) by {
      UsageNotRendered(UsableIds(ANNA_SPENT.clients, 0.0));
    }
  }
}
