// Whole runs of the panel: polls, the clock, growing usage, panel restarts, and
// requests of every kind at any moment, with any outcome of their live calls.
module Runs {
  import opened Models
  import opened Render
  import opened Cores
  import opened Serving
  import opened Enforcer
  import opened IpLimits
  import opened Poller
  import CE = ClientEdits
  import Drift
  import Provisioning

  // `served` is bookkeeping for the proofs: the clients served when the cores were
  // last right.
  datatype World = World(db: Db, now: real, panel: Panel, okSince: map<nat, real>, served: set<nat>)

  datatype Event =
    | Wait(seconds: real)
    | Use(j: nat, up: nat, down: nat)
    | PanelRestart
    | PollNow(env: Env, counts: map<string, nat>, outs: seq<Outcome>)
    | Create(env: Env, c: Client, o: Outcome)
    | Update(env: Env, j: nat, p: CE.Patch, gone: Outcome, back: Outcome)
    | Delete(env: Env, j: nat, o: Outcome)
    | ResetUsage(env: Env, j: nat)
    | ChangeRows(env: Env, core: CoreKind, next: Db)
    | Replace(job: Provisioning.Job, gone: Outcome, back: Outcome)

  predicate Request(e: Event) {
    e.Create? || e.Update? || e.Delete? || e.ResetUsage? || e.ChangeRows? || e.Replace?
  }

  function EnvOf(e: Event): Env
    requires e.PollNow? || Request(e)
  {
    match e
    case Replace(job, _, _) => job.env
    case _ => e.env
  }

  function CoresOf(w: World): CE.BothCores {
    CE.BothCores(w.panel.xray, w.panel.singbox)
  }

  function FlaggedDb(w: World, counts: map<string, nat>): Db {
    w.db.(clients := FlagAll(w.db.clients, w.okSince, counts, w.now).0)
  }

  function AfterEdit(w: World, edit: (Db, CE.BothCores, bool)): World {
    World(edit.0, w.now, Panel(edit.1.xray, edit.1.singbox, w.panel.cut), w.okSince, UsableIds(edit.0.clients, w.now))
  }

  // What can happen: one clock, possible outcomes, fresh row ids. A change of inbound
  // rows keeps the table's constraints and, by cascade, may drop clients. Nothing is
  // asked of the cores.
  predicate Allowed(w: World, e: Event) {
    && (e.PollNow? || Request(e) ==> EnvOf(e).now == w.now)
    && match e
       case Wait(seconds) => seconds >= 0.0
       case Use(j, _, _) => j < |w.db.clients|
       case PanelRestart => true
       case PollNow(env, counts, outs) => PossibleOuts(Poll(FlaggedDb(w, counts), env, outs))
       case Create(env, c, o) => CE.PossibleFor(w.db, c.account.inboundId, o) && Fresh(w, c)
       case Update(env, j, p, gone, back) =>
         && j < |w.db.clients|
         && CE.PossibleFor(w.db, w.db.clients[j].account.inboundId, gone)
         && CE.PossibleFor(w.db, w.db.clients[j].account.inboundId, back)
       case Delete(env, j, o) => j < |w.db.clients| && CE.PossibleFor(w.db, w.db.clients[j].account.inboundId, o)
       case ResetUsage(env, j) => j < |w.db.clients|
       case ChangeRows(env, core, next) => WellFormed(next) && forall c :: c in next.clients ==> c in w.db.clients
       case Replace(job, gone, back) =>
         && job.before == w.db && job.Ok() && Fresh(w, job.c)
         && Possible(back, TagsOf(job.Ib()))
         && (job.Old().Some? ==> Possible(gone, TagsOf(job.Old().value.0)))
  }

  predicate Fresh(w: World, c: Client) {
    && !c.ipLimitExceeded && c.Id() !in w.panel.cut && c.Id() !in w.okSince
    && forall d :: d in w.db.clients ==> d.Id() != c.Id()
  }

  // A request's effect on the database and the cores, and whether it succeeded.
  function Edit(w: World, e: Event): (Db, CE.BothCores, bool)
    requires Request(e) && Allowed(w, e)
  {
    match e
    case Create(env, c, o) => CE.Created(env, w.db, CoresOf(w), c, o)
    case Update(env, j, p, gone, back) => CE.Updated(env, w.db, CoresOf(w), j, p, gone, back)
    case Delete(env, j, o) => CE.Deleted(env, w.db, CoresOf(w), j, o)
    case ResetUsage(env, j) => CE.Reset(env, w.db, CoresOf(w), j)
    case ChangeRows(env, core, next) =>
      var (cores, ok) := CE.ApplyCore(env, core, next, CoresOf(w));
      (if ok then next else w.db, cores, ok)
    case Replace(job, gone, back) =>
      var (cores, ok) := Provisioning.Replacement(job, CoresOf(w), gone, back);
      (if ok then job.After() else w.db, cores, ok)
  }

  function Next(w: World, e: Event): World
    requires Allowed(w, e)
  {
    match e
    case Wait(seconds) => w.(now := w.now + seconds)
    case Use(j, up, down) =>
      var c := w.db.clients[j];
      w.(db := w.db.(clients := w.db.clients[j := c.(up := c.up + up, down := c.down + down)]))
    case PanelRestart => w.(panel := w.panel.(cut := {}), okSince := map[])
    case PollNow(env, counts, outs) =>
      var db := FlaggedDb(w, counts);
      World(db, w.now, Enforced(Poll(db, env, outs), w.panel),
            Pruned(FlagAll(w.db.clients, w.okSince, counts, w.now).1, EnabledIds(db.clients)),
            UsableIds(db.clients, w.now))
    case _ => AfterEdit(w, Edit(w, e))
  }

  // The world outside the panel, event by event: time passes, traffic adds up, a panel
  // restart empties both memos and nothing else, and a change of inbound rows or a
  // replacement is stored if the cores take it.
  lemma WorldMoves(w: World, e: Event)
    requires Allowed(w, e)
    ensures
      var v := Next(w, e);
      && v.now == (if e.Wait? then w.now + e.seconds else w.now)
      && (e.Wait? ==> v == w.(now := v.now))
      && (e.Use? ==>
            && v == w.(db := v.db) && v.db.inbounds == w.db.inbounds && |v.db.clients| == |w.db.clients|
            && v.db.clients[e.j].up == w.db.clients[e.j].up + e.up
            && v.db.clients[e.j].down == w.db.clients[e.j].down + e.down)
      && (e.PanelRestart? ==>
            v.panel.cut == {} && v.okSince == map[] && v == w.(panel := v.panel, okSince := v.okSince)
            && v.panel.xray == w.panel.xray && v.panel.singbox == w.panel.singbox)
      && (e.ChangeRows? ==> v.db == if CE.ApplyCore(e.env, e.core, e.next, CoresOf(w)).1 then e.next else w.db)
      && (e.Replace? ==>
            v.db == if Provisioning.Replacement(e.job, CoresOf(w), e.gone, e.back).1 then e.job.After() else w.db)
  {
    hide Enforced, CE.Created, CE.Updated, CE.Deleted, CE.Reset, CE.ApplyCore, Provisioning.Replacement;
  }

  // A run: each event is allowed in the world the ones before it lead to.
  predicate Run(w: World, events: seq<Event>)
    decreases |events|
  {
    events != [] ==> Allowed(w, events[0]) && Run(Next(w, events[0]), events[1..])
  }

  function After(w: World, events: seq<Event>): World
    requires Run(w, events)
    decreases |events|
  {
    if events == [] then w else After(Next(w, events[0]), events[1..])
  }

  // ------------------------------------------------------------------------
  // What no event can break
  // ------------------------------------------------------------------------

  // A flag means a cap, and a flag whose cooldown runs belongs to a client in the memo.
  predicate RowFlags(w: World, c: Client) {
    && (c.ipLimitExceeded ==> c.limitIp > 0)
    && (c.ipLimitExceeded && c.Id() in w.okSince ==> c.Id() in w.panel.cut)
  }

  predicate Kept(w: World) {
    WellFormed(w.db) && forall c :: c in w.db.clients ==> RowFlags(w, c)
  }

  lemma FlagRow(w: World, counts: map<string, nat>, j: nat)
    requires WellFormed(w.db) && j < |w.db.clients|
    ensures
      var c, d := w.db.clients[j], FlaggedDb(w, counts).clients[j];
      && d == c.(ipLimitExceeded := d.ipLimitExceeded)
      && (d.ipLimitExceeded ==> d.limitIp > 0)
      && (c.ipLimitExceeded && c.limitIp > 0 && c.Id() !in w.okSince ==> d.ipLimitExceeded)
  {
    FlagFirstAt(w.db.clients, w.okSince, counts, w.now, |w.db.clients|, j);
  }

  predicate SameRows(a: Db, b: Db) {
    && a.inbounds == b.inbounds && |a.clients| == |b.clients|
    && forall j :: 0 <= j < |a.clients| ==>
         b.clients[j].account == a.clients[j].account && b.clients[j].enabled == a.clients[j].enabled
  }

  lemma SameEnabledIds(a: Db, b: Db)
    requires SameRows(a, b)
    ensures EnabledIds(a.clients) <= EnabledIds(b.clients)
  {
    forall id | id in EnabledIds(a.clients)
      ensures id in EnabledIds(b.clients)
    {
      var c :| c in a.clients && c.enabled && c.Id() == id;
      var j :| 0 <= j < |a.clients| && a.clients[j] == c;
      assert b.clients[j] in b.clients;
    }
  }

  lemma SameAccounts(a: Db, b: Db)
    requires WellFormed(a) && SameRows(a, b)
    ensures WellFormed(b) && EnabledIds(b.clients) == EnabledIds(a.clients)
    ensures forall core, s :: ConfigFor(b, core, s) == ConfigFor(a, core, s)
  {
    assert Accounts(a.clients) == Accounts(b.clients);
    forall c | c in b.clients
      ensures FindInbound(b.inbounds, c.account.inboundId).Some?
    {
      var j :| 0 <= j < |b.clients| && b.clients[j] == c;
      assert a.clients[j] in a.clients;
    }
    forall i, j | 0 <= i < j < |b.clients|
      ensures b.clients[i].Id() != b.clients[j].Id() && b.clients[i].account.email != b.clients[j].account.email
    {
      assert a.clients[i].Id() != a.clients[j].Id();
    }
    SameEnabledIds(a, b);
    SameEnabledIds(b, a);
  }

  lemma FlaggedKeepsRows(w: World, counts: map<string, nat>)
    requires WellFormed(w.db)
    ensures SameRows(w.db, FlaggedDb(w, counts)) && WellFormed(FlaggedDb(w, counts))
    ensures EnabledIds(FlaggedDb(w, counts).clients) == EnabledIds(w.db.clients)
    ensures forall core, s :: ConfigFor(FlaggedDb(w, counts), core, s) == ConfigFor(w.db, core, s)
  {
    hide WellFormed, ConfigFor;
    var db := FlaggedDb(w, counts);
    forall j | 0 <= j < |w.db.clients|
      ensures db.clients[j].account == w.db.clients[j].account && db.clients[j].enabled == w.db.clients[j].enabled
    {
      FlagRow(w, counts, j);
    }
    SameAccounts(w.db, db);
  }

  lemma PollKept(w: World, e: Event)
    requires Kept(w) && e.PollNow? && Allowed(w, e)
    ensures Kept(Next(w, e)) && Next(w, e).panel.cut == UnusableIds(Next(w, e).db.clients, w.now)
  {
    hide WellFormed, ConfigFor;
    var db, next := FlaggedDb(w, e.counts), Next(w, e);
    var p := Poll(db, e.env, e.outs);
    FlaggedKeepsRows(w, e.counts);
    SweepCut(p, w.panel, |p.outs|);
    CutIsUnusable(p, w.panel, Sweep(p, w.panel, |p.outs|).cut);
    forall c | c in db.clients
      ensures RowFlags(next, c)
    {
      var j :| 0 <= j < |db.clients| && db.clients[j] == c;
      FlagRow(w, e.counts, j);
      UsableById(db, w.now, j);
      ClientByEnabledId(db, j);
    }
  }

  lemma ClockKept(w: World, e: Event)
    requires Kept(w) && (e.Wait? || e.PanelRestart? || e.Use?) && Allowed(w, e)
    ensures Kept(Next(w, e))
  {
    hide WellFormed;
    var next := Next(w, e);
    if e.Use? {
      SameAccounts(w.db, next.db);
    }
    forall c | c in next.db.clients
      ensures RowFlags(next, c)
    {
      var k :| 0 <= k < |next.db.clients| && next.db.clients[k] == c;
      assert w.db.clients[k] in w.db.clients && RowFlags(w, w.db.clients[k]);
    }
  }

  // Every row that is flagged after a request was flagged before it.
  predicate FlagsInherited(w: World, db: Db) {
    forall c :: c in db.clients && c.ipLimitExceeded ==>
      c.limitIp > 0 && exists d :: d in w.db.clients && d.Id() == c.Id() && d.ipLimitExceeded
  }

  lemma SameRowInherits(w: World, c: Client)
    requires Kept(w) && c in w.db.clients && c.ipLimitExceeded
    ensures c.limitIp > 0 && exists d :: d in w.db.clients && d.Id() == c.Id() && d.ipLimitExceeded
  {
    hide WellFormed;
    assert RowFlags(w, c);
  }

  lemma RowsInherit(w: World, db: Db)
    requires Kept(w) && forall c :: c in db.clients && c.ipLimitExceeded ==> c in w.db.clients
    ensures FlagsInherited(w, db)
  {
    forall c | c in db.clients && c.ipLimitExceeded
      ensures c.limitIp > 0 && exists d :: d in w.db.clients && d.Id() == c.Id() && d.ipLimitExceeded
    {
      SameRowInherits(w, c);
    }
  }

  lemma EditedRowsInherit(w: World, j: nat, c: Client)
    requires Kept(w) && j < |w.db.clients| && c.Id() == w.db.clients[j].Id()
    requires c.ipLimitExceeded ==> w.db.clients[j].ipLimitExceeded && c.limitIp > 0
    ensures FlagsInherited(w, w.db.(clients := w.db.clients[j := c]))
  {
    hide WellFormed;
    var next := w.db.clients[j := c];
    forall d | d in next && d.ipLimitExceeded
      ensures d.limitIp > 0 && exists x :: x in w.db.clients && x.Id() == d.Id() && x.ipLimitExceeded
    {
      var k :| 0 <= k < |next| && next[k] == d;
      assert w.db.clients[k] in w.db.clients;
      if k != j {
        SameRowInherits(w, d);
      }
    }
  }

  lemma EmailFree(db: Db, j: nat, c: Client)
    requires WellFormed(db) && j < |db.clients| && c.account == db.clients[j].account
    ensures !CE.EmailTaken(db, c.account.email, Some(c.Id()))
  {
    forall d | d in db.clients && d.account.email == c.account.email
      ensures d.Id() == c.Id()
    {
      var k :| 0 <= k < |db.clients| && db.clients[k] == d;
    }
  }

  lemma WellFormedAppend(db: Db, c: Client)
    requires WellFormed(db) && FindInbound(db.inbounds, c.account.inboundId).Some?
    requires !CE.EmailTaken(db, c.account.email, None) && forall d :: d in db.clients ==> d.Id() != c.Id()
    ensures WellFormed(db.(clients := db.clients + [c]))
  {
  }

  // The table after a request.
  lemma RequestRows(w: World, e: Event)
    requires Kept(w) && Request(e) && Allowed(w, e)
    ensures WellFormed(Edit(w, e).0) && FlagsInherited(w, Edit(w, e).0)
  {
    hide WellFormed, FlagsInherited, CE.AppliedAdd, CE.AppliedSync, CE.AppliedRemove, CE.ApplyCore,
         Provisioning.Replaced;
    RowsInherit(w, w.db);
    match e
    case Create(env, c, o) => CreateRows(w, c, Edit(w, e).0);
    case Update(env, j, p, gone, back) => UpdateRows(w, j, p, Edit(w, e).0);
    case Delete(env, j, o) =>
      CE.WellFormedWithout(w.db, j);
      RowsInherit(w, CE.WithoutClient(w.db, j));
    case ResetUsage(env, j) =>
      var c := w.db.clients[j].(up := 0, down := 0);
      EmailFree(w.db, j, c);
      CE.WellFormedEdit(w.db, j, c);
      assert w.db.clients[j] in w.db.clients && RowFlags(w, w.db.clients[j]);
      EditedRowsInherit(w, j, c);
    case ChangeRows(env, core, next) => RowsInherit(w, next);
    case Replace(job, gone, back) =>
      assert forall c :: c in job.After().clients ==> c in w.db.clients || c == job.c;
      RowsInherit(w, job.After());
  }

  lemma CreateRows(w: World, c: Client, next: Db)
    requires Kept(w) && Fresh(w, c)
    requires next == w.db
             || (next == w.db.(clients := w.db.clients + [c]) && !CE.EmailTaken(w.db, c.account.email, None)
                 && FindInbound(w.db.inbounds, c.account.inboundId).Some?)
    ensures WellFormed(next) && FlagsInherited(w, next)
  {
    hide WellFormed;
    RowsInherit(w, next);
    if next != w.db {
      WellFormedAppend(w.db, c);
    }
  }

  lemma UpdateRows(w: World, j: nat, p: CE.Patch, next: Db)
    requires Kept(w) && j < |w.db.clients|
    requires
      var c := CE.Patched(w.db.clients[j], p);
      next == w.db
      || (next == CE.Edited(w.db, j, p) && !CE.EmailTaken(w.db, c.account.email, Some(w.db.clients[j].Id())))
    ensures WellFormed(next) && FlagsInherited(w, next)
  {
    hide WellFormed, FlagsInherited, CE.EmailTaken, RowFlags;
    RowsInherit(w, w.db);
    if next != w.db {
      CE.WellFormedEdit(w.db, j, CE.Patched(w.db.clients[j], p));
      assert w.db.clients[j] in w.db.clients;
      EditedRowsInherit(w, j, CE.Patched(w.db.clients[j], p));
    }
  }

  lemma RequestKept(w: World, e: Event)
    requires Kept(w) && Request(e) && Allowed(w, e)
    ensures Kept(Next(w, e))
  {
    hide WellFormed, Edit;
    RequestRows(w, e);
    var next := Next(w, e);
    forall c | c in next.db.clients
      ensures RowFlags(next, c)
    {
      if c.ipLimitExceeded {
        var d :| d in w.db.clients && d.Id() == c.Id() && d.ipLimitExceeded;
        assert RowFlags(w, d);
      }
    }
  }

  lemma NextKept(w: World, e: Event)
    requires Kept(w) && Allowed(w, e)
    ensures Kept(Next(w, e))
  {
    hide Kept, Next, Allowed;
    match e
    case PollNow(_, _, _) => PollKept(w, e);
    case Wait(_) => ClockKept(w, e);
    case PanelRestart => ClockKept(w, e);
    case Use(_, _, _) => ClockKept(w, e);
    case _ => RequestKept(w, e);
  }

  lemma {:induction false} RunKept(w: World, events: seq<Event>)
    requires Kept(w) && Run(w, events)
    ensures Kept(After(w, events))
    decreases |events|
  {
    hide Kept, Next, Allowed;
    if events != [] {
      NextKept(w, events[0]);
      RunKept(Next(w, events[0]), events[1..]);
    }
  }

  // ------------------------------------------------------------------------
  // Every poll of every run
  // ------------------------------------------------------------------------

  predicate Right(w: World) {
    Converged(w.db, w.now, w.panel)
  }

  // After any run whatever, with requests at any moment and any outcomes, the next
  // poll ends with the cores serving exactly the usable clients, for every outcome of
  // its live calls, if and only if the state it starts from is fit.
  lemma {:induction false} EveryPollConvergesIff(w: World, events: seq<Event>, env: Env, counts: map<string, nat>)
    requires Kept(w) && Run(w, events) && env.now == After(w, events).now && Accepted(env)
    ensures
      var v := After(w, events);
      (forall outs | Allowed(v, PollNow(env, counts, outs)) :: Right(Next(v, PollNow(env, counts, outs))))
        <==> Drift.Fit(FlaggedDb(v, counts), env, v.panel)
  {
    hide Kept, Run, FlaggedDb, Drift.Fit, Enforced;
    RunKept(w, events);
    var v := After(w, events);
    assert WellFormed(v.db) by { KeptTable(v); }
    FlaggedKeepsRows(v, counts);
    Drift.PollConvergesIff(FlaggedDb(v, counts), env, v.panel);
    forall outs
      ensures Allowed(v, PollNow(env, counts, outs)) <==> PossibleOuts(Poll(FlaggedDb(v, counts), env, outs))
      ensures Allowed(v, PollNow(env, counts, outs)) ==>
        Right(Next(v, PollNow(env, counts, outs)))
          == Converged(FlaggedDb(v, counts), env.now, Enforced(Poll(FlaggedDb(v, counts), env, outs), v.panel))
    {
    }
  }

  lemma KeptTable(w: World)
    requires Kept(w)
    ensures WellFormed(w.db)
  {
  }

  // ------------------------------------------------------------------------
  // Worlds whose polls are fit
  // ------------------------------------------------------------------------

  // Both cores run their files, which serve `served`; whoever else is enabled is
  // unusable.
  predicate Sound(w: World) {
    && Kept(w)
    && CE.Runs(w.db, CoresOf(w), w.served)
    && w.served <= EnabledIds(w.db.clients)
    && forall c :: c in w.db.clients && c.enabled && c.Id() !in w.served ==> !c.IsUsable(w.now)
  }

  predicate StillUsable(db: Db, now: real, ids: set<nat>) {
    forall c :: c in db.clients && c.enabled && c.Id() in ids ==> c.IsUsable(now)
  }

  // What keeps a world sound: at a poll, a client of the memo that a request has put
  // back is still usable; a request ends in sync.
  predicate Orderly(w: World, e: Event)
    requires Allowed(w, e)
  {
    && (e.PollNow? ==> Accepted(e.env) && StillUsable(FlaggedDb(w, e.counts), w.now, w.panel.cut * w.served))
    && (Request(e) ==> Synced(Edit(w, e).0, w.now, Edit(w, e).1.xray, Edit(w, e).1.singbox))
  }

  // A sound world gives the premises of convergence, also right after a panel restart:
  // a cut client's flag cannot be cleared by the first poll that has forgotten it.
  lemma PollReady(w: World, e: Event)
    requires Sound(w) && e.PollNow? && Allowed(w, e) && Orderly(w, e)
    ensures Ready(FlaggedDb(w, e.counts), w.now, w.panel, w.served)
  {
    hide WellFormed, ConfigFor;
    var db := FlaggedDb(w, e.counts);
    FlaggedKeepsRows(w, e.counts);
    forall d | d in db.clients && d.enabled
      ensures if d.Id() in w.panel.cut then d.Id() !in w.served || d.IsUsable(w.now)
              else d.Id() in w.served || !d.IsUsable(w.now)
    {
      var j :| 0 <= j < |db.clients| && db.clients[j] == d;
      FlagRow(w, e.counts, j);
      assert w.db.clients[j] in w.db.clients && RowFlags(w, w.db.clients[j]);
    }
  }

  // Cores that are right make a sound world.
  lemma RightIsSound(w: World)
    requires Kept(w) && Synced(w.db, w.now, w.panel.xray, w.panel.singbox) && w.served == UsableIds(w.db.clients, w.now)
    ensures Sound(w)
  {
    hide WellFormed, ConfigFor, Load;
    forall c | c in w.db.clients && c.enabled && c.Id() !in w.served
      ensures !c.IsUsable(w.now)
    {
      var j :| 0 <= j < |w.db.clients| && w.db.clients[j] == c;
      UsableById(w.db, w.now, j);
    }
  }

  // Out of any state a run can reach, a request that ends in sync and a poll that is
  // fit lead back to a sound world.
  lemma Restored(w: World, e: Event)
    requires Kept(w) && Allowed(w, e)
    requires (e.PollNow? && Accepted(e.env) && Drift.Fit(FlaggedDb(w, e.counts), e.env, w.panel))
          || (Request(e) && Orderly(w, e))
    ensures Sound(Next(w, e)) && (e.PollNow? ==> Right(Next(w, e)))
  {
    hide Kept, Edit, FlaggedDb, Enforced, Synced, Drift.Fit, PossibleOuts;
    NextKept(w, e);
    if e.PollNow? {
      assert WellFormed(w.db) by { KeptTable(w); }
      FlaggedKeepsRows(w, e.counts);
      Drift.PollConvergesIff(FlaggedDb(w, e.counts), e.env, w.panel);
      assert PossibleOuts(Poll(FlaggedDb(w, e.counts), e.env, e.outs));
    }
    RightIsSound(Next(w, e));
  }

  // The clock, usage and restarts make nobody usable.
  lemma LaterUnusable(w: World, e: Event, k: nat)
    requires (e.Wait? || e.PanelRestart? || e.Use?) && Allowed(w, e) && k < |w.db.clients|
    ensures |Next(w, e).db.clients| == |w.db.clients|
    ensures
      var c, d := w.db.clients[k], Next(w, e).db.clients[k];
      c in w.db.clients && c.Id() == d.Id() && c.enabled == d.enabled
        && (d.IsUsable(Next(w, e).now) ==> c.IsUsable(w.now))
  {
  }

  lemma QuietSound(w: World, e: Event)
    requires Sound(w) && (e.Wait? || e.PanelRestart? || e.Use?) && Allowed(w, e)
    ensures Sound(Next(w, e))
  {
    ClockKept(w, e);
    hide WellFormed, ConfigFor, Kept, EnabledIds, Load;
    var next := Next(w, e);
    if e.Use? {
      assert WellFormed(w.db) by { KeptTable(w); }
      SameAccounts(w.db, next.db);
    }
    forall c | c in next.db.clients && c.enabled && c.Id() !in w.served
      ensures !c.IsUsable(next.now)
    {
      var k :| 0 <= k < |next.db.clients| && next.db.clients[k] == c;
      LaterUnusable(w, e, k);
    }
  }

  lemma NextSound(w: World, e: Event)
    requires Sound(w) && Allowed(w, e) && Orderly(w, e)
    ensures Sound(Next(w, e)) && (e.PollNow? ==> Right(Next(w, e)))
  {
    hide Kept, Next, Orderly, FlaggedDb, Drift.Fit;
    if e.PollNow? {
      PollReady(w, e);
      assert Accepted(e.env) && e.env.now == w.now by { PollAccepted(w, e); }
      Drift.ReadyIsFit(FlaggedDb(w, e.counts), e.env, w.panel, w.served);
      Restored(w, e);
    } else if Request(e) {
      Restored(w, e);
    } else {
      QuietSound(w, e);
    }
  }

  lemma PollAccepted(w: World, e: Event)
    requires e.PollNow? && Allowed(w, e) && Orderly(w, e)
    ensures Accepted(e.env) && e.env.now == w.now
  {
  }

  predicate OrderlyRun(w: World, events: seq<Event>)
    requires Run(w, events)
    decreases |events|
  {
    events != [] ==> Orderly(w, events[0]) && OrderlyRun(Next(w, events[0]), events[1..])
  }

  lemma {:induction false} OrderlyRunSound(w: World, events: seq<Event>)
    requires Sound(w) && Run(w, events) && OrderlyRun(w, events)
    ensures Sound(After(w, events))
    decreases |events|
  {
    hide Sound, Next, Allowed, Orderly;
    if events != [] {
      NextSound(w, events[0]);
      OrderlyRunSound(Next(w, events[0]), events[1..]);
    }
  }

  // However far the cores have drifted in a run, once an event restores them, every
  // poll of an orderly rest of the run converges.
  lemma RestoredRunsConverge(w: World, before: seq<Event>, restorer: Event, rest: seq<Event>, poll: Event)
    requires Kept(w) && Run(w, before) && Allowed(After(w, before), restorer)
    requires
      var v := After(w, before);
      (restorer.PollNow? && Accepted(restorer.env) && Drift.Fit(FlaggedDb(v, restorer.counts), restorer.env, v.panel))
      || (Request(restorer) && Orderly(v, restorer))
    requires
      var v := Next(After(w, before), restorer);
      Run(v, rest) && OrderlyRun(v, rest) && poll.PollNow? && Allowed(After(v, rest), poll)
        && Orderly(After(v, rest), poll)
    ensures Right(Next(After(Next(After(w, before), restorer), rest), poll))
  {
    hide Kept, Run, Allowed, Orderly, Next, After, OrderlyRun, Sound;
    RunKept(w, before);
    Restored(After(w, before), restorer);
    OrderlyRunSound(Next(After(w, before), restorer), rest);
    NextSound(After(Next(After(w, before), restorer), rest), poll);
  }

  // ------------------------------------------------------------------------
  // Runs nobody edits
  // ------------------------------------------------------------------------

  // A world that starts in sync with empty memos.
  predicate Initial(w: World) {
    && WellFormed(w.db) && Synced(w.db, w.now, w.panel.xray, w.panel.singbox)
    && w.panel.cut == {} && w.okSince == map[] && w.served == UsableIds(w.db.clients, w.now)
    && forall c :: c in w.db.clients && c.ipLimitExceeded ==> c.limitIp > 0
  }

  lemma InitialSound(w: World)
    requires Initial(w)
    ensures Sound(w)
  {
    RightIsSound(w);
  }

  // Not a request, and a poll's generated configs validate.
  predicate Unattended(e: Event) {
    !Request(e) && (e.PollNow? ==> Accepted(e.env))
  }

  // The memo never holds a served client, so nothing is left to ask of a poll.
  lemma UnattendedSound(w: World, e: Event)
    requires Sound(w) && w.panel.cut !! w.served && Unattended(e) && Allowed(w, e)
    ensures Sound(Next(w, e)) && Next(w, e).panel.cut !! Next(w, e).served
    ensures e.PollNow? ==> Right(Next(w, e))
  {
    hide WellFormed, ConfigFor, Load;
    assert w.panel.cut * w.served == {};
    NextSound(w, e);
    if e.PollNow? {
      var next := Next(w, e);
      forall id | id in next.panel.cut
        ensures id !in next.served
      {
        var c :| c in next.db.clients && c.enabled && !c.IsUsable(w.now) && c.Id() == id;
        var j :| 0 <= j < |next.db.clients| && next.db.clients[j] == c;
        UsableById(next.db, w.now, j);
      }
    }
  }

  lemma {:induction false} UnattendedRunSound(w: World, events: seq<Event>)
    requires Sound(w) && w.panel.cut !! w.served && Run(w, events) && forall e :: e in events ==> Unattended(e)
    ensures Sound(After(w, events)) && After(w, events).panel.cut !! After(w, events).served
    decreases |events|
  {
    hide Sound, Next, Allowed, Unattended;
    if events != [] {
      UnattendedSound(w, events[0]);
      UnattendedRunSound(Next(w, events[0]), events[1..]);
    }
  }

  // From a synchronised start, every poll of every run of clock, usage, restarts and
  // polls ends with the cores serving exactly the usable clients. No hypothesis is left.
  lemma EveryUnattendedPollConverges(w: World, events: seq<Event>, poll: Event)
    requires Initial(w) && Run(w, events) && forall e :: e in events ==> Unattended(e)
    requires poll.PollNow? && Unattended(poll) && Allowed(After(w, events), poll)
    ensures Right(Next(After(w, events), poll))
  {
    hide Sound, Next, Allowed, Right, Run;
    InitialSound(w);
    UnattendedRunSound(w, events);
    UnattendedSound(After(w, events), poll);
  }

  // ------------------------------------------------------------------------
  // Requests on cores that are right are orderly
  // ------------------------------------------------------------------------

  // A client request on synchronised cores ends in sync for every outcome of its live
  // calls, except a fragile edit, whose calls must be confirmed, and a replacement that
  // is not safe.
  lemma SyncedRequestsOrderly(w: World, e: Event)
    requires Kept(w) && Allowed(w, e) && Synced(w.db, w.now, w.panel.xray, w.panel.singbox)
    requires e.Create? || e.Update? || e.Delete? || e.ResetUsage? || e.Replace?
    requires Accepted(EnvOf(e)) && (e.Update? && CE.Fragile(e.env, w.db, e.j, e.p) ==> e.gone.ok && e.back.ok)
    requires e.Replace? ==> Provisioning.Works(e.job, e.gone, e.back)
    ensures Orderly(w, e)
  {
    hide WellFormed, CE.Created, CE.Deleted, CE.Reset, CE.Updated, ConfigFor, Load;
    var s := CoresOf(w);
    match e
    case Create(env, c, o) => CE.CreateKeepsSync(env, w.db, s, c, o);
    case Update(env, j, p, gone, back) => SyncedUpdateOrderly(w, e);
    case Delete(env, j, o) => CE.DeleteKeepsSync(env, w.db, s, j, o);
    case ResetUsage(env, j) => CE.ResetKeepsSync(env, w.db, s, j);
    case Replace(job, gone, back) => SyncedReplaceOrderly(w, e);
  }

  lemma SyncedReplaceOrderly(w: World, e: Event)
    requires Allowed(w, e) && Synced(w.db, w.now, w.panel.xray, w.panel.singbox)
    requires e.Replace? && Provisioning.Works(e.job, e.gone, e.back)
    ensures Orderly(w, e)
  {
    hide WellFormed, ConfigFor, Load, Provisioning.Replacement, Provisioning.Works;
    Provisioning.ReplacementWorks(e.job, CoresOf(w), e.gone, e.back);
  }

  lemma SyncedUpdateOrderly(w: World, e: Event)
    requires Kept(w) && Allowed(w, e) && Synced(w.db, w.now, w.panel.xray, w.panel.singbox)
    requires e.Update? && Accepted(e.env) && (CE.Fragile(e.env, w.db, e.j, e.p) ==> e.gone.ok && e.back.ok)
    ensures Orderly(w, e)
  {
    hide WellFormed, ConfigFor, Load, CE.AppliedSync, CE.Fragile;
    assert w.db.clients[e.j] in w.db.clients;
    if !CE.EmailTaken(w.db, CE.Patched(w.db.clients[e.j], e.p).account.email, Some(w.db.clients[e.j].Id())) {
      CE.UpdateKeepsSync(e.env, w.db, CoresOf(w), e.j, e.p, e.gone, e.back);
    }
  }
}
