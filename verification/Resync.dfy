// When a client request leaves both cores in sync, from any state of the cores: after
// an expiry nobody has acted on yet, after a call that landed half way, and so on.
// Each lemma is about one helper of api/clients.py and all outcomes of its live calls.
module Resync {
  import opened Models
  import opened Render
  import opened Cores
  import opened Serving
  import opened Enforcer
  import opened ClientEdits

  function Wanted(db: Db, kind: CoreKind, now: real): CoreState {
    CoreState(Generate(db, kind, now), Load(Generate(db, kind, now)))
  }

  // A full apply puts this core right: its file changes, or its process is right as
  // it is, or the core is to be stopped.
  predicate Curable(db: Db, kind: CoreKind, now: real, s: CoreState) {
    || (kind == Singbox && QueryInbounds(db.inbounds, Singbox) == [])
    || s.disk != Generate(db, kind, now)
    || s.running == Load(Generate(db, kind, now))
  }

  lemma AppliedRightIff(s: CoreState, db: Db, kind: CoreKind, binary: bool, now: real)
    ensures Applied(s, db, kind, binary, now, true).0 == Wanted(db, kind, now) <==> Curable(db, kind, now, s)
  {
    hide Load;
    if kind == Singbox && QueryInbounds(db.inbounds, Singbox) == [] {
      assert Generate(db, Singbox, now) == [];
      assert Load([]) == [] by { EmptyLoads(); }
    }
  }

  lemma EmptyLoads()
    ensures Load([]) == []
  {
  }

  // _apply: the other core has to be right already.
  lemma ApplySyncsIff(env: Env, core: CoreKind, db: Db, s: BothCores)
    requires Accepted(env)
    ensures InSync(env, db, ApplyCore(env, core, db, s).0) <==>
      match core
      case Xray => Curable(db, Xray, env.now, s.xray) && s.singbox == Wanted(db, Singbox, env.now)
      case Singbox => Curable(db, Singbox, env.now, s.singbox) && s.xray == Wanted(db, Xray, env.now)
  {
    hide Applied, Load, Generate;
    AppliedRightIff(s.xray, db, Xray, env.binary, env.now);
    AppliedRightIff(s.singbox, db, Singbox, env.sbBinary, env.now);
    AcceptedApplies(env, core, db, s);
  }

  lemma AcceptedApplies(env: Env, core: CoreKind, db: Db, s: BothCores)
    requires Accepted(env)
    ensures ApplyCore(env, core, db, s).0 ==
      match core
      case Xray => s.(xray := Applied(s.xray, db, Xray, env.binary, env.now, true).0)
      case Singbox => s.(singbox := Applied(s.singbox, db, Singbox, env.sbBinary, env.now, true).0)
  {
  }

  // ------------------------------------------------------------------------
  // Live calls that change nothing, and confirmed ones
  // ------------------------------------------------------------------------

  // Removing an email that no served client has.
  lemma RemovalHarmless(db: Db, now: real, landed: set<string>, email: string)
    requires WellFormed(db)
    requires forall k :: 0 <= k < |db.clients| && db.clients[k].account.email == email ==> !db.clients[k].IsUsable(now)
    ensures RemoveOn(Load(Generate(db, Xray, now)), landed, email) == Load(Generate(db, Xray, now))
  {
    hide WellFormed, UsableIds, ConfigFor;
    var usable := UsableIds(db.clients, now);
    var running := Loaded(db, Xray, usable);
    LoadedLengths(db, Xray, usable);
    forall i | 0 <= i < |running|
      ensures Look(running[i].users, email) == None
    {
      if k :| 0 <= k < |db.clients| && db.clients[k].account.email == email {
        LookTable(db, Xray, usable, i, k);
        UsableById(db, now, k);
      } else {
        LookNobody(db, Xray, usable, i, email);
      }
    }
    RemoveAbsent(running, landed, email);
  }

  lemma RemoveAbsent(running: seq<Live>, landed: set<string>, email: string)
    requires forall i :: 0 <= i < |running| ==> Look(running[i].users, email) == None
    ensures RemoveOn(running, landed, email) == running
  {
    forall i | 0 <= i < |running|
      ensures RemoveOn(running, landed, email)[i] == running[i]
    {
      assert Look(running[i].users, email) == None;
      assert running[i].users - {email} == running[i].users;
    }
  }

  // Adding a usable client that is there already.
  lemma AdditionHarmless(env: Env, db: Db, ib: Inbound, j: nat, o: Outcome)
    requires WellFormed(db) && j < |db.clients| && db.clients[j].IsUsable(env.now)
    requires FindInbound(db.inbounds, db.clients[j].account.inboundId) == Some(ib)
    requires SupportsLive(ib, env.binary) && Possible(o, TagsOf(ib))
    ensures AddOn(Load(Generate(db, Xray, env.now)), o.landed, ClientEntry(ib.protocol, db.clients[j].account))
         == Load(Generate(db, Xray, env.now))
  {
    var usable := UsableIds(db.clients, env.now);
    UsableById(db, env.now, j);
    LiveCallSwitches(db, usable, usable, j, env.binary, o);
  }

  lemma ConfirmedLands(o: Outcome, ib: Inbound)
    requires Possible(o, TagsOf(ib)) && o.ok
    ensures o.landed == Everywhere(ib).landed
  {
  }

  // A row that is not rendered has no listeners for a call to land on.
  lemma DisabledRowUntouched(db: Db, now: real, ib: Inbound, landed: set<string>)
    requires WellFormed(db) && ib in db.inbounds && !ib.enabled && forall t :: t in landed ==> t in TagsOf(ib)
    ensures forall email :: RemoveOn(Load(Generate(db, Xray, now)), landed, email) == Load(Generate(db, Xray, now))
    ensures forall e :: AddOn(Load(Generate(db, Xray, now)), landed, e) == Load(Generate(db, Xray, now))
  {
    hide WellFormed, UsableIds, ConfigFor;
    var usable := UsableIds(db.clients, now);
    var running := Loaded(db, Xray, usable);
    LoadedLengths(db, Xray, usable);
    forall i | 0 <= i < |running|
      ensures running[i].shape.tag !in landed
    {
      LoadedAt(db, Xray, usable, i);
      OwnerByTag(db, Xray, i, ib);
    }
    assert forall email :: RemoveOn(running, landed, email) == running;
    assert forall e :: AddOn(running, landed, e) == running;
  }

  // ------------------------------------------------------------------------
  // The helpers
  // ------------------------------------------------------------------------

  // A live call followed by persist_config when confirmed, by a full apply when not.
  function Concluded(env: Env, db: Db, s: BothCores, running: seq<Live>, ok: bool): BothCores {
    if ok then Persisted(env, db, s, running) else ApplyCore(env, Xray, db, WithRunning(s, running)).0
  }

  // If the file says it all already the reload is skipped, so the process must be
  // right whether or not the call was confirmed.
  lemma ConcludedSyncsIff(env: Env, db: Db, s: BothCores, running: seq<Live>, ok: bool)
    requires Accepted(env)
    ensures InSync(env, db, Concluded(env, db, s, running, ok)) <==>
      && s.singbox == Wanted(db, Singbox, env.now)
      && (ok || s.xray.disk == Generate(db, Xray, env.now) ==> running == Load(Generate(db, Xray, env.now)))
  {
    hide ApplyCore, Load, Generate;
    ApplySyncsIff(env, Xray, db, WithRunning(s, running));
  }

  lemma NothingLands(running: seq<Live>, e: Entry, email: string)
    ensures AddOn(running, {}, e) == running && RemoveOn(running, {}, email) == running
  {
  }

  // _apply_add of a usable client on a live-capable row.
  lemma AddSyncsIff(env: Env, db: Db, s: BothCores, ib: Inbound, j: nat)
    requires WellFormed(db) && Accepted(env) && j < |db.clients| && db.clients[j].IsUsable(env.now)
    requires FindInbound(db.inbounds, db.clients[j].account.inboundId) == Some(ib) && SupportsLive(ib, env.binary)
    ensures
      var c, wanted := db.clients[j], Wanted(db, Xray, env.now);
      var added := AddOn(s.xray.running, Everywhere(ib).landed, ClientEntry(ib.protocol, c.account));
      (forall o | Possible(o, TagsOf(ib)) :: InSync(env, db, AppliedAdd(env, db, s, ib, c, o).0)) <==>
        && s.singbox == Wanted(db, Singbox, env.now)
        && (if s.xray.disk == wanted.disk then s.xray.running else added) == wanted.running
  {
    var c, wanted := db.clients[j], Wanted(db, Xray, env.now);
    var entry := ClientEntry(ib.protocol, c.account);
    var current := s.xray.disk == wanted.disk;
    var added := AddOn(s.xray.running, Everywhere(ib).landed, entry);
    hide ApplyCore, AddOn, Load, Generate, WellFormed, AppliedAdd;
    NothingLands(s.xray.running, entry, c.account.email);
    if s.singbox == Wanted(db, Singbox, env.now) && (if current then s.xray.running else added) == wanted.running {
      forall o | Possible(o, TagsOf(ib))
        ensures InSync(env, db, AppliedAdd(env, db, s, ib, c, o).0)
      {
        AddConcludes(env, db, s, ib, c, o);
        ConcludedSyncsIff(env, db, s, AddOn(s.xray.running, o.landed, entry), o.ok);
        if o.ok {
          ConfirmedLands(o, ib);
        }
        AdditionHarmless(env, db, ib, j, o);
      }
    } else {
      var o := if current then NOTHING else Everywhere(ib);
      AddConcludes(env, db, s, ib, c, o);
      ConcludedSyncsIff(env, db, s, AddOn(s.xray.running, o.landed, entry), o.ok);
      assert Possible(o, TagsOf(ib)) && !InSync(env, db, AppliedAdd(env, db, s, ib, c, o).0);
    }
  }

  lemma AddConcludes(env: Env, db: Db, s: BothCores, ib: Inbound, c: Client, o: Outcome)
    requires SupportsLive(ib, env.binary) && c.IsUsable(env.now)
    ensures AppliedAdd(env, db, s, ib, c, o).0
         == Concluded(env, db, s, AddOn(s.xray.running, o.landed, ClientEntry(ib.protocol, c.account)), o.ok)
  {
    hide ApplyCore, AddOn, Generate;
  }

  // _apply_remove on a live-capable row; `db` is the table without the client.
  lemma RemoveSyncsIff(env: Env, db: Db, s: BothCores, ib: Inbound, email: string)
    requires WellFormed(db) && Accepted(env) && SupportsLive(ib, env.binary)
    requires forall c :: c in db.clients ==> c.account.email != email
    ensures
      var wanted := Wanted(db, Xray, env.now);
      var removed := RemoveOn(s.xray.running, Everywhere(ib).landed, email);
      (forall o | Possible(o, TagsOf(ib)) :: InSync(env, db, AppliedRemove(env, db, s, ib, email, o).0)) <==>
        && s.singbox == Wanted(db, Singbox, env.now)
        && (if s.xray.disk == wanted.disk then s.xray.running else removed) == wanted.running
  {
    var wanted := Wanted(db, Xray, env.now);
    var current := s.xray.disk == wanted.disk;
    var removed := RemoveOn(s.xray.running, Everywhere(ib).landed, email);
    hide ApplyCore, RemoveOn, Load, Generate, WellFormed, AppliedRemove;
    NothingLands(s.xray.running, Entry("", "", "", ""), email);
    if s.singbox == Wanted(db, Singbox, env.now) && (if current then s.xray.running else removed) == wanted.running {
      forall o | Possible(o, TagsOf(ib))
        ensures InSync(env, db, AppliedRemove(env, db, s, ib, email, o).0)
      {
        RemoveConcludes(env, db, s, ib, email, o);
        ConcludedSyncsIff(env, db, s, RemoveOn(s.xray.running, o.landed, email), o.ok);
        if o.ok {
          ConfirmedLands(o, ib);
        }
        RemovalHarmless(db, env.now, o.landed, email);
      }
    } else {
      var o := if current then NOTHING else Everywhere(ib);
      RemoveConcludes(env, db, s, ib, email, o);
      ConcludedSyncsIff(env, db, s, RemoveOn(s.xray.running, o.landed, email), o.ok);
      assert Possible(o, TagsOf(ib)) && !InSync(env, db, AppliedRemove(env, db, s, ib, email, o).0);
    }
  }

  lemma RemoveConcludes(env: Env, db: Db, s: BothCores, ib: Inbound, email: string, o: Outcome)
    requires SupportsLive(ib, env.binary)
    ensures AppliedRemove(env, db, s, ib, email, o).0
         == Concluded(env, db, s, RemoveOn(s.xray.running, o.landed, email), o.ok)
  {
    hide ApplyCore, RemoveOn, Generate;
  }

  // What _apply_sync leaves, given what its two calls do.
  function ResyncRunning(env: Env, s: BothCores, ib: Inbound, c: Client, oldEmail: string, gone: Outcome,
                         back: Outcome)
    : seq<Live>
  {
    var removed := RemoveOn(s.xray.running, gone.landed, oldEmail);
    if gone.ok && c.IsUsable(env.now) then AddOn(removed, back.landed, ClientEntry(ib.protocol, c.account)) else removed
  }

  lemma ResyncConcludes(env: Env, db: Db, s: BothCores, ib: Inbound, c: Client, oldEmail: string, gone: Outcome,
                        back: Outcome)
    requires Accepted(env) && SupportsLive(ib, env.binary)
    ensures AppliedSync(env, db, s, ib, c, oldEmail, gone, back).0
            == Concluded(env, db, s, ResyncRunning(env, s, ib, c, oldEmail, gone, back),
                         gone.ok && (c.IsUsable(env.now) ==> back.ok))
  {
    hide ApplyCore, RemoveOn, AddOn, Generate;
  }

  // A process that has the client loses it when the removal lands and the re-add
  // does not.
  lemma RemovalShows(db: Db, now: real, ib: Inbound, j: nat)
    requires WellFormed(db) && j < |db.clients| && db.clients[j].IsUsable(now) && ib.enabled && ib.core == Xray
    requires FindInbound(db.inbounds, db.clients[j].account.inboundId) == Some(ib) && HasUserTable(ib.protocol)
    ensures RemoveOn(Load(Generate(db, Xray, now)), Everywhere(ib).landed, db.clients[j].account.email)
         != Load(Generate(db, Xray, now))
  {
    hide WellFormed, UsableIds, ConfigFor;
    var usable := UsableIds(db.clients, now);
    var running := Loaded(db, Xray, usable);
    var i := PrimaryListener(db, ib);
    UsableById(db, now, j);
    LookTable(db, Xray, usable, i, j);
    LoadedAt(db, Xray, usable, i);
    assert TagsOf(ib)[0] == ib.tag && ib.tag in Everywhere(ib).landed;
    var left := RemoveOn(running, Everywhere(ib).landed, db.clients[j].account.email);
    assert db.clients[j].account.email !in left[i].users;
  }

  // _apply_sync on a live-capable row; `db` is the table with the edited client, and
  // oldEmail the one it had. With a current file the process must be right already,
  // and a client that stays usable on a rendered row must have been renamed.
  lemma ResyncSyncsIff(env: Env, db: Db, s: BothCores, ib: Inbound, j: nat, oldEmail: string)
    requires WellFormed(db) && Accepted(env) && j < |db.clients|
    requires FindInbound(db.inbounds, db.clients[j].account.inboundId) == Some(ib) && SupportsLive(ib, env.binary)
    requires forall k :: 0 <= k < |db.clients| && k != j ==> db.clients[k].account.email != oldEmail
    ensures
      var c, wanted := db.clients[j], Wanted(db, Xray, env.now);
      (forall gone, back | Possible(gone, TagsOf(ib)) && Possible(back, TagsOf(ib)) ::
         InSync(env, db, AppliedSync(env, db, s, ib, c, oldEmail, gone, back).0)) <==>
        && s.singbox == Wanted(db, Singbox, env.now)
        && (if s.xray.disk == wanted.disk
            then s.xray.running == wanted.running && (c.IsUsable(env.now) && ib.enabled ==> c.account.email != oldEmail)
            else ResyncRunning(env, s, ib, c, oldEmail, Everywhere(ib), Everywhere(ib)) == wanted.running)
  {
    var c, wanted := db.clients[j], Wanted(db, Xray, env.now);
    hide ApplyCore, RemoveOn, AddOn, Load, Generate, WellFormed, AppliedSync;
    var fit := if s.xray.disk == wanted.disk
               then s.xray.running == wanted.running
                    && (c.IsUsable(env.now) && ib.enabled ==> c.account.email != oldEmail)
               else ResyncRunning(env, s, ib, c, oldEmail, Everywhere(ib), Everywhere(ib)) == wanted.running;
    if s.singbox == Wanted(db, Singbox, env.now) && fit {
      forall gone, back | Possible(gone, TagsOf(ib)) && Possible(back, TagsOf(ib))
        ensures InSync(env, db, AppliedSync(env, db, s, ib, c, oldEmail, gone, back).0)
      {
        ResyncConcludes(env, db, s, ib, c, oldEmail, gone, back);
        ConcludedSyncsIff(env, db, s, ResyncRunning(env, s, ib, c, oldEmail, gone, back),
                          gone.ok && (c.IsUsable(env.now) ==> back.ok));
        if s.xray.disk == wanted.disk {
          ResyncHarmless(env, db, s, ib, j, oldEmail, gone, back);
        } else {
          ResyncConfirmed(env, s, ib, c, oldEmail, gone, back);
        }
      }
    } else {
      var gone, back := ResyncFails(env, db, s, ib, j, oldEmail);
      assert !InSync(env, db, AppliedSync(env, db, s, ib, c, oldEmail, gone, back).0);
    }
  }

  lemma ResyncConfirmed(env: Env, s: BothCores, ib: Inbound, c: Client, oldEmail: string, gone: Outcome, back: Outcome)
    requires Possible(gone, TagsOf(ib)) && Possible(back, TagsOf(ib))
    ensures gone.ok && (c.IsUsable(env.now) ==> back.ok) ==>
      ResyncRunning(env, s, ib, c, oldEmail, gone, back)
        == ResyncRunning(env, s, ib, c, oldEmail, Everywhere(ib), Everywhere(ib))
  {
    hide RemoveOn, AddOn;
    if gone.ok {
      ConfirmedLands(gone, ib);
    }
    if back.ok {
      ConfirmedLands(back, ib);
    }
  }

  lemma ResyncHarmless(env: Env, db: Db, s: BothCores, ib: Inbound, j: nat, oldEmail: string, gone: Outcome,
                       back: Outcome)
    requires WellFormed(db) && j < |db.clients| && s.xray.running == Load(Generate(db, Xray, env.now))
    requires FindInbound(db.inbounds, db.clients[j].account.inboundId) == Some(ib) && SupportsLive(ib, env.binary)
    requires forall k :: 0 <= k < |db.clients| && k != j ==> db.clients[k].account.email != oldEmail
    requires db.clients[j].IsUsable(env.now) && ib.enabled ==> db.clients[j].account.email != oldEmail
    requires Possible(gone, TagsOf(ib)) && Possible(back, TagsOf(ib))
    ensures ResyncRunning(env, s, ib, db.clients[j], oldEmail, gone, back) == Load(Generate(db, Xray, env.now))
  {
    hide RemoveOn, AddOn, Load, Generate, WellFormed;
    if !ib.enabled {
      DisabledRowUntouched(db, env.now, ib, gone.landed);
      DisabledRowUntouched(db, env.now, ib, back.landed);
    } else {
      RemovalHarmless(db, env.now, gone.landed, oldEmail);
      if db.clients[j].IsUsable(env.now) {
        AdditionHarmless(env, db, ib, j, back);
      }
    }
  }

  lemma ResyncFails(env: Env, db: Db, s: BothCores, ib: Inbound, j: nat, oldEmail: string)
    returns (gone: Outcome, back: Outcome)
    requires WellFormed(db) && Accepted(env) && j < |db.clients|
    requires FindInbound(db.inbounds, db.clients[j].account.inboundId) == Some(ib) && SupportsLive(ib, env.binary)
    requires
      var c, wanted := db.clients[j], Wanted(db, Xray, env.now);
      s.singbox == Wanted(db, Singbox, env.now) ==>
        !(if s.xray.disk == wanted.disk
          then s.xray.running == wanted.running && (c.IsUsable(env.now) && ib.enabled ==> c.account.email != oldEmail)
          else ResyncRunning(env, s, ib, c, oldEmail, Everywhere(ib), Everywhere(ib)) == wanted.running)
    ensures Possible(gone, TagsOf(ib)) && Possible(back, TagsOf(ib))
    ensures !InSync(env, db, AppliedSync(env, db, s, ib, db.clients[j], oldEmail, gone, back).0)
  {
    hide ApplyCore, RemoveOn, AddOn, Load, Generate, WellFormed, AppliedSync;
    var c := db.clients[j];
    var entry := ClientEntry(ib.protocol, c.account);
    gone, back := Everywhere(ib), Everywhere(ib);
    if s.xray.disk == Generate(db, Xray, env.now) {
      back := NOTHING;
      NothingLands(RemoveOn(s.xray.running, gone.landed, oldEmail), entry, oldEmail);
      if s.xray.running == Load(Generate(db, Xray, env.now)) {
        if c.IsUsable(env.now) && ib.enabled {
          RemovalShows(db, env.now, ib, j);
        }
      } else {
        gone := NOTHING;
        NothingLands(s.xray.running, entry, oldEmail);
      }
    }
    ResyncConcludes(env, db, s, ib, c, oldEmail, gone, back);
    ConcludedSyncsIff(env, db, s, ResyncRunning(env, s, ib, c, oldEmail, gone, back),
                      gone.ok && (c.IsUsable(env.now) ==> back.ok));
  }
}
