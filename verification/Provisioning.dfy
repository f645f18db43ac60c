// core/provisioning.py: the bot's delete-old + create-new replacement, applied as
// one change across two inbounds and possibly two cores.
module Provisioning {
  import opened Models
  import opened Render
  import opened Cores
  import opened Serving
  import opened Enforcer
  import opened ClientEdits
  import Resync

  // A replacement: `prior` is the client row that goes, if there is one; `c` the new
  // row. All database work is done before the cores are touched.
  datatype Job = Job(env: Env, before: Db, prior: Option<nat>, c: Client) {
    predicate Ok() {
      && WellFormed(before) && WellFormed(After()) && Accepted(env)
      && (prior.Some? ==> prior.value < |before.clients|)
      && (forall d :: d in before.clients ==> d.Id() != c.Id())
      && FindInbound(before.inbounds, c.account.inboundId).Some?
    }

    function Mid(): Db {
      if prior.Some? && prior.value < |before.clients| then WithoutClient(before, prior.value) else before
    }

    function After(): Db {
      Mid().(clients := Mid().clients + [c])
    }

    // The inbound of the new client.
    function Ib(): Inbound
      requires Ok()
    {
      FindInbound(before.inbounds, c.account.inboundId).value
    }

    // The inbound and email of the old client.
    function Old(): Option<(Inbound, string)>
      requires Ok()
    {
      if prior.None? then None
      else
        var a := before.clients[prior.value].account;
        assert before.clients[prior.value] in before.clients;
        Some((FindInbound(before.inbounds, a.inboundId).value, a.email))
    }
  }

  predicate Live(job: Job, ib: Inbound) {
    SupportsLive(ib, job.env.binary)
  }

  // What the calls on the new client's inbound leave in the process, and whether they
  // count as done.
  function Called(env: Env, s: BothCores, ib: Inbound, c: Client, prior: Option<(Inbound, string)>, gone: Outcome,
                  back: Outcome)
    : (seq<Live>, bool)
  {
    var here := prior.Some? && prior.value.0 == ib;
    if !SupportsLive(ib, env.binary) then (s.xray.running, false)
    else
      var removed := if here then RemoveOn(s.xray.running, gone.landed, prior.value.1) else s.xray.running;
      if (here ==> gone.ok) && c.enabled && c.IsUsable(env.now) then
        (AddOn(removed, back.landed, ClientEntry(ib.protocol, c.account)), back.ok)
      else (removed, false)
  }

  // The part after an old user on another live-capable inbound has been dealt with.
  function ReplacedOnTarget(env: Env, db: Db, s: BothCores, ib: Inbound, c: Client, prior: Option<(Inbound, string)>,
                            gone: Outcome, back: Outcome): (BothCores, bool)
  {
    var elsewhere := prior.Some? && prior.value.0 != ib;
    var (running, done) := Called(env, s, ib, c, prior, gone, back);
    if done then
      var persisted := Persisted(env, db, s, running);
      if elsewhere then ApplyCore(env, prior.value.0.core, db, persisted) else (persisted, true)
    else
      var (next, ok) := ApplyCore(env, ib.core, db, WithRunning(s, running));
      if ok && elsewhere && prior.value.0.core != ib.core then ApplyCore(env, prior.value.0.core, db, next)
      else (next, ok)
  }

  // provisioning.apply_replace
  function Replaced(env: Env, db: Db, s: BothCores, ib: Inbound, c: Client, prior: Option<(Inbound, string)>,
                    gone: Outcome, back: Outcome): (BothCores, bool)
  {
    if prior.Some? && prior.value.0 != ib && SupportsLive(prior.value.0, env.binary) then
      var removed := RemoveOn(s.xray.running, gone.landed, prior.value.1);
      var (next, ok) :=
        if gone.ok then (Persisted(env, db, s, removed), true)
        else ApplyCore(env, prior.value.0.core, db, WithRunning(s, removed));
      if ok then ReplacedOnTarget(env, db, next, ib, c, None, gone, back) else (next, false)
    else ReplacedOnTarget(env, db, s, ib, c, prior, gone, back)
  }

  class Provisioner {
    const xray: Core
    const singbox: Core

    constructor (xray: Core, singbox: Core)
      requires xray.kind == Xray && singbox.kind == Singbox
      ensures Valid() && this.xray == xray && this.singbox == singbox
    {
      this.xray, this.singbox := xray, singbox;
    }

    predicate Valid() {
      xray.kind == Xray && singbox.kind == Singbox
    }

    function Cores(): BothCores
      reads xray, singbox
    {
      BothCores(xray.State(), singbox.State())
    }

    predicate Sees(env: Env) {
      env.binary == xray.binary && env.sbBinary == singbox.binary
    }

    method ApplyCoreNow(env: Env, db: Db, core: CoreKind) returns (ok: bool)
      requires Valid() && Sees(env)
      modifies xray, singbox
      ensures (Cores(), ok) == ApplyCore(env, core, db, old(Cores()))
    {
      if core == Xray {
        ok := xray.Apply(db, env.now, env.xrayValid);
      } else {
        ok := singbox.Apply(db, env.now, env.sbValid);
      }
    }

    // The part after an old user on another live-capable inbound has been dealt with.
    method ReplaceOnTarget(env: Env, db: Db, ib: Inbound, c: Client, prior: Option<(Inbound, string)>)
      returns (ok: bool, ghost gone: Outcome, ghost back: Outcome)
      requires Valid() && Sees(env)
      modifies xray, singbox
      ensures prior.Some? ==> Possible(gone, TagsOf(prior.value.0))
      ensures Possible(back, TagsOf(ib))
      ensures (Cores(), ok) == ReplacedOnTarget(env, db, old(Cores()), ib, c, prior, gone, back)
    {
      hide AddOn, RemoveOn, Generate, Applied, OthersKept, Carries;
      gone, back := NOTHING, NOTHING;
      if SupportsLive(ib, env.binary) {
        var removedOk := true;
        if prior.Some? && prior.value.0 == ib {
          removedOk, gone := xray.RemoveUserLive(ib, prior.value.1);
        }
        if removedOk && c.enabled && c.IsUsable(env.now) {
          var added;
          added, back := xray.AddUserLive(ib, c.account);
          if added {
            xray.PersistConfig(db, env.now);
            ok := true;
            if prior.Some? && prior.value.0 != ib {
              ok := ApplyCoreNow(env, db, prior.value.0.core);
            }
            return;
          }
        }
      }
      ok := ApplyCoreNow(env, db, ib.core);
      if ok && prior.Some? && prior.value.0 != ib && prior.value.0.core != ib.core {
        ok := ApplyCoreNow(env, db, prior.value.0.core);
      }
    }

    method ApplyReplace(env: Env, db: Db, ib: Inbound, c: Client, prior: Option<(Inbound, string)>)
      returns (ok: bool, ghost gone: Outcome, ghost back: Outcome)
      requires Valid() && Sees(env)
      modifies xray, singbox
      ensures prior.Some? ==> Possible(gone, TagsOf(prior.value.0))
      ensures Possible(back, TagsOf(ib))
      ensures (Cores(), ok) == Replaced(env, db, old(Cores()), ib, c, prior, gone, back)
    {
      hide RemoveOn, Generate, Applied, OthersKept, ReplacedOnTarget;
      if prior.Some? && prior.value.0 != ib && SupportsLive(prior.value.0, env.binary) {
        back := NOTHING;
        var removed;
        removed, gone := xray.RemoveUserLive(prior.value.0, prior.value.1);
        if removed {
          xray.PersistConfig(db, env.now);
        } else {
          ok := ApplyCoreNow(env, db, prior.value.0.core);
          if !ok {
            return;
          }
        }
        ghost var s := Cores();
        ghost var unused;
        ok, unused, back := ReplaceOnTarget(env, db, ib, c, None);
        NobodyGone(env, db, s, ib, c, unused, gone, back);
      } else {
        ok, gone, back := ReplaceOnTarget(env, db, ib, c, prior);
      }
    }
  }

  // Without an old client on the inbound there is no removal.
  lemma NobodyGone(env: Env, db: Db, s: BothCores, ib: Inbound, c: Client, a: Outcome, b: Outcome, back: Outcome)
    ensures ReplacedOnTarget(env, db, s, ib, c, None, a, back) == ReplacedOnTarget(env, db, s, ib, c, None, b, back)
  {
    hide AddOn, RemoveOn, Generate, Applied;
  }

  // ------------------------------------------------------------------------
  // The three configs: before, without the old client, and after
  // ------------------------------------------------------------------------

  function G0(job: Job, core: CoreKind): Config { Generate(job.before, core, job.env.now) }
  function Gm(job: Job, core: CoreKind): Config { Generate(job.Mid(), core, job.env.now) }
  function G1(job: Job, core: CoreKind): Config { Generate(job.After(), core, job.env.now) }

  lemma MidWellFormed(job: Job)
    requires job.Ok()
    ensures WellFormed(job.Mid())
  {
    if job.prior.Some? {
      WellFormedWithout(job.before, job.prior.value);
    }
  }

  // Seen from the final database, the middle config serves everyone but the new
  // client.
  lemma MidFromAfter(job: Job, core: CoreKind)
    requires job.Ok()
    ensures
      var was, will := UsableIds(job.Mid().clients, job.env.now), UsableIds(job.After().clients, job.env.now);
      && ConfigFor(job.After(), core, was) == Gm(job, core)
      && DifferAt(job.After(), |job.Mid().clients|, was, will)
      && was == will - {job.c.Id()}
  {
    var mid, after := job.Mid(), job.After();
    var was := UsableIds(mid.clients, job.env.now);
    MidWellFormed(job);
    forall d | d in mid.clients
      ensures d.Id() != job.c.Id()
    {
      if job.prior.Some? {
        assert d in job.before.clients;
      }
    }
    UsableAppend(mid.clients, job.c, job.env.now);
    assert after.clients == mid.clients + [job.c] + [];
    assert mid.clients + [] == mid.clients;
    ConfigSkipsUnserved(after, mid.clients, [job.c], [], core, was);
    assert after.(clients := mid.clients + []) == mid;
  }

  lemma AfterFinds(job: Job)
    requires job.Ok()
    ensures FindInbound(job.After().inbounds, job.c.account.inboundId) == Some(job.Ib())
    ensures job.After().inbounds == job.before.inbounds
    ensures job.After().clients[|job.Mid().clients|] == job.c
  {
  }

  // A core that serves neither of the two rows keeps its config.
  lemma OtherConfigsSame(job: Job, core: CoreKind)
    requires job.Ok()
    ensures core != job.Ib().core ==> Gm(job, core) == G1(job, core)
    ensures job.Old().None? || job.Old().value.0.core != core ==> G0(job, core) == Gm(job, core)
    ensures !job.c.IsUsable(job.env.now) ==> Gm(job, core) == G1(job, core)
  {
    MidFromAfter(job, core);
    AfterFinds(job);
    var will := UsableIds(job.After().clients, job.env.now);
    if core != job.Ib().core {
      OtherCoreSame(job.After(), job.Ib(), core, |job.Mid().clients|, UsableIds(job.Mid().clients, job.env.now), will);
    }
    UsableById(job.After(), job.env.now, |job.Mid().clients|);
    if !job.c.IsUsable(job.env.now) {
      assert will - {job.c.Id()} == will;
    }
    if job.prior.Some? && job.Old().value.0.core != core {
      var j := job.prior.value;
      MinusDiffers(job.before, j, job.env.now);
      WithoutRenders(job.before, j, core, job.env.now);
      OtherCoreSame(job.before, job.Old().value.0, core, j, UsableIds(job.before.clients, job.env.now),
        Minus(job.before, j, job.env.now));
    }
  }

  // The confirmed live calls move the process from each config to the next, and any
  // call does if the two configs are the same.
  lemma LiveRemoval(job: Job, gone: Outcome)
    requires job.Ok() && job.Old().Some? && Live(job, job.Old().value.0)
    requires Possible(gone, TagsOf(job.Old().value.0)) && (gone.ok || G0(job, Xray) == Gm(job, Xray))
    ensures RemoveOn(Load(G0(job, Xray)), gone.landed, job.Old().value.1) == Load(Gm(job, Xray))
  {
    var j := job.prior.value;
    MinusDiffers(job.before, j, job.env.now);
    WithoutRenders(job.before, j, Xray, job.env.now);
    LiveCallSwitches(job.before, UsableIds(job.before.clients, job.env.now), Minus(job.before, j, job.env.now), j,
      job.env.binary, gone);
  }

  lemma LiveAddition(job: Job, back: Outcome)
    requires job.Ok() && Live(job, job.Ib()) && Possible(back, TagsOf(job.Ib()))
    requires job.c.IsUsable(job.env.now) && (back.ok || Gm(job, Xray) == G1(job, Xray))
    ensures AddOn(Load(Gm(job, Xray)), back.landed, ClientEntry(job.Ib().protocol, job.c.account))
            == Load(G1(job, Xray))
  {
    var j := |job.Mid().clients|;
    MidFromAfter(job, Xray);
    AfterFinds(job);
    UsableById(job.After(), job.env.now, j);
    LiveCallSwitches(job.After(), UsableIds(job.Mid().clients, job.env.now),
      UsableIds(job.After().clients, job.env.now), j, job.env.binary, back);
  }

  // Who is served at one row shows at the listeners of that row only.
  lemma OtherListenersSame(db: Db, ib: Inbound, j: nat, s: set<nat>, t: set<nat>, i: nat)
    requires WellFormed(db) && j < |db.clients| && DifferAt(db, j, s, t)
    requires FindInbound(db.inbounds, db.clients[j].account.inboundId) == Some(ib) && i < |SlotsOf(db, Xray)|
    requires SlotsOf(db, Xray)[i].owner != ib || (db.clients[j].Id() in s <==> db.clients[j].Id() in t)
    ensures |ConfigFor(db, Xray, s)| == |ConfigFor(db, Xray, t)| == |SlotsOf(db, Xray)|
    ensures ConfigFor(db, Xray, s)[i] == ConfigFor(db, Xray, t)[i]
  {
    FlattenFillsSlots(QueryInbounds(db.inbounds, Xray), Accounts(db.clients), s);
    FlattenFillsSlots(QueryInbounds(db.inbounds, Xray), Accounts(db.clients), t);
    OwnerByTag(db, Xray, i, ib);
    var owner := SlotsOf(db, Xray)[i].owner;
    if owner != ib {
      OtherOwner(db, owner, ib);
    }
    var accounts := Accounts(db.clients);
    forall a | a in accounts && a.inboundId == owner.id
      ensures a.id in s <==> a.id in t
    {
      var k :| 0 <= k < |accounts| && accounts[k] == a;
      assert db.clients[k].Id() == a.id;
    }
    AccountsOfAgree(accounts, owner.id, s, t);
  }

  // Where configs that differ by one client differ.
  lemma ConfigsTell(db: Db, ib: Inbound, j: nat, s: set<nat>, t: set<nat>) returns (i: nat)
    requires WellFormed(db) && j < |db.clients| && DifferAt(db, j, s, t)
    requires FindInbound(db.inbounds, db.clients[j].account.inboundId) == Some(ib)
    requires ConfigFor(db, Xray, s) != ConfigFor(db, Xray, t)
    ensures i < |SlotsOf(db, Xray)| && SlotsOf(db, Xray)[i].owner == ib
    ensures Fill(SlotsOf(db, Xray)[i], Accounts(db.clients), s) != Fill(SlotsOf(db, Xray)[i], Accounts(db.clients), t)
    ensures db.clients[j].Id() in s <==> db.clients[j].Id() !in t
  {
    FlattenFillsSlots(QueryInbounds(db.inbounds, Xray), Accounts(db.clients), s);
    FlattenFillsSlots(QueryInbounds(db.inbounds, Xray), Accounts(db.clients), t);
    hide WellFormed, FindInbound, DifferAt, Fill;
    i :| 0 <= i < |SlotsOf(db, Xray)| && ConfigFor(db, Xray, s)[i] != ConfigFor(db, Xray, t)[i];
    if SlotsOf(db, Xray)[i].owner != ib || (db.clients[j].Id() in s <==> db.clients[j].Id() in t) {
      OtherListenersSame(db, ib, j, s, t, i);
      assert false;
    }
  }

  // Configs that differ by one client load into different processes, and differ at a
  // listener of that client's row.
  lemma ListenersTell(db: Db, ib: Inbound, j: nat, s: set<nat>, t: set<nat>) returns (i: nat)
    requires WellFormed(db) && j < |db.clients| && DifferAt(db, j, s, t)
    requires FindInbound(db.inbounds, db.clients[j].account.inboundId) == Some(ib)
    requires ConfigFor(db, Xray, s) != ConfigFor(db, Xray, t)
    ensures |Loaded(db, Xray, s)| == |Loaded(db, Xray, t)| == |SlotsOf(db, Xray)| && i < |SlotsOf(db, Xray)|
    ensures SlotsOf(db, Xray)[i].owner == ib
    ensures Loaded(db, Xray, s)[i] != Loaded(db, Xray, t)[i]
  {
    i := ConfigsTell(db, ib, j, s, t);
    hide WellFormed, FindInbound, SlotsOf, DifferAt, ConfigFor, Load, Fill;
    if HasUserTable(ib.protocol) {
      LookTable(db, Xray, s, i, j);
      LookTable(db, Xray, t, i, j);
      OwnAccount(db, ib, j);
    } else {
      LoadedAt(db, Xray, s, i);
      LoadedAt(db, Xray, t, i);
      FixedShowsAll(SlotsOf(db, Xray)[i], Accounts(db.clients), s, t);
    }
  }

  lemma OwnAccount(db: Db, ib: Inbound, j: nat)
    requires j < |db.clients| && FindInbound(db.inbounds, db.clients[j].account.inboundId) == Some(ib)
    ensures db.clients[j].account.inboundId == ib.id && db.clients[j].account.id == db.clients[j].Id()
  {
  }

  // The process of a listener without a user table is its whole config.
  lemma FixedShowsAll(slot: Slot, accounts: seq<Account>, s: set<nat>, t: set<nat>)
    requires !HasUserTable(slot.owner.protocol) && Fill(slot, accounts, s) != Fill(slot, accounts, t)
    ensures LoadOne(Fill(slot, accounts, s)) != LoadOne(Fill(slot, accounts, t))
  {
  }

  // ------------------------------------------------------------------------
  // When a replacement works
  // ------------------------------------------------------------------------

  // The combinations that fail even when every live call succeeds: both inbounds
  // on Xray, exactly one of them live-capable. The file is written by
  // persist_config first, and the reload meant for the other inbound is skipped.
  predicate NewNeverLoaded(job: Job)
    requires job.Ok()
  {
    && job.Old().Some? && job.Old().value.0 != job.Ib() && job.Ib().core == Xray
    && Live(job, job.Old().value.0) && !Live(job, job.Ib())
    && Gm(job, Xray) != G1(job, Xray)
  }

  predicate OldNeverUnloaded(job: Job)
    requires job.Ok()
  {
    && job.Old().Some? && job.Old().value.0 != job.Ib() && job.Old().value.0.core == Xray
    && !Live(job, job.Old().value.0) && Live(job, job.Ib()) && job.c.enabled && job.c.IsUsable(job.env.now)
    && G0(job, Xray) != Gm(job, Xray)
  }

  // What the live calls of a replacement can do.
  predicate AnyOutcome(job: Job, gone: Outcome, back: Outcome)
    requires job.Ok()
  {
    Possible(back, TagsOf(job.Ib())) && (job.Old().Some? ==> Possible(gone, TagsOf(job.Old().value.0)))
  }

  predicate Confirmed(job: Job, gone: Outcome, back: Outcome)
    requires job.Ok()
  {
    AnyOutcome(job, gone, back) && gone.ok && back.ok
  }

  function Replacement(job: Job, s: BothCores, gone: Outcome, back: Outcome): (BothCores, bool)
    requires job.Ok()
  {
    Replaced(job.env, job.After(), s, job.Ib(), job.c, job.Old(), gone, back)
  }

  // In place, the file must change, or the old client must not show in it. From another
  // live-capable inbound, the confirmed removal writes the file: nothing loads the new
  // client after that but its own live call, so it must not show on Xray.
  predicate Safe(job: Job)
    requires job.Ok()
  {
    match job.Old()
    case None => true
    case Some(prior) =>
      if prior.0 == job.Ib() then
        Live(job, prior.0) && G0(job, Xray) == G1(job, Xray) ==> G0(job, Xray) == Gm(job, Xray)
      else if Live(job, prior.0) then Gm(job, Xray) == G1(job, Xray)
      else !OldNeverUnloaded(job)
  }

  // An old client of another inbound that shows in the file makes the file change.
  lemma FileChanges(job: Job)
    requires job.Ok() && job.Old().Some? && job.Old().value.0 != job.Ib() && G0(job, Xray) != Gm(job, Xray)
    ensures G0(job, Xray) != G1(job, Xray) && Load(G0(job, Xray)) != Load(Gm(job, Xray))
  {
    var ib, j, usable := job.Old().value.0, job.prior.value, UsableIds(job.before.clients, job.env.now);
    MinusDiffers(job.before, j, job.env.now);
    WithoutRenders(job.before, j, Xray, job.env.now);
    OldFound(job);
    AfterFinds(job);
    MidFromAfter(job, Xray);
    SameSlots(job);
    hide WellFormed, FindInbound, SlotsOf, Load, DifferAt, ConfigFor, UsableIds;
    var i := ListenersTell(job.before, ib, j, usable, Minus(job.before, j, job.env.now));
    OtherListenersSame(job.After(), job.Ib(), |job.Mid().clients|, UsableIds(job.Mid().clients, job.env.now),
      UsableIds(job.After().clients, job.env.now), i);
  }

  lemma SameSlots(job: Job)
    requires job.Ok()
    ensures SlotsOf(job.After(), Xray) == SlotsOf(job.before, Xray)
  {
  }

  lemma OldFound(job: Job)
    requires job.Ok() && job.Old().Some?
    ensures FindInbound(job.before.inbounds, job.before.clients[job.prior.value].account.inboundId)
            == Some(job.Old().value.0)
  {
    assert job.before.clients[job.prior.value] in job.before.clients;
  }

  // What the theorems below ask of a replacement: safety, or confirmed calls and
  // neither of the stranding combinations.
  predicate Works(job: Job, gone: Outcome, back: Outcome)
    requires job.Ok()
  {
    && AnyOutcome(job, gone, back)
    && (Safe(job) || (Confirmed(job, gone, back) && !NewNeverLoaded(job) && !OldNeverUnloaded(job)))
  }

  predicate Touched(ib: Inbound, prior: Option<(Inbound, string)>, core: CoreKind) {
    ib.core == core || (prior.Some? && prior.value.0.core == core)
  }

  // Calls that count must make the process right. Otherwise each core touched must be
  // one that a full apply puts right, and the others right already.
  lemma TargetWorks(env: Env, db: Db, s: BothCores, ib: Inbound, c: Client, prior: Option<(Inbound, string)>,
                    gone: Outcome, back: Outcome)
    requires Accepted(env)
    requires
      var (running, done) := Called(env, s, ib, c, prior, gone, back);
      if done then running == Load(Generate(db, Xray, env.now))
      else if Touched(ib, prior, Xray) then Resync.Curable(db, Xray, env.now, CoreState(s.xray.disk, running))
      else s.xray == Resync.Wanted(db, Xray, env.now)
    requires
      if Touched(ib, prior, Singbox) then Resync.Curable(db, Singbox, env.now, s.singbox)
      else s.singbox == Resync.Wanted(db, Singbox, env.now)
    ensures
      var (next, ok) := ReplacedOnTarget(env, db, s, ib, c, prior, gone, back);
      ok && InSync(env, db, next)
  {
    var (running, done) := Called(env, s, ib, c, prior, gone, back);
    var right := Resync.Wanted(db, Xray, env.now);
    hide Load, Generate, AddOn, RemoveOn, Applied;
    AppliedNow(env, db, Xray, right);
    AppliedNow(env, db, Xray, CoreState(right.disk, running));
    AppliedNow(env, db, Xray, CoreState(s.xray.disk, running));
    AppliedNow(env, db, Singbox, s.singbox);
  }

  lemma AppliedNow(env: Env, db: Db, core: CoreKind, was: CoreState)
    ensures
      var binary := if core == Xray then env.binary else env.sbBinary;
      var (next, ok) := Applied(was, db, core, binary, env.now, true);
      ok && (next == Resync.Wanted(db, core, env.now) <==> Resync.Curable(db, core, env.now, was))
  {
    hide Load, Generate;
    Resync.AppliedRightIff(was, db, core, if core == Xray then env.binary else env.sbBinary, env.now);
  }

  // There is no old client, or it sat on the same inbound.
  lemma WorksInPlace(job: Job, s: BothCores, gone: Outcome, back: Outcome)
    requires job.Ok() && InSync(job.env, job.before, s) && Works(job, gone, back)
    requires job.Old().Some? ==> job.Old().value.0 == job.Ib()
    ensures Replacement(job, s, gone, back).1 && InSync(job.env, job.After(), Replacement(job, s, gone, back).0)
  {
    hide Generate, Load, RemoveOn, AddOn, WellFormed, ReplacedOnTarget;
    OtherConfigsSame(job, Xray);
    OtherConfigsSame(job, Singbox);
    if Live(job, job.Ib()) {
      if job.Old().Some? && (gone.ok || G0(job, Xray) == G1(job, Xray)) {
        LiveRemoval(job, gone);
      }
      if job.c.IsUsable(job.env.now) && (back.ok || G0(job, Xray) == G1(job, Xray)) {
        LiveAddition(job, back);
      }
    }
    TargetWorks(job.env, job.After(), s, job.Ib(), job.c, job.Old(), gone, back);
  }

  // The old client sat on another live-capable inbound.
  lemma WorksFromLive(job: Job, s: BothCores, gone: Outcome, back: Outcome)
    requires job.Ok() && InSync(job.env, job.before, s) && Works(job, gone, back)
    requires job.Old().Some? && job.Old().value.0 != job.Ib() && Live(job, job.Old().value.0)
    ensures Replacement(job, s, gone, back).1 && InSync(job.env, job.After(), Replacement(job, s, gone, back).0)
  {
    if G0(job, Xray) != Gm(job, Xray) {
      FileChanges(job);
    }
    hide Generate, Load, RemoveOn, AddOn, WellFormed, Applied, ReplacedOnTarget, OldNeverUnloaded;
    OtherConfigsSame(job, Xray);
    OtherConfigsSame(job, Singbox);
    var removed := RemoveOn(s.xray.running, gone.landed, job.Old().value.1);
    if gone.ok || G0(job, Xray) == Gm(job, Xray) {
      LiveRemoval(job, gone);
    }
    AppliedNow(job.env, job.After(), Xray, CoreState(s.xray.disk, removed));
    if Live(job, job.Ib()) && job.c.IsUsable(job.env.now) {
      LiveAddition(job, back);
    }
    var next := if gone.ok then Persisted(job.env, job.After(), s, removed)
                else ApplyCore(job.env, Xray, job.After(), WithRunning(s, removed)).0;
    TargetWorks(job.env, job.After(), next, job.Ib(), job.c, None, gone, back);
  }

  // The old client sat on another inbound that only a reload can change.
  lemma WorksFromFixed(job: Job, s: BothCores, gone: Outcome, back: Outcome)
    requires job.Ok() && InSync(job.env, job.before, s) && Works(job, gone, back)
    requires job.Old().Some? && job.Old().value.0 != job.Ib() && !Live(job, job.Old().value.0)
    ensures Replacement(job, s, gone, back).1 && InSync(job.env, job.After(), Replacement(job, s, gone, back).0)
  {
    if G0(job, Xray) != Gm(job, Xray) {
      FileChanges(job);
    }
    hide Generate, Load, RemoveOn, AddOn, WellFormed, ReplacedOnTarget;
    OtherConfigsSame(job, Xray);
    OtherConfigsSame(job, Singbox);
    if Live(job, job.Ib()) && job.c.IsUsable(job.env.now) && (back.ok || G0(job, Xray) == G1(job, Xray)) {
      LiveAddition(job, back);
    }
    TargetWorks(job.env, job.After(), s, job.Ib(), job.c, job.Old(), gone, back);
  }

  lemma ReplacementWorks(job: Job, s: BothCores, gone: Outcome, back: Outcome)
    requires job.Ok() && InSync(job.env, job.before, s) && Works(job, gone, back)
    ensures Replacement(job, s, gone, back).1 && InSync(job.env, job.After(), Replacement(job, s, gone, back).0)
  {
    hide Replacement, InSync, Works;
    if job.Old().None? || job.Old().value.0 == job.Ib() {
      WorksInPlace(job, s, gone, back);
    } else if Live(job, job.Old().value.0) {
      WorksFromLive(job, s, gone, back);
    } else {
      WorksFromFixed(job, s, gone, back);
    }
  }

  // The inbound that never gets reloaded still has a listener to show for it.
  lemma NewNeverLoadedFails(job: Job, s: BothCores, gone: Outcome, back: Outcome)
    requires job.Ok() && InSync(job.env, job.before, s) && Confirmed(job, gone, back) && NewNeverLoaded(job)
    ensures Replacement(job, s, gone, back).0.xray == CoreState(G1(job, Xray), Load(Gm(job, Xray)))
    ensures Load(Gm(job, Xray)) != Load(G1(job, Xray))
  {
    var j := |job.Mid().clients|;
    LiveRemoval(job, gone);
    MidFromAfter(job, Xray);
    AfterFinds(job);
    var i := ListenersTell(job.After(), job.Ib(), j, UsableIds(job.Mid().clients, job.env.now),
      UsableIds(job.After().clients, job.env.now));
  }

  lemma OldNeverUnloadedFails(job: Job, s: BothCores, gone: Outcome, back: Outcome)
    requires job.Ok() && InSync(job.env, job.before, s) && Confirmed(job, gone, back) && OldNeverUnloaded(job)
    ensures Replacement(job, s, gone, back).0.xray
            == CoreState(G1(job, Xray),
                         AddOn(Load(G0(job, Xray)), back.landed, ClientEntry(job.Ib().protocol, job.c.account)))
    ensures Replacement(job, s, gone, back).0.xray.running != Load(G1(job, Xray))
  {
    var ib, j := job.Old().value.0, job.prior.value;
    var entry := ClientEntry(job.Ib().protocol, job.c.account);
    MinusDiffers(job.before, j, job.env.now);
    WithoutRenders(job.before, j, Xray, job.env.now);
    var i := ListenersTell(job.before, ib, j, UsableIds(job.before.clients, job.env.now),
      Minus(job.before, j, job.env.now));
    LiveAddition(job, back);
    LoadedAt(job.before, Xray, UsableIds(job.before.clients, job.env.now), i);
    LoadedAt(job.before, Xray, Minus(job.before, j, job.env.now), i);
    OwnerByTag(job.before, Xray, i, job.Ib());
    var added := AddOn(Load(G0(job, Xray)), back.landed, entry);
    assert added[i] == Load(G0(job, Xray))[i];
    assert AddOn(Load(Gm(job, Xray)), back.landed, entry)[i] == Load(Gm(job, Xray))[i];
  }

  // With every live call confirmed, a replacement ends in sync exactly when it is
  // not one of the two stranding combinations.
  lemma ReplaceInSyncIff(job: Job, s: BothCores, gone: Outcome, back: Outcome)
    requires job.Ok() && InSync(job.env, job.before, s) && Confirmed(job, gone, back)
    ensures InSync(job.env, job.After(), Replacement(job, s, gone, back).0)
       <==> !NewNeverLoaded(job) && !OldNeverUnloaded(job)
  {
    if NewNeverLoaded(job) {
      NewNeverLoadedFails(job, s, gone, back);
    } else if OldNeverUnloaded(job) {
      OldNeverUnloadedFails(job, s, gone, back);
    } else {
      ReplacementWorks(job, s, gone, back);
    }
  }

  // ------------------------------------------------------------------------
  // When it works whatever the live calls do
  // ------------------------------------------------------------------------

  lemma NewClientTells(job: Job)
    requires job.Ok() && Gm(job, Xray) != G1(job, Xray)
    ensures Load(Gm(job, Xray)) != Load(G1(job, Xray))
  {
    MidFromAfter(job, Xray);
    AfterFinds(job);
    hide WellFormed, FindInbound, DifferAt, ConfigFor, UsableIds;
    var i := ListenersTell(job.After(), job.Ib(), |job.Mid().clients|, UsableIds(job.Mid().clients, job.env.now),
      UsableIds(job.After().clients, job.env.now));
  }

  // Otherwise confirmed removals and an addition that does not land strand a client, or
  // confirmed calls do already.
  lemma Unsafe(job: Job, s: BothCores) returns (gone: Outcome, back: Outcome)
    requires job.Ok() && InSync(job.env, job.before, s) && !Safe(job)
    ensures AnyOutcome(job, gone, back) && gone.ok && (Live(job, job.Old().value.0) ==> back == NOTHING)
    ensures !InSync(job.env, job.After(), Replacement(job, s, gone, back).0)
  {
    var ib := job.Old().value.0;
    gone, back := Everywhere(ib), Everywhere(job.Ib());
    if ib != job.Ib() && !Live(job, ib) {
      OldNeverUnloadedFails(job, s, gone, back);
    } else {
      back := NOTHING;
      LiveRemoval(job, gone);
      OtherConfigsSame(job, Xray);
      NewClientTells(job);
      hide Generate, Load, RemoveOn, AddOn, WellFormed;
      Resync.NothingLands(Load(Gm(job, Xray)), ClientEntry(job.Ib().protocol, job.c.account), job.c.account.email);
      assert Replacement(job, s, gone, back).0.xray == CoreState(G1(job, Xray), Load(Gm(job, Xray)));
    }
  }

  // From cores in step, a replacement ends in sync for every outcome of its live calls
  // if and only if it is safe.
  lemma ReplaceSafeIff(job: Job, s: BothCores)
    requires job.Ok() && InSync(job.env, job.before, s)
    ensures
      (forall gone, back | AnyOutcome(job, gone, back) ::
         InSync(job.env, job.After(), Replacement(job, s, gone, back).0))
      <==> Safe(job)
  {
    hide Replacement, InSync;
    if Safe(job) {
      forall gone, back | AnyOutcome(job, gone, back)
        ensures InSync(job.env, job.After(), Replacement(job, s, gone, back).0)
      {
        ReplacementWorks(job, s, gone, back);
      }
    } else {
      var gone, back := Unsafe(job, s);
    }
  }

  // A replacement that reports success leaves the files of both inbounds' cores current,
  // whether or not configs are accepted.
  lemma SuccessIsFiled(env: Env, db: Db, s: BothCores, ib: Inbound, c: Client, prior: Option<(Inbound, string)>,
                       gone: Outcome, back: Outcome, core: CoreKind)
    requires Replaced(env, db, s, ib, c, prior, gone, back).1 && Touched(ib, prior, core)
    ensures FileOf(Replaced(env, db, s, ib, c, prior, gone, back).0, core) == Generate(db, core, env.now)
  {
    hide Generate, Load, RemoveOn, AddOn, Applied;
    forall kind, was: CoreState, binary, valid
      ensures
        var (next, ok) := Applied(was, db, kind, binary, env.now, valid);
        ok ==> next.disk == Generate(db, kind, env.now)
    {
      DoneApply(was, db, kind, binary, env.now, valid);
    }
  }

  lemma DoneApply(was: CoreState, db: Db, kind: CoreKind, binary: bool, now: real, valid: bool)
    ensures
      var (next, ok) := Applied(was, db, kind, binary, now, valid);
      ok ==> next.disk == Generate(db, kind, now)
  {
  }

  function RunningOn(s: BothCores, core: CoreKind): seq<Live> {
    match core
    case Xray => s.xray.running
    case Singbox => s.singbox.running
  }

  // What that means at every listener of either core: where users have names, the new
  // client is let in on all listeners of its inbound if it is usable and on no other,
  // and the old email is let in nowhere, unless the new client carries it.
  lemma ReplacedCredentials(job: Job, s: BothCores, gone: Outcome, back: Outcome, core: CoreKind, i: nat)
    requires job.Ok() && InSync(job.env, job.before, s) && Confirmed(job, gone, back)
    requires !NewNeverLoaded(job) && !OldNeverUnloaded(job) && i < |SlotsOf(job.After(), core)|
    ensures
      var running := RunningOn(Replacement(job, s, gone, back).0, core);
      var owner := SlotsOf(job.After(), core)[i].owner;
      && |running| == |SlotsOf(job.After(), core)|
      && Look(Admitted(running[i]), job.c.account.email)
           == (if owner == job.Ib() && !IsLegacyShadowsocks(owner) && job.c.IsUsable(job.env.now)
               then Some(ClientEntry(owner.protocol, job.c.account)) else None)
      && (job.Old().Some? && job.Old().value.1 != job.c.account.email ==> job.Old().value.1 !in Admitted(running[i]))
  {
    hide WellFormed, UsableIds, Admitted, SlotsOf, ClientEntry;
    ReplaceInSyncIff(job, s, gone, back);
    var after, j := job.After(), |job.Mid().clients|;
    var will := UsableIds(after.clients, job.env.now);
    assert RunningOn(Replacement(job, s, gone, back).0, core) == Loaded(after, core, will);
    AfterFinds(job);
    LookAdmitted(after, core, will, i, j);
    UsableById(after, job.env.now, j);
    OwnerByTag(after, core, i, job.Ib());
    FindsOwner(after, SlotsOf(after, core)[i].owner);
    if job.Old().Some? && job.Old().value.1 != job.c.account.email {
      OldEmailGone(job);
      AdmitsNobody(after, core, will, i, job.Old().value.1);
    }
  }

  // A legacy Shadowsocks listener of the new inbound lets in the new client's password
  // alone, if the client is usable: the inbound is the client's own.
  lemma ReplacedPassword(job: Job, s: BothCores, gone: Outcome, back: Outcome, core: CoreKind, i: nat)
    requires job.Ok() && InSync(job.env, job.before, s) && Confirmed(job, gone, back)
    requires !NewNeverLoaded(job) && !OldNeverUnloaded(job) && i < |SlotsOf(job.After(), core)|
    requires SlotsOf(job.After(), core)[i].owner == job.Ib() && IsLegacyShadowsocks(job.Ib())
    requires job.c.IsUsable(job.env.now)
    requires forall d :: d in job.Mid().clients ==> d.account.inboundId != job.c.account.inboundId
    ensures
      var running := RunningOn(Replacement(job, s, gone, back).0, core);
      |running| == |SlotsOf(job.After(), core)| && running[i].shape.settings.single == job.c.account.password
  {
    hide WellFormed, UsableIds, SlotsOf, ConfigFor, Load, Replacement, ServedAt;
    ReplaceInSyncIff(job, s, gone, back);
    var after := job.After();
    var will := UsableIds(after.clients, job.env.now);
    LegacyPassword(after, core, will, i);
    AfterFinds(job);
    UsableClients(after, job.env.now);
    OnlyClientServed(after, job.Ib(), will, job.c) by {
      assert after.clients[|job.Mid().clients|] == job.c && job.c in after.clients;
      assert forall d :: d in after.clients ==> d in job.Mid().clients || d == job.c;
    }
  }

  lemma OnlyClientServed(db: Db, ib: Inbound, served: set<nat>, c: Client)
    requires c in db.clients && c.Id() in served && c.account.inboundId == ib.id
    requires forall d :: d in db.clients && d != c ==> d.account.inboundId != ib.id
    ensures ServedAt(db, ib, served) != [] && ServedAt(db, ib, served)[0] == c.account
  {
    hide ServedAt;
    ServedMembers(db, ib, served);
    assert ServedAt(db, ib, served)[0] in ServedAt(db, ib, served);
  }

  lemma EmailGone(db: Db, p: nat)
    requires WellFormed(db) && p < |db.clients|
    ensures forall d :: d in WithoutClient(db, p).clients ==> d.account.email != db.clients[p].account.email
  {
    var rest := WithoutClient(db, p).clients;
    forall k | 0 <= k < |rest|
      ensures rest[k].account.email != db.clients[p].account.email
    {
      assert rest[k] == db.clients[if k < p then k else k + 1];
    }
  }

  lemma OldEmailGone(job: Job)
    requires job.Ok() && job.Old().Some? && job.Old().value.1 != job.c.account.email
    ensures forall d :: d in job.After().clients ==> d.account.email != job.Old().value.1
  {
    hide WellFormed, WithoutClient;
    EmailGone(job.before, job.prior.value);
  }
}
