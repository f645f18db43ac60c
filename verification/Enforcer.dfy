// tasks._enforce_limits: one poll that brings both cores in line with who may
// connect, by live calls where they exist and a restart where they do not or fail.
module Enforcer {
  import opened Models
  import opened Render
  import opened Cores
  import opened Serving

  // The four copies of "who may connect" besides the database itself.
  datatype Panel = Panel(xray: CoreState, singbox: CoreState, cut: set<nat>)

  // What one poll or request sees of the outside world: the clock, whether the
  // core binaries exist, and the verdicts of their own config tests.
  datatype Env = Env(now: real, binary: bool, sbBinary: bool, xrayValid: bool, sbValid: bool)

  predicate Accepted(env: Env) {
    env.xrayValid && env.sbValid
  }

  // Everything a poll reads; `outs[k]` is what the live call for client k does.
  datatype Poll = Poll(db: Db, env: Env, outs: seq<Outcome>)

  datatype Acc = Acc(cut: set<nat>, running: seq<Live>, xrayRestart: bool, xrayLive: bool, singboxRestart: bool)

  function EnabledIds(clients: seq<Client>): set<nat> {
    set c | c in clients && c.enabled :: c.Id()
  }

  predicate NewlyCut(c: Client, now: real, cut: set<nat>) {
    c.enabled && !c.IsUsable(now) && c.Id() !in cut
  }

  predicate NewlyRestored(c: Client, now: real, cut: set<nat>) {
    c.enabled && c.IsUsable(now) && c.Id() in cut
  }

  function Step(p: Poll, acc: Acc, c: Client, o: Outcome): Acc {
    var isCut := NewlyCut(c, p.env.now, acc.cut);
    if !isCut && !NewlyRestored(c, p.env.now, acc.cut) then acc
    else
      var acc := acc.(cut := if isCut then acc.cut + {c.Id()} else acc.cut - {c.Id()});
      match FindInbound(p.db.inbounds, c.account.inboundId)
      case None => acc
      case Some(ib) =>
        if SupportsLive(ib, p.env.binary) then
          var acc := acc.(running := LiveEffect(c, ib, isCut, acc.running, o));
          if o.ok then acc.(xrayLive := true) else acc.(xrayRestart := true)
        else if ib.core == Singbox then acc.(singboxRestart := true)
        else acc.(xrayRestart := true)
  }

  function Start(p: Poll, s: Panel): Acc {
    Acc(s.cut * EnabledIds(p.db.clients), s.xray.running, false, false, false)
  }

  function Sweep(p: Poll, s: Panel, k: nat): Acc
    requires k <= |p.db.clients| && k <= |p.outs|
  {
    if k == 0 then Start(p, s)
    else Step(p, Sweep(p, s, k - 1), p.db.clients[k - 1], p.outs[k - 1])
  }

  function Finish(p: Poll, s: Panel, acc: Acc): Panel {
    var xray :=
      if acc.xrayRestart
        then Applied(CoreState(s.xray.disk, acc.running), p.db, Xray, p.env.binary, p.env.now, p.env.xrayValid).0
      else if acc.xrayLive then CoreState(Generate(p.db, Xray, p.env.now), acc.running)
      else CoreState(s.xray.disk, acc.running);
    var singbox :=
      if acc.singboxRestart then Applied(s.singbox, p.db, Singbox, p.env.sbBinary, p.env.now, p.env.sbValid).0
      else s.singbox;
    Panel(xray, singbox, acc.cut)
  }

  function Enforced(p: Poll, s: Panel): Panel
    requires |p.outs| == |p.db.clients|
  {
    Finish(p, s, Sweep(p, s, |p.db.clients|))
  }

  // The live call for client k did something a live call can do on its listeners.
  predicate PossibleAt(p: Poll, k: nat)
    requires |p.outs| == |p.db.clients| && k < |p.outs|
  {
    var ib := FindInbound(p.db.inbounds, p.db.clients[k].account.inboundId);
    ib.Some? ==> Possible(p.outs[k], TagsOf(ib.value))
  }

  predicate PossibleOuts(p: Poll) {
    |p.outs| == |p.db.clients| && forall k :: 0 <= k < |p.outs| ==> PossibleAt(p, k)
  }

  // The premises of convergence: both cores run the file on disk, which serves
  // `served`; a client outside the memo is served or unusable, and one inside it
  // is not served or usable again.
  predicate Ready(db: Db, now: real, s: Panel, served: set<nat>) {
    && WellFormed(db)
    && s.xray == CoreState(ConfigFor(db, Xray, served), Loaded(db, Xray, served))
    && s.singbox == CoreState(ConfigFor(db, Singbox, served), Loaded(db, Singbox, served))
    && served <= EnabledIds(db.clients)
    && forall c :: c in db.clients && c.enabled ==>
         if c.Id() in s.cut then c.Id() !in served || c.IsUsable(now)
         else c.Id() in served || !c.IsUsable(now)
  }

  function UnusableIds(clients: seq<Client>, now: real): set<nat> {
    set c | c in clients && c.enabled && !c.IsUsable(now) :: c.Id()
  }

  // All copies agree with the database.
  predicate Synced(db: Db, now: real, xray: CoreState, singbox: CoreState) {
    && xray == CoreState(Generate(db, Xray, now), Load(Generate(db, Xray, now)))
    && singbox == CoreState(Generate(db, Singbox, now), Load(Generate(db, Singbox, now)))
  }

  predicate Converged(db: Db, now: real, s: Panel) {
    Synced(db, now, s.xray, s.singbox) && s.cut == UnusableIds(db.clients, now)
  }

  // ------------------------------------------------------------------------
  // The sweep, client by client
  // ------------------------------------------------------------------------

  // The memo after k clients: settled for those visited, untouched for the rest.
  predicate CutSettled(p: Poll, s: Panel, k: nat, cut: set<nat>) {
    && cut <= EnabledIds(p.db.clients)
    && forall j :: 0 <= j < |p.db.clients| && p.db.clients[j].enabled ==>
         (p.db.clients[j].Id() in cut <==>
            if j < k then !p.db.clients[j].IsUsable(p.env.now) else p.db.clients[j].Id() in s.cut)
  }

  lemma ClientByEnabledId(db: Db, j: nat)
    requires WellFormed(db) && j < |db.clients|
    ensures db.clients[j].Id() in EnabledIds(db.clients) <==> db.clients[j].enabled
  {
    hide TagOk, FindInbound;
    if db.clients[j].Id() in EnabledIds(db.clients) {
      var c :| c in db.clients && c.enabled && c.Id() == db.clients[j].Id();
      var m :| 0 <= m < |db.clients| && db.clients[m] == c;
    }
  }

  lemma UsableById(db: Db, now: real, j: nat)
    requires WellFormed(db) && j < |db.clients|
    ensures db.clients[j].Id() in UsableIds(db.clients, now) <==> db.clients[j].IsUsable(now)
    ensures db.clients[j].Id() in UnusableIds(db.clients, now) <==>
      db.clients[j].enabled && !db.clients[j].IsUsable(now)
  {
    forall c | c in db.clients && c.Id() == db.clients[j].Id()
      ensures c == db.clients[j]
    {
      var m :| 0 <= m < |db.clients| && db.clients[m] == c;
    }
  }

  lemma StepCut(p: Poll, acc: Acc, c: Client, o: Outcome)
    ensures Step(p, acc, c, o).cut ==
      if NewlyCut(c, p.env.now, acc.cut) then acc.cut + {c.Id()}
      else if NewlyRestored(c, p.env.now, acc.cut) then acc.cut - {c.Id()}
      else acc.cut
  {
  }

  lemma {:induction false} SweepCut(p: Poll, s: Panel, k: nat)
    requires WellFormed(p.db) && |p.outs| == |p.db.clients| && k <= |p.outs|
    ensures CutSettled(p, s, k, Sweep(p, s, k).cut)
  {
    if k == 0 {
      forall j | 0 <= j < |p.db.clients| && p.db.clients[j].enabled
        ensures p.db.clients[j].Id() in Start(p, s).cut <==> p.db.clients[j].Id() in s.cut
      {
        ClientByEnabledId(p.db, j);
      }
    } else {
      SweepCut(p, s, k - 1);
      CutSettledStep(p, s, k, Sweep(p, s, k - 1));
    }
  }

  lemma CutSettledStep(p: Poll, s: Panel, k: nat, acc: Acc)
    requires WellFormed(p.db) && |p.outs| == |p.db.clients| && 0 < k <= |p.outs|
    requires CutSettled(p, s, k - 1, acc.cut)
    ensures CutSettled(p, s, k, Step(p, acc, p.db.clients[k - 1], p.outs[k - 1]).cut)
  {
    hide Step, EnabledIds;
    var c := p.db.clients[k - 1];
    StepCut(p, acc, c, p.outs[k - 1]);
    ClientByEnabledId(p.db, k - 1);
  }

  // A client whose membership in `served` already equals its usability looks the
  // same in both loaded configs.
  predicate Settled(p: Poll, served: set<nat>, j: nat)
    requires j < |p.db.clients|
  {
    p.db.clients[j].Id() in served <==> p.db.clients[j].IsUsable(p.env.now)
  }

  predicate LiveCapable(p: Poll, j: nat)
    requires j < |p.db.clients|
  {
    var ib := FindInbound(p.db.inbounds, p.db.clients[j].account.inboundId);
    ib.Some? && SupportsLive(ib.value, p.env.binary)
  }

  predicate OnCore(p: Poll, j: nat, core: CoreKind)
    requires j < |p.db.clients|
  {
    var ib := FindInbound(p.db.inbounds, p.db.clients[j].account.inboundId);
    ib.Some? && ib.value.core == core
  }

  // Until a transition on a core is recorded, its visited clients were settled.
  predicate FlagsMeanSettled(p: Poll, served: set<nat>, k: nat, acc: Acc)
    requires k <= |p.db.clients|
  {
    forall j :: 0 <= j < k && !Settled(p, served, j) ==>
      && (OnCore(p, j, Singbox) ==> acc.singboxRestart)
      && (OnCore(p, j, Xray) ==> acc.xrayRestart || (acc.xrayLive && LiveCapable(p, j)))
  }

  // A visit without a transition finds a settled client.
  lemma NoTransitionSettled(p: Poll, s: Panel, served: set<nat>, k: nat)
    requires Ready(p.db, p.env.now, s, served) && 0 < k <= |p.outs| == |p.db.clients|
    ensures
      var c, acc := p.db.clients[k - 1], Sweep(p, s, k - 1);
      && FindInbound(p.db.inbounds, c.account.inboundId).Some?
      && (!NewlyCut(c, p.env.now, acc.cut) && !NewlyRestored(c, p.env.now, acc.cut) ==> Settled(p, served, k - 1))
  {
    hide Sweep, Step, ConfigFor, Loaded, EnabledIds;
    var c := p.db.clients[k - 1];
    assert c in p.db.clients;
    SweepCut(p, s, k - 1);
    ClientByEnabledId(p.db, k - 1);
  }

  // What a transition does besides the memo.
  lemma StepEffect(p: Poll, acc: Acc, c: Client, o: Outcome, ib: Inbound)
    requires FindInbound(p.db.inbounds, c.account.inboundId) == Some(ib)
    ensures
      var next := Step(p, acc, c, o);
      if !NewlyCut(c, p.env.now, acc.cut) && !NewlyRestored(c, p.env.now, acc.cut) then next == acc
      else if SupportsLive(ib, p.env.binary) then
        && next.running == LiveEffect(c, ib, !c.IsUsable(p.env.now), acc.running, o)
        && next.xrayRestart == (acc.xrayRestart || !o.ok)
        && next.xrayLive == (acc.xrayLive || o.ok)
        && next.singboxRestart == acc.singboxRestart
      else
        && next.running == acc.running
        && next.xrayLive == acc.xrayLive
        && next.xrayRestart == (acc.xrayRestart || ib.core == Xray)
        && next.singboxRestart == (acc.singboxRestart || ib.core == Singbox)
  {
  }

  lemma {:induction false} SweepFlags(p: Poll, s: Panel, served: set<nat>, k: nat)
    requires Ready(p.db, p.env.now, s, served) && k <= |p.outs| == |p.db.clients|
    ensures FlagsMeanSettled(p, served, k, Sweep(p, s, k))
  {
    hide Step, ConfigFor, Loaded, WellFormed;
    if k != 0 {
      SweepFlags(p, s, served, k - 1);
      NoTransitionSettled(p, s, served, k);
      FlagsStep(p, served, k, Sweep(p, s, k - 1));
    }
  }

  lemma FlagsStep(p: Poll, served: set<nat>, k: nat, acc: Acc)
    requires 0 < k <= |p.outs| == |p.db.clients| && FlagsMeanSettled(p, served, k - 1, acc)
    requires FindInbound(p.db.inbounds, p.db.clients[k - 1].account.inboundId).Some?
    requires !NewlyCut(p.db.clients[k - 1], p.env.now, acc.cut)
             && !NewlyRestored(p.db.clients[k - 1], p.env.now, acc.cut)
         ==> Settled(p, served, k - 1)
    ensures FlagsMeanSettled(p, served, k, Step(p, acc, p.db.clients[k - 1], p.outs[k - 1]))
  {
    var c := p.db.clients[k - 1];
    StepEffect(p, acc, c, p.outs[k - 1], FindInbound(p.db.inbounds, c.account.inboundId).value);
  }

  // The running tables after k clients, seen at listener i: shapes never change,
  // every entry is that of the old config or of the new one, and if no call has
  // failed so far, exactly the visited clients show their new entry.
  ghost predicate TableMixed(p: Poll, served: set<nat>, k: nat, acc: Acc, i: nat)
    requires i < |acc.running|
    requires |Loaded(p.db, Xray, served)| == |Loaded(p.db, Xray, UsableIds(p.db.clients, p.env.now))| == |acc.running|
  {
    var was := Loaded(p.db, Xray, served)[i];
    var will := Loaded(p.db, Xray, UsableIds(p.db.clients, p.env.now))[i];
    && acc.running[i].shape == was.shape
    && (forall e :: Look(acc.running[i].users, e) in {Look(was.users, e), Look(will.users, e)})
    && (!acc.xrayRestart ==> forall j :: 0 <= j < |p.db.clients| ==>
          var e := p.db.clients[j].account.email;
          Look(acc.running[i].users, e) == if j < k then Look(will.users, e) else Look(was.users, e))
  }

  lemma SettledLooksSame(p: Poll, served: set<nat>, i: nat, j: nat)
    requires WellFormed(p.db) && i < |SlotsOf(p.db, Xray)| && j < |p.db.clients|
    requires Settled(p, served, j) || SlotsOf(p.db, Xray)[i].owner.id != p.db.clients[j].account.inboundId
                                   || !HasUserTable(SlotsOf(p.db, Xray)[i].owner.protocol)
    ensures |Loaded(p.db, Xray, served)| == |Loaded(p.db, Xray, UsableIds(p.db.clients, p.env.now))|
            == |SlotsOf(p.db, Xray)|
    ensures Look(Loaded(p.db, Xray, served)[i].users, p.db.clients[j].account.email)
         == Look(Loaded(p.db, Xray, UsableIds(p.db.clients, p.env.now))[i].users, p.db.clients[j].account.email)
  {
    LookTable(p.db, Xray, served, i, j);
    LookTable(p.db, Xray, UsableIds(p.db.clients, p.env.now), i, j);
    UsableById(p.db, p.env.now, j);
  }

  lemma SweepTablesStart(p: Poll, s: Panel, served: set<nat>, i: nat)
    requires s.xray.running == Loaded(p.db, Xray, served) && i < |SlotsOf(p.db, Xray)|
    ensures |Loaded(p.db, Xray, served)| == |Loaded(p.db, Xray, UsableIds(p.db.clients, p.env.now))|
            == |SlotsOf(p.db, Xray)|
    ensures TableMixed(p, served, 0, Start(p, s), i)
  {
    LoadedLengths(p.db, Xray, served);
    LoadedLengths(p.db, Xray, UsableIds(p.db.clients, p.env.now));
  }

  lemma {:induction false} SweepTables(p: Poll, s: Panel, served: set<nat>, k: nat, i: nat)
    requires Ready(p.db, p.env.now, s, served) && PossibleOuts(p) && k <= |p.outs| && i < |SlotsOf(p.db, Xray)|
    ensures |Loaded(p.db, Xray, served)| == |Loaded(p.db, Xray, UsableIds(p.db.clients, p.env.now))|
         == |Sweep(p, s, k).running| == |SlotsOf(p.db, Xray)|
    ensures TableMixed(p, served, k, Sweep(p, s, k), i)
  {
    hide Step, TableMixed, ConfigFor, Loaded, WellFormed, SlotsOf;
    if k == 0 {
      SweepTablesStart(p, s, served, i);
    } else {
      SweepTables(p, s, served, k - 1, i);
      NoTransitionSettled(p, s, served, k);
      assert PossibleAt(p, k - 1);
      SweepTablesStep(p, served, k, Sweep(p, s, k - 1), i);
    }
  }

  // A visit that leaves listener i alone keeps the mix, if client k - 1 looks the
  // same before and after at that listener, or a restart is now due anyway.
  lemma MixKept(p: Poll, served: set<nat>, k: nat, acc: Acc, next: Acc, i: nat)
    requires |Loaded(p.db, Xray, served)| == |Loaded(p.db, Xray, UsableIds(p.db.clients, p.env.now))|
          == |acc.running| == |next.running|
    requires i < |acc.running| && 0 < k <= |p.db.clients|
    requires TableMixed(p, served, k - 1, acc, i)
    requires next.running[i] == acc.running[i] && (acc.xrayRestart ==> next.xrayRestart)
    requires next.xrayRestart ||
             Look(Loaded(p.db, Xray, served)[i].users, p.db.clients[k - 1].account.email)
          == Look(Loaded(p.db, Xray, UsableIds(p.db.clients, p.env.now))[i].users, p.db.clients[k - 1].account.email)
    ensures TableMixed(p, served, k, next, i)
  {
  }

  // A live call that lands, or not, on client k - 1's own listener i.
  lemma MixLive(p: Poll, served: set<nat>, k: nat, acc: Acc, next: Acc, i: nat)
    requires |Loaded(p.db, Xray, served)| == |Loaded(p.db, Xray, UsableIds(p.db.clients, p.env.now))|
          == |acc.running| == |next.running|
    requires WellFormed(p.db) && i < |acc.running| && 0 < k <= |p.db.clients|
    requires TableMixed(p, served, k - 1, acc, i)
    requires acc.xrayRestart ==> next.xrayRestart
    requires next.running[i].shape == acc.running[i].shape
    requires
      var email := p.db.clients[k - 1].account.email;
      var will := Look(Loaded(p.db, Xray, UsableIds(p.db.clients, p.env.now))[i].users, email);
      var users, after := acc.running[i].users, next.running[i].users;
      && (forall e :: e != email ==> Look(after, e) == Look(users, e))
      && Look(after, email) in {Look(users, email), will}
      && (!next.xrayRestart ==> Look(after, email) == will)
    ensures TableMixed(p, served, k, next, i)
  {
  }

  lemma MixLiveVisit(p: Poll, served: set<nat>, k: nat, acc: Acc, next: Acc, i: nat)
    requires |Loaded(p.db, Xray, served)| == |Loaded(p.db, Xray, UsableIds(p.db.clients, p.env.now))|
          == |acc.running| == |next.running| == |SlotsOf(p.db, Xray)|
    requires WellFormed(p.db) && i < |acc.running| && 0 < k <= |p.outs| == |p.db.clients|
    requires PossibleAt(p, k - 1) && LiveCapable(p, k - 1)
    requires TableMixed(p, served, k - 1, acc, i)
    requires
      var c := p.db.clients[k - 1];
      var ib := FindInbound(p.db.inbounds, c.account.inboundId).value;
      && next.running == LiveEffect(c, ib, !c.IsUsable(p.env.now), acc.running, p.outs[k - 1])
      && next.xrayRestart == (acc.xrayRestart || !p.outs[k - 1].ok)
    ensures TableMixed(p, served, k, next, i)
  {
    hide TableMixed, Loaded, SlotsOf, WellFormed, LiveEffect, UsableIds;
    var c := p.db.clients[k - 1];
    var ib := FindInbound(p.db.inbounds, c.account.inboundId).value;
    LoadedAt(p.db, Xray, served, i);
    MixedShape(p, served, k - 1, acc, i);
    UsableById(p.db, p.env.now, k - 1);
    LiveEffectAt(p.db, UsableIds(p.db.clients, p.env.now), k - 1, p.env.binary, p.outs[k - 1], acc.running, i);
    if SlotsOf(p.db, Xray)[i].owner == ib {
      MixLive(p, served, k, acc, next, i);
    } else {
      ElsewhereLooksSame(p, served, k - 1, ib, i);
      MixKept(p, served, k, acc, next, i);
    }
  }

  lemma MixedShape(p: Poll, served: set<nat>, k: nat, acc: Acc, i: nat)
    requires |Loaded(p.db, Xray, served)| == |Loaded(p.db, Xray, UsableIds(p.db.clients, p.env.now))| == |acc.running|
    requires i < |acc.running| && TableMixed(p, served, k, acc, i)
    ensures acc.running[i].shape == Loaded(p.db, Xray, served)[i].shape
  {
  }

  // At a listener of another row, client j is absent from both configs.
  lemma ElsewhereLooksSame(p: Poll, served: set<nat>, j: nat, ib: Inbound, i: nat)
    requires WellFormed(p.db) && i < |SlotsOf(p.db, Xray)| && j < |p.db.clients|
    requires FindInbound(p.db.inbounds, p.db.clients[j].account.inboundId) == Some(ib)
    requires SlotsOf(p.db, Xray)[i].owner != ib
    ensures |Loaded(p.db, Xray, served)| == |Loaded(p.db, Xray, UsableIds(p.db.clients, p.env.now))|
            == |SlotsOf(p.db, Xray)|
    ensures Look(Loaded(p.db, Xray, served)[i].users, p.db.clients[j].account.email)
         == Look(Loaded(p.db, Xray, UsableIds(p.db.clients, p.env.now))[i].users, p.db.clients[j].account.email)
  {
    OwnerByTag(p.db, Xray, i, ib);
    OtherOwner(p.db, SlotsOf(p.db, Xray)[i].owner, ib);
    SettledLooksSame(p, served, i, j);
  }

  // The same for a visit without a live call.
  lemma MixOtherVisit(p: Poll, served: set<nat>, k: nat, acc: Acc, next: Acc, i: nat)
    requires |Loaded(p.db, Xray, served)| == |Loaded(p.db, Xray, UsableIds(p.db.clients, p.env.now))|
          == |acc.running| == |next.running| == |SlotsOf(p.db, Xray)|
    requires WellFormed(p.db) && i < |acc.running| && 0 < k <= |p.db.clients|
    requires TableMixed(p, served, k - 1, acc, i)
    requires next.running == acc.running && (acc.xrayRestart ==> next.xrayRestart)
    requires Settled(p, served, k - 1) || next.xrayRestart || OnCore(p, k - 1, Singbox)
    ensures TableMixed(p, served, k, next, i)
  {
    hide Loaded, SlotsOf, TableMixed, WellFormed;
    if !next.xrayRestart {
      if Settled(p, served, k - 1) {
        SettledLooksSame(p, served, i, k - 1);
      } else {
        var ib := FindInbound(p.db.inbounds, p.db.clients[k - 1].account.inboundId).value;
        OwnerByTag(p.db, Xray, i, ib);
        ElsewhereLooksSame(p, served, k - 1, ib, i);
      }
    }
    MixKept(p, served, k, acc, next, i);
  }

  lemma SweepTablesStep(p: Poll, served: set<nat>, k: nat, acc: Acc, i: nat)
    requires WellFormed(p.db) && 0 < k <= |p.outs| == |p.db.clients| && PossibleAt(p, k - 1)
    requires |Loaded(p.db, Xray, served)| == |Loaded(p.db, Xray, UsableIds(p.db.clients, p.env.now))|
          == |acc.running| == |SlotsOf(p.db, Xray)|
    requires i < |acc.running| && TableMixed(p, served, k - 1, acc, i)
    requires FindInbound(p.db.inbounds, p.db.clients[k - 1].account.inboundId).Some?
    requires !NewlyCut(p.db.clients[k - 1], p.env.now, acc.cut)
             && !NewlyRestored(p.db.clients[k - 1], p.env.now, acc.cut)
         ==> Settled(p, served, k - 1)
    ensures
      var next := Step(p, acc, p.db.clients[k - 1], p.outs[k - 1]);
      |next.running| == |SlotsOf(p.db, Xray)| && TableMixed(p, served, k, next, i)
  {
    var c := p.db.clients[k - 1];
    var next := Step(p, acc, c, p.outs[k - 1]);
    StepEffect(p, acc, c, p.outs[k - 1], FindInbound(p.db.inbounds, c.account.inboundId).value);
    if (NewlyCut(c, p.env.now, acc.cut) || NewlyRestored(c, p.env.now, acc.cut)) && LiveCapable(p, k - 1) {
      MixLiveVisit(p, served, k, acc, next, i);
    } else {
      MixOtherVisit(p, served, k, acc, next, i);
    }
  }

  // ------------------------------------------------------------------------
  // Convergence
  // ------------------------------------------------------------------------

  lemma SettledClientsAgree(p: Poll, served: set<nat>, core: CoreKind)
    requires WellFormed(p.db)
    requires forall j :: 0 <= j < |p.db.clients| && OnCore(p, j, core) ==> Settled(p, served, j)
    ensures ConfigFor(p.db, core, served) == Generate(p.db, core, p.env.now)
  {
    forall c, ib | c in p.db.clients && ib in p.db.inbounds && ib.core == core && ib.enabled
      && c.account.inboundId == ib.id
      ensures c.Id() in served <==> c.Id() in UsableIds(p.db.clients, p.env.now)
    {
      var j :| 0 <= j < |p.db.clients| && p.db.clients[j] == c;
      FindsOwner(p.db, ib);
      UsableById(p.db, p.env.now, j);
      assert OnCore(p, j, core) && Settled(p, served, j);
    }
    ConfigAgree(p.db, core, served, UsableIds(p.db.clients, p.env.now));
  }

  // Without a due restart, listener i already has the shape of the new config.
  lemma ShapeUnchanged(p: Poll, served: set<nat>, acc: Acc, i: nat)
    requires WellFormed(p.db) && i < |SlotsOf(p.db, Xray)|
    requires FlagsMeanSettled(p, served, |p.db.clients|, acc) && !acc.xrayRestart
    ensures |Loaded(p.db, Xray, served)| == |Loaded(p.db, Xray, UsableIds(p.db.clients, p.env.now))|
            == |SlotsOf(p.db, Xray)|
    ensures Loaded(p.db, Xray, served)[i].shape == Loaded(p.db, Xray, UsableIds(p.db.clients, p.env.now))[i].shape
  {
    hide Loaded, SlotsOf, WellFormed;
    var usable := UsableIds(p.db.clients, p.env.now);
    var ib := SlotsOf(p.db, Xray)[i].owner;
    LoadedAt(p.db, Xray, served, i);
    LoadedAt(p.db, Xray, usable, i);
    if !HasUserTable(ib.protocol) {
      OwnerByTag(p.db, Xray, i, p.db.inbounds[0]) by { OwnersExist(p.db, i); }
      FindsOwner(p.db, ib);
      var accounts := Accounts(p.db.clients);
      forall a | a in accounts && a.inboundId == ib.id
        ensures a.id in served <==> a.id in usable
      {
        var j :| 0 <= j < |accounts| && accounts[j] == a;
        UsableById(p.db, p.env.now, j);
        assert Settled(p, served, j);
      }
      AccountsOfAgree(accounts, ib.id, served, usable);
    }
  }

  lemma OwnersExist(db: Db, i: nat)
    requires i < |SlotsOf(db, Xray)|
    ensures SlotsOf(db, Xray)[i].owner in db.inbounds && db.inbounds != []
  {
    QueryMembers(db.inbounds, Xray);
    AllSlotsOwners(QueryInbounds(db.inbounds, Xray));
  }

  // After the sweep: nothing failed, so listener i runs the new config already; or
  // old and new config coincide, so whatever landed changed nothing.
  lemma SweepRuns(p: Poll, s: Panel, served: set<nat>)
    requires Ready(p.db, p.env.now, s, served) && PossibleOuts(p)
    requires !Sweep(p, s, |p.outs|).xrayRestart || ConfigFor(p.db, Xray, served) == Generate(p.db, Xray, p.env.now)
    ensures Sweep(p, s, |p.outs|).running == Load(Generate(p.db, Xray, p.env.now))
  {
    var n := |p.db.clients|;
    var acc := Sweep(p, s, n);
    var usable := UsableIds(p.db.clients, p.env.now);
    SweepFlags(p, s, served, n);
    LoadedLengths(p.db, Xray, usable);
    LoadedLengths(p.db, Xray, served);
    SweepLength(p, s, n);
    forall i | 0 <= i < |SlotsOf(p.db, Xray)|
      ensures |acc.running| == |SlotsOf(p.db, Xray)| && acc.running[i] == Loaded(p.db, Xray, usable)[i]
    {
      SweepTables(p, s, served, n, i);
      if !acc.xrayRestart {
        ShapeUnchanged(p, served, acc, i);
      }
      forall e
        ensures Look(acc.running[i].users, e) == Look(Loaded(p.db, Xray, usable)[i].users, e)
      {
        if j :| 0 <= j < n && p.db.clients[j].account.email == e {
        } else {
          LookNobody(p.db, Xray, served, i, e);
          LookNobody(p.db, Xray, usable, i, e);
        }
      }
      LooksDecide(acc.running[i].users, Loaded(p.db, Xray, usable)[i].users);
    }
  }

  lemma {:induction false} SweepLength(p: Poll, s: Panel, k: nat)
    requires k <= |p.db.clients| && k <= |p.outs|
    ensures |Sweep(p, s, k).running| == |s.xray.running|
  {
    hide FindInbound, NewlyCut, NewlyRestored;
    if k != 0 {
      SweepLength(p, s, k - 1);
    }
  }

  // One poll converges, whatever the live calls do.
  lemma PollConverges(p: Poll, s: Panel, served: set<nat>)
    requires Ready(p.db, p.env.now, s, served) && PossibleOuts(p) && Accepted(p.env)
    ensures Converged(p.db, p.env.now, Enforced(p, s))
  {
    var n := |p.db.clients|;
    var acc := Sweep(p, s, n);
    SweepCut(p, s, n);
    SweepFlags(p, s, served, n);
    CutIsUnusable(p, s, acc.cut);
    if !acc.singboxRestart {
      SettledClientsAgree(p, served, Singbox);
    } else {
      AppliedSyncs(s.singbox, p.db, Singbox, p.env.sbBinary, p.env.now);
    }
    if !acc.xrayRestart || ConfigFor(p.db, Xray, served) == Generate(p.db, Xray, p.env.now) {
      SweepRuns(p, s, served);
    }
    if !acc.xrayRestart && !acc.xrayLive {
      SettledClientsAgree(p, served, Xray);
    }
  }

  // apply() on a core that runs its file, or whose file is out of date, ends with
  // the core running the rendered config.
  lemma AppliedSyncs(core: CoreState, db: Db, kind: CoreKind, binary: bool, now: real)
    requires core.running == Load(core.disk) || core.disk != Generate(db, kind, now)
    ensures Applied(core, db, kind, binary, now, true).0
         == CoreState(Generate(db, kind, now), Load(Generate(db, kind, now)))
  {
  }

  lemma CutIsUnusable(p: Poll, s: Panel, cut: set<nat>)
    requires WellFormed(p.db) && CutSettled(p, s, |p.db.clients|, cut)
    ensures cut == UnusableIds(p.db.clients, p.env.now)
  {
    forall id
      ensures id in cut <==> id in UnusableIds(p.db.clients, p.env.now)
    {
      if id in cut || id in UnusableIds(p.db.clients, p.env.now) {
        assert id in EnabledIds(p.db.clients);
        var c :| c in p.db.clients && c.enabled && c.Id() == id;
        var j :| 0 <= j < |p.db.clients| && p.db.clients[j] == c;
        UsableById(p.db, p.env.now, j);
      }
    }
  }

  function CoreOf(s: Panel, core: CoreKind): CoreState {
    match core
    case Xray => s.xray
    case Singbox => s.singbox
  }

  lemma UsableClients(db: Db, now: real)
    requires WellFormed(db)
    ensures forall c :: c in db.clients ==> (c.Id() in UsableIds(db.clients, now) <==> c.IsUsable(now))
  {
    hide UsableIds, WellFormed;
    forall c | c in db.clients
      ensures c.Id() in UsableIds(db.clients, now) <==> c.IsUsable(now)
    {
      var j :| 0 <= j < |db.clients| && db.clients[j] == c;
      UsableById(db, now, j);
    }
  }

  // What convergence means at the listeners of both cores: where users have names, the
  // usable clients of the row and nobody else are let in.
  lemma ServedExactly(db: Db, now: real, s: Panel, core: CoreKind, i: nat, email: string)
    requires WellFormed(db) && Converged(db, now, s) && i < |SlotsOf(db, core)|
    ensures |CoreOf(s, core).running| == |SlotsOf(db, core)|
    ensures
      var ib := SlotsOf(db, core)[i].owner;
      email in Admitted(CoreOf(s, core).running[i]) <==>
        !IsLegacyShadowsocks(ib) &&
        exists c :: c in db.clients && c.account.email == email && c.IsUsable(now) && c.account.inboundId == ib.id
  {
    hide WellFormed, UsableIds, SlotsOf, Admitted;
    AdmitsExactly(db, core, UsableIds(db.clients, now), i, email);
    UsableClients(db, now);
  }

  // At a legacy Shadowsocks listener, the one password is that of a usable client of the
  // row if there is one, and the row's own otherwise.
  lemma ServedPassword(db: Db, now: real, s: Panel, core: CoreKind, i: nat)
    requires WellFormed(db) && Converged(db, now, s) && i < |SlotsOf(db, core)|
    requires IsLegacyShadowsocks(SlotsOf(db, core)[i].owner)
    ensures |CoreOf(s, core).running| == |SlotsOf(db, core)|
    ensures
      var ib, password := SlotsOf(db, core)[i].owner, CoreOf(s, core).running[i].shape.settings.single;
      if exists c :: c in db.clients && c.IsUsable(now) && c.account.inboundId == ib.id
      then exists c ::
             c in db.clients && c.IsUsable(now) && c.account.inboundId == ib.id && c.account.password == password
      else password == if "password" in ib.settings then ib.settings["password"] else ""
  {
    hide WellFormed, UsableIds, SlotsOf, ConfigFor, Load, ServedAt;
    var ib, usable := SlotsOf(db, core)[i].owner, UsableIds(db.clients, now);
    LegacyPassword(db, core, usable, i);
    UsableClients(db, now);
    ServedMembers(db, ib, usable);
    var clients := ServedAt(db, ib, usable);
    assert clients != [] ==> clients[0] in clients;
  }

  lemma ServedMembers(db: Db, ib: Inbound, served: set<nat>)
    ensures forall a :: a in ServedAt(db, ib, served) ==>
      exists c :: c in db.clients && c.account == a && c.Id() in served && c.account.inboundId == ib.id
    ensures forall c :: c in db.clients && c.Id() in served && c.account.inboundId == ib.id ==>
      ServedAt(db, ib, served) != []
  {
    var accounts := Accounts(db.clients);
    AccountsMembers(accounts, ib.id, served);
    forall a | a in ServedAt(db, ib, served)
      ensures exists c :: c in db.clients && c.account == a && c.Id() in served && c.account.inboundId == ib.id
    {
      var k :| 0 <= k < |accounts| && accounts[k] == a;
      assert db.clients[k] in db.clients && db.clients[k].account == a;
    }
    forall c | c in db.clients && c.Id() in served && c.account.inboundId == ib.id
      ensures ServedAt(db, ib, served) != []
    {
      var k :| 0 <= k < |db.clients| && db.clients[k] == c;
      assert accounts[k] == c.account;
    }
  }

  lemma {:induction false} AccountsMembers(accounts: seq<Account>, inboundId: nat, served: set<nat>)
    ensures forall a :: a in AccountsOf(accounts, inboundId, served) <==>
      a in accounts && a.inboundId == inboundId && a.id in served
  {
    if accounts != [] {
      var n := |accounts| - 1;
      AccountsMembers(accounts[..n], inboundId, served);
      assert accounts == accounts[..n] + [accounts[n]];
    }
  }
}
