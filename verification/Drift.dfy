// What one enforcement poll does to cores in any state: files that are out of date,
// processes that no longer run their file. When it converges for every outcome of
// its live calls is decided before it starts.
module Drift {
  import opened Models
  import opened Render
  import opened Cores
  import opened Serving
  import opened Enforcer

  // Client j is newly cut or newly restored at this poll. The memo alone decides.
  predicate Turns(db: Db, now: real, cut: set<nat>, j: nat)
    requires j < |db.clients|
  {
    NewlyCut(db.clients[j], now, cut) || NewlyRestored(db.clients[j], now, cut)
  }

  predicate OfRow(db: Db, j: nat, core: CoreKind, live: bool, binary: bool)
    requires j < |db.clients|
  {
    var ib := FindInbound(db.inbounds, db.clients[j].account.inboundId);
    ib.Some? && ib.value.core == core && SupportsLive(ib.value, binary) == live
  }

  predicate TurnsLive(db: Db, env: Env, cut: set<nat>, j: nat)
    requires j < |db.clients|
  {
    Turns(db, env.now, cut, j) && OfRow(db, j, Xray, true, env.binary)
  }

  // A transition on Xray that only a reload can carry out.
  predicate TurnsFixed(db: Db, env: Env, cut: set<nat>, j: nat)
    requires j < |db.clients|
  {
    Turns(db, env.now, cut, j) && OfRow(db, j, Xray, false, env.binary)
  }

  predicate TurnsSingbox(db: Db, env: Env, cut: set<nat>, j: nat)
    requires j < |db.clients|
  {
    Turns(db, env.now, cut, j) && OfRow(db, j, Singbox, false, env.binary)
  }

  predicate SomeLive(db: Db, env: Env, cut: set<nat>) {
    exists j :: 0 <= j < |db.clients| && TurnsLive(db, env, cut, j)
  }

  predicate SomeFixed(db: Db, env: Env, cut: set<nat>) {
    exists j :: 0 <= j < |db.clients| && TurnsFixed(db, env, cut, j)
  }

  predicate SomeSingbox(db: Db, env: Env, cut: set<nat>) {
    exists j :: 0 <= j < |db.clients| && TurnsSingbox(db, env, cut, j)
  }

  // The outcomes of a poll whose live calls are all confirmed.
  function AllConfirmed(db: Db): (r: seq<Outcome>)
    ensures |r| == |db.clients|
  {
    seq(|db.clients|, j requires 0 <= j < |db.clients| =>
      match FindInbound(db.inbounds, db.clients[j].account.inboundId)
      case None => NOTHING
      case Some(ib) => Everywhere(ib))
  }

  // What the process becomes if they are.
  function Switched(db: Db, env: Env, s: Panel): seq<Live> {
    Sweep(Poll(db, env, AllConfirmed(db)), s, |db.clients|).running
  }

  // The exact conditions, core by core. A core without a transition is left alone. A
  // reload happens only if the file changes. A changed file is reloaded if a call
  // fails or a transition needs it; else the process is what the calls make of it.
  predicate XrayFit(db: Db, env: Env, s: Panel) {
    var file := Generate(db, Xray, env.now);
    if !SomeLive(db, env, s.cut) && !SomeFixed(db, env, s.cut) then s.xray == CoreState(file, Load(file))
    else if s.xray.disk == file then s.xray.running == Load(file)
    else SomeFixed(db, env, s.cut) || Switched(db, env, s) == Load(file)
  }

  predicate SingboxFit(db: Db, env: Env, s: Panel) {
    var file := Generate(db, Singbox, env.now);
    if !SomeSingbox(db, env, s.cut) then s.singbox == CoreState(file, Load(file))
    else QueryInbounds(db.inbounds, Singbox) != [] && s.singbox.disk == file ==> s.singbox.running == Load(file)
  }

  predicate Fit(db: Db, env: Env, s: Panel) {
    XrayFit(db, env, s) && SingboxFit(db, env, s)
  }

  // ------------------------------------------------------------------------
  // The sweep from any state
  // ------------------------------------------------------------------------

  lemma TurnsInSweep(p: Poll, s: Panel, k: nat)
    requires WellFormed(p.db) && 0 < k <= |p.outs| == |p.db.clients|
    ensures
      var c, cut := p.db.clients[k - 1], Sweep(p, s, k - 1).cut;
      && NewlyCut(c, p.env.now, cut) == NewlyCut(c, p.env.now, s.cut)
      && NewlyRestored(c, p.env.now, cut) == NewlyRestored(c, p.env.now, s.cut)
  {
    hide Sweep;
    SweepCut(p, s, k - 1);
  }

  predicate NeedsReload(p: Poll, s: Panel, j: nat)
    requires j < |p.outs| == |p.db.clients|
  {
    TurnsFixed(p.db, p.env, s.cut, j) || (TurnsLive(p.db, p.env, s.cut, j) && !p.outs[j].ok)
  }

  predicate Confirmed(p: Poll, s: Panel, j: nat)
    requires j < |p.outs| == |p.db.clients|
  {
    TurnsLive(p.db, p.env, s.cut, j) && p.outs[j].ok
  }

  // What client j's visit does to the process.
  function Moved(p: Poll, s: Panel, j: nat, running: seq<Live>): seq<Live>
    requires j < |p.outs| == |p.db.clients|
  {
    var c := p.db.clients[j];
    match FindInbound(p.db.inbounds, c.account.inboundId)
    case None => running
    case Some(ib) =>
      if TurnsLive(p.db, p.env, s.cut, j)
        then LiveEffect(c, ib, !c.IsUsable(p.env.now), running, p.outs[j]) else running
  }

  // Client k - 1's visit, from any state.
  lemma VisitEffect(p: Poll, s: Panel, k: nat)
    requires WellFormed(p.db) && 0 < k <= |p.outs| == |p.db.clients|
    ensures
      var acc, next := Sweep(p, s, k - 1), Sweep(p, s, k);
      && next.running == Moved(p, s, k - 1, acc.running)
      && next.xrayRestart == (acc.xrayRestart || NeedsReload(p, s, k - 1))
      && next.xrayLive == (acc.xrayLive || Confirmed(p, s, k - 1))
      && next.singboxRestart == (acc.singboxRestart || TurnsSingbox(p.db, p.env, s.cut, k - 1))
  {
    var c := p.db.clients[k - 1];
    assert c in p.db.clients;
    var ib := FindInbound(p.db.inbounds, c.account.inboundId).value;
    TurnsInSweep(p, s, k);
    StepEffect(p, Sweep(p, s, k - 1), c, p.outs[k - 1], ib);
    hide Step, FindInbound, NewlyCut, NewlyRestored, WellFormed, LiveEffect;
    assert Sweep(p, s, k) == Step(p, Sweep(p, s, k - 1), c, p.outs[k - 1]);
  }

  // A call that lands nowhere.
  lemma MovedIdle(p: Poll, s: Panel, j: nat, running: seq<Live>)
    requires j < |p.outs| == |p.db.clients| && (TurnsLive(p.db, p.env, s.cut, j) ==> p.outs[j].landed == {})
    ensures Moved(p, s, j, running) == running
  {
    hide TurnsLive;
    assert RemoveOn(running, {}, p.db.clients[j].account.email) == running;
    assert forall e :: AddOn(running, {}, e) == running;
  }

  // A confirmed call, and an unconfirmed one between equal configs.
  lemma MovedSwitches(p: Poll, s: Panel, j: nat, was: set<nat>, will: set<nat>)
    requires WellFormed(p.db) && PossibleOuts(p) && j < |p.outs| && TurnsLive(p.db, p.env, s.cut, j)
    requires DifferAt(p.db, j, was, will) && (p.db.clients[j].Id() in will <==> p.db.clients[j].IsUsable(p.env.now))
    requires p.outs[j].ok || ConfigFor(p.db, Xray, was) == ConfigFor(p.db, Xray, will)
    ensures Moved(p, s, j, Loaded(p.db, Xray, was)) == Loaded(p.db, Xray, will)
  {
    hide Loaded, ConfigFor, LiveEffect, WellFormed, Turns, DifferAt;
    assert PossibleAt(p, j);
    LiveCallSwitches(p.db, was, will, j, p.env.binary, p.outs[j]);
  }

  lemma MovedConfirmed(p: Poll, q: Poll, s: Panel, j: nat, running: seq<Live>)
    requires p.db == q.db && p.env == q.env && PossibleOuts(p) && PossibleOuts(q) && j < |p.outs|
    requires TurnsLive(p.db, p.env, s.cut, j) ==> p.outs[j].ok && q.outs[j].ok
    ensures Moved(p, s, j, running) == Moved(q, s, j, running)
  {
    hide AddOn, RemoveOn, Turns;
    assert PossibleAt(p, j) && PossibleAt(q, j);
    if TurnsLive(p.db, p.env, s.cut, j) {
      assert p.outs[j].landed == q.outs[j].landed;
    }
  }

  // The flags after k clients, in terms of the transitions.
  predicate FlagsExact(p: Poll, s: Panel, k: nat, acc: Acc)
    requires k <= |p.outs| == |p.db.clients|
  {
    && (acc.xrayRestart <==> exists j :: 0 <= j < k && NeedsReload(p, s, j))
    && (acc.xrayLive <==> exists j :: 0 <= j < k && Confirmed(p, s, j))
    && (acc.singboxRestart <==> exists j :: 0 <= j < k && TurnsSingbox(p.db, p.env, s.cut, j))
  }

  lemma {:induction false} SweepFlagsExact(p: Poll, s: Panel, k: nat)
    requires WellFormed(p.db) && k <= |p.outs| == |p.db.clients|
    ensures FlagsExact(p, s, k, Sweep(p, s, k))
  {
    hide Sweep, Step, Moved, NeedsReload, Confirmed, TurnsSingbox, FlagsExact, WellFormed;
    if k == 0 {
      FlagsStart(p, s);
    } else {
      SweepFlagsExact(p, s, k - 1);
      VisitEffect(p, s, k);
      FlagsExactStep(p, s, k, Sweep(p, s, k - 1), Sweep(p, s, k));
    }
  }

  lemma FlagsStart(p: Poll, s: Panel)
    requires |p.outs| == |p.db.clients|
    ensures Sweep(p, s, 0) == Start(p, s) && FlagsExact(p, s, 0, Sweep(p, s, 0))
  {
    hide NeedsReload, Confirmed, TurnsSingbox, EnabledIds, Step;
  }

  lemma FlagsExactStep(p: Poll, s: Panel, k: nat, acc: Acc, next: Acc)
    requires 0 < k <= |p.outs| == |p.db.clients| && FlagsExact(p, s, k - 1, acc)
    requires next.xrayRestart == (acc.xrayRestart || NeedsReload(p, s, k - 1))
    requires next.xrayLive == (acc.xrayLive || Confirmed(p, s, k - 1))
    requires next.singboxRestart == (acc.singboxRestart || TurnsSingbox(p.db, p.env, s.cut, k - 1))
    ensures FlagsExact(p, s, k, next)
  {
    hide NeedsReload, Confirmed, TurnsSingbox;
  }

  // Calls that land nowhere leave the process alone.
  lemma {:induction false} SweepIdle(p: Poll, s: Panel, k: nat)
    requires WellFormed(p.db) && k <= |p.outs| == |p.db.clients|
    requires forall j :: 0 <= j < k && TurnsLive(p.db, p.env, s.cut, j) ==> p.outs[j].landed == {}
    ensures Sweep(p, s, k).running == s.xray.running
  {
    hide Moved, NeedsReload, Confirmed, TurnsLive, Step, Sweep;
    if k == 0 {
      FlagsStart(p, s);
    } else {
      SweepIdle(p, s, k - 1);
      VisitEffect(p, s, k);
      MovedIdle(p, s, k - 1, s.xray.running);
    }
  }

  // Calls on a process that is already right leave it right, wherever they land.
  lemma {:induction false} SweepHarmless(p: Poll, s: Panel, k: nat)
    requires WellFormed(p.db) && PossibleOuts(p) && k <= |p.outs|
    requires s.xray.running == Load(Generate(p.db, Xray, p.env.now))
    ensures Sweep(p, s, k).running == Load(Generate(p.db, Xray, p.env.now))
  {
    if k != 0 {
      SweepHarmless(p, s, k - 1);
      VisitEffect(p, s, k);
      hide Sweep, NeedsReload, Confirmed, WellFormed, ConfigFor;
      var usable := UsableIds(p.db.clients, p.env.now);
      if TurnsLive(p.db, p.env, s.cut, k - 1) {
        UsableById(p.db, p.env.now, k - 1);
        MovedSwitches(p, s, k - 1, usable, usable);
      }
    }
  }

  // All confirmed calls do the same.
  lemma {:induction false} SweepConfirmed(p: Poll, q: Poll, s: Panel, k: nat)
    requires WellFormed(p.db) && p.db == q.db && p.env == q.env && PossibleOuts(p) && PossibleOuts(q) && k <= |p.outs|
    requires forall j :: 0 <= j < k && TurnsLive(p.db, p.env, s.cut, j) ==> p.outs[j].ok && q.outs[j].ok
    ensures Sweep(p, s, k).running == Sweep(q, s, k).running
  {
    hide Moved, NeedsReload, Confirmed, TurnsLive, Step, Sweep;
    if k == 0 {
      FlagsStart(p, s);
      FlagsStart(q, s);
    } else {
      SweepConfirmed(p, q, s, k - 1);
      VisitEffect(p, s, k);
      VisitEffect(q, s, k);
      MovedConfirmed(p, q, s, k - 1, Sweep(p, s, k - 1).running);
    }
  }

  // ------------------------------------------------------------------------
  // The exact condition
  // ------------------------------------------------------------------------

  predicate Quiet(db: Db, env: Env, s: Panel) {
    !SomeLive(db, env, s.cut) && !SomeFixed(db, env, s.cut)
  }

  // Whether a reload of Xray is due, and if not, whether its file is written.
  lemma ReloadCases(p: Poll, s: Panel)
    requires WellFormed(p.db) && PossibleOuts(p)
    ensures
      var acc := Sweep(p, s, |p.outs|);
      && (acc.xrayRestart <==> exists j :: 0 <= j < |p.outs| && NeedsReload(p, s, j))
      && (Quiet(p.db, p.env, s) ==> !acc.xrayRestart && !acc.xrayLive)
      && (!Quiet(p.db, p.env, s) ==> acc.xrayRestart || acc.xrayLive)
      && (SomeFixed(p.db, p.env, s.cut) ==> acc.xrayRestart)
  {
    SweepFlagsExact(p, s, |p.outs|);
    hide Sweep, TurnsLive, TurnsFixed, WellFormed, PossibleOuts;
    if SomeFixed(p.db, p.env, s.cut) {
      var j :| 0 <= j < |p.db.clients| && TurnsFixed(p.db, p.env, s.cut, j);
      assert NeedsReload(p, s, j);
    }
    if SomeLive(p.db, p.env, s.cut) {
      var j :| 0 <= j < |p.db.clients| && TurnsLive(p.db, p.env, s.cut, j);
      assert NeedsReload(p, s, j) || Confirmed(p, s, j);
    }
  }

  // What the poll leaves of Xray, by cases.
  lemma XrayAfter(p: Poll, s: Panel)
    requires WellFormed(p.db) && PossibleOuts(p) && Accepted(p.env)
    ensures
      var file, running := Generate(p.db, Xray, p.env.now), Sweep(p, s, |p.outs|).running;
      var after := Enforced(p, s).xray;
      if Quiet(p.db, p.env, s) then after == s.xray
      else if s.xray.disk == file then after == CoreState(file, running)
      else if exists j :: 0 <= j < |p.outs| && NeedsReload(p, s, j) then after == CoreState(file, Load(file))
      else after == CoreState(file, Switched(p.db, p.env, s))
  {
    var n := |p.outs|;
    ReloadCases(p, s);
    if Quiet(p.db, p.env, s) {
      SweepIdle(p, s, n);
    } else if forall j :: 0 <= j < n ==> !NeedsReload(p, s, j) {
      ConfirmedPossible(p.db, p.env);
      forall j | 0 <= j < n && TurnsLive(p.db, p.env, s.cut, j)
        ensures p.outs[j].ok && AllConfirmed(p.db)[j].ok
      {
        assert !NeedsReload(p, s, j);
      }
      SweepConfirmed(p, Poll(p.db, p.env, AllConfirmed(p.db)), s, n);
    }
    hide Sweep, NeedsReload, WellFormed, PossibleOuts, ConfigFor, Load, Quiet, SomeFixed;
  }

  lemma SingboxAfter(p: Poll, s: Panel)
    requires WellFormed(p.db) && PossibleOuts(p) && Accepted(p.env)
    ensures
      Enforced(p, s).singbox ==
        if SomeSingbox(p.db, p.env, s.cut)
          then Applied(s.singbox, p.db, Singbox, p.env.sbBinary, p.env.now, true).0 else s.singbox
  {
    SweepFlagsExact(p, s, |p.outs|);
    hide Sweep, Applied;
  }

  lemma ConfirmedPossible(db: Db, env: Env)
    ensures PossibleOuts(Poll(db, env, AllConfirmed(db)))
    ensures forall j :: 0 <= j < |db.clients| && FindInbound(db.inbounds, db.clients[j].account.inboundId).Some?
              ==> AllConfirmed(db)[j].ok
  {
    forall k | 0 <= k < |db.clients|
      ensures PossibleAt(Poll(db, env, AllConfirmed(db)), k)
    {
    }
  }

  function NoneLands(db: Db): (r: seq<Outcome>)
    ensures |r| == |db.clients|
  {
    seq(|db.clients|, _ => NOTHING)
  }

  lemma NonePossible(db: Db, env: Env)
    ensures PossibleOuts(Poll(db, env, NoneLands(db)))
  {
  }

  lemma NoRowsNoConfig(db: Db, now: real)
    requires QueryInbounds(db.inbounds, Singbox) == []
    ensures Generate(db, Singbox, now) == [] && Load([]) == []
  {
  }

  lemma SingboxConverges(p: Poll, s: Panel)
    requires WellFormed(p.db) && PossibleOuts(p) && Accepted(p.env)
    ensures
      var file := Generate(p.db, Singbox, p.env.now);
      Enforced(p, s).singbox == CoreState(file, Load(file)) <==> SingboxFit(p.db, p.env, s)
  {
    SingboxAfter(p, s);
    hide Enforced, WellFormed, PossibleOuts, SomeSingbox, Generate, Load;
    if QueryInbounds(p.db.inbounds, Singbox) == [] {
      NoRowsNoConfig(p.db, p.env.now);
    }
  }

  lemma XrayConverges(p: Poll, s: Panel)
    requires WellFormed(p.db) && PossibleOuts(p) && Accepted(p.env) && XrayFit(p.db, p.env, s)
    ensures Enforced(p, s).xray == CoreState(Generate(p.db, Xray, p.env.now), Load(Generate(p.db, Xray, p.env.now)))
  {
    XrayAfter(p, s);
    ReloadCases(p, s);
    if s.xray.running == Load(Generate(p.db, Xray, p.env.now)) {
      SweepHarmless(p, s, |p.outs|);
    }
    hide Enforced, Sweep, WellFormed, PossibleOuts, Generate, Load, Switched, NeedsReload, SomeFixed, SomeLive;
  }

  // Outcomes that show a state unfit.
  lemma XrayDiverges(db: Db, env: Env, s: Panel) returns (outs: seq<Outcome>)
    requires WellFormed(db) && Accepted(env) && !XrayFit(db, env, s)
    ensures PossibleOuts(Poll(db, env, outs))
    ensures Enforced(Poll(db, env, outs), s).xray
            != CoreState(Generate(db, Xray, env.now), Load(Generate(db, Xray, env.now)))
  {
    ConfirmedPossible(db, env);
    NonePossible(db, env);
    outs := if s.xray.disk == Generate(db, Xray, env.now) then NoneLands(db) else AllConfirmed(db);
    XrayAfter(Poll(db, env, outs), s);
    if s.xray.disk == Generate(db, Xray, env.now) {
      SweepIdle(Poll(db, env, outs), s, |outs|);
    }
    hide Enforced, Sweep, WellFormed, PossibleOuts, Generate, Load, Switched, AllConfirmed;
  }

  // From any state of both cores and any memo, a poll converges for every outcome of
  // its live calls if and only if the state is fit for it.
  lemma PollConvergesIff(db: Db, env: Env, s: Panel)
    requires WellFormed(db) && Accepted(env)
    ensures
      (forall outs | PossibleOuts(Poll(db, env, outs)) ::
         Converged(db, env.now, Enforced(Poll(db, env, outs), s)))
      <==> Fit(db, env, s)
  {
    hide XrayFit, SingboxFit, WellFormed, Generate, Load;
    if Fit(db, env, s) {
      forall outs | PossibleOuts(Poll(db, env, outs))
        ensures Converged(db, env.now, Enforced(Poll(db, env, outs), s))
      {
        var p := Poll(db, env, outs);
        XrayConverges(p, s);
        SingboxConverges(p, s);
        SweepCut(p, s, |outs|);
        CutIsUnusable(p, s, Sweep(p, s, |outs|).cut);
      }
    } else {
      NonePossible(db, env);
      if XrayFit(db, env, s) {
        SingboxConverges(Poll(db, env, NoneLands(db)), s);
        assert !Converged(db, env.now, Enforced(Poll(db, env, NoneLands(db)), s));
      } else {
        var outs := XrayDiverges(db, env, s);
        assert !Converged(db, env.now, Enforced(Poll(db, env, outs), s));
      }
    }
  }

  // A truthful memo over cores that run their files is fit.
  lemma ReadyIsFit(db: Db, env: Env, s: Panel, served: set<nat>)
    requires Ready(db, env.now, s, served) && Accepted(env)
    ensures Fit(db, env, s)
  {
    forall outs | PossibleOuts(Poll(db, env, outs))
      ensures Converged(db, env.now, Enforced(Poll(db, env, outs), s))
    {
      PollConverges(Poll(db, env, outs), s, served);
    }
    PollConvergesIff(db, env, s);
  }

  // ------------------------------------------------------------------------
  // A file that serves one set of clients, a process that serves another
  // ------------------------------------------------------------------------

  // Whom the process serves after the first k clients' transitions were confirmed.
  function RunsAfter(db: Db, env: Env, cut: set<nat>, ran: set<nat>, k: nat): set<nat>
    requires k <= |db.clients|
  {
    if k == 0 then ran
    else
      var before, c := RunsAfter(db, env, cut, ran, k - 1), db.clients[k - 1];
      if !TurnsLive(db, env, cut, k - 1) then before
      else if c.IsUsable(env.now) then before + {c.Id()} else before - {c.Id()}
  }

  lemma {:induction false} SwitchedServes(p: Poll, s: Panel, ran: set<nat>, k: nat)
    requires WellFormed(p.db) && p.outs == AllConfirmed(p.db) && k <= |p.db.clients|
    requires s.xray.running == Loaded(p.db, Xray, ran)
    ensures Sweep(p, s, k).running == Loaded(p.db, Xray, RunsAfter(p.db, p.env, s.cut, ran, k))
  {
    hide Moved, NeedsReload, Confirmed, TurnsLive, Step, Sweep, Loaded, WellFormed, AllConfirmed, TurnsSingbox,
         PossibleOuts;
    if k == 0 {
      FlagsStart(p, s);
    } else {
      hide RunsAfter;
      SwitchedServes(p, s, ran, k - 1);
      VisitEffect(p, s, k);
      ConfirmedPossible(p.db, p.env);
      SwitchedStep(p, s, ran, k);
    }
  }

  lemma SwitchedStep(p: Poll, s: Panel, ran: set<nat>, k: nat)
    requires WellFormed(p.db) && p.outs == AllConfirmed(p.db) && PossibleOuts(p) && 0 < k <= |p.db.clients|
    ensures
      Moved(p, s, k - 1, Loaded(p.db, Xray, RunsAfter(p.db, p.env, s.cut, ran, k - 1)))
        == Loaded(p.db, Xray, RunsAfter(p.db, p.env, s.cut, ran, k))
  {
    hide Loaded, ConfigFor, AllConfirmed, Turns;
    var before, after := RunsAfter(p.db, p.env, s.cut, ran, k - 1), RunsAfter(p.db, p.env, s.cut, ran, k);
    if TurnsLive(p.db, p.env, s.cut, k - 1) {
      ConfirmedPossible(p.db, p.env);
      assert DifferAt(p.db, k - 1, before, after);
      MovedSwitches(p, s, k - 1, before, after);
    }
  }

  // For a file that serves `filed` and a process that serves `ran`, Xray is fit
  // exactly when both are right, or the file is wrong, something turns, and either a
  // transition forces a reload or the confirmed transitions make the process right.
  lemma XrayFitForSets(db: Db, env: Env, s: Panel, filed: set<nat>, ran: set<nat>)
    requires WellFormed(db) && s.xray == CoreState(ConfigFor(db, Xray, filed), Loaded(db, Xray, ran))
    ensures
      var usable := UsableIds(db.clients, env.now);
      var fileRight := ConfigFor(db, Xray, filed) == ConfigFor(db, Xray, usable);
      var turned := RunsAfter(db, env, s.cut, ran, |db.clients|);
      XrayFit(db, env, s) <==>
        if fileRight then Loaded(db, Xray, ran) == Loaded(db, Xray, usable)
        else SomeFixed(db, env, s.cut)
             || (SomeLive(db, env, s.cut) && Loaded(db, Xray, turned) == Loaded(db, Xray, usable))
  {
    SwitchedServes(Poll(db, env, AllConfirmed(db)), s, ran, |db.clients|);
    hide WellFormed, ConfigFor, Load, Sweep, RunsAfter, TurnsLive, TurnsFixed;
  }

  // ------------------------------------------------------------------------
  // How a poll passes a wrong process by
  // ------------------------------------------------------------------------

  // When the file is current, a poll whose live calls land nowhere leaves the process
  // as it is. That includes every poll that makes no live call: the reload is skipped.
  lemma CurrentFileKeepsRunning(p: Poll, s: Panel)
    requires WellFormed(p.db) && PossibleOuts(p) && Accepted(p.env)
    requires s.xray.disk == Generate(p.db, Xray, p.env.now)
    requires forall j :: 0 <= j < |p.outs| && TurnsLive(p.db, p.env, s.cut, j) ==> p.outs[j].landed == {}
    ensures Enforced(p, s).xray == s.xray
  {
    XrayAfter(p, s);
    SweepIdle(p, s, |p.outs|);
  }

  // When the memo already holds exactly the unusable clients, a poll does nothing at
  // all: a client that an edit put back, and that is over its limit again at the next
  // poll, stays connected.
  lemma SettledMemoHidesEverything(p: Poll, s: Panel)
    requires WellFormed(p.db) && PossibleOuts(p) && Accepted(p.env) && s.cut == UnusableIds(p.db.clients, p.env.now)
    ensures Enforced(p, s) == s
    ensures Converged(p.db, p.env.now, Enforced(p, s)) <==> Synced(p.db, p.env.now, s.xray, s.singbox)
  {
    forall j | 0 <= j < |p.db.clients|
      ensures !Turns(p.db, p.env.now, s.cut, j)
    {
      UsableById(p.db, p.env.now, j);
    }
    XrayAfter(p, s);
    SingboxAfter(p, s);
    SweepCut(p, s, |p.outs|);
    CutIsUnusable(p, s, Sweep(p, s, |p.outs|).cut);
  }

  // A poll whose reload the core rejects keeps the file: the live calls stay, and
  // nothing else happens.
  lemma RejectedReload(p: Poll, s: Panel)
    requires WellFormed(p.db) && PossibleOuts(p) && p.env.binary && !p.env.xrayValid
    requires exists j :: 0 <= j < |p.outs| && NeedsReload(p, s, j)
    ensures Enforced(p, s).xray == CoreState(s.xray.disk, Sweep(p, s, |p.outs|).running)
  {
    ReloadCases(p, s);
    hide Sweep, NeedsReload, WellFormed, PossibleOuts;
  }

  // ------------------------------------------------------------------------
  // Nobody else's tunnel
  // ------------------------------------------------------------------------

  // The clients that turn on Xray are on inbounds whose users can be changed live, and
  // their calls are confirmed.
  predicate AllLive(p: Poll, s: Panel)
    requires |p.outs| == |p.db.clients|
  {
    forall j :: 0 <= j < |p.outs| && Turns(p.db, p.env.now, s.cut, j) ==>
      var ib := FindInbound(p.db.inbounds, p.db.clients[j].account.inboundId);
      ib.Some? && ib.value.core == Xray ==>
        ib.value.protocol in {"vless", "vmess", "trojan"} && p.env.binary && p.outs[j].ok
  }

  predicate SameFor(email: string, a: seq<Live>, b: seq<Live>) {
    && |a| == |b|
    && forall i :: 0 <= i < |a| ==> a[i].shape == b[i].shape && Look(a[i].users, email) == Look(b[i].users, email)
  }

  lemma {:induction false} SweepSameFor(p: Poll, s: Panel, k: nat, email: string)
    requires WellFormed(p.db) && k <= |p.outs| == |p.db.clients|
    requires forall j :: 0 <= j < |p.db.clients| && p.db.clients[j].account.email == email ==>
      !Turns(p.db, p.env.now, s.cut, j)
    ensures SameFor(email, Sweep(p, s, k).running, s.xray.running)
  {
    hide Sweep, Turns, WellFormed, Moved;
    if k == 0 {
      FlagsStart(p, s);
    } else {
      SweepSameFor(p, s, k - 1, email);
      VisitEffect(p, s, k);
      MovedSameFor(p, s, k - 1, Sweep(p, s, k - 1).running, email);
    }
  }

  lemma MovedSameFor(p: Poll, s: Panel, j: nat, running: seq<Live>, email: string)
    requires j < |p.outs| == |p.db.clients|
    requires p.db.clients[j].account.email == email ==> !Turns(p.db, p.env.now, s.cut, j)
    ensures SameFor(email, Moved(p, s, j, running), running)
  {
  }

  // When only such clients turn, Xray is not restarted: every listener keeps its shape,
  // and a client that does not turn keeps its entry, even in a process that has drifted.
  lemma OthersUndisturbed(p: Poll, s: Panel, email: string)
    requires WellFormed(p.db) && PossibleOuts(p) && AllLive(p, s)
    requires forall j :: 0 <= j < |p.db.clients| && p.db.clients[j].account.email == email ==>
      !Turns(p.db, p.env.now, s.cut, j)
    ensures SameFor(email, Enforced(p, s).xray.running, s.xray.running)
  {
    ReloadCases(p, s);
    SweepSameFor(p, s, |p.outs|, email);
    forall j | 0 <= j < |p.outs|
      ensures !NeedsReload(p, s, j)
    {
      NoReload(p, s, j);
    }
    hide Sweep, NeedsReload, WellFormed, PossibleOuts, SameFor;
  }

  lemma NoReload(p: Poll, s: Panel, j: nat)
    requires |p.outs| == |p.db.clients| && j < |p.outs| && AllLive(p, s)
    ensures !NeedsReload(p, s, j)
  {
  }
}
