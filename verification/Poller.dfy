// The background poller as it runs: rows, memos and cores updated in place, loop by
// loop. Each method is tied to the function the theorems are about.
module Poller {
  import opened Models
  import opened Cores
  import opened Serving
  import opened Enforcer
  import opened IpLimits

  lemma {:induction false} SweepIgnoresLater(p: Poll, s: Panel, k: nat, more: seq<Outcome>)
    requires k <= |p.db.clients| && k <= |p.outs|
    ensures Sweep(p.(outs := p.outs + more), s, k) == Sweep(p, s, k)
  {
    if k != 0 {
      SweepIgnoresLater(p, s, k - 1, more);
    }
  }

  lemma StepIgnoresOuts(p: Poll, acc: Acc, c: Client, o: Outcome)
    ensures Step(p, acc, c, o) == Step(p.(outs := []), acc, c, o)
  {
  }

  predicate OutcomeFits(db: Db, j: nat, o: Outcome)
    requires j < |db.clients|
  {
    var ib := FindInbound(db.inbounds, db.clients[j].account.inboundId);
    ib.Some? ==> Possible(o, TagsOf(ib.value))
  }

  function Pruned(okSince: map<nat, real>, ids: set<nat>): map<nat, real> {
    map id | id in okSince && id in ids :: okSince[id]
  }

  class StatsPoller {
    const xray: Core
    const singbox: Core
    var db: Db
    var cutClients: set<nat>
    var ipOkSince: map<nat, real>

    constructor (xray: Core, singbox: Core, db: Db)
      requires xray.kind == Xray && singbox.kind == Singbox
      ensures Valid() && this.xray == xray && this.singbox == singbox && this.db == db
      ensures cutClients == {} && ipOkSince == map[]
    {
      this.xray, this.singbox, this.db := xray, singbox, db;
      cutClients, ipOkSince := {}, map[];
    }

    predicate Valid() {
      xray.kind == Xray && singbox.kind == Singbox
    }

    function State(): Panel
      reads this, xray, singbox
    {
      Panel(xray.State(), singbox.State(), cutClients)
    }

    predicate Sees(env: Env) {
      env.binary == xray.binary && env.sbBinary == singbox.binary
    }

    method UpdateIpLimits(counts: map<string, nat>, now: real)
      modifies this
      ensures db == old(db).(clients := FlagAll(old(db.clients), old(ipOkSince), counts, now).0)
      ensures ipOkSince == FlagAll(old(db.clients), old(ipOkSince), counts, now).1
      ensures cutClients == old(cutClients)
      ensures |db.clients| == |old(db.clients)|
      ensures UniqueIds(old(db.clients)) ==>
        forall j :: 0 <= j < |db.clients| ==>
          FlagRule(old(db.clients)[j], db.clients[j], old(ipOkSince), counts, now)
    {
      var clients := db.clients;
      var rows: seq<Client> := [];
      for k := 0 to |clients|
        invariant db == old(db) && cutClients == old(cutClients)
        invariant (rows, ipOkSince) == FlagFirst(clients, old(ipOkSince), counts, now, k)
      {
        var c := Healed(clients[k]);
        ghost var was := ipOkSince;
        ghost var visit := FlagOne(c, ipOkSince, counts, now);
        if c.limitIp > 0 {
          if Exceeds(c, counts) {
            ipOkSince := ipOkSince - {c.Id()};
            c := c.(ipLimitExceeded := true);
          } else if c.ipLimitExceeded {
            var firstOk := if c.Id() in ipOkSince then ipOkSince[c.Id()] else now;
            ipOkSince := ipOkSince[c.Id() := firstOk];
            if now - firstOk >= CLEAR_COOLDOWN {
              c := c.(ipLimitExceeded := false);
              ipOkSince := ipOkSince - {c.Id()};
              assert was[c.Id() := firstOk] - {c.Id()} == was - {c.Id()};
            }
          } else {
            ipOkSince := ipOkSince - {c.Id()};
          }
        }
        assert (c, ipOkSince) == visit;
        rows := rows + [c];
      }
      db := db.(clients := rows);
      if UniqueIds(clients) {
        FlagsByRule(clients, old(ipOkSince), counts, now);
      }
    }

    // The loop body of EnforceLimits: one enabled client.
    method Visit(env: Env, c: Client, restart: bool, live: bool, sbRestart: bool)
      returns (xrayRestart: bool, xrayLive: bool, singboxRestart: bool, ghost o: Outcome)
      requires Valid() && Sees(env)
      modifies this, xray
      ensures db == old(db) && ipOkSince == old(ipOkSince) && xray.disk == old(xray.disk)
      ensures var ib := FindInbound(db.inbounds, c.account.inboundId);
              ib.Some? ==> Possible(o, TagsOf(ib.value))
      ensures Acc(cutClients, xray.running, xrayRestart, xrayLive, singboxRestart)
           == Step(Poll(db, env, []), Acc(old(cutClients), old(xray.running), restart, live, sbRestart), c, o)
    {
      o := NOTHING;
      xrayRestart, xrayLive, singboxRestart := restart, live, sbRestart;
      var newlyCut := NewlyCut(c, env.now, cutClients);
      if !newlyCut && !NewlyRestored(c, env.now, cutClients) {
        return;
      }
      cutClients := if newlyCut then cutClients + {c.Id()} else cutClients - {c.Id()};
      var found := FindInbound(db.inbounds, c.account.inboundId);
      if found.None? {
        return;
      }
      var ib := found.value;
      if SupportsLive(ib, env.binary) {
        var ok;
        if newlyCut {
          ok, o := xray.RemoveUserLive(ib, c.account.email);
        } else {
          ok, o := xray.AddUserLive(ib, c.account);
        }
        if ok { xrayLive := true; } else { xrayRestart := true; }
      } else if ib.core == Singbox {
        singboxRestart := true;
      } else {
        xrayRestart := true;
      }
    }

    // The loop of EnforceLimits.
    method VisitAll(env: Env)
      returns (xrayRestart: bool, xrayLive: bool, singboxRestart: bool, ghost outs: seq<Outcome>)
      requires Valid() && Sees(env)
      modifies this, xray
      ensures db == old(db) && xray.disk == old(xray.disk)
      ensures PossibleOuts(Poll(db, env, outs))
      ensures Acc(cutClients, xray.running, xrayRestart, xrayLive, singboxRestart)
           == Sweep(Poll(db, env, outs), old(State()), |db.clients|)
      ensures ipOkSince == Pruned(old(ipOkSince), EnabledIds(db.clients))
    {
      outs := [];
      var liveIds := EnabledIds(db.clients);
      cutClients := cutClients * liveIds;
      ipOkSince := Pruned(ipOkSince, liveIds);
      xrayRestart, xrayLive, singboxRestart := false, false, false;
      var k := 0;
      while k < |db.clients|
        invariant 0 <= k <= |db.clients| && |outs| == k
        invariant db == old(db) && ipOkSince == Pruned(old(ipOkSince), liveIds)
        invariant xray.disk == old(xray.disk)
        invariant Acc(cutClients, xray.running, xrayRestart, xrayLive, singboxRestart)
               == Sweep(Poll(db, env, outs), old(State()), k)
        invariant forall i :: 0 <= i < k ==> OutcomeFits(db, i, outs[i])
      {
        ghost var o;
        ghost var p := Poll(db, env, outs);
        xrayRestart, xrayLive, singboxRestart, o := Visit(env, db.clients[k], xrayRestart, xrayLive, singboxRestart);
        SweepIgnoresLater(p, old(State()), k, [o]);
        StepIgnoresOuts(p.(outs := outs + [o]), Sweep(p, old(State()), k), db.clients[k], o);
        outs := outs + [o];
        k := k + 1;
      }
    }

    method EnforceLimits(env: Env) returns (ghost outs: seq<Outcome>)
      requires Valid() && Sees(env)
      modifies this, xray, singbox
      ensures db == old(db)
      ensures PossibleOuts(Poll(db, env, outs))
      ensures State() == Enforced(Poll(db, env, outs), old(State()))
      ensures ipOkSince == Pruned(old(ipOkSince), EnabledIds(db.clients))
      ensures forall id :: id in ipOkSince <==>
        id in old(ipOkSince) && exists c :: c in db.clients && c.enabled && c.account.id == id
    {
      var xrayRestart, xrayLive, singboxRestart;
      xrayRestart, xrayLive, singboxRestart, outs := VisitAll(env);
      if xrayRestart {
        var _ := xray.Apply(db, env.now, env.xrayValid);
      } else if xrayLive {
        xray.PersistConfig(db, env.now);
      }
      if singboxRestart {
        var _ := singbox.Apply(db, env.now, env.sbValid);
      }
    }
  }
}
