// tasks._update_ip_limits: the over-limit flag of a client with its hysteresis.
// The flag is set at once, and cleared only after a sustained time under the cap.
module IpLimits {
  import opened Models

  const CLEAR_COOLDOWN := 60.0

  // One poll of one capped client: its flag, and since when it is back under.
  function IpStep(flag: bool, since: Option<real>, exceeded: bool, now: real): (bool, Option<real>) {
    if exceeded then (true, None)
    else if flag then
      var firstOk := if since.Some? then since.value else now;
      if now - firstOk >= CLEAR_COOLDOWN then (false, None) else (true, Some(firstOk))
    else (false, None)
  }

  function Get<V>(m: map<nat, V>, k: nat): Option<V> {
    if k in m then Some(m[k]) else None
  }

  function Put<V>(m: map<nat, V>, k: nat, v: Option<V>): map<nat, V> {
    match v
    case Some(x) => m[k := x]
    case None => m - {k}
  }

  // A lifted cap (0) heals a leftover flag.
  function Healed(c: Client): Client {
    c.(ipLimitExceeded := c.ipLimitExceeded && c.limitIp != 0)
  }

  predicate Exceeds(c: Client, counts: map<string, nat>) {
    c.account.email in counts && counts[c.account.email] > c.limitIp
  }

  function FlagOne(c: Client, okSince: map<nat, real>, counts: map<string, nat>, now: real): (Client, map<nat, real>) {
    if c.limitIp == 0 then (c, okSince)
    else
      var (flag, since) := IpStep(c.ipLimitExceeded, Get(okSince, c.Id()), Exceeds(c, counts), now);
      (c.(ipLimitExceeded := flag), Put(okSince, c.Id(), since))
  }

  // The first k rows visited in table order.
  function FlagFirst(clients: seq<Client>, okSince: map<nat, real>, counts: map<string, nat>, now: real, k: nat)
    : (r: (seq<Client>, map<nat, real>))
    requires k <= |clients|
    ensures |r.0| == k
  {
    if k == 0 then ([], okSince)
    else
      var (rows, since) := FlagFirst(clients, okSince, counts, now, k - 1);
      var (c, next) := FlagOne(Healed(clients[k - 1]), since, counts, now);
      (rows + [c], next)
  }

  function FlagAll(clients: seq<Client>, okSince: map<nat, real>, counts: map<string, nat>, now: real)
    : (r: (seq<Client>, map<nat, real>))
    ensures |r.0| == |clients|
  {
    FlagFirst(clients, okSince, counts, now, |clients|)
  }

  predicate UniqueIds(clients: seq<Client>) {
    forall i, j :: 0 <= i < j < |clients| ==> clients[i].Id() != clients[j].Id()
  }

  // Each row is stepped by itself: its result depends on its own memo entry only,
  // and only its own entry changes.
  lemma {:induction false} FlagFirstAt(clients: seq<Client>, okSince: map<nat, real>, counts: map<string, nat>,
                                       now: real, k: nat, j: nat)
    requires UniqueIds(clients) && k <= |clients| && j < |clients|
    ensures
      var (rows, since) := FlagFirst(clients, okSince, counts, now, k);
      var c := Healed(clients[j]);
      if j >= k then Get(since, c.Id()) == Get(okSince, c.Id())
      else if c.limitIp == 0 then rows[j] == c && Get(since, c.Id()) == Get(okSince, c.Id())
      else
        var step := IpStep(c.ipLimitExceeded, Get(okSince, c.Id()), Exceeds(c, counts), now);
        rows[j] == c.(ipLimitExceeded := step.0) && Get(since, c.Id()) == step.1
  {
    hide IpStep, Exceeds;
    if k != 0 {
      FlagFirstAt(clients, okSince, counts, now, k - 1, j);
    }
  }

  lemma {:induction false} FlagFirstOthers(clients: seq<Client>, okSince: map<nat, real>, counts: map<string, nat>,
                                           now: real, k: nat, id: nat)
    requires k <= |clients| && forall c :: c in clients ==> c.Id() != id
    ensures Get(FlagFirst(clients, okSince, counts, now, k).1, id) == Get(okSince, id)
  {
    if k != 0 {
      FlagFirstOthers(clients, okSince, counts, now, k - 1, id);
    }
  }

  // Over a whole poll: a client's memo entry moves by its own step alone, and the
  // entries of ids without a row do not move.
  lemma MemoLocal(clients: seq<Client>, okSince: map<nat, real>, counts: map<string, nat>, now: real, id: nat)
    requires UniqueIds(clients)
    ensures
      var after := Get(FlagAll(clients, okSince, counts, now).1, id);
      || (after == Get(okSince, id) && forall c :: c in clients && c.Id() == id ==> c.limitIp == 0)
      || (exists c :: c in clients && c.Id() == id && c.limitIp != 0
            && after == IpStep(Healed(c).ipLimitExceeded, Get(okSince, id), Exceeds(c, counts), now).1)
  {
    if j :| 0 <= j < |clients| && clients[j].Id() == id {
      FlagFirstAt(clients, okSince, counts, now, |clients|, j);
      assert clients[j] in clients;
      forall c | c in clients && c.Id() == id
        ensures c == clients[j]
      {
        var k :| 0 <= k < |clients| && clients[k] == c;
      }
    } else {
      FlagFirstOthers(clients, okSince, counts, now, |clients|, id);
    }
  }

  // ------------------------------------------------------------------------
  // Runs of one capped client
  // ------------------------------------------------------------------------

  // A poll; `forgotten` if the memo entry was dropped since the last one (a panel
  // restart, or a poll that found the client disabled).
  datatype Tick = Tick(now: real, exceeded: bool, forgotten: bool)

  function StateAfter(ticks: seq<Tick>, k: nat): (bool, Option<real>)
    requires k <= |ticks|
  {
    if k == 0 then (false, None)
    else
      var t := ticks[k - 1];
      var (flag, since) := StateAfter(ticks, k - 1);
      IpStep(flag, if t.forgotten then None else since, t.exceeded, t.now)
  }

  predicate Flagged(ticks: seq<Tick>, k: nat)
    requires k <= |ticks|
  {
    StateAfter(ticks, k).0
  }

  predicate ClearedBy(ticks: seq<Tick>, k: nat)
    requires k < |ticks|
  {
    Flagged(ticks, k) && !Flagged(ticks, k + 1)
  }

  predicate Monotone(ticks: seq<Tick>) {
    InOrder(ticks, (e: Tick) => e.now)
  }

  // Polls m..k were all under the limit while the flag was set.
  predicate UnderStreak(ticks: seq<Tick>, m: nat, k: nat)
    requires k <= |ticks|
  {
    forall i :: m <= i < k ==> !ticks[i].exceeded && Flagged(ticks, i)
  }

  // The memo always names the start of the current under-limit streak.
  lemma {:induction false} SinceStartsStreak(ticks: seq<Tick>, k: nat)
    requires k <= |ticks|
    ensures StateAfter(ticks, k).1.Some? ==>
      Flagged(ticks, k) &&
      exists m :: 0 <= m < k && ticks[m].now == StateAfter(ticks, k).1.value && UnderStreak(ticks, m, k)
  {
    if k != 0 {
      SinceStartsStreak(ticks, k - 1);
      var t := ticks[k - 1];
      var (flag, since) := StateAfter(ticks, k - 1);
      if !t.exceeded && flag {
        if since.Some? && !t.forgotten {
          var m :| 0 <= m < k - 1 && ticks[m].now == since.value && UnderStreak(ticks, m, k - 1);
          assert UnderStreak(ticks, m, k);
        } else {
          assert UnderStreak(ticks, k - 1, k);
        }
      }
    }
  }

  // A poll over the limit leaves the flag set.
  lemma OverLimitFlags(ticks: seq<Tick>, k: nat)
    requires k < |ticks| && ticks[k].exceeded
    ensures Flagged(ticks, k + 1) && !ClearedBy(ticks, k)
  {
  }

  // A clear ends an unbroken under-limit streak at least a cooldown long.
  lemma ClearEndsStreak(ticks: seq<Tick>, k: nat) returns (m: nat)
    requires k < |ticks| && ClearedBy(ticks, k)
    ensures m <= k && UnderStreak(ticks, m, k + 1)
    ensures ticks[m].now <= ticks[k].now - CLEAR_COOLDOWN
  {
    SinceStartsStreak(ticks, k);
    m :| 0 <= m < k && ticks[m].now == StateAfter(ticks, k).1.value && UnderStreak(ticks, m, k);
  }

  // Polls m..k are one under-limit streak in the memo's eyes: none of them is over the
  // limit, none after m has forgotten, and m is where the streak or the memory starts.
  predicate Streak(ticks: seq<Tick>, m: nat, k: nat)
    requires k < |ticks|
  {
    && m <= k
    && (forall i :: m <= i <= k ==> !ticks[i].exceeded)
    && (forall i :: m < i <= k ==> !ticks[i].forgotten)
    && (m == 0 || ticks[m].forgotten || ticks[m - 1].exceeded)
  }

  // What a flagged client's memo holds while it is under its limit.
  lemma {:induction false} SinceIsStreak(ticks: seq<Tick>, k: nat, m: nat)
    requires k < |ticks| && Flagged(ticks, k + 1) && Streak(ticks, m, k)
    ensures StateAfter(ticks, k + 1).1 == Some(ticks[m].now)
  {
    if m < k {
      SinceIsStreak(ticks, k - 1, m);
    } else if k > 0 && ticks[k - 1].exceeded {
      assert StateAfter(ticks, k) == (true, None);
    }
  }

  lemma {:induction false} StreakExists(ticks: seq<Tick>, k: nat) returns (m: nat)
    requires k < |ticks| && !ticks[k].exceeded
    ensures Streak(ticks, m, k)
  {
    if k == 0 || ticks[k].forgotten || ticks[k - 1].exceeded {
      m := k;
    } else {
      m := StreakExists(ticks, k - 1);
    }
  }

  lemma StreakUnique(ticks: seq<Tick>, k: nat, m: nat, n: nat)
    requires k < |ticks| && Streak(ticks, m, k) && Streak(ticks, n, k)
    ensures m == n
  {
  }

  lemma StreakDecides(ticks: seq<Tick>, k: nat, m: nat)
    requires k < |ticks| && Flagged(ticks, k) && Streak(ticks, m, k)
    ensures Flagged(ticks, k + 1) <==> ticks[k].now - ticks[m].now < 60.0
  {
    if m < k {
      SinceIsStreak(ticks, k - 1, m);
    } else if k > 0 && ticks[k - 1].exceeded {
      assert StateAfter(ticks, k) == (true, None);
    }
  }

  predicate Sustained(ticks: seq<Tick>, k: nat)
    requires k < |ticks|
  {
    exists m :: 0 <= m <= k && Streak(ticks, m, k) && ticks[k].now - ticks[m].now >= 60.0
  }

  // The flag after a poll: it is set by a poll over the limit, and a set flag is cleared
  // exactly by a poll that ends an under-limit streak of 60 seconds or more.
  lemma FlagDecided(ticks: seq<Tick>, k: nat)
    requires k < |ticks|
    ensures Flagged(ticks, k + 1) <==> ticks[k].exceeded || (Flagged(ticks, k) && !Sustained(ticks, k))
  {
    if !ticks[k].exceeded {
      if Flagged(ticks, k) {
        hide Flagged, Streak;
        var m := StreakExists(ticks, k);
        StreakDecides(ticks, k, m);
        forall n | 0 <= n <= k && Streak(ticks, n, k)
          ensures n == m
        {
          StreakUnique(ticks, k, m, n);
        }
      }
    }
  }

  lemma ClearsApart(ticks: seq<Tick>, i: nat, j: nat)
    requires Monotone(ticks) && i < j < |ticks| && ClearedBy(ticks, i) && ClearedBy(ticks, j)
    ensures ticks[i].now + CLEAR_COOLDOWN <= ticks[j].now
  {
    var m := ClearEndsStreak(ticks, j);
    assert i < m;
  }

  // How many of the first k polls cleared the flag at a time in [a, b].
  function ClearsIn(ticks: seq<Tick>, k: nat, a: real, b: real): nat
    requires k <= |ticks|
  {
    if k == 0 then 0
    else ClearsIn(ticks, k - 1, a, b) + if ClearedBy(ticks, k - 1) && a <= ticks[k - 1].now <= b then 1 else 0
  }

  lemma {:induction false} LastClear(ticks: seq<Tick>, k: nat, a: real, b: real) returns (l: nat)
    requires Monotone(ticks) && k <= |ticks| && ClearsIn(ticks, k, a, b) > 0
    ensures l < k && ClearedBy(ticks, l) && ticks[l].now <= b
    ensures ticks[l].now >= a + CLEAR_COOLDOWN * (ClearsIn(ticks, k, a, b) - 1) as real
  {
    if ClearedBy(ticks, k - 1) && a <= ticks[k - 1].now <= b {
      l := k - 1;
      if ClearsIn(ticks, k - 1, a, b) > 0 {
        var before := LastClear(ticks, k - 1, a, b);
        ClearsApart(ticks, before, l);
      }
    } else {
      l := LastClear(ticks, k - 1, a, b);
    }
  }

  // However the client flaps, a window of length b - a holds at most one clear per
  // cooldown, plus one.
  lemma ClearsBounded(ticks: seq<Tick>, a: real, b: real)
    requires Monotone(ticks) && a <= b
    ensures ClearsIn(ticks, |ticks|, a, b) <= ((b - a) / CLEAR_COOLDOWN).Floor + 1
  {
    if ClearsIn(ticks, |ticks|, a, b) > 0 {
      var l := LastClear(ticks, |ticks|, a, b);
    }
  }

  // ------------------------------------------------------------------------
  // Runs of the whole table
  // ------------------------------------------------------------------------

  // A poll of the table; `forgotten` are the ids whose memo entry was dropped since the
  // last one.
  datatype TablePoll = TablePoll(now: real, counts: map<string, nat>, forgotten: set<nat>)

  function TableAfter(clients: seq<Client>, polls: seq<TablePoll>, k: nat): (r: (seq<Client>, map<nat, real>))
    requires k <= |polls|
    ensures |r.0| == |clients|
  {
    if k == 0 then (clients, map[])
    else
      var (rows, since) := TableAfter(clients, polls, k - 1);
      FlagAll(rows, since - polls[k - 1].forgotten, polls[k - 1].counts, polls[k - 1].now)
  }

  // What one row sees of the polls.
  function TicksOf(c: Client, polls: seq<TablePoll>): (r: seq<Tick>)
    ensures |r| == |polls|
  {
    seq(|polls|, i requires 0 <= i < |polls| =>
      Tick(polls[i].now,
           c.account.email in polls[i].counts && polls[i].counts[c.account.email] > c.limitIp,
           c.account.id in polls[i].forgotten))
  }

  predicate OnlyFlagDiffers(c: Client, d: Client) {
    d == c.(ipLimitExceeded := d.ipLimitExceeded)
  }

  lemma {:induction false} RowsKept(clients: seq<Client>, polls: seq<TablePoll>, k: nat)
    requires UniqueIds(clients) && k <= |polls|
    ensures forall j :: 0 <= j < |clients| ==> OnlyFlagDiffers(clients[j], TableAfter(clients, polls, k).0[j])
    ensures UniqueIds(TableAfter(clients, polls, k).0)
  {
    if k != 0 {
      RowsKept(clients, polls, k - 1);
      var (rows, since) := TableAfter(clients, polls, k - 1);
      var p := polls[k - 1];
      forall j | 0 <= j < |clients|
        ensures OnlyFlagDiffers(clients[j], TableAfter(clients, polls, k).0[j])
      {
        FlagFirstAt(rows, since - p.forgotten, p.counts, p.now, |rows|, j);
        assert OnlyFlagDiffers(clients[j], rows[j]);
      }
      RowsKeepIds(clients, TableAfter(clients, polls, k).0);
    }
  }

  lemma RowsKeepIds(clients: seq<Client>, rows: seq<Client>)
    requires UniqueIds(clients) && |rows| == |clients|
    requires forall j :: 0 <= j < |clients| ==> OnlyFlagDiffers(clients[j], rows[j])
    ensures UniqueIds(rows)
  {
    assert forall j :: 0 <= j < |clients| ==> OnlyFlagDiffers(clients[j], rows[j]) && rows[j].Id() == clients[j].Id();
  }

  // Over any run of polls, a capped row's flag goes by its own ticks; an uncapped row
  // has no flag after a poll.
  lemma {:induction false} TableFollowsTicks(clients: seq<Client>, polls: seq<TablePoll>, k: nat, j: nat)
    requires UniqueIds(clients) && k <= |polls| && j < |clients| && !clients[j].ipLimitExceeded
    ensures
      var (rows, since) := TableAfter(clients, polls, k);
      var ticks := TicksOf(clients[j], polls);
      if clients[j].limitIp == 0 then !rows[j].ipLimitExceeded
      else rows[j].ipLimitExceeded == Flagged(ticks, k) && Get(since, clients[j].account.id) == StateAfter(ticks, k).1
  {
    hide IpStep, FlagAll, UniqueIds;
    if k != 0 {
      TableFollowsTicks(clients, polls, k - 1, j);
      RowsKept(clients, polls, k - 1);
      var (rows, since) := TableAfter(clients, polls, k - 1);
      var p := polls[k - 1];
      assert OnlyFlagDiffers(clients[j], rows[j]);
      PolledRow(rows, since, p, j);
    }
  }

  lemma PolledRow(rows: seq<Client>, since: map<nat, real>, p: TablePoll, j: nat)
    requires UniqueIds(rows) && j < |rows|
    ensures
      var (next, after) := FlagAll(rows, since - p.forgotten, p.counts, p.now);
      var c := rows[j];
      if c.limitIp == 0 then next[j] == c.(ipLimitExceeded := false)
      else
        var before := if c.Id() in p.forgotten then None else Get(since, c.Id());
        var step := IpStep(c.ipLimitExceeded, before, Exceeds(c, p.counts), p.now);
        next[j] == c.(ipLimitExceeded := step.0) && Get(after, c.Id()) == step.1
  {
    hide IpStep;
    FlagFirstAt(rows, since - p.forgotten, p.counts, p.now, |rows|, j);
  }

  predicate OverCap(c: Client, p: TablePoll) {
    c.account.email in p.counts && p.counts[c.account.email] > c.limitIp
  }

  // So, in a run of the poller: a poll that sees more IPs than the cap flags the client,
  // and a flagged client is cleared exactly by a poll that ends 60 seconds or more of
  // polls that saw no more than the cap, counted from the first one remembered.
  lemma RowFlagDecided(clients: seq<Client>, polls: seq<TablePoll>, k: nat, j: nat)
    requires UniqueIds(clients) && k < |polls| && j < |clients|
    requires !clients[j].ipLimitExceeded && clients[j].limitIp > 0
    ensures
      TableAfter(clients, polls, k + 1).0[j].ipLimitExceeded <==>
        || OverCap(clients[j], polls[k])
        || (TableAfter(clients, polls, k).0[j].ipLimitExceeded && !Sustained(TicksOf(clients[j], polls), k))
  {
    hide TableAfter, Flagged, Sustained, StateAfter;
    TableFollowsTicks(clients, polls, k, j);
    TableFollowsTicks(clients, polls, k + 1, j);
    FlagDecided(TicksOf(clients[j], polls), k);
  }

  // One poll of the table, row by row, from any memo.
  predicate FlagRule(c: Client, d: Client, okSince: map<nat, real>, counts: map<string, nat>, now: real) {
    var over := c.account.email in counts && counts[c.account.email] > c.limitIp;
    && OnlyFlagDiffers(c, d)
    && (d.ipLimitExceeded <==>
          c.limitIp != 0 &&
          (over || (c.ipLimitExceeded && !(c.account.id in okSince && now - okSince[c.account.id] >= 60.0))))
  }

  lemma FlagsByRule(clients: seq<Client>, okSince: map<nat, real>, counts: map<string, nat>, now: real)
    requires UniqueIds(clients)
    ensures forall j :: 0 <= j < |clients| ==>
      FlagRule(clients[j], FlagAll(clients, okSince, counts, now).0[j], okSince, counts, now)
  {
    hide FlagAll, UniqueIds;
    forall j | 0 <= j < |clients|
      ensures FlagRule(clients[j], FlagAll(clients, okSince, counts, now).0[j], okSince, counts, now)
    {
      FlagByRule(clients, okSince, counts, now, j);
    }
  }

  lemma FlagByRule(clients: seq<Client>, okSince: map<nat, real>, counts: map<string, nat>, now: real, j: nat)
    requires UniqueIds(clients) && j < |clients|
    ensures FlagRule(clients[j], FlagAll(clients, okSince, counts, now).0[j], okSince, counts, now)
  {
    FlagFirstAt(clients, okSince, counts, now, |clients|, j);
  }
}
