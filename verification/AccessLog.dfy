// access_log: the rolling table of source IPs behind limit_ip and the online badge.
module AccessLogs {
  import opened Models
  import IpLimits

  // Of one IP of one client: the last accepted connection, and the last activity.
  datatype Stamp = Stamp(accepted: real, seen: real)

  type Ips = map<string, Stamp>
  type Table = map<string, Ips>

  datatype Settings = Settings(ipLimitWindow: int, onlineWindow: int, statsPoll: int)
  {
    function Keep(): real {
      (if onlineWindow >= statsPoll * 2 then onlineWindow else statsPoll * 2) as real
    }

    function Enforce(): real {
      ipLimitWindow as real
    }
  }

  // What one poll reads: the accepts of the new log lines, and the clients whose byte
  // counters moved.
  datatype Poll = Poll(now: real, accepts: seq<(string, string)>, active: set<string>)

  function IpsOf(t: Table, email: string): Ips {
    if email in t then t[email] else map[]
  }

  function Accept(t: Table, email: string, ip: string, now: real): Table {
    t[email := IpsOf(t, email)[ip := Stamp(now, now)]]
  }

  function AcceptAll(t: Table, accepts: seq<(string, string)>, now: real): Table {
    if accepts == [] then t
    else
      var (email, ip) := accepts[|accepts| - 1];
      Accept(AcceptAll(t, accepts[..|accepts| - 1], now), email, ip, now)
  }

  function Refresh(ips: Ips, now: real): Ips {
    map ip | ip in ips :: ips[ip].(seen := now)
  }

  function RefreshAll(t: Table, active: set<string>, now: real): Table {
    map e | e in t :: if e in active then Refresh(t[e], now) else t[e]
  }

  function Kept(ips: Ips, keepStart: real): Ips {
    map ip | ip in ips && ips[ip].seen >= keepStart :: ips[ip]
  }

  function Pruned(t: Table, keepStart: real): Table {
    map e | e in t && Kept(t[e], keepStart) != map[] :: Kept(t[e], keepStart)
  }

  function Recent(ips: Ips, enforceStart: real): set<string> {
    set ip | ip in ips && ips[ip].accepted >= enforceStart
  }

  function Counts(t: Table, enforceStart: real): map<string, nat> {
    map e | e in t && |Recent(t[e], enforceStart)| > 0 :: |Recent(t[e], enforceStart)|
  }

  function Gathered(t: Table, p: Poll): Table {
    RefreshAll(AcceptAll(t, p.accepts, p.now), p.active, p.now)
  }

  function Polled(s: Settings, t: Table, p: Poll): Table {
    Pruned(Gathered(t, p), p.now - s.Keep())
  }

  function Returned(s: Settings, t: Table, p: Poll): map<string, nat> {
    Counts(Polled(s, t, p), p.now - s.Enforce())
  }

  // client_activity: the IPs of the online badge.
  function Activity(s: Settings, t: Table, now: real): map<string, set<string>> {
    map e | e in t && Kept(t[e], now - s.Keep()) != map[] :: Kept(t[e], now - s.Keep()).Keys
  }

  class AccessLog {
    const settings: Settings
    var recentIps: Table

    constructor (settings: Settings)
      ensures this.settings == settings && recentIps == map[]
    {
      this.settings := settings;
      recentIps := map[];
    }

    method Record(accepts: seq<(string, string)>, now: real)
      modifies this
      ensures recentIps == AcceptAll(old(recentIps), accepts, now)
    {
      for i := 0 to |accepts|
        invariant recentIps == AcceptAll(old(recentIps), accepts[..i], now)
      {
        assert accepts[..i + 1][..i] == accepts[..i];
        var (email, ip) := accepts[i];
        var ips := if email in recentIps then recentIps[email] else map[];
        recentIps := recentIps[email := ips[ip := Stamp(now, now)]];
      }
      assert accepts[..|accepts|] == accepts;
    }

    method RefreshActive(active: set<string>, now: real)
      modifies this
      ensures recentIps == RefreshAll(old(recentIps), active, now)
    {
      var todo := active;
      while todo != {}
        invariant todo <= active
        invariant recentIps == RefreshAll(old(recentIps), active - todo, now)
        decreases |todo|
      {
        var email :| email in todo;
        if email in recentIps {
          var ips := recentIps[email];
          var left := ips.Keys;
          while left != {}
            invariant left <= ips.Keys
            invariant ips.Keys == recentIps[email].Keys
            invariant forall ip :: ip in ips ==>
              ips[ip] == if ip in left then recentIps[email][ip] else recentIps[email][ip].(seen := now)
            decreases |left|
          {
            var ip :| ip in left;
            ips := ips[ip := ips[ip].(seen := now)];
            left := left - {ip};
          }
          assert ips == Refresh(recentIps[email], now);
          recentIps := recentIps[email := ips];
        }
        todo := todo - {email};
      }
    }

    method DropStale(ips: Ips, keepStart: real) returns (kept: Ips)
      ensures kept == Kept(ips, keepStart)
    {
      kept := ips;
      var stale := set ip | ip in ips && ips[ip].seen < keepStart;
      var todo := stale;
      while todo != {}
        invariant todo <= stale
        invariant kept == ips - (stale - todo)
        decreases |todo|
      {
        var ip :| ip in todo;
        kept := kept - {ip};
        todo := todo - {ip};
      }
    }

    method PruneAndCount(keepStart: real, enforceStart: real) returns (counts: map<string, nat>)
      modifies this
      ensures recentIps == Pruned(old(recentIps), keepStart)
      ensures counts == Counts(recentIps, enforceStart)
    {
      hide Kept, Recent, PrunedOn, CountsOn, Pruned, Counts;
      counts := map[];
      ghost var table := recentIps;
      PrunedAll(table, keepStart, enforceStart);
      var todo := recentIps.Keys;
      ghost var done: set<string> := {};
      while todo != {}
        invariant todo + done == table.Keys && todo !! done
        invariant recentIps == PrunedOn(table, done, keepStart)
        invariant counts == CountsOn(table, done, keepStart, enforceStart)
        decreases |todo|
      {
        var email :| email in todo;
        PrunedStep(table, done, email, keepStart, enforceStart);
        var ips := DropStale(recentIps[email], keepStart);
        NoneLeft(enforceStart);
        if ips == map[] {
          recentIps := recentIps - {email};
        } else {
          recentIps := recentIps[email := ips];
          var n := |Recent(ips, enforceStart)|;
          if n > 0 {
            counts := counts[email := n];
          }
        }
        todo, done := todo - {email}, done + {email};
      }
      assert done == table.Keys;
    }

    method PollConcurrentIps(p: Poll) returns (counts: map<string, nat>)
      modifies this
      ensures recentIps == Polled(settings, old(recentIps), p)
      ensures counts == Returned(settings, old(recentIps), p)
    {
      Record(p.accepts, p.now);
      RefreshActive(p.active, p.now);
      counts := PruneAndCount(p.now - settings.Keep(), p.now - settings.Enforce());
    }

    method ClientActivity(now: real) returns (activity: map<string, set<string>>)
      ensures activity == Activity(settings, recentIps, now)
    {
      activity := map e | e in recentIps && Kept(recentIps[e], now - settings.Keep()) != map[]
        :: Kept(recentIps[e], now - settings.Keep()).Keys;
    }
  }

  // The table and the counts with only the emails of `done` processed.
  function PrunedOn(t: Table, done: set<string>, keepStart: real): Table {
    map e | e in t && (e in done ==> Kept(t[e], keepStart) != map[]) ::
      if e in done then Kept(t[e], keepStart) else t[e]
  }

  function CountsOn(t: Table, done: set<string>, keepStart: real, enforceStart: real): map<string, nat> {
    map e | e in t && e in done && |Recent(Kept(t[e], keepStart), enforceStart)| > 0
      :: |Recent(Kept(t[e], keepStart), enforceStart)|
  }

  lemma PrunedStep(t: Table, done: set<string>, email: string, keepStart: real, enforceStart: real)
    requires email in t && email !in done
    ensures
      var ips, before := Kept(t[email], keepStart), PrunedOn(t, done, keepStart);
      && email in before && before[email] == t[email]
      && PrunedOn(t, done + {email}, keepStart) == (if ips == map[] then before - {email} else before[email := ips])
    ensures
      var n, before := |Recent(Kept(t[email], keepStart), enforceStart)|, CountsOn(t, done, keepStart, enforceStart);
      CountsOn(t, done + {email}, keepStart, enforceStart) == if n > 0 then before[email := n] else before
  {
    hide Kept, Recent;
  }

  lemma PrunedAll(t: Table, keepStart: real, enforceStart: real)
    ensures PrunedOn(t, {}, keepStart) == t && CountsOn(t, {}, keepStart, enforceStart) == map[]
    ensures PrunedOn(t, t.Keys, keepStart) == Pruned(t, keepStart)
    ensures CountsOn(t, t.Keys, keepStart, enforceStart) == Counts(Pruned(t, keepStart), enforceStart)
  {
    hide Kept;
  }

  lemma NoneLeft(enforceStart: real)
    ensures Recent(map[], enforceStart) == {}
  {
  }

  // ------------------------------------------------------------------------
  // The table against the full log
  // ------------------------------------------------------------------------

  function StampOf(t: Table, email: string, ip: string): Option<Stamp> {
    if email in t && ip in t[email] then Some(t[email][ip]) else None
  }

  function TableAfter(s: Settings, polls: seq<Poll>, k: nat): Table
    requires k <= |polls|
  {
    if k == 0 then map[] else Polled(s, TableAfter(s, polls, k - 1), polls[k - 1])
  }

  function CountsAt(s: Settings, polls: seq<Poll>, k: nat): map<string, nat>
    requires k < |polls|
  {
    Returned(s, TableAfter(s, polls, k), polls[k])
  }

  predicate Monotone(polls: seq<Poll>) {
    InOrder(polls, (e: Poll) => e.now)
  }

  // The last poll before k whose log lines accepted this IP of this client.
  function LastAccept(polls: seq<Poll>, k: nat, email: string, ip: string): Option<real>
    requires k <= |polls|
  {
    if k == 0 then None
    else if (email, ip) in polls[k - 1].accepts then Some(polls[k - 1].now)
    else LastAccept(polls, k - 1, email, ip)
  }

  // The specification: the IPs of a client accepted at `from` or later, by poll k.
  function AcceptedSince(polls: seq<Poll>, k: nat, email: string, from: real): set<string>
    requires k <= |polls|
  {
    if k == 0 then {}
    else
      AcceptedSince(polls, k - 1, email, from) +
      if polls[k - 1].now >= from then set a | a in polls[k - 1].accepts && a.0 == email :: a.1 else {}
  }

  lemma {:induction false} AcceptedSinceIff(polls: seq<Poll>, k: nat, email: string, ip: string, from: real)
    requires k <= |polls| && Monotone(polls)
    ensures ip in AcceptedSince(polls, k, email, from) <==>
      LastAccept(polls, k, email, ip).Some? && LastAccept(polls, k, email, ip).value >= from
    ensures LastAccept(polls, k, email, ip).Some? ==> k > 0 && LastAccept(polls, k, email, ip).value <= polls[k - 1].now
  {
    if k != 0 {
      AcceptedSinceIff(polls, k - 1, email, ip, from);
      if (email, ip) in polls[k - 1].accepts {
        assert (email, ip).1 == ip;
      }
    }
  }

  lemma StampAfterAccept(t: Table, e: string, a: string, now: real, email: string, ip: string)
    ensures StampOf(Accept(t, e, a, now), email, ip)
         == if email == e && ip == a then Some(Stamp(now, now)) else StampOf(t, email, ip)
  {
  }

  lemma {:induction false} StampAfterAccepts(t: Table, accepts: seq<(string, string)>, now: real, email: string,
                                             ip: string)
    ensures StampOf(AcceptAll(t, accepts, now), email, ip)
         == if (email, ip) in accepts then Some(Stamp(now, now)) else StampOf(t, email, ip)
  {
    hide Accept;
    if accepts != [] {
      var init, last := accepts[..|accepts| - 1], accepts[|accepts| - 1];
      StampAfterAccepts(t, init, now, email, ip);
      StampAfterAccept(AcceptAll(t, init, now), last.0, last.1, now, email, ip);
      assert accepts == init + [last];
      assert (email, ip) in accepts <==> (email, ip) in init || (email == last.0 && ip == last.1);
    }
  }

  // One poll, at one client and IP.
  function Touched(p: Poll, st: Option<Stamp>, email: string, ip: string): Option<Stamp> {
    if (email, ip) in p.accepts then Some(Stamp(p.now, p.now))
    else if st.Some? && email in p.active then Some(st.value.(seen := p.now))
    else st
  }

  lemma StampAfterPoll(s: Settings, t: Table, p: Poll, email: string, ip: string)
    ensures
      var st := Touched(p, StampOf(t, email, ip), email, ip);
      StampOf(Polled(s, t, p), email, ip) == if st.Some? && st.value.seen >= p.now - s.Keep() then st else None
  {
    StampAfterAccepts(t, p.accepts, p.now, email, ip);
    var accepted := AcceptAll(t, p.accepts, p.now);
    var gathered := Gathered(t, p);
    if email in gathered {
      var kept := Kept(gathered[email], p.now - s.Keep());
      assert ip in kept ==> kept != map[];
    }
  }

  // What the pruned table knows of the log after k polls.
  predicate Faithful(s: Settings, polls: seq<Poll>, k: nat, email: string, ip: string)
    requires 0 < k <= |polls|
  {
    var st, last := StampOf(TableAfter(s, polls, k), email, ip), LastAccept(polls, k, email, ip);
    if st.Some? then last == Some(st.value.accepted) && st.value.accepted <= st.value.seen <= polls[k - 1].now
    else last.Some? ==> last.value < polls[k - 1].now - s.Keep()
  }

  lemma {:induction false} TableFaithful(s: Settings, polls: seq<Poll>, k: nat, email: string, ip: string)
    requires 0 < k <= |polls| && Monotone(polls)
    ensures Faithful(s, polls, k, email, ip)
  {
    StampAfterPoll(s, TableAfter(s, polls, k - 1), polls[k - 1], email, ip);
    if k > 1 {
      TableFaithful(s, polls, k - 1, email, ip);
      assert polls[k - 2].now <= polls[k - 1].now;
    } else {
      assert StampOf(TableAfter(s, polls, 0), email, ip) == None;
    }
  }

  // The counts a poll should return: the distinct IPs accepted inside the
  // enforcement window.
  predicate ExactAt(s: Settings, polls: seq<Poll>, k: nat, email: string)
    requires k < |polls|
  {
    var due := |AcceptedSince(polls, k + 1, email, polls[k].now - s.Enforce())|;
    if due == 0 then email !in CountsAt(s, polls, k)
    else email in CountsAt(s, polls, k) && CountsAt(s, polls, k)[email] == due
  }

  lemma DueIsRecent(s: Settings, polls: seq<Poll>, k: nat, email: string)
    requires k < |polls| && Monotone(polls) && s.Enforce() <= s.Keep()
    ensures var from := polls[k].now - s.Enforce();
            AcceptedSince(polls, k + 1, email, from) == Recent(IpsOf(TableAfter(s, polls, k + 1), email), from)
  {
    hide TableAfter, AcceptedSince, LastAccept;
    var from := polls[k].now - s.Enforce();
    var table := TableAfter(s, polls, k + 1);
    forall ip
      ensures ip in AcceptedSince(polls, k + 1, email, from) <==> ip in Recent(IpsOf(table, email), from)
    {
      TableFaithful(s, polls, k + 1, email, ip);
      AcceptedSinceIff(polls, k + 1, email, ip, from);
    }
  }

  lemma CountOf(t: Table, email: string, from: real)
    ensures email in Counts(t, from) <==> |Recent(IpsOf(t, email), from)| > 0
    ensures email in Counts(t, from) ==> Counts(t, from)[email] == |Recent(IpsOf(t, email), from)|
  {
    NoneLeft(from);
  }

  // Pruning to the online window loses nothing of the enforcement window: the
  // pruned table counts like the full log.
  lemma CountsExact(s: Settings, polls: seq<Poll>, k: nat, email: string)
    requires k < |polls| && Monotone(polls) && s.Enforce() <= s.Keep()
    ensures ExactAt(s, polls, k, email)
  {
    hide Polled, Counts, Recent, AcceptedSince, Monotone;
    DueIsRecent(s, polls, k, email);
    CountOf(TableAfter(s, polls, k + 1), email, polls[k].now - s.Enforce());
  }

  // So the poller finds a client over its cap exactly when the log shows more
  // distinct IPs inside the enforcement window than the cap allows.
  lemma {:induction false} ExceedsIffTooManyIps(s: Settings, polls: seq<Poll>, k: nat, c: Client)
    requires k < |polls| && Monotone(polls)
    requires s.ipLimitWindow <= s.onlineWindow || s.ipLimitWindow <= 2 * s.statsPoll
    ensures IpLimits.Exceeds(c, CountsAt(s, polls, k)) <==>
      |AcceptedSince(polls, k + 1, c.account.email, polls[k].now - s.ipLimitWindow as real)| > c.limitIp
  {
    hide CountsAt, AcceptedSince;
    CountsExact(s, polls, k, c.account.email);
  }

  // Polls that differ only in which clients moved bytes.
  predicate SameAccepts(a: seq<Poll>, b: seq<Poll>) {
    |a| == |b| && forall i :: 0 <= i < |a| ==> a[i].now == b[i].now && a[i].accepts == b[i].accepts
  }

  lemma {:induction false} SameAcceptedSince(a: seq<Poll>, b: seq<Poll>, k: nat, email: string, from: real)
    requires SameAccepts(a, b) && k <= |a|
    ensures AcceptedSince(a, k, email, from) == AcceptedSince(b, k, email, from)
  {
    if k != 0 {
      SameAcceptedSince(a, b, k - 1, email, from);
    }
  }

  lemma SameCount(s: Settings, a: seq<Poll>, b: seq<Poll>, k: nat, email: string)
    requires SameAccepts(a, b) && k < |a| && Monotone(a) && Monotone(b) && s.Enforce() <= s.Keep()
    ensures email in CountsAt(s, a, k) <==> email in CountsAt(s, b, k)
    ensures email in CountsAt(s, a, k) ==> CountsAt(s, a, k)[email] == CountsAt(s, b, k)[email]
  {
    hide CountsAt, AcceptedSince;
    CountsExact(s, a, k, email);
    CountsExact(s, b, k, email);
    SameAcceptedSince(a, b, k + 1, email, a[k].now - s.Enforce());
  }

  // Byte activity keeps a client online but never counts against its IP cap.
  lemma ActivityNeverCounts(s: Settings, a: seq<Poll>, b: seq<Poll>, k: nat)
    requires SameAccepts(a, b) && k < |a| && Monotone(a) && Monotone(b) && s.Enforce() <= s.Keep()
    ensures CountsAt(s, a, k) == CountsAt(s, b, k)
  {
    hide CountsAt;
    forall email
      ensures email in CountsAt(s, a, k) <==> email in CountsAt(s, b, k)
      ensures email in CountsAt(s, a, k) ==> CountsAt(s, a, k)[email] == CountsAt(s, b, k)[email]
    {
      SameCount(s, a, b, k, email);
    }
  }

  ghost predicate AlwaysExact(s: Settings) {
    forall polls, k: nat, email :: k < |polls| && Monotone(polls) ==> ExactAt(s, polls, k, email)
  }

  // The hypothesis is the exact one: with an enforcement window longer than what the
  // table keeps, an idle IP is forgotten while it should still count.
  lemma ExactIffWindowsNest(s: Settings)
    requires s.ipLimitWindow >= 0
    ensures AlwaysExact(s) <==> s.ipLimitWindow <= s.onlineWindow || s.ipLimitWindow <= 2 * s.statsPoll
  {
    if s.Enforce() <= s.Keep() {
      forall polls, k: nat, email | k < |polls| && Monotone(polls)
        ensures ExactAt(s, polls, k, email)
      {
        CountsExact(s, polls, k, email);
      }
    } else {
      var late := Poll(s.Enforce(), [], {});
      var polls := [Poll(0.0, [("a", "1")], {}), late];
      ForgottenIp(s, polls);
    }
  }

  lemma ForgottenIp(s: Settings, polls: seq<Poll>)
    requires s.Enforce() > s.Keep() && s.ipLimitWindow >= 0
    requires polls == [Poll(0.0, [("a", "1")], {}), Poll(s.Enforce(), [], {})]
    ensures !ExactAt(s, polls, 1, "a")
  {
    hide Polled, Returned;
    assert LastAccept(polls, 1, "a", "1") == Some(0.0) by {
      assert ("a", "1") in polls[0].accepts;
    }
    assert LastAccept(polls, 2, "a", "1") == Some(0.0);
    AcceptedSinceIff(polls, 2, "a", "1", 0.0);
    var table := TableAfter(s, polls, 2);
    forall ip
      ensures ip !in IpsOf(table, "a")
    {
      TableFaithful(s, polls, 1, "a", ip);
      StampAfterPoll(s, TableAfter(s, polls, 1), polls[1], "a", ip);
    }
    assert Recent(IpsOf(table, "a"), 0.0) == {};
    NotCounted(s, polls, table);
  }

  lemma NotCounted(s: Settings, polls: seq<Poll>, table: Table)
    requires |polls| == 2 && table == TableAfter(s, polls, 2)
    requires Recent(IpsOf(table, "a"), polls[1].now - s.Enforce()) == {}
    ensures "a" !in CountsAt(s, polls, 1)
  {
    hide Polled, Recent;
  }

  // ------------------------------------------------------------------------
  // The online badge
  // ------------------------------------------------------------------------

  // From poll i on, the client moves bytes at every poll, and polls come at least
  // once per online window.
  predicate Streams(s: Settings, polls: seq<Poll>, i: nat, k: nat, email: string)
    requires i < k <= |polls|
  {
    forall j :: i < j < k ==> email in polls[j].active && polls[j].now - polls[j - 1].now <= s.Keep()
  }

  lemma {:induction false} StreamKeepsIp(s: Settings, polls: seq<Poll>, i: nat, k: nat, email: string, ip: string)
    requires i < k <= |polls| && Monotone(polls) && s.Keep() >= 0.0
    requires (email, ip) in polls[i].accepts && Streams(s, polls, i, k, email)
    ensures StampOf(TableAfter(s, polls, k), email, ip).Some?
    ensures StampOf(TableAfter(s, polls, k), email, ip).value.seen == polls[k - 1].now
    decreases k
  {
    hide Polled;
    StampAfterPoll(s, TableAfter(s, polls, k - 1), polls[k - 1], email, ip);
    if i < k - 1 {
      StreamKeepsIp(s, polls, i, k - 1, email, ip);
    }
  }

  // The badge shows an IP exactly if it was seen within the online window, and shows no
  // client without an IP.
  lemma ShownIff(s: Settings, t: Table, email: string, ip: string, now: real)
    ensures
      email in Activity(s, t, now) && ip in Activity(s, t, now)[email] <==>
        StampOf(t, email, ip).Some? && StampOf(t, email, ip).value.seen >= now - s.Keep()
    ensures email in Activity(s, t, now) ==> Activity(s, t, now)[email] != {}
  {
    if email in t && ip in t[email] && t[email][ip].seen >= now - s.Keep() {
      assert ip in Kept(t[email], now - s.Keep());
    }
    if email in Activity(s, t, now) {
      NoKeys(Kept(t[email], now - s.Keep()));
    }
  }

  lemma NoKeys(ips: Ips)
    ensures ips != map[] ==> ips.Keys != {}
  {
    if ips.Keys == {} {
      assert ips == map[];
    }
  }

  // A poll is a sign of life of an IP if the log accepts it, or if its client moves bytes.
  predicate Alive(p: Poll, email: string, ip: string) {
    (email, ip) in p.accepts || email in p.active
  }

  // At time `now` there was a sign of life among polls m..k within the online window,
  // which is the configured one or two poll periods, whichever is longer.
  predicate AliveSince(s: Settings, polls: seq<Poll>, m: nat, k: nat, email: string, ip: string, now: real)
    requires k <= |polls|
  {
    exists l :: m <= l < k && Alive(polls[l], email, ip)
      && (now - polls[l].now <= s.onlineWindow as real || now - polls[l].now <= (2 * s.statsPoll) as real)
  }

  // The log accepted the IP at poll m, and no poll since has found it silent for longer.
  predicate KeptUp(s: Settings, polls: seq<Poll>, m: nat, k: nat, email: string, ip: string)
    requires k <= |polls|
  {
    && m < k && (email, ip) in polls[m].accepts
    && forall j :: m <= j < k ==> AliveSince(s, polls, m, j + 1, email, ip, polls[j].now)
  }

  // The latest sign of life before poll k.
  function LastAlive(polls: seq<Poll>, k: nat, email: string, ip: string): (l: Option<nat>)
    requires k <= |polls|
    ensures l.Some? ==> l.value < k && Alive(polls[l.value], email, ip)
    ensures forall i :: 0 <= i < k && Alive(polls[i], email, ip) ==> l.Some? && i <= l.value
  {
    if k == 0 then None
    else if Alive(polls[k - 1], email, ip) then Some(k - 1)
    else LastAlive(polls, k - 1, email, ip)
  }

  lemma {:induction false} SeenIsLastAlive(s: Settings, polls: seq<Poll>, k: nat, email: string, ip: string)
    requires k <= |polls|
    ensures
      var st, l := StampOf(TableAfter(s, polls, k), email, ip), LastAlive(polls, k, email, ip);
      st.Some? ==> l.Some? && st.value.seen == polls[l.value].now
  {
    hide Polled;
    if k != 0 {
      SeenIsLastAlive(s, polls, k - 1, email, ip);
      StampAfterPoll(s, TableAfter(s, polls, k - 1), polls[k - 1], email, ip);
    }
  }

  lemma AliveByLast(s: Settings, polls: seq<Poll>, m: nat, k: nat, email: string, ip: string, now: real)
    requires m < k <= |polls| && Monotone(polls) && (email, ip) in polls[m].accepts
    ensures LastAlive(polls, k, email, ip).Some? && m <= LastAlive(polls, k, email, ip).value
    ensures AliveSince(s, polls, m, k, email, ip, now) <==>
      polls[LastAlive(polls, k, email, ip).value].now >= now - s.Keep()
  {
    hide LastAlive;
    assert Alive(polls[m], email, ip);
    var last := LastAlive(polls, k, email, ip).value;
    if AliveSince(s, polls, m, k, email, ip, now) {
      var l :| m <= l < k && Alive(polls[l], email, ip)
        && (now - polls[l].now <= s.onlineWindow as real || now - polls[l].now <= (2 * s.statsPoll) as real);
      assert polls[l].now <= polls[last].now;
    }
  }

  lemma KeptUpStep(s: Settings, polls: seq<Poll>, m: nat, k: nat, email: string, ip: string)
    requires 0 < k <= |polls| && m < k
    ensures KeptUp(s, polls, m, k, email, ip) <==>
      && (email, ip) in polls[m].accepts && AliveSince(s, polls, m, k, email, ip, polls[k - 1].now)
      && (m < k - 1 ==> KeptUp(s, polls, m, k - 1, email, ip))
  {
    hide AliveSince;
  }

  // The table holds an IP exactly while its signs of life keep up.
  lemma {:induction false} HeldIff(s: Settings, polls: seq<Poll>, k: nat, email: string, ip: string)
    requires k <= |polls| && Monotone(polls)
    ensures StampOf(TableAfter(s, polls, k), email, ip).Some? <==>
      exists m :: 0 <= m < k && KeptUp(s, polls, m, k, email, ip)
  {
    hide Polled, KeptUp, AliveSince, LastAlive, Monotone;
    if k != 0 {
      HeldIff(s, polls, k - 1, email, ip);
      StampAfterPoll(s, TableAfter(s, polls, k - 1), polls[k - 1], email, ip);
      SeenIsLastAlive(s, polls, k - 1, email, ip);
      LastAliveStep(polls, k, email, ip);
      forall m | 0 <= m < k
        ensures KeptUp(s, polls, m, k, email, ip) <==>
          && (email, ip) in polls[m].accepts
          && polls[LastAlive(polls, k, email, ip).value].now >= polls[k - 1].now - s.Keep()
          && (m < k - 1 ==> KeptUp(s, polls, m, k - 1, email, ip))
      {
        KeptUpStep(s, polls, m, k, email, ip);
        if (email, ip) in polls[m].accepts {
          AliveByLast(s, polls, m, k, email, ip, polls[k - 1].now);
        }
      }
      KeptUpAccepts(s, polls, k - 1, email, ip);
      if StampOf(TableAfter(s, polls, k), email, ip).Some? {
        if (email, ip) in polls[k - 1].accepts {
          assert KeptUp(s, polls, k - 1, k, email, ip);
        } else {
          var m :| 0 <= m < k - 1 && KeptUp(s, polls, m, k - 1, email, ip);
          assert KeptUp(s, polls, m, k, email, ip);
        }
      } else if m :| 0 <= m < k && KeptUp(s, polls, m, k, email, ip) {
        assert false;
      }
    }
  }

  lemma KeptUpAccepts(s: Settings, polls: seq<Poll>, k: nat, email: string, ip: string)
    requires k <= |polls|
    ensures forall m :: 0 <= m < k && KeptUp(s, polls, m, k, email, ip) ==> (email, ip) in polls[m].accepts
  {
  }

  lemma LastAliveStep(polls: seq<Poll>, k: nat, email: string, ip: string)
    requires 0 < k <= |polls|
    ensures LastAlive(polls, k, email, ip)
         == if Alive(polls[k - 1], email, ip) then Some(k - 1) else LastAlive(polls, k - 1, email, ip)
  {
  }

  // Over any run: the badge shows an IP of a client exactly if the log accepted it once,
  // no poll since found it silent for longer than the online window, and it is not
  // silent for longer now. A stale IP never shows.
  lemma OnBadgeIff(s: Settings, polls: seq<Poll>, email: string, ip: string, now: real)
    requires Monotone(polls)
    ensures
      var activity := Activity(s, TableAfter(s, polls, |polls|), now);
      email in activity && ip in activity[email] <==>
        exists m :: 0 <= m < |polls| && KeptUp(s, polls, m, |polls|, email, ip)
          && AliveSince(s, polls, m, |polls|, email, ip, now)
  {
    hide Polled, TableAfter, Activity, KeptUp, AliveSince, LastAlive, Monotone;
    var k := |polls|;
    ShownIff(s, TableAfter(s, polls, k), email, ip, now);
    HeldIff(s, polls, k, email, ip);
    SeenIsLastAlive(s, polls, k, email, ip);
    KeptUpAccepts(s, polls, k, email, ip);
    forall m | 0 <= m < k && KeptUp(s, polls, m, k, email, ip)
      ensures AliveSince(s, polls, m, k, email, ip, now) <==>
        polls[LastAlive(polls, k, email, ip).value].now >= now - s.Keep()
    {
      AliveByLast(s, polls, m, k, email, ip, now);
    }
  }

  // A tunnel that was accepted once and keeps moving bytes never flaps offline,
  // though the log never mentions it again.
  lemma {:induction false} StreamStaysOnline(s: Settings, polls: seq<Poll>, i: nat, k: nat, email: string, ip: string,
                                             now: real)
    requires i < k <= |polls| && Monotone(polls) && s.Keep() >= 0.0
    requires (email, ip) in polls[i].accepts && Streams(s, polls, i, k, email)
    requires polls[k - 1].now <= now <= polls[k - 1].now + s.Keep()
    ensures
      var activity := Activity(s, TableAfter(s, polls, k), now);
      email in activity && ip in activity[email]
  {
    hide Activity, TableAfter;
    StreamKeepsIp(s, polls, i, k, email, ip);
    ShownIff(s, TableAfter(s, polls, k), email, ip, now);
  }
}
