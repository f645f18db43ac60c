// ssh_manager.enforce_max_login: an account keeps its oldest sessions, the newest
// excess ones are killed at every poll.
module Sessions {

  // A process of an account, as ps lists it.
  datatype Proc = Proc(pid: nat, start: int, comm: string)
  {
    predicate IsSession() {
      comm in {"sshd", "sshd-session", "dropbear"}
    }

    function Elapsed(now: int): int {
      now - start
    }
  }

  function SessionsOf(procs: seq<Proc>): (r: seq<Proc>)
    ensures forall p :: p in r <==> p in procs && p.IsSession()
  {
    if procs == [] then []
    else
      var rest := SessionsOf(procs[..|procs| - 1]);
      var last := procs[|procs| - 1];
      if last.IsSession() then rest + [last] else rest
  }

  // A stable sort by elapsed time, largest first.
  function Insert(p: Proc, s: seq<Proc>, now: int): (r: seq<Proc>)
    ensures multiset(r) == multiset{p} + multiset(s) && |r| == |s| + 1
  {
    if s == [] then [p]
    else if p.Elapsed(now) >= s[0].Elapsed(now) then [p] + s
    else
      assert s == [s[0]] + s[1..];
      [s[0]] + Insert(p, s[1..], now)
  }

  function OldestFirst(s: seq<Proc>, now: int): (r: seq<Proc>)
    ensures multiset(r) == multiset(s) && |r| == |s|
  {
    if s == [] then []
    else
      assert s == [s[0]] + s[1..];
      Insert(s[0], OldestFirst(s[1..], now), now)
  }

  // The sessions one call goes for.
  function Excess(procs: seq<Proc>, maxLogin: int, now: int): seq<Proc> {
    var s := SessionsOf(procs);
    if maxLogin <= 0 || |s| <= maxLogin then [] else OldestFirst(s, now)[maxLogin..]
  }

  function WithoutPid(procs: seq<Proc>, pid: nat): (r: seq<Proc>)
    ensures forall p :: p in r <==> p in procs && p.pid != pid
  {
    if procs == [] then []
    else if procs[0].pid == pid then WithoutPid(procs[1..], pid)
    else [procs[0]] + WithoutPid(procs[1..], pid)
  }

  // Kills go one by one; those of `stubborn` fail.
  function Killed(procs: seq<Proc>, victims: seq<Proc>, stubborn: set<nat>): seq<Proc> {
    if victims == [] then procs
    else
      var before := Killed(procs, victims[..|victims| - 1], stubborn);
      var pid := victims[|victims| - 1].pid;
      if pid in stubborn then before else WithoutPid(before, pid)
  }

  function KillCount(victims: seq<Proc>, stubborn: set<nat>): nat {
    if victims == [] then 0
    else
      KillCount(victims[..|victims| - 1], stubborn) +
      if victims[|victims| - 1].pid in stubborn then 0 else 1
  }

  function Enforced(procs: seq<Proc>, maxLogin: int, now: int, stubborn: set<nat>): seq<Proc> {
    Killed(procs, Excess(procs, maxLogin, now), stubborn)
  }

  // ------------------------------------------------------------------------
  // Sorting
  // ------------------------------------------------------------------------

  predicate Sorted(s: seq<Proc>) {
    forall i, j :: 0 <= i < j < |s| ==> s[i].start <= s[j].start
  }

  lemma {:induction false} InsertSorted(p: Proc, s: seq<Proc>, now: int)
    requires Sorted(s)
    ensures Sorted(Insert(p, s, now))
  {
    if s != [] && p.Elapsed(now) < s[0].Elapsed(now) {
      InsertSorted(p, s[1..], now);
      var rest := Insert(p, s[1..], now);
      forall q | q in rest
        ensures s[0].start <= q.start
      {
        assert q in multiset(rest);
        assert q == p || q in s[1..];
      }
    }
  }

  lemma {:induction false} OldestFirstSorted(s: seq<Proc>, now: int)
    ensures Sorted(OldestFirst(s, now))
  {
    if s != [] {
      OldestFirstSorted(s[1..], now);
      InsertSorted(s[0], OldestFirst(s[1..], now), now);
    }
  }

  lemma SameMembers(s: seq<Proc>, t: seq<Proc>)
    requires multiset(s) == multiset(t)
    ensures |s| == |t|
    ensures forall p :: p in s <==> p in t
  {
    assert |multiset(s)| == |s| && |multiset(t)| == |t|;
    assert forall p :: p in s <==> p in multiset(s);
    assert forall p :: p in t <==> p in multiset(t);
  }

  // ------------------------------------------------------------------------
  // Who is kept
  // ------------------------------------------------------------------------

  // No two sessions of the account started together, and no process is listed twice.
  predicate DistinctStarts(procs: seq<Proc>) {
    forall i, j :: 0 <= i < j < |procs| && procs[i].IsSession() && procs[j].IsSession() ==>
      procs[i].start != procs[j].start
  }

  function Older(procs: seq<Proc>, p: Proc): set<Proc> {
    set q | q in procs && q.IsSession() && q.start < p.start
  }

  predicate NoDuplicates(s: seq<Proc>) {
    forall i, j :: 0 <= i < j < |s| ==> s[i].start != s[j].start
  }

  lemma {:induction false} SessionsDistinct(procs: seq<Proc>)
    requires DistinctStarts(procs)
    ensures NoDuplicates(SessionsOf(procs))
  {
    if procs != [] {
      var init := procs[..|procs| - 1];
      SessionsDistinct(init);
      var s := SessionsOf(init);
      forall i | 0 <= i < |s| && procs[|procs| - 1].IsSession()
        ensures s[i].start != procs[|procs| - 1].start
      {
        assert s[i] in init;
      }
    }
  }

  function Members(s: seq<Proc>): set<Proc> {
    set p | p in s
  }

  lemma {:induction false} CountPrefix(s: seq<Proc>, k: nat)
    requires NoDuplicates(s) && k <= |s|
    ensures |Members(s[..k])| == k
  {
    if k != 0 {
      CountPrefix(s, k - 1);
      assert s[..k] == s[..k - 1] + [s[k - 1]];
      assert Members(s[..k]) == Members(s[..k - 1]) + {s[k - 1]};
      assert s[k - 1] !in s[..k - 1];
    }
  }

  // A permutation of distinct sessions is distinct.
  lemma DistinctByCount(s: seq<Proc>, t: seq<Proc>)
    requires multiset(s) == multiset(t) && NoDuplicates(s)
    ensures NoDuplicates(t)
  {
    forall i, j | 0 <= i < j < |t|
      ensures t[i].start != t[j].start
    {
      if t[i].start == t[j].start {
        assert t[i] in multiset(s) && t[j] in multiset(s);
        assert t[i] == t[j];
        Twice(t, i, j);
        Once(s, t[i]);
      }
    }
  }

  lemma Twice(t: seq<Proc>, i: nat, j: nat)
    requires i < j < |t| && t[i] == t[j]
    ensures multiset(t)[t[i]] >= 2
  {
    assert t == t[..j] + [t[j]] + t[j + 1..];
    assert t[i] in t[..j];
    assert multiset(t) == multiset(t[..j]) + multiset{t[j]} + multiset(t[j + 1..]);
  }

  lemma {:induction false} Once(s: seq<Proc>, p: Proc)
    requires NoDuplicates(s)
    ensures multiset(s)[p] <= 1
  {
    if s != [] {
      Once(s[1..], p);
      assert s == [s[0]] + s[1..];
      if s[0] == p {
        assert p !in s[1..];
        assert p !in multiset(s[1..]);
      }
    }
  }

  lemma InDrop(t: seq<Proc>, m: nat, k: nat)
    requires NoDuplicates(t) && k < |t| && m <= |t|
    ensures t[k] in t[m..] <==> m <= k
  {
    if m <= k {
      assert t[m..][k - m] == t[k];
    }
  }

  // In the sorted listing, the ones before a session are exactly its elders.
  lemma EldersFirst(t: seq<Proc>, k: nat, q: Proc)
    requires Sorted(t) && NoDuplicates(t) && k < |t|
    ensures q in t[..k] <==> q in t && q.start < t[k].start
  {
    if q in t && q.start < t[k].start {
      var i :| 0 <= i < |t| && t[i] == q;
      assert i < k;
      assert t[..k][i] == q;
    }
  }

  // With distinct start times a call goes for exactly the sessions that already have
  // maxLogin older ones beside them: the oldest maxLogin are kept.
  lemma {:induction false} ExcessIsNewest(procs: seq<Proc>, maxLogin: int, now: int, p: Proc)
    requires DistinctStarts(procs) && maxLogin > 0 && p in procs && p.IsSession()
    ensures p in Excess(procs, maxLogin, now) <==> |Older(procs, p)| >= maxLogin
  {
    var s := SessionsOf(procs);
    var t := OldestFirst(s, now);
    SessionsDistinct(procs);
    SameMembers(s, t);
    OldestFirstSorted(s, now);
    DistinctByCount(s, t);
    hide OldestFirst, DistinctStarts, SessionsOf, Sorted, NoDuplicates;
    var k :| 0 <= k < |t| && t[k] == p;
    forall q
      ensures q in Older(procs, p) <==> q in Members(t[..k])
    {
      EldersFirst(t, k, q);
    }
    assert Older(procs, p) == Members(t[..k]);
    CountPrefix(t, k);
    if |s| > maxLogin {
      InDrop(t, maxLogin, k);
    }
  }

  lemma Dropped(t: seq<Proc>, m: nat, k: nat)
    requires m <= |t| && k < |t|
    ensures m <= k ==> t[k] in t[m..]
  {
    if m <= k {
      assert t[k] == t[m..][k - m];
    }
  }

  // How many a call goes for, whatever the start times; none of them is older than a
  // session it keeps.
  lemma {:induction false} ExcessSize(procs: seq<Proc>, maxLogin: int, now: int, kept: Proc, victim: Proc)
    requires maxLogin > 0
    ensures |Excess(procs, maxLogin, now)|
            == if |SessionsOf(procs)| > maxLogin then |SessionsOf(procs)| - maxLogin else 0
    ensures victim in Excess(procs, maxLogin, now) && kept in procs && kept.IsSession()
            && kept !in Excess(procs, maxLogin, now)
        ==> kept.start <= victim.start
  {
    var s := SessionsOf(procs);
    var t := OldestFirst(s, now);
    SameMembers(s, t);
    OldestFirstSorted(s, now);
    if |s| > maxLogin && victim in t[maxLogin..] && kept in s && kept !in t[maxLogin..] {
      var i :| 0 <= i < |t| && t[i] == kept;
      var j :| 0 <= j < |t[maxLogin..]| && t[maxLogin..][j] == victim;
      Dropped(t, maxLogin, i);
    }
  }

  lemma {:induction false} KilledMembers(procs: seq<Proc>, victims: seq<Proc>, stubborn: set<nat>, p: Proc)
    ensures p in Killed(procs, victims, stubborn) <==>
      p in procs && (p.pid in stubborn || forall v :: v in victims ==> v.pid != p.pid)
  {
    if victims != [] {
      var last := victims[|victims| - 1];
      KilledMembers(procs, victims[..|victims| - 1], stubborn, p);
      assert victims == victims[..|victims| - 1] + [last];
    }
  }

  predicate UniquePids(procs: seq<Proc>) {
    forall p, q :: p in procs && q in procs && p.pid == q.pid ==> p == q
  }

  lemma ExcessListed(procs: seq<Proc>, maxLogin: int, now: int)
    ensures forall v :: v in Excess(procs, maxLogin, now) ==> v in procs && v.IsSession()
  {
    SameMembers(SessionsOf(procs), OldestFirst(SessionsOf(procs), now));
  }

  // A process that is gone after the call was one of the account's excess sessions.
  lemma EnforcedMembers(procs: seq<Proc>, maxLogin: int, now: int, stubborn: set<nat>, p: Proc)
    requires UniquePids(procs)
    ensures p in Enforced(procs, maxLogin, now, stubborn) <==>
      p in procs && (p.pid in stubborn || p !in Excess(procs, maxLogin, now))
  {
    ExcessListed(procs, maxLogin, now);
    KilledMembers(procs, Excess(procs, maxLogin, now), stubborn, p);
  }

  // When every kill succeeds, exactly the oldest maxLogin sessions are left.
  lemma OldestSurvive(procs: seq<Proc>, maxLogin: int, now: int, p: Proc)
    requires UniquePids(procs) && DistinctStarts(procs) && maxLogin > 0 && p in procs
    ensures p in Enforced(procs, maxLogin, now, {}) <==>
      p.comm !in {"sshd", "sshd-session", "dropbear"}
      || |set q | q in procs && q.comm in {"sshd", "sshd-session", "dropbear"} && q.start < p.start| < maxLogin
  {
    EnforcedMembers(procs, maxLogin, now, {}, p);
    ExcessListed(procs, maxLogin, now);
    assert Older(procs, p) == set q | q in procs && q.comm in {"sshd", "sshd-session", "dropbear"} && q.start < p.start;
    if p.IsSession() {
      ExcessIsNewest(procs, maxLogin, now, p);
    }
  }

  // ps lists a process once.
  predicate ListedOnce(procs: seq<Proc>) {
    forall i, j :: 0 <= i < j < |procs| ==> procs[i].pid != procs[j].pid
  }

  lemma {:induction false} SessionOnce(procs: seq<Proc>, p: Proc)
    requires ListedOnce(procs)
    ensures multiset(SessionsOf(procs))[p] <= 1
  {
    if procs != [] {
      var n := |procs| - 1;
      SessionOnce(procs[..n], p);
      if procs[n].IsSession() && procs[n] == p {
        assert p !in SessionsOf(procs[..n]);
      }
    }
  }

  lemma ExcessOnce(procs: seq<Proc>, maxLogin: int, now: int, i: nat, j: nat)
    requires ListedOnce(procs) && i < j < |Excess(procs, maxLogin, now)|
    ensures Excess(procs, maxLogin, now)[i] != Excess(procs, maxLogin, now)[j]
  {
    hide SessionsOf, OldestFirst, ListedOnce;
    forall p
      ensures multiset(OldestFirst(SessionsOf(procs), now))[p] <= 1
    {
      SessionOnce(procs, p);
    }
    SuffixOnce(OldestFirst(SessionsOf(procs), now), maxLogin, i, j);
  }

  lemma SuffixOnce(t: seq<Proc>, m: nat, i: nat, j: nat)
    requires m <= |t| && i < j < |t| - m && forall p :: multiset(t)[p] <= 1
    ensures t[m..][i] != t[m..][j]
  {
    if t[m + i] == t[m + j] {
      Twice(t, m + i, m + j);
    }
  }

  lemma {:induction false} KillsCounted(victims: seq<Proc>, stubborn: set<nat>)
    requires forall i, j :: 0 <= i < j < |victims| ==> victims[i] != victims[j]
    ensures KillCount(victims, stubborn) == |set v | v in victims && v.pid !in stubborn|
  {
    if victims == [] {
      assert (set v | v in victims && v.pid !in stubborn) == {};
    } else {
      var n := |victims| - 1;
      KillsCounted(victims[..n], stubborn);
      var before := set v | v in victims[..n] && v.pid !in stubborn;
      assert (set v | v in victims && v.pid !in stubborn)
             == if victims[n].pid in stubborn then before else before + {victims[n]};
      assert victims[n] !in before;
    }
  }

  // The number a call reports is the number of processes that are gone, and without
  // failed kills that is exactly how far the account was above its cap.
  lemma KillsReported(procs: seq<Proc>, maxLogin: int, now: int, stubborn: set<nat>)
    requires ListedOnce(procs)
    ensures
      var killed := KillCount(Excess(procs, maxLogin, now), stubborn);
      && killed == |set p | p in procs && p !in Enforced(procs, maxLogin, now, stubborn)|
      && (stubborn == {} ==>
            var n := |SessionsOf(procs)|;
            killed == if 0 < maxLogin < n then n - maxLogin else 0)
  {
    var victims := Excess(procs, maxLogin, now);
    ExcessListed(procs, maxLogin, now);
    forall i, j | 0 <= i < j < |victims|
      ensures victims[i] != victims[j]
    {
      ExcessOnce(procs, maxLogin, now, i, j);
    }
    KillsCounted(victims, stubborn);
    assert UniquePids(procs) by {
      forall p, q | p in procs && q in procs && p.pid == q.pid
        ensures p == q
      {
        var i :| 0 <= i < |procs| && procs[i] == p;
        var j :| 0 <= j < |procs| && procs[j] == q;
      }
    }
    forall p
      ensures p in procs && p !in Enforced(procs, maxLogin, now, stubborn) <==> p in victims && p.pid !in stubborn
    {
      EnforcedMembers(procs, maxLogin, now, stubborn, p);
    }
    assert (set p | p in procs && p !in Enforced(procs, maxLogin, now, stubborn))
           == (set v | v in victims && v.pid !in stubborn);
    if stubborn == {} {
      AllKilled(victims);
    }
  }

  lemma {:induction false} AllKilled(victims: seq<Proc>)
    ensures KillCount(victims, {}) == |victims|
  {
    if victims != [] {
      AllKilled(victims[..|victims| - 1]);
    }
  }

  // ------------------------------------------------------------------------
  // Runs of one account
  // ------------------------------------------------------------------------

  // `latest` is the newest start so far: later processes start after it.
  datatype Host = Host(procs: seq<Proc>, latest: int)

  datatype Event = Arrive(p: Proc, at: nat) | Depart(pid: nat) | Poll(now: int, stubborn: set<nat>)

  predicate Sane(h: Host) {
    && UniquePids(h.procs) && DistinctStarts(h.procs)
    && forall p :: p in h.procs ==> p.start <= h.latest
  }

  predicate Allowed(h: Host, e: Event) {
    match e
    case Arrive(p, at) => at <= |h.procs| && p.start > h.latest && forall q :: q in h.procs ==> q.pid != p.pid
    case Depart(_) => true
    case Poll(_, _) => true
  }

  function Next(h: Host, maxLogin: int, e: Event): Host
    requires Allowed(h, e)
  {
    match e
    case Arrive(p, at) => Host(h.procs[..at] + [p] + h.procs[at..], p.start)
    case Depart(pid) => h.(procs := WithoutPid(h.procs, pid))
    case Poll(now, stubborn) => h.(procs := Enforced(h.procs, maxLogin, now, stubborn))
  }

  predicate Run(h: Host, maxLogin: int, events: seq<Event>)
    decreases |events|
  {
    events != [] ==> Allowed(h, events[0]) && Run(Next(h, maxLogin, events[0]), maxLogin, events[1..])
  }

  // No poll of the run goes for p.
  predicate Spared(h: Host, maxLogin: int, events: seq<Event>, p: Proc)
    requires Run(h, maxLogin, events)
    decreases |events|
  {
    events != [] ==>
      && (events[0].Poll? ==> p !in Excess(h.procs, maxLogin, events[0].now))
      && Spared(Next(h, maxLogin, events[0]), maxLogin, events[1..], p)
  }

  lemma {:induction false} DistinctWithout(procs: seq<Proc>, pid: nat)
    requires DistinctStarts(procs)
    ensures DistinctStarts(WithoutPid(procs, pid))
  {
    if procs != [] {
      DistinctWithout(procs[1..], pid);
      var rest := WithoutPid(procs[1..], pid);
      forall i | 0 <= i < |rest| && rest[i].IsSession() && procs[0].IsSession()
        ensures rest[i].start != procs[0].start
      {
        assert rest[i] in procs[1..];
      }
    }
  }

  lemma {:induction false} KilledDistinct(procs: seq<Proc>, victims: seq<Proc>, stubborn: set<nat>)
    requires DistinctStarts(procs)
    ensures DistinctStarts(Killed(procs, victims, stubborn))
  {
    if victims != [] {
      KilledDistinct(procs, victims[..|victims| - 1], stubborn);
      DistinctWithout(Killed(procs, victims[..|victims| - 1], stubborn), victims[|victims| - 1].pid);
    }
  }

  lemma NextSane(h: Host, maxLogin: int, e: Event)
    requires Sane(h) && Allowed(h, e)
    ensures Sane(Next(h, maxLogin, e))
    ensures h.latest <= Next(h, maxLogin, e).latest
    ensures forall q :: q in Next(h, maxLogin, e).procs ==> q in h.procs || q.start > h.latest
  {
    match e
    case Arrive(p, at) =>
      var next := h.procs[..at] + [p] + h.procs[at..];
      assert forall q :: q in next ==> q == p || q in h.procs;
      assert h.procs == h.procs[..at] + h.procs[at..];
    case Depart(pid) =>
      DistinctWithout(h.procs, pid);
    case Poll(now, stubborn) =>
      KilledDistinct(h.procs, Excess(h.procs, maxLogin, now), stubborn);
      forall q | q in Next(h, maxLogin, e).procs
        ensures q in h.procs
      {
        EnforcedMembers(h.procs, maxLogin, now, stubborn, q);
      }
  }

  lemma FewerOlder(h: Host, next: Host, p: Proc)
    requires p.start <= h.latest
    requires forall q :: q in next.procs ==> q in h.procs || q.start > h.latest
    ensures |Older(next.procs, p)| <= |Older(h.procs, p)|
  {
    assert Older(next.procs, p) <= Older(h.procs, p);
    Smaller(Older(next.procs, p), Older(h.procs, p));
  }

  lemma {:induction false} Smaller(a: set<Proc>, b: set<Proc>)
    requires a <= b
    ensures |a| <= |b|
  {
    if a != {} {
      var x :| x in a;
      Smaller(a - {x}, b - {x});
    }
  }

  // No thrash: a session that one poll spares is spared by every later poll,
  // whatever arrives, departs, or resists a kill in between.
  lemma {:induction false} SparedForever(h: Host, maxLogin: int, events: seq<Event>, p: Proc)
    requires Sane(h) && maxLogin > 0 && p.IsSession() && p.start <= h.latest
    requires |Older(h.procs, p)| < maxLogin
    requires Run(h, maxLogin, events)
    ensures Spared(h, maxLogin, events, p)
    decreases |events|
  {
    if events != [] {
      var e := events[0];
      var next := Next(h, maxLogin, e);
      if e.Poll? {
        ExcessListed(h.procs, maxLogin, e.now);
        if p in h.procs {
          ExcessIsNewest(h.procs, maxLogin, e.now, p);
        }
      }
      NextSane(h, maxLogin, e);
      FewerOlder(h, next, p);
      SparedForever(next, maxLogin, events[1..], p);
    }
  }

  lemma {:induction false} NoThrash(h: Host, maxLogin: int, poll: Event, events: seq<Event>, p: Proc)
    requires Sane(h) && maxLogin > 0 && p.IsSession() && p in h.procs && poll.Poll?
    requires p !in Excess(h.procs, maxLogin, poll.now)
    requires Run(h, maxLogin, [poll] + events)
    ensures Spared(h, maxLogin, [poll] + events, p)
  {
    ExcessIsNewest(h.procs, maxLogin, poll.now, p);
    SparedForever(h, maxLogin, [poll] + events, p);
  }

  // ------------------------------------------------------------------------
  // The host's processes, killed in place
  // ------------------------------------------------------------------------

  datatype Login = Login(username: string, maxLogin: int, enabled: bool)

  function ProcsOf(procs: map<string, seq<Proc>>, username: string): seq<Proc> {
    if username in procs then procs[username] else []
  }

  // One account at a poll.
  function Visited(procs: seq<Proc>, a: Login, now: int, stubborn: set<nat>): seq<Proc> {
    if a.enabled then Enforced(procs, a.maxLogin, now, stubborn) else procs
  }

  lemma NobodyGone(procs: seq<Proc>)
    ensures |set p | p in procs && p !in procs| == 0
  {
    assert (set p | p in procs && p !in procs) == {};
  }

  lemma NothingToDo(procs: seq<Proc>, maxLogin: int, now: int, stubborn: set<nat>)
    ensures maxLogin <= 0 || |SessionsOf(procs)| <= maxLogin ==> Enforced(procs, maxLogin, now, stubborn) == procs
  {
  }

  class SshHost {
    var procs: map<string, seq<Proc>>

    method List(username: string) returns (sessions: seq<Proc>)
      ensures sessions == SessionsOf(ProcsOf(procs, username))
    {
      var lines := ProcsOf(procs, username);
      sessions := [];
      for i := 0 to |lines|
        invariant sessions == SessionsOf(lines[..i])
      {
        assert lines[..i + 1][..i] == lines[..i];
        if lines[i].IsSession() {
          sessions := sessions + [lines[i]];
        }
      }
      assert lines[..|lines|] == lines;
    }

    method KillAll(username: string, victims: seq<Proc>, stubborn: set<nat>) returns (killed: nat)
      modifies this
      ensures ProcsOf(procs, username) == Killed(ProcsOf(old(procs), username), victims, stubborn)
      ensures killed == KillCount(victims, stubborn)
      ensures forall u :: u != username ==> ProcsOf(procs, u) == ProcsOf(old(procs), u)
    {
      killed := 0;
      for i := 0 to |victims|
        invariant ProcsOf(procs, username) == Killed(ProcsOf(old(procs), username), victims[..i], stubborn)
        invariant killed == KillCount(victims[..i], stubborn)
        invariant forall u :: u != username ==> ProcsOf(procs, u) == ProcsOf(old(procs), u)
      {
        assert victims[..i + 1][..i] == victims[..i];
        if victims[i].pid !in stubborn {
          procs := procs[username := WithoutPid(ProcsOf(procs, username), victims[i].pid)];
          killed := killed + 1;
        }
      }
      assert victims[..|victims|] == victims;
    }

    // `listed` is false when ps fails.
    method EnforceMaxLogin(username: string, maxLogin: int, now: int, listed: bool, stubborn: set<nat>)
      returns (killed: nat)
      modifies this
      ensures !listed ==> procs == old(procs) && killed == 0
      ensures listed ==>
        ProcsOf(procs, username) == Enforced(ProcsOf(old(procs), username), maxLogin, now, stubborn)
        && killed == KillCount(Excess(ProcsOf(old(procs), username), maxLogin, now), stubborn)
      ensures ListedOnce(ProcsOf(old(procs), username)) ==>
        killed == |set p | p in ProcsOf(old(procs), username) && p !in ProcsOf(procs, username)|
      ensures forall u :: u != username ==> ProcsOf(procs, u) == ProcsOf(old(procs), u)
    {
      hide OldestFirst, SessionsOf, ProcsOf, ListedOnce;
      killed := 0;
      NobodyGone(ProcsOf(procs, username));
      if maxLogin <= 0 || !listed {
        return;
      }
      if ListedOnce(ProcsOf(procs, username)) {
        KillsReported(ProcsOf(procs, username), maxLogin, now, stubborn);
      }
      var sessions := List(username);
      if |sessions| <= maxLogin {
        return;
      }
      killed := KillAll(username, OldestFirst(sessions, now)[maxLogin..], stubborn);
    }

    // tasks._enforce_ssh_logins
    method EnforceSshLogins(accounts: seq<Login>, now: int, stubborn: set<nat>)
      requires forall i, j :: 0 <= i < j < |accounts| ==> accounts[i].username != accounts[j].username
      modifies this
      ensures forall a :: a in accounts ==>
        ProcsOf(procs, a.username) ==
          if a.enabled then Enforced(ProcsOf(old(procs), a.username), a.maxLogin, now, stubborn)
          else ProcsOf(old(procs), a.username)
      ensures forall u :: (forall a :: a in accounts ==> a.username != u) ==>
        ProcsOf(procs, u) == ProcsOf(old(procs), u)
    {
      hide Enforced;
      for i := 0 to |accounts|
        invariant forall j :: 0 <= j < i ==>
          ProcsOf(procs, accounts[j].username)
            == Visited(ProcsOf(old(procs), accounts[j].username), accounts[j], now, stubborn)
        invariant forall u :: (forall j :: 0 <= j < i ==> accounts[j].username != u) ==>
          ProcsOf(procs, u) == ProcsOf(old(procs), u)
      {
        var a := accounts[i];
        NothingToDo(ProcsOf(procs, a.username), a.maxLogin, now, stubborn);
        if a.maxLogin > 0 && a.enabled && |SessionsOf(ProcsOf(procs, a.username))| > a.maxLogin {
          var _ := EnforceMaxLogin(a.username, a.maxLogin, now, true, stubborn);
        }
      }
    }
  }
}
