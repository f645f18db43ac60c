// auth.LoginGuard: per-identity throttling of failed logins, with buckets that are
// garbage-collected while attempts go on.
module LoginGuards {
  import opened Models

  datatype Bucket = Bucket(fails: nat, lockedUntil: real, lastActivity: real)

  datatype Policy = Policy(maxAttempts: nat, lockout: real, maxAge: real)

  // Attempts whose credentials are rejected are recorded as failures; an accepted
  // login drops the bucket; a disabled account records neither.
  datatype Verdict = Rejected | Accepted | Disabled

  datatype Event =
    | Attempt(key: string, verdict: Verdict, now: real)
    | Sweep(now: real)

  function Touched(buckets: map<string, Bucket>, key: string, now: real): Bucket {
    (if key in buckets then buckets[key] else Bucket(0, 0.0, 0.0)).(lastActivity := now)
  }

  function AfterFailure(p: Policy, b: Bucket, now: real): Bucket {
    if b.fails + 1 >= p.maxAttempts then b.(fails := 0, lockedUntil := now + p.lockout)
    else b.(fails := b.fails + 1)
  }

  predicate Stale(p: Policy, b: Bucket, now: real) {
    b.lockedUntil <= now && now - b.lastActivity > p.maxAge
  }

  function Swept(p: Policy, buckets: map<string, Bucket>, now: real): map<string, Bucket> {
    map k | k in buckets && !Stale(p, buckets[k], now) :: buckets[k]
  }

  predicate Locked(buckets: map<string, Bucket>, key: string, now: real) {
    Touched(buckets, key, now).lockedUntil > now
  }

  function Next(p: Policy, buckets: map<string, Bucket>, e: Event): map<string, Bucket> {
    match e
    case Sweep(now) => Swept(p, buckets, now)
    case Attempt(key, verdict, now) =>
      var b := Touched(buckets, key, now);
      if Locked(buckets, key, now) then buckets[key := b]
      else
        match verdict
        case Rejected => buckets[key := AfterFailure(p, b, now)]
        case Accepted => buckets - {key}
        case Disabled => buckets[key := b]
  }

  // Bucket tables that agree off one key and hold the same bucket for it are the same.
  lemma SameBuckets(a: map<string, Bucket>, b: map<string, Bucket>, key: string)
    requires a - {key} == b - {key} && key in a && key in b && a[key] == b[key]
    ensures a == b
  {
    forall k
      ensures k in a <==> k in b
      ensures k in a ==> a[k] == b[k]
    {
      assert k != key ==> (k in a <==> k in a - {key}) && (k in b <==> k in b - {key});
    }
  }

  class LoginGuard {
    const policy: Policy
    var buckets: map<string, Bucket>

    constructor (policy: Policy)
      ensures this.policy == policy && buckets == map[]
    {
      this.policy := policy;
      buckets := map[];
    }

    method Check(key: string, now: real) returns (allowed: bool, retryAfter: int)
      modifies this
      ensures allowed == !Locked(old(buckets), key, now)
      ensures buckets == old(buckets)[key := Touched(old(buckets), key, now)]
      ensures
        var b := buckets[key];
        b == (if key in old(buckets) then Bucket(old(buckets)[key].fails, old(buckets)[key].lockedUntil, now)
              else Bucket(0, 0.0, now))
      ensures !allowed ==> retryAfter as real <= buckets[key].lockedUntil - now < (retryAfter + 1) as real
    {
      var b := Touched(buckets, key, now);
      buckets := buckets[key := b];
      if b.lockedUntil > now {
        return false, (b.lockedUntil - now).Floor;
      }
      return true, 0;
    }

    // The failure is counted, or it is the last one before a lockout that starts now.
    method RecordFailure(key: string, now: real)
      modifies this
      ensures key in buckets && buckets[key].lastActivity == now && buckets - {key} == old(buckets) - {key}
      ensures
        var was, b := Touched(old(buckets), key, now), buckets[key];
        if was.fails + 1 < policy.maxAttempts then b.fails == was.fails + 1 && b.lockedUntil == was.lockedUntil
        else b.fails == 0 && b.lockedUntil == now + policy.lockout
    {
      var b := Touched(buckets, key, now);
      b := b.(fails := b.fails + 1);
      if b.fails >= policy.maxAttempts {
        b := b.(lockedUntil := now + policy.lockout, fails := 0);
      }
      buckets := buckets[key := b];
      assert buckets - {key} == old(buckets) - {key};
    }

    method RecordSuccess(key: string)
      modifies this
      ensures buckets == old(buckets) - {key}
    {
      buckets := buckets - {key};
    }

    method SweepStale(now: real)
      modifies this
      ensures buckets == Swept(policy, old(buckets), now)
      ensures forall k :: k in buckets <==>
        k in old(buckets) && (old(buckets)[k].lockedUntil > now || now - old(buckets)[k].lastActivity <= policy.maxAge)
      ensures forall k :: k in buckets ==> buckets[k] == old(buckets)[k]
    {
      var stale := set k | k in buckets && Stale(policy, buckets[k], now);
      var todo := stale;
      while todo != {}
        invariant todo <= stale
        invariant buckets == old(buckets) - (stale - todo)
        decreases |todo|
      {
        var k :| k in todo;
        buckets := buckets - {k};
        todo := todo - {k};
      }
      assert stale - todo == stale;
      assert old(buckets) - stale == Swept(policy, old(buckets), now);
    }

    // api/auth.login, from the guard's point of view
    method Login(key: string, verdict: Verdict, now: real) returns (allowed: bool)
      modifies this
      ensures allowed == !Locked(old(buckets), key, now)
      ensures buckets == Next(policy, old(buckets), Attempt(key, verdict, now))
    {
      var retryAfter;
      allowed, retryAfter := Check(key, now);
      if !allowed {
        return;
      }
      match verdict
      case Rejected =>
        RecordFailure(key, now);
        SameBuckets(buckets, Next(policy, old(buckets), Attempt(key, verdict, now)), key);
      case Accepted => RecordSuccess(key);
      case Disabled =>
    }
  }

  // ------------------------------------------------------------------------
  // Runs
  // ------------------------------------------------------------------------

  function After(p: Policy, events: seq<Event>, k: nat): map<string, Bucket>
    requires k <= |events|
  {
    if k == 0 then map[] else Next(p, After(p, events, k - 1), events[k - 1])
  }

  predicate Monotone(events: seq<Event>) {
    InOrder(events, (e: Event) => e.now)
  }

  predicate Denies(p: Policy, events: seq<Event>, k: nat, key: string)
    requires k < |events|
  {
    Locked(After(p, events, k), key, events[k].now)
  }

  // Event k was a failed login of this key that the guard let through.
  predicate Fails(p: Policy, events: seq<Event>, k: nat, key: string)
    requires k < |events|
  {
    events[k].Attempt? && events[k].key == key && events[k].verdict == Rejected && !Denies(p, events, k, key)
  }

  predicate Succeeds(p: Policy, events: seq<Event>, k: nat, key: string)
    requires k < |events|
  {
    events[k].Attempt? && events[k].key == key && events[k].verdict == Accepted && !Denies(p, events, k, key)
  }

  // The failures let through among events i..j.
  function Failures(p: Policy, events: seq<Event>, i: nat, j: nat, key: string): nat
    requires i <= j <= |events|
    decreases j
  {
    if i == j then 0
    else Failures(p, events, i, j - 1, key) + if Fails(p, events, j - 1, key) then 1 else 0
  }

  predicate NoSuccess(p: Policy, events: seq<Event>, i: nat, j: nat, key: string)
    requires i <= j <= |events|
  {
    forall k :: i <= k < j ==> !Succeeds(p, events, k, key)
  }

  lemma {:induction false} FailsBelowMax(p: Policy, events: seq<Event>, k: nat, key: string)
    requires p.maxAttempts >= 1 && k <= |events|
    ensures var buckets := After(p, events, k); key in buckets ==> buckets[key].fails < p.maxAttempts
  {
    if k != 0 {
      FailsBelowMax(p, events, k - 1, key);
    }
  }

  // Inside a window that starts at `start`, the bucket remembers every failure of the
  // window until it locks for the rest of it; no sweep can make it forget.
  predicate Remembers(p: Policy, buckets: map<string, Bucket>, key: string, start: real, count: nat) {
    && (count == 0 || (key in buckets && buckets[key].lastActivity >= start))
    && (key in buckets && buckets[key].lockedUntil >= start + p.lockout ==> count <= p.maxAttempts)
    && (key in buckets && buckets[key].lockedUntil < start + p.lockout ==> count <= buckets[key].fails)
  }

  // Events i..j fall in the window of one lockout from `start`, and hold no success.
  predicate InWindow(p: Policy, events: seq<Event>, i: nat, j: nat, key: string, start: real) {
    && i <= j <= |events| && Monotone(events)
    && (forall k :: i <= k < j ==> start <= events[k].now < start + p.lockout)
    && NoSuccess(p, events, i, j, key)
  }

  lemma {:induction false} WindowRemembered(p: Policy, events: seq<Event>, i: nat, j: nat, key: string, start: real)
    requires p.maxAttempts >= 1 && (p.lockout <= p.maxAge || p.maxAttempts == 1)
    requires InWindow(p, events, i, j, key, start)
    ensures Remembers(p, After(p, events, j), key, start, Failures(p, events, i, j, key))
    decreases j
  {
    if i != j {
      WindowRemembered(p, events, i, j - 1, key, start);
      FailsBelowMax(p, events, j - 1, key);
      assert !Succeeds(p, events, j - 1, key);
    }
  }

  // The rate bound: a window as long as the lockout lets through at most
  // maxAttempts failures of a key that has no success in it, wherever sweeps fall.
  lemma AtMostMaxFailures(p: Policy, events: seq<Event>, i: nat, j: nat, key: string, start: real)
    requires p.maxAttempts >= 1 && (p.lockout <= p.maxAge || p.maxAttempts == 1)
    requires InWindow(p, events, i, j, key, start)
    ensures Failures(p, events, i, j, key) <= p.maxAttempts
  {
    WindowRemembered(p, events, i, j, key, start);
    FailsBelowMax(p, events, j, key);
  }

  // A failure, a sweep that drops it, and a burst of n more failures.
  function Burst(key: string, late: real, n: nat): seq<Event> {
    [Attempt(key, Rejected, 0.0), Sweep(late)] + seq(n, _ => Attempt(key, Rejected, late))
  }

  lemma {:induction false} BurstFails(p: Policy, key: string, late: real, n: nat, k: nat)
    requires 2 <= p.maxAttempts && 0.0 <= p.maxAge < late
    requires k <= n <= p.maxAttempts
    ensures
      var events := Burst(key, late, n);
      && Failures(p, events, 0, 2 + k, key) == 1 + k
      && NoSuccess(p, events, 0, 2 + k, key)
      && (k < p.maxAttempts ==> After(p, events, 2 + k) == if k == 0 then map[] else map[key := Bucket(k, 0.0, late)])
  {
    var events := Burst(key, late, n);
    if k == 0 {
      assert After(p, events, 0) == map[];
      assert After(p, events, 1) == map[key := Bucket(1, 0.0, 0.0)];
      assert After(p, events, 2) == map[];
      assert Failures(p, events, 0, 1, key) == 1;
    } else {
      BurstFails(p, key, late, n, k - 1);
      assert events[1 + k] == Attempt(key, Rejected, late);
    }
  }

  ghost predicate Bounded(p: Policy, key: string) {
    forall events, i, j, start :: InWindow(p, events, i, j, key, start) ==>
      Failures(p, events, i, j, key) <= p.maxAttempts
  }

  // Exactly when the bound holds over all runs: otherwise a sweep inside the window
  // can drop a count that has not locked yet.
  lemma BoundedIff(p: Policy, key: string)
    requires p.maxAttempts >= 1 && p.maxAge >= 0.0
    ensures Bounded(p, key) <==> p.lockout <= p.maxAge || p.maxAttempts == 1
  {
    if p.lockout <= p.maxAge || p.maxAttempts == 1 {
      forall events, i, j, start | InWindow(p, events, i, j, key, start)
        ensures Failures(p, events, i, j, key) <= p.maxAttempts
      {
        AtMostMaxFailures(p, events, i, j, key, start);
      }
    } else {
      var late, n := (p.maxAge + p.lockout) / 2.0, p.maxAttempts;
      BurstFails(p, key, late, n, n);
      assert InWindow(p, Burst(key, late, n), 0, 2 + n, key, 0.0);
    }
  }

  // ------------------------------------------------------------------------
  // No lockout without cause, none cut short
  // ------------------------------------------------------------------------

  // Event m is the failure that locks the key.
  predicate Locks(p: Policy, events: seq<Event>, m: nat, key: string)
    requires m < |events|
  {
    Fails(p, events, m, key) && Touched(After(p, events, m), key, events[m].now).fails + 1 >= p.maxAttempts
  }

  // A bucket's lock is that of a locking failure of its key.
  lemma {:induction false} LockHasCause(p: Policy, events: seq<Event>, k: nat, key: string) returns (m: nat)
    requires k <= |events|
    requires key in After(p, events, k) && After(p, events, k)[key].lockedUntil > 0.0
    ensures m < k && Locks(p, events, m, key)
    ensures After(p, events, k)[key].lockedUntil == events[m].now + p.lockout
  {
    if Locks(p, events, k - 1, key) {
      m := k - 1;
    } else {
      m := LockHasCause(p, events, k - 1, key);
    }
  }

  // A locking failure keeps its key locked for the whole lockout.
  lemma {:induction false} LockLasts(p: Policy, events: seq<Event>, k: nat, key: string, m: nat)
    requires m < k <= |events| && Monotone(events) && Locks(p, events, m, key)
    ensures events[k - 1].now >= events[m].now + p.lockout
      || (key in After(p, events, k) && After(p, events, k)[key].lockedUntil >= events[m].now + p.lockout)
  {
    if m < k - 1 {
      LockLasts(p, events, k - 1, key, m);
      assert events[k - 2].now <= events[k - 1].now;
    }
  }

  // A key is turned away exactly while the lockout of one of its locking failures
  // runs: never longer, never shorter, sweeps or not.
  lemma DeniedIffLocked(p: Policy, events: seq<Event>, k: nat, key: string)
    requires k < |events| && Monotone(events) && forall i :: 0 <= i < |events| ==> events[i].now >= 0.0
    ensures Denies(p, events, k, key) <==>
      exists m :: 0 <= m < k && Locks(p, events, m, key) && events[k].now < events[m].now + p.lockout
  {
    var buckets := After(p, events, k);
    if key in buckets && buckets[key].lockedUntil > 0.0 {
      var _ := LockHasCause(p, events, k, key);
    }
    forall m | 0 <= m < k && Locks(p, events, m, key) && events[k].now < events[m].now + p.lockout
      ensures Denies(p, events, k, key)
    {
      LockLasts(p, events, k, key, m);
      assert events[k - 1].now <= events[k].now;
    }
  }

  // The bucket's count is of failures let through since the key's last success,
  // lock or sweep.
  lemma {:induction false} CountTraced(p: Policy, events: seq<Event>, k: nat, key: string) returns (i: nat)
    requires k <= |events|
    ensures i <= k && NoSuccess(p, events, i, k, key)
    ensures Failures(p, events, i, k, key) == if key in After(p, events, k) then After(p, events, k)[key].fails else 0
  {
    if k == 0 {
      return 0;
    }
    i := CountTraced(p, events, k - 1, key);
    if key !in After(p, events, k) || Locks(p, events, k - 1, key) {
      i := k;
    }
  }

  // A lock is always the last of maxAttempts failures with no success among them.
  lemma LockIsEarned(p: Policy, events: seq<Event>, m: nat, key: string) returns (i: nat)
    requires p.maxAttempts >= 1 && m < |events| && Locks(p, events, m, key)
    ensures i <= m && NoSuccess(p, events, i, m + 1, key)
    ensures Failures(p, events, i, m + 1, key) == p.maxAttempts
  {
    i := CountTraced(p, events, m, key);
    FailsBelowMax(p, events, m, key);
  }
}
