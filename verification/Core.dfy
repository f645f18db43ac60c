// The external system the panel keeps in step: a proxy core with a config file on
// disk and a running process. A restart loads the file; the live user API edits
// the running user tables only, listener by listener, and may fail half way.
module Cores {
  import opened Models
  import opened Render
  import Tags

  // A running listener: its settings without users, and its user table by email.
  datatype Live = Live(shape: Listener, users: map<string, Entry>)

  datatype CoreState = CoreState(disk: Config, running: seq<Live>)

  predicate HasUserTable(protocol: string) {
    protocol in LIVE_USER_PROTOCOLS
  }

  function Table(users: seq<Entry>): map<string, Entry> {
    if users == [] then map[]
    else Table(users[..|users| - 1])[users[|users| - 1].email := users[|users| - 1]]
  }

  function LoadOne(l: Listener): Live {
    if HasUserTable(l.protocol) then
      Live(l.(settings := l.settings.(users := [])), Table(l.settings.users))
    else
      Live(l, map[])
  }

  // What a restart makes of the file on disk.
  function Load(config: Config): (r: seq<Live>)
    ensures |r| == |config|
  {
    seq(|config|, i requires 0 <= i < |config| => LoadOne(config[i]))
  }

  // What one live call did: the listeners it took effect on, and its report.
  datatype Outcome = Outcome(landed: set<string>, ok: bool)

  // A call touches only the tags it was given, and reports success only if it
  // took effect on all of them. A failed call may have landed anywhere.
  predicate Possible(o: Outcome, tags: seq<string>) {
    && (forall t :: t in o.landed ==> t in tags)
    && (o.ok ==> forall t :: t in tags ==> t in o.landed)
  }

  const NOTHING := Outcome({}, false)

  function AddOn(running: seq<Live>, landed: set<string>, e: Entry): (r: seq<Live>)
    ensures |r| == |running|
  {
    seq(|running|, i requires 0 <= i < |running| =>
      if running[i].shape.tag in landed then running[i].(users := running[i].users[e.email := e]) else running[i])
  }

  function RemoveOn(running: seq<Live>, landed: set<string>, email: string): (r: seq<Live>)
    ensures |r| == |running|
  {
    seq(|running|, i requires 0 <= i < |running| =>
      if running[i].shape.tag in landed then running[i].(users := running[i].users - {email}) else running[i])
  }

  lemma AddOnCompose(running: seq<Live>, landed: set<string>, tag: string, e: Entry)
    ensures AddOn(AddOn(running, landed, e), {tag}, e) == AddOn(running, landed + {tag}, e)
  {
    forall i | 0 <= i < |running|
      ensures AddOn(AddOn(running, landed, e), {tag}, e)[i] == AddOn(running, landed + {tag}, e)[i]
    {
      var users := running[i].users;
      assert users[e.email := e][e.email := e] == users[e.email := e];
    }
  }

  lemma RemoveOnCompose(running: seq<Live>, landed: set<string>, tag: string, email: string)
    ensures RemoveOn(RemoveOn(running, landed, email), {tag}, email) == RemoveOn(running, landed + {tag}, email)
  {
    forall i | 0 <= i < |running|
      ensures RemoveOn(RemoveOn(running, landed, email), {tag}, email)[i] == RemoveOn(running, landed + {tag}, email)[i]
    {
      var users := running[i].users;
      assert users - {email} - {email} == users - {email};
    }
  }

  function TagsOf(ib: Inbound): seq<string> {
    Tags.ListenerTags(ib.tag, ib.extraPorts)
  }

  // A confirmed call took effect on every listener of the row.
  function Everywhere(ib: Inbound): (o: Outcome)
    ensures Possible(o, TagsOf(ib)) && o.ok
  {
    Outcome(set t | t in TagsOf(ib), true)
  }

  predicate SupportsLive(ib: Inbound, binary: bool) {
    ib.core == Xray && ib.protocol in LIVE_USER_PROTOCOLS && binary
  }

  // apply() of a core: `valid` is the verdict of the core's own config test.
  function Applied(s: CoreState, db: Db, kind: CoreKind, binary: bool, now: real, valid: bool): (CoreState, bool) {
    var config := Generate(db, kind, now);
    if kind == Singbox && QueryInbounds(db.inbounds, Singbox) == [] then
      (CoreState(config, []), true)
    else if binary && !valid then (s, false)
    else if s.disk == config then (s, true)
    else (CoreState(config, Load(config)), true)
  }

  // Only entries of this email, at listeners with these tags, may differ.
  predicate OthersKept(running: seq<Live>, before: seq<Live>, tags: seq<string>, email: string) {
    && |running| == |before|
    && forall i :: 0 <= i < |running| ==>
         && running[i].shape == before[i].shape && running[i].users - {email} == before[i].users - {email}
         && (running[i].shape.tag !in tags ==> running[i] == before[i])
  }

  class Core {
    const kind: CoreKind
    const binary: bool
    var disk: Config
    var running: seq<Live>

    constructor (kind: CoreKind, binary: bool, config: Config)
      ensures this.kind == kind && this.binary == binary
      ensures State() == CoreState(config, Load(config))
    {
      this.kind, this.binary := kind, binary;
      disk, running := config, Load(config);
    }

    function State(): CoreState
      reads this
    {
      CoreState(disk, running)
    }

    method Apply(db: Db, now: real, valid: bool) returns (ok: bool)
      modifies this
      ensures (State(), ok) == Applied(old(State()), db, kind, binary, now, valid)
      ensures !ok ==> binary && !valid && disk == old(disk) && running == old(running)
      ensures ok ==> disk == Generate(db, kind, now)
      ensures binary && !valid && (kind == Xray || QueryInbounds(db.inbounds, kind) != []) ==> !ok
      ensures ok && disk != old(disk) ==> running == Load(disk)
      ensures ok && disk == old(disk) ==>
        running == if kind == Singbox && QueryInbounds(db.inbounds, kind) == [] then [] else old(running)
    {
      var config := Generate(db, kind, now);
      if kind == Singbox && QueryInbounds(db.inbounds, Singbox) == [] {
        disk := config;
        running := [];
        return true;
      }
      if binary && !valid {
        return false;
      }
      if disk == config {
        return true;
      }
      disk := config;
      running := Load(config);
      return true;
    }

    method PersistConfig(db: Db, now: real)
      modifies this
      ensures State() == CoreState(Generate(db, kind, now), old(running))
    {
      disk := Generate(db, kind, now);
    }

    // One `adu` call carrying the new user for every listener of the row. The
    // core counts the users it added; anything short of all of them is a failure,
    // and so is a call whose reply never arrives.
    method AddUserLive(ib: Inbound, a: Account) returns (ok: bool, ghost o: Outcome)
      modifies this
      ensures disk == old(disk)
      ensures running == AddOn(old(running), o.landed, ClientEntry(ib.protocol, a))
      ensures Possible(o, TagsOf(ib)) && ok == o.ok
      ensures !binary ==> o == NOTHING
      ensures OthersKept(running, old(running), TagsOf(ib), a.email)
      ensures forall i ::
        0 <= i < |running| && (running[i] != old(running)[i] || (ok && running[i].shape.tag in TagsOf(ib))) ==>
          a.email in running[i].users && Carries(running[i].users[a.email], ib.protocol, a)
    {
      o := NOTHING;
      if !binary {
        assert running == AddOn(running, {}, ClientEntry(ib.protocol, a));
        return false, o;
      }
      var entry := ClientEntry(ib.protocol, a);
      var tags := TagsOf(ib);
      ghost var landed: set<string> := {};
      var added := 0;
      var i := 0;
      while i < |tags|
        invariant 0 <= i <= |tags| && 0 <= added <= i
        invariant disk == old(disk)
        invariant running == AddOn(old(running), landed, entry)
        invariant forall t :: t in landed ==> t in tags
        invariant added == i ==> forall j :: 0 <= j < i ==> tags[j] in landed
      {
        var accepted: bool := *;
        if accepted {
          AddOnCompose(old(running), landed, tags[i], entry);
          running := AddOn(running, {tags[i]}, entry);
          landed := landed + {tags[i]};
          added := added + 1;
        }
        i := i + 1;
      }
      var replied: bool := *;
      ok := replied && added == |tags|;
      o := Outcome(landed, ok);
    }

    // One `rmu` call per listener, stopping at the first that is not confirmed.
    // "Not found" counts as removed; an unconfirmed call may still have landed.
    method RemoveUserLive(ib: Inbound, email: string) returns (ok: bool, ghost o: Outcome)
      modifies this
      ensures disk == old(disk)
      ensures running == RemoveOn(old(running), o.landed, email)
      ensures Possible(o, TagsOf(ib)) && ok == o.ok
      ensures !binary ==> o == NOTHING
      ensures OthersKept(running, old(running), TagsOf(ib), email)
      ensures forall i ::
        0 <= i < |running| && (running[i] != old(running)[i] || (ok && running[i].shape.tag in TagsOf(ib))) ==>
          email !in running[i].users
    {
      o := NOTHING;
      if !binary {
        assert running == RemoveOn(running, {}, email);
        return false, o;
      }
      var tags := TagsOf(ib);
      ghost var landed: set<string> := {};
      var i := 0;
      while i < |tags|
        invariant 0 <= i <= |tags|
        invariant disk == old(disk)
        invariant running == RemoveOn(old(running), landed, email)
        invariant forall t :: t in landed ==> t in tags
        invariant forall j :: 0 <= j < i ==> tags[j] in landed
      {
        var confirmed: bool := *;
        var tookEffect: bool := *;
        if confirmed || tookEffect {
          RemoveOnCompose(old(running), landed, tags[i], email);
          running := RemoveOn(running, {tags[i]}, email);
          landed := landed + {tags[i]};
        }
        if !confirmed {
          return false, Outcome(landed, false);
        }
        i := i + 1;
      }
      ok := true;
      o := Outcome(landed, true);
    }
  }
}
