// singbox.query_stats and tasks._accumulate_once: cumulative connection counters
// become deltas, are folded over listener tags, and billed.
module Ledgers {
  import opened Models
  import Tags

  datatype Direction = Up | Down

  datatype Rec = Rec(up: nat, down: nat)
  {
    function Of(d: Direction): nat {
      match d
      case Up => up
      case Down => down
    }

    function Plus(other: Rec): Rec {
      Rec(up + other.up, down + other.down)
    }

    // The growth since `prev`; a counter that fell counts as no growth.
    function Since(prev: Rec): Rec {
      Rec(if up > prev.up then up - prev.up else 0, if down > prev.down then down - prev.down else 0)
    }
  }

  const ZERO := Rec(0, 0)

  // One entry of the Clash API's connection list; an id or a tag may be missing ("").
  datatype Conn = Conn(id: string, tag: string, bytes: Rec)

  function Tally<K>(m: map<K, Rec>, k: K): Rec {
    if k in m then m[k] else ZERO
  }

  function Observe(lastSeen: map<string, Rec>, c: Conn): map<string, Rec> {
    if c.id == "" then lastSeen else lastSeen[c.id := c.bytes]
  }

  function Billable(lastSeen: map<string, Rec>, c: Conn): Rec {
    if c.id == "" || c.tag == "" then ZERO else c.bytes.Since(Tally(lastSeen, c.id))
  }

  function AddTo(out: map<string, Rec>, tag: string, delta: Rec): map<string, Rec> {
    if delta == ZERO then out else out[tag := Tally(out, tag).Plus(delta)]
  }

  // The loop over the first k connections of a snapshot: (_last_seen, out["inbounds"]).
  function Scan(lastSeen: map<string, Rec>, snapshot: seq<Conn>, k: nat): (map<string, Rec>, map<string, Rec>)
    requires k <= |snapshot|
  {
    if k == 0 then (lastSeen, map[])
    else
      var (seen, out) := Scan(lastSeen, snapshot, k - 1);
      var c := snapshot[k - 1];
      (Observe(seen, c), AddTo(out, c.tag, Billable(seen, c)))
  }

  function IdsOf(snapshot: seq<Conn>): set<string> {
    set c | c in snapshot && c.id != "" :: c.id
  }

  function Closed(lastSeen: map<string, Rec>, ids: set<string>): map<string, Rec> {
    map id | id in lastSeen && id in ids :: lastSeen[id]
  }

  // None: the Clash API could not be reached.
  function Queried(lastSeen: map<string, Rec>, seen: Option<seq<Conn>>): (map<string, Rec>, map<string, Rec>) {
    match seen
    case None => (lastSeen, map[])
    case Some(snapshot) =>
      var (all, out) := Scan(lastSeen, snapshot, |snapshot|);
      (Closed(all, IdsOf(snapshot)), out)
  }

  // ------------------------------------------------------------------------
  // Billing
  // ------------------------------------------------------------------------

  // An inbound row at a poll, keyed by its tag: its core, and its enabled clients.
  datatype Row = Row(singbox: bool, enabled: set<nat>)

  // The up/down columns.
  datatype Books = Books(inbounds: map<string, Rec>, clients: map<nat, Rec>)

  ghost function Total(m: map<string, nat>): nat
    decreases |m|
  {
    if m == map[] then 0
    else
      var k :| k in m;
      m[k] + Total(m - {k})
  }

  // The part of a poll's deltas whose listeners fold back to these tags.
  function Portion(out: map<string, Rec>, tags: set<string>, d: Direction): map<string, nat> {
    map t | t in out && Tags.BaseTag(t) in tags :: out[t].Of(d)
  }

  ghost function Share(out: map<string, Rec>, tags: set<string>): Rec {
    Rec(Total(Portion(out, tags, Up)), Total(Portion(out, tags, Down)))
  }

  predicate Sole(rows: map<string, Row>, tag: string, client: nat) {
    tag in rows && rows[tag].singbox && rows[tag].enabled == {client}
  }

  function SoleTags(rows: map<string, Row>, client: nat): set<string> {
    set tag | tag in rows && Sole(rows, tag, client)
  }

  // The listeners billed to a row: its own, if the row is in the table.
  function Due(rows: map<string, Row>, tag: string): set<string> {
    if tag in rows then {tag} else {}
  }

  // The columns after a poll's deltas are billed.
  ghost predicate InboundsBilled(before: map<string, Rec>, rows: map<string, Row>, out: map<string, Rec>,
                                 after: map<string, Rec>)
  {
    forall tag :: Tally(after, tag) == Tally(before, tag).Plus(Share(out, Due(rows, tag)))
  }

  ghost predicate ClientsBilled(before: map<nat, Rec>, rows: map<string, Row>, out: map<string, Rec>,
                                after: map<nat, Rec>)
  {
    forall c :: Tally(after, c) == Tally(before, c).Plus(Share(out, SoleTags(rows, c)))
  }

  ghost predicate Billed(before: Books, rows: map<string, Row>, out: map<string, Rec>, after: Books) {
    InboundsBilled(before.inbounds, rows, out, after.inbounds)
      && ClientsBilled(before.clients, rows, out, after.clients)
  }

  // ------------------------------------------------------------------------
  // Sums over maps
  // ------------------------------------------------------------------------

  lemma {:induction false} TotalWithout(m: map<string, nat>, k: string)
    requires k in m
    ensures Total(m) == m[k] + Total(m - {k})
    decreases |m|
  {
    var j :| j in m && Total(m) == m[j] + Total(m - {j});
    if j != k {
      TotalWithout(m - {j}, k);
      TotalWithout(m - {k}, j);
      assert m - {j} - {k} == m - {k} - {j};
    }
  }

  lemma TotalPut(m: map<string, nat>, k: string, v: nat)
    ensures Total(m[k := v]) == Total(m) - (if k in m then m[k] else 0) + v
  {
    TotalWithout(m[k := v], k);
    if k in m {
      TotalWithout(m, k);
      assert m[k := v] - {k} == m - {k};
    } else {
      assert m[k := v] - {k} == m;
    }
  }

  lemma PortionPut(out: map<string, Rec>, t: string, r: Rec, tags: set<string>, d: Direction)
    ensures Portion(out[t := r], tags, d)
         == if Tags.BaseTag(t) in tags then Portion(out, tags, d)[t := r.Of(d)] else Portion(out, tags, d)
  {
    hide Tags.BaseTag;
  }

  lemma TotalAdd(out: map<string, Rec>, t: string, delta: Rec, tags: set<string>, d: Direction)
    ensures Total(Portion(out[t := Tally(out, t).Plus(delta)], tags, d))
         == Total(Portion(out, tags, d)) + if Tags.BaseTag(t) in tags then delta.Of(d) else 0
  {
    hide Tags.BaseTag, Portion, Total;
    var r := Tally(out, t).Plus(delta);
    PortionPut(out, t, r, tags, d);
    PortionOld(out, t, tags, d);
    TotalPut(Portion(out, tags, d), t, r.Of(d));
    assert r.Of(d) == Tally(out, t).Of(d) + delta.Of(d);
  }

  // Adding a delta at a listener adds it to exactly the shares that listener is in.
  lemma {:induction false} ShareAdd(out: map<string, Rec>, t: string, delta: Rec, tags: set<string>)
    ensures Share(out[t := Tally(out, t).Plus(delta)], tags)
         == Share(out, tags).Plus(if Tags.BaseTag(t) in tags then delta else ZERO)
  {
    hide Tags.BaseTag, Portion, Total, Tally;
    TotalAdd(out, t, delta, tags, Up);
    TotalAdd(out, t, delta, tags, Down);
  }

  lemma PortionOld(out: map<string, Rec>, t: string, tags: set<string>, d: Direction)
    ensures t in Portion(out, tags, d) <==> t in out && Tags.BaseTag(t) in tags
    ensures t in Portion(out, tags, d) ==> Portion(out, tags, d)[t] == Tally(out, t).Of(d)
    ensures t !in out ==> Tally(out, t).Of(d) == 0
  {
    hide Tags.BaseTag;
  }

  lemma NoShare(tags: set<string>)
    ensures Share(map[], tags) == ZERO
  {
    assert Portion(map[], tags, Up) == map[] && Portion(map[], tags, Down) == map[];
  }

  // ------------------------------------------------------------------------
  // The poller's loops
  // ------------------------------------------------------------------------

  class SingboxStats {
    var lastSeen: map<string, Rec>

    constructor ()
      ensures lastSeen == map[]
    {
      lastSeen := map[];
    }

    method Count(c: Conn, before: map<string, Rec>) returns (out: map<string, Rec>)
      modifies this
      ensures lastSeen == Observe(old(lastSeen), c)
      ensures out == AddTo(before, c.tag, Billable(old(lastSeen), c))
    {
      out := before;
      if c.id == "" {
        return;
      }
      var delta := c.bytes.Since(if c.id in lastSeen then lastSeen[c.id] else ZERO);
      lastSeen := lastSeen[c.id := c.bytes];
      if (delta.up != 0 || delta.down != 0) && c.tag != "" {
        var rec := if c.tag in out then out[c.tag] else ZERO;
        out := out[c.tag := rec.Plus(delta)];
      }
    }

    method DropClosed(seenIds: set<string>)
      modifies this
      ensures lastSeen == Closed(old(lastSeen), seenIds)
    {
      var todo := lastSeen.Keys;
      while todo != {}
        invariant todo <= old(lastSeen).Keys
        invariant lastSeen == Closed(old(lastSeen), seenIds + todo)
        decreases |todo|
      {
        var id :| id in todo;
        if id !in seenIds {
          lastSeen := lastSeen - {id};
        }
        todo := todo - {id};
      }
      assert seenIds + todo == seenIds;
    }

    method QueryStats(seen: Option<seq<Conn>>) returns (out: map<string, Rec>)
      modifies this
      ensures (lastSeen, out) == Queried(old(lastSeen), seen)
    {
      hide Observe, AddTo, Billable, Closed, IdsOf;
      out := map[];
      if seen.None? {
        return;
      }
      var snapshot := seen.value;
      var seenIds: set<string> := {};
      NoIds();
      for k := 0 to |snapshot|
        invariant (lastSeen, out) == Scan(old(lastSeen), snapshot, k)
        invariant seenIds == IdsOf(snapshot[..k])
      {
        MoreIds(snapshot, k);
        if snapshot[k].id != "" {
          seenIds := seenIds + {snapshot[k].id};
        }
        out := Count(snapshot[k], out);
      }
      assert snapshot[..|snapshot|] == snapshot;
      DropClosed(seenIds);
    }
  }

  lemma NoIds()
    ensures IdsOf([]) == {}
  {
  }

  lemma MoreIds(snapshot: seq<Conn>, k: nat)
    requires k < |snapshot|
    ensures IdsOf(snapshot[..k + 1]) == IdsOf(snapshot[..k]) + if snapshot[k].id != "" then {snapshot[k].id} else {}
  {
    assert snapshot[..k + 1] == snapshot[..k] + [snapshot[k]];
  }

  function Restrict(out: map<string, Rec>, done: set<string>): map<string, Rec> {
    map t | t in out && t in done :: out[t]
  }

  lemma RestrictEnds(out: map<string, Rec>)
    ensures Restrict(out, {}) == map[] && Restrict(out, out.Keys) == out
  {
  }

  lemma ShareGrows(out: map<string, Rec>, done: set<string>, t: string, tags: set<string>)
    requires t in out && t !in done
    ensures Share(Restrict(out, done + {t}), tags)
         == Share(Restrict(out, done), tags).Plus(if Tags.BaseTag(t) in tags then out[t] else ZERO)
  {
    hide Tags.BaseTag, Share;
    var part := Restrict(out, done);
    ShareAdd(part, t, out[t], tags);
    assert Tally(part, t).Plus(out[t]) == out[t];
    assert Restrict(out, done + {t}) == part[t := out[t]];
  }

  // One entry of out["inbounds"], in each of the two billing loops.
  function WithInbound(inbounds: map<string, Rec>, rows: map<string, Row>, t: string, rec: Rec): map<string, Rec> {
    var base := Tags.BaseTag(t);
    if base in rows then inbounds[base := Tally(inbounds, base).Plus(rec)] else inbounds
  }

  ghost function WithClient(clients: map<nat, Rec>, rows: map<string, Row>, t: string, rec: Rec): map<nat, Rec> {
    var base := Tags.BaseTag(t);
    if base in rows && rows[base].singbox && rec != ZERO && |rows[base].enabled| == 1 then
      var c :| c in rows[base].enabled;
      clients[c := Tally(clients, c).Plus(rec)]
    else clients
  }

  lemma TallyPut<K(!new)>(m: map<K, Rec>, key: K, r: Rec, k: K)
    ensures Tally(m[key := r], k) == if k == key then r else Tally(m, k)
  {
  }

  lemma PlusZero(r: Rec)
    ensures r.Plus(ZERO) == r
  {
  }

  lemma DueAt(rows: map<string, Row>, tag: string, base: string)
    ensures base in Due(rows, tag) <==> base in rows && base == tag
  {
  }

  lemma InboundTakes(now: map<string, Rec>, rows: map<string, Row>, t: string, rec: Rec, tag: string)
    ensures Tally(WithInbound(now, rows, t, rec), tag)
         == Tally(now, tag).Plus(if Tags.BaseTag(t) in Due(rows, tag) then rec else ZERO)
  {
    hide Tags.BaseTag, Tally, Due;
    var base := Tags.BaseTag(t);
    DueAt(rows, tag, base);
    PlusZero(Tally(now, tag));
    TallyPut(now, base, Tally(now, base).Plus(rec), tag);
  }

  lemma ClientTakes(now: map<nat, Rec>, rows: map<string, Row>, t: string, rec: Rec, c: nat)
    ensures Tally(WithClient(now, rows, t, rec), c)
         == Tally(now, c).Plus(if Tags.BaseTag(t) in SoleTags(rows, c) then rec else ZERO)
  {
    hide Tags.BaseTag, SoleTags, Tally;
    var base := Tags.BaseTag(t);
    SoleTagsAt(rows, c, base);
    PlusZero(Tally(now, c));
    if base in rows && rows[base].singbox && rec != ZERO && |rows[base].enabled| == 1 {
      var only :| only in rows[base].enabled;
      OnlyOne(rows[base].enabled, only);
      TallyPut(now, only, Tally(now, only).Plus(rec), c);
    }
  }

  lemma SoleTagsAt(rows: map<string, Row>, c: nat, tag: string)
    ensures tag in SoleTags(rows, c) <==> Sole(rows, tag, c)
  {
  }

  lemma InboundStep(before: map<string, Rec>, rows: map<string, Row>, out: map<string, Rec>, done: set<string>,
                    t: string, now: map<string, Rec>)
    requires t in out && t !in done && InboundsBilled(before, rows, Restrict(out, done), now)
    ensures InboundsBilled(before, rows, Restrict(out, done + {t}), WithInbound(now, rows, t, out[t]))
  {
    hide Share, Tags.BaseTag, Restrict, WithInbound, Tally, Due;
    forall tag
      ensures Tally(WithInbound(now, rows, t, out[t]), tag)
              == Tally(before, tag).Plus(Share(Restrict(out, done + {t}), Due(rows, tag)))
    {
      assert Tally(now, tag) == Tally(before, tag).Plus(Share(Restrict(out, done), Due(rows, tag)));
      ShareGrows(out, done, t, Due(rows, tag));
      InboundTakes(now, rows, t, out[t], tag);
    }
  }

  lemma ClientStep(before: map<nat, Rec>, rows: map<string, Row>, out: map<string, Rec>, done: set<string>, t: string,
                   now: map<nat, Rec>)
    requires t in out && t !in done && ClientsBilled(before, rows, Restrict(out, done), now)
    ensures ClientsBilled(before, rows, Restrict(out, done + {t}), WithClient(now, rows, t, out[t]))
  {
    hide Share, Tags.BaseTag, Restrict, WithClient, Tally, SoleTags;
    forall c
      ensures Tally(WithClient(now, rows, t, out[t]), c)
              == Tally(before, c).Plus(Share(Restrict(out, done + {t}), SoleTags(rows, c)))
    {
      assert Tally(now, c) == Tally(before, c).Plus(Share(Restrict(out, done), SoleTags(rows, c)));
      ShareGrows(out, done, t, SoleTags(rows, c));
      ClientTakes(now, rows, t, out[t], c);
    }
  }

  lemma OnlyOne(s: set<nat>, c: nat)
    requires |s| == 1 && c in s
    ensures s == {c}
  {
    assert |s - {c}| == 0;
  }

  class Ledger {
    var inbounds: map<string, Rec>
    var clients: map<nat, Rec>

    ghost function Value(): Books
      reads this
    {
      Books(inbounds, clients)
    }

    method BillInbounds(rows: map<string, Row>, out: map<string, Rec>)
      modifies this
      ensures clients == old(clients) && InboundsBilled(old(inbounds), rows, out, inbounds)
    {
      hide InboundsBilled, Restrict, Tags.BaseTag;
      RestrictEnds(out);
      NothingBilled(old(inbounds), clients, rows);
      var todo := out.Keys;
      ghost var done: set<string> := {};
      while todo != {}
        invariant todo + done == out.Keys && todo !! done && clients == old(clients)
        invariant InboundsBilled(old(inbounds), rows, Restrict(out, done), inbounds)
        decreases |todo|
      {
        var t :| t in todo;
        InboundStep(old(inbounds), rows, out, done, t, inbounds);
        var base := Tags.BaseTag(t);
        if base in rows {
          inbounds := inbounds[base := Tally(inbounds, base).Plus(out[t])];
        }
        todo, done := todo - {t}, done + {t};
      }
      assert done == out.Keys;
    }

    // Traffic of a sing-box inbound is billed to its client when it has just one.
    method BillSoleClients(rows: map<string, Row>, out: map<string, Rec>)
      modifies this
      ensures inbounds == old(inbounds) && ClientsBilled(old(clients), rows, out, clients)
    {
      hide ClientsBilled, Restrict, Tags.BaseTag;
      RestrictEnds(out);
      NothingBilled(inbounds, old(clients), rows);
      var todo := out.Keys;
      ghost var done: set<string> := {};
      while todo != {}
        invariant todo + done == out.Keys && todo !! done && inbounds == old(inbounds)
        invariant ClientsBilled(old(clients), rows, Restrict(out, done), clients)
        decreases |todo|
      {
        var t :| t in todo;
        ClientStep(old(clients), rows, out, done, t, clients);
        var base := Tags.BaseTag(t);
        if base in rows && rows[base].singbox && out[t] != ZERO {
          var solo := rows[base].enabled;
          if |solo| == 1 {
            var c :| c in solo;
            OnlyOne(solo, c);
            clients := clients[c := Tally(clients, c).Plus(out[t])];
          }
        }
        todo, done := todo - {t}, done + {t};
      }
      assert done == out.Keys;
    }

    method Accumulate(rows: map<string, Row>, out: map<string, Rec>)
      modifies this
      ensures Billed(old(Value()), rows, out, Value())
    {
      BillInbounds(rows, out);
      BillSoleClients(rows, out);
    }
  }

  lemma NothingBilled(inbounds: map<string, Rec>, clients: map<nat, Rec>, rows: map<string, Row>)
    ensures InboundsBilled(inbounds, rows, map[], inbounds) && ClientsBilled(clients, rows, map[], clients)
  {
    hide Share, Tally, Due, SoleTags;
    forall tag
      ensures Tally(inbounds, tag) == Tally(inbounds, tag).Plus(Share(map[], Due(rows, tag)))
    {
      NoShare(Due(rows, tag));
    }
    forall c
      ensures Tally(clients, c) == Tally(clients, c).Plus(Share(map[], SoleTags(rows, c)))
    {
      NoShare(SoleTags(rows, c));
    }
  }

  // ------------------------------------------------------------------------
  // Conservation
  // ------------------------------------------------------------------------

  // A poll; `restarted` if the panel process was restarted since the one before, which
  // empties _last_seen.
  datatype Poll = Poll(restarted: bool, seen: Option<seq<Conn>>, rows: map<string, Row>)

  // The log a reader of every snapshot would keep: each connection as last observed.
  function Note(last: map<string, Conn>, c: Conn): map<string, Conn> {
    if c.id == "" then last else last[c.id := c]
  }

  function NoteAll(last: map<string, Conn>, snapshot: seq<Conn>, k: nat): map<string, Conn>
    requires k <= |snapshot|
  {
    if k == 0 then last else Note(NoteAll(last, snapshot, k - 1), snapshot[k - 1])
  }

  function LatestAfter(polls: seq<Poll>, k: nat): map<string, Conn>
    requires k <= |polls|
  {
    if k == 0 then map[]
    else
      match polls[k - 1].seen
      case None => LatestAfter(polls, k - 1)
      case Some(snapshot) => NoteAll(LatestAfter(polls, k - 1), snapshot, |snapshot|)
  }

  // The connections listed by the last poll that reached the API.
  function AliveAfter(polls: seq<Poll>, k: nat): set<string>
    requires k <= |polls|
  {
    if k == 0 then {}
    else
      match polls[k - 1].seen
      case None => AliveAfter(polls, k - 1)
      case Some(snapshot) => IdsOf(snapshot)
  }

  // A connection's counters never fall, its listener never changes, and an id that
  // has vanished never returns.
  predicate Steady(last: map<string, Conn>, alive: set<string>, c: Conn) {
    c.id != "" && c.id in last ==>
      && c.id in alive
      && last[c.id].tag == c.tag
      && last[c.id].bytes.up <= c.bytes.up
      && last[c.id].bytes.down <= c.bytes.down
  }

  predicate SteadySnapshot(last: map<string, Conn>, alive: set<string>, snapshot: seq<Conn>) {
    forall k :: 0 <= k < |snapshot| ==> Steady(NoteAll(last, snapshot, k), alive + IdsOf(snapshot[..k]), snapshot[k])
  }

  predicate SteadyRun(polls: seq<Poll>) {
    forall k :: 0 <= k < |polls| && polls[k].seen.Some? ==>
      SteadySnapshot(LatestAfter(polls, k), AliveAfter(polls, k), polls[k].seen.value)
  }

  // The specification: the last observed counters of all connections, past and
  // present, of these rows' listeners.
  function Counters(last: map<string, Conn>, tags: set<string>, d: Direction): map<string, nat> {
    map id | id in last && last[id].tag != "" && Tags.BaseTag(last[id].tag) in tags :: last[id].bytes.Of(d)
  }

  ghost function Carried(last: map<string, Conn>, tags: set<string>): Rec {
    Rec(Total(Counters(last, tags, Up)), Total(Counters(last, tags, Down)))
  }

  predicate Mine(c: Conn, tags: set<string>) {
    c.tag != "" && Tags.BaseTag(c.tag) in tags
  }

  lemma CountersPut(last: map<string, Conn>, c: Conn, tags: set<string>, d: Direction)
    requires c.id in last ==> last[c.id].tag == c.tag
    ensures Counters(last[c.id := c], tags, d)
         == if Mine(c, tags) then Counters(last, tags, d)[c.id := c.bytes.Of(d)] else Counters(last, tags, d)
    ensures c.id in Counters(last, tags, d) <==> c.id in last && Mine(c, tags)
    ensures c.id in Counters(last, tags, d) ==> Counters(last, tags, d)[c.id] == last[c.id].bytes.Of(d)
  {
    hide Tags.BaseTag;
  }

  lemma CountersAdd(last: map<string, Conn>, c: Conn, tags: set<string>, d: Direction)
    requires c.id in last ==> last[c.id].tag == c.tag && last[c.id].bytes.Of(d) <= c.bytes.Of(d)
    ensures Total(Counters(last[c.id := c], tags, d))
         == Total(Counters(last, tags, d))
            + if Mine(c, tags) then c.bytes.Of(d) - (if c.id in last then last[c.id].bytes.Of(d) else 0) else 0
  {
    hide Counters, Total, Mine;
    CountersPut(last, c, tags, d);
    TotalPut(Counters(last, tags, d), c.id, c.bytes.Of(d));
  }

  // The poller's memory agrees with the log where it still remembers.
  predicate Tracks(lastSeen: map<string, Rec>, last: map<string, Conn>) {
    forall id :: id in lastSeen ==> id in last && last[id].bytes == lastSeen[id]
  }

  // One connection: what is billed is what its counters grew by.
  lemma ObserveConserves(seen: map<string, Rec>, last: map<string, Conn>, c: Conn, out: map<string, Rec>,
                         tags: set<string>)
    requires Tracks(seen, last) && Steady(last, seen.Keys, c)
    ensures Tracks(Observe(seen, c), Note(last, c))
    ensures Carried(Note(last, c), tags) == Carried(last, tags).Plus(if Mine(c, tags) then Billable(seen, c) else ZERO)
  {
    hide Counters, Total;
    if c.id != "" {
      CountersAdd(last, c, tags, Up);
      CountersAdd(last, c, tags, Down);
    }
  }

  lemma AddToShare(out: map<string, Rec>, c: Conn, seen: map<string, Rec>, tags: set<string>)
    ensures Share(AddTo(out, c.tag, Billable(seen, c)), tags)
         == Share(out, tags).Plus(if Mine(c, tags) then Billable(seen, c) else ZERO)
  {
    hide Share, Tags.BaseTag, Tally;
    var delta := Billable(seen, c);
    PlusZero(Share(out, tags));
    ShareAdd(out, c.tag, delta, tags);
  }

  lemma PlusAssociates(a: Rec, b: Rec, c: Rec)
    ensures a.Plus(b).Plus(c) == a.Plus(b.Plus(c))
  {
  }

  // One snapshot.
  lemma {:induction false} ScanConserves(lastSeen: map<string, Rec>, last: map<string, Conn>, snapshot: seq<Conn>,
                                         k: nat, tags: set<string>)
    requires k <= |snapshot| && Tracks(lastSeen, last) && SteadySnapshot(last, lastSeen.Keys, snapshot)
    ensures
      var (seen, out) := Scan(lastSeen, snapshot, k);
      && Tracks(seen, NoteAll(last, snapshot, k))
      && seen.Keys == lastSeen.Keys + IdsOf(snapshot[..k])
      && Carried(NoteAll(last, snapshot, k), tags) == Carried(last, tags).Plus(Share(out, tags))
  {
    hide Carried, Share, Tracks, IdsOf, Mine, Billable, AddTo, Steady;
    if k == 0 {
      NoShare(tags);
      PlusZero(Carried(last, tags));
      NoIds();
    } else {
      ScanConserves(lastSeen, last, snapshot, k - 1, tags);
      var (seen, out) := Scan(lastSeen, snapshot, k - 1);
      var c := snapshot[k - 1];
      ObserveConserves(seen, NoteAll(last, snapshot, k - 1), c, out, tags);
      AddToShare(out, c, seen, tags);
      PlusAssociates(Carried(last, tags), Share(out, tags), if Mine(c, tags) then Billable(seen, c) else ZERO);
      MoreIds(snapshot, k - 1);
    }
  }

  // _last_seen after the first k polls, and as poll k finds it.
  function SeenAfter(polls: seq<Poll>, k: nat): map<string, Rec>
    requires k <= |polls|
    decreases k, 0
  {
    if k == 0 then map[] else Queried(Memory(polls, k - 1), polls[k - 1].seen).0
  }

  function Memory(polls: seq<Poll>, k: nat): map<string, Rec>
    requires k < |polls|
    decreases k, 1
  {
    if polls[k].restarted then map[] else SeenAfter(polls, k)
  }

  function OutAt(polls: seq<Poll>, k: nat): map<string, Rec>
    requires k < |polls|
  {
    Queried(Memory(polls, k), polls[k].seen).1
  }

  // What the polls before k found for these rows' listeners, in all.
  ghost function FoundBy(polls: seq<Poll>, k: nat, tags: set<string>): Rec
    requires k <= |polls|
  {
    if k == 0 then ZERO else FoundBy(polls, k - 1, tags).Plus(Share(OutAt(polls, k - 1), tags))
  }

  // Poll k comes after a restart that no poll has reached the API since.
  predicate Forgot(polls: seq<Poll>, k: nat)
    requires k < |polls|
  {
    polls[k].restarted || (k > 0 && polls[k - 1].seen.None? && Forgot(polls, k - 1))
  }

  // The part of the log that a snapshot lists again.
  function Relisted(last: map<string, Conn>, ids: set<string>): map<string, Conn> {
    map id | id in last && id in ids :: last[id]
  }

  // What poll k bills a second time: the counters, as last observed, of the connections
  // that it lists and has forgotten.
  ghost function RebilledAt(polls: seq<Poll>, k: nat, tags: set<string>): Rec
    requires k < |polls|
  {
    match polls[k].seen
    case None => ZERO
    case Some(snapshot) =>
      if Forgot(polls, k) then Carried(Relisted(LatestAfter(polls, k), IdsOf(snapshot)), tags) else ZERO
  }

  ghost function RebilledBy(polls: seq<Poll>, k: nat, tags: set<string>): Rec
    requires k <= |polls|
  {
    if k == 0 then ZERO else RebilledBy(polls, k - 1, tags).Plus(RebilledAt(polls, k - 1, tags))
  }

  lemma {:induction false} QueryConserves(lastSeen: map<string, Rec>, last: map<string, Conn>, snapshot: seq<Conn>,
                                          tags: set<string>)
    requires Tracks(lastSeen, last) && SteadySnapshot(last, lastSeen.Keys, snapshot)
    ensures
      var (seen, out) := Queried(lastSeen, Some(snapshot));
      && Tracks(seen, NoteAll(last, snapshot, |snapshot|))
      && seen.Keys == IdsOf(snapshot)
      && Carried(NoteAll(last, snapshot, |snapshot|), tags) == Carried(last, tags).Plus(Share(out, tags))
  {
    hide Carried, Share, SteadySnapshot, Scan, NoteAll, IdsOf;
    ScanConserves(lastSeen, last, snapshot, |snapshot|, tags);
    assert snapshot[..|snapshot|] == snapshot;
  }

  lemma {:induction false} TotalUnion(a: map<string, nat>, b: map<string, nat>)
    requires a.Keys !! b.Keys
    ensures Total(a + b) == Total(a) + Total(b)
    decreases |b|
  {
    hide Total;
    if b == map[] {
      assert a + b == a;
      assert Total(b) == 0 by { TotalEmpty(); }
    } else {
      var k :| k in b;
      var rest := b - {k};
      TotalUnion(a, rest);
      TotalWithout(b, k);
      TotalPut(a + rest, k, b[k]);
      UnionPut(a, b, k);
    }
  }

  lemma UnionPut(a: map<string, nat>, b: map<string, nat>, k: string)
    requires a.Keys !! b.Keys && k in b
    ensures k !in a + (b - {k}) && (a + (b - {k}))[k := b[k]] == a + b
  {
  }

  lemma TotalEmpty()
    ensures Total(map[]) == 0
  {
  }

  lemma CarriedUnion(a: map<string, Conn>, b: map<string, Conn>, tags: set<string>)
    requires a.Keys !! b.Keys
    ensures Carried(a + b, tags) == Carried(a, tags).Plus(Carried(b, tags))
  {
    hide Counters, Total;
    CountersUnion(a, b, tags, Up);
    CountersUnion(a, b, tags, Down);
  }

  lemma CountersUnion(a: map<string, Conn>, b: map<string, Conn>, tags: set<string>, d: Direction)
    requires a.Keys !! b.Keys
    ensures Total(Counters(a + b, tags, d)) == Total(Counters(a, tags, d)) + Total(Counters(b, tags, d))
  {
    hide Tags.BaseTag, Total;
    assert Counters(a + b, tags, d) == Counters(a, tags, d) + Counters(b, tags, d);
    TotalUnion(Counters(a, tags, d), Counters(b, tags, d));
  }

  // A snapshot overwrites the part of the log it lists, and is steady by itself.
  lemma {:induction false} NoteSplits(last: map<string, Conn>, alive: set<string>, snapshot: seq<Conn>, k: nat)
    requires k <= |snapshot|
    ensures NoteAll(map[], snapshot, k).Keys == IdsOf(snapshot[..k])
    ensures NoteAll(last, snapshot, k) == (last - IdsOf(snapshot[..k])) + NoteAll(map[], snapshot, k)
    ensures k < |snapshot| && Steady(NoteAll(last, snapshot, k), alive + IdsOf(snapshot[..k]), snapshot[k]) ==>
      Steady(NoteAll(map[], snapshot, k), IdsOf(snapshot[..k]), snapshot[k])
  {
    hide IdsOf;
    if k == 0 {
      NoIds();
      assert snapshot[..0] == [];
    } else {
      NoteSplits(last, alive, snapshot, k - 1);
      MoreIds(snapshot, k - 1);
    }
  }

  // The first snapshot after a restart: besides the growth, it bills again what was
  // already billed for the connections it lists.
  lemma {:induction false} ForgottenQuery(last: map<string, Conn>, alive: set<string>, snapshot: seq<Conn>,
                                          tags: set<string>)
    requires SteadySnapshot(last, alive, snapshot)
    ensures
      Carried(last, tags).Plus(Share(Queried(map[], Some(snapshot)).1, tags))
        == Carried(NoteAll(last, snapshot, |snapshot|), tags).Plus(Carried(Relisted(last, IdsOf(snapshot)), tags))
  {
    hide Carried, Share, Queried, IdsOf, NoteAll, Steady, Rec.Plus;
    var n, none: map<string, Rec> := |snapshot|, map[];
    var kept, listed, novel := last - IdsOf(snapshot), Relisted(last, IdsOf(snapshot)), NoteAll(map[], snapshot, n);
    forall k | 0 <= k < n
      ensures Steady(NoteAll(map[], snapshot, k), none.Keys + IdsOf(snapshot[..k]), snapshot[k])
    {
      NoteSplits(last, alive, snapshot, k);
      assert none.Keys + IdsOf(snapshot[..k]) == IdsOf(snapshot[..k]);
    }
    NothingCarried(tags);
    QueryConserves(none, map[], snapshot, tags);
    NoteSplits(last, alive, snapshot, n);
    assert snapshot[..n] == snapshot;
    assert last == kept + listed;
    CarriedUnion(kept, listed, tags);
    CarriedUnion(kept, novel, tags);
    Exchange(ZERO, ZERO, Share(Queried(none, Some(snapshot)).1, tags));
    Exchange(Carried(kept, tags), Carried(listed, tags), Carried(novel, tags));
  }

  lemma Exchange(a: Rec, b: Rec, c: Rec)
    ensures a.Plus(b).Plus(c) == a.Plus(c).Plus(b) && ZERO.Plus(c) == c && c.Plus(ZERO) == c
  {
  }

  lemma AddUp(found: Rec, before: Rec, again: Rec, share: Rec, after: Rec, more: Rec)
    requires found == before.Plus(again) && before.Plus(share) == after.Plus(more)
    ensures found.Plus(share) == after.Plus(again.Plus(more))
  {
  }

  // Over any run, failed polls and restarts included, the deltas add up to the counters
  // and to what restarts made the polls bill again.
  lemma {:induction false} DeltasAddUp(polls: seq<Poll>, k: nat, tags: set<string>)
    requires k <= |polls| && SteadyRun(polls)
    ensures FoundBy(polls, k, tags) == Carried(LatestAfter(polls, k), tags).Plus(RebilledBy(polls, k, tags))
  {
    hide Share, SteadyRun, OutAt, RebilledAt, Carried, Rec.Plus;
    if k == 0 {
      NothingCarried(tags);
      PlusZero(ZERO);
    } else {
      hide LatestAfter;
      DeltasAddUp(polls, k - 1, tags);
      PollAddsUp(polls, k - 1, tags);
      AddUp(FoundBy(polls, k - 1, tags), Carried(LatestAfter(polls, k - 1), tags), RebilledBy(polls, k - 1, tags),
            Share(OutAt(polls, k - 1), tags), Carried(LatestAfter(polls, k), tags), RebilledAt(polls, k - 1, tags));
    }
  }

  // What poll k finds of the run so far.
  lemma {:induction false} MemoryTracks(polls: seq<Poll>, k: nat)
    requires k < |polls| && SteadyRun(polls)
    ensures if Forgot(polls, k) then Memory(polls, k) == map[]
            else Tracks(Memory(polls, k), LatestAfter(polls, k)) && Memory(polls, k).Keys == AliveAfter(polls, k)
  {
    hide Share, SteadySnapshot, Scan, NoteAll, IdsOf, Closed;
    if k > 0 {
      MemoryTracks(polls, k - 1);
      if polls[k - 1].seen.Some? {
        var last, snapshot := LatestAfter(polls, k - 1), polls[k - 1].seen.value;
        if Forgot(polls, k - 1) {
          ForgottenTracks(last, AliveAfter(polls, k - 1), snapshot);
        } else {
          QueryConserves(Memory(polls, k - 1), last, snapshot, {});
        }
      }
    }
  }

  lemma {:induction false} ForgottenTracks(last: map<string, Conn>, alive: set<string>, snapshot: seq<Conn>)
    requires SteadySnapshot(last, alive, snapshot)
    ensures
      var seen := Queried(map[], Some(snapshot)).0;
      Tracks(seen, NoteAll(last, snapshot, |snapshot|)) && seen.Keys == IdsOf(snapshot)
  {
    hide Carried, Share, Queried, IdsOf, NoteAll, Steady;
    var n, none: map<string, Rec> := |snapshot|, map[];
    forall k | 0 <= k < n
      ensures Steady(NoteAll(map[], snapshot, k), none.Keys + IdsOf(snapshot[..k]), snapshot[k])
    {
      NoteSplits(last, alive, snapshot, k);
      assert none.Keys + IdsOf(snapshot[..k]) == IdsOf(snapshot[..k]);
    }
    QueryConserves(none, map[], snapshot, {});
    NoteSplits(last, alive, snapshot, n);
    assert snapshot[..n] == snapshot;
  }

  lemma {:induction false} PollAddsUp(polls: seq<Poll>, k: nat, tags: set<string>)
    requires k < |polls| && SteadyRun(polls)
    ensures Carried(LatestAfter(polls, k), tags).Plus(Share(OutAt(polls, k), tags))
         == Carried(LatestAfter(polls, k + 1), tags).Plus(RebilledAt(polls, k, tags))
  {
    MemoryTracks(polls, k);
    hide Share, Carried, SteadySnapshot, Tracks, NoteAll, IdsOf, Memory, Relisted, Forgot, Rec.Plus, Scan, Closed;
    NoShare(tags);
    PlusZero(Carried(LatestAfter(polls, k), tags));
    PlusZero(Carried(LatestAfter(polls, k + 1), tags));
    if polls[k].seen.Some? {
      var last, snapshot := LatestAfter(polls, k), polls[k].seen.value;
      if Forgot(polls, k) {
        ForgottenQuery(last, AliveAfter(polls, k), snapshot, tags);
      } else {
        QueryConserves(Memory(polls, k), last, snapshot, tags);
      }
    }
  }

  // Conservation itself holds exactly if nothing was billed again.
  lemma {:induction false} DeltasAddUpIff(polls: seq<Poll>, tags: set<string>)
    requires SteadyRun(polls)
    ensures FoundBy(polls, |polls|, tags) == Carried(LatestAfter(polls, |polls|), tags) <==>
      RebilledBy(polls, |polls|, tags) == ZERO
  {
    hide Carried, SteadyRun, LatestAfter, FoundBy, RebilledBy;
    DeltasAddUp(polls, |polls|, tags);
  }

  lemma {:induction false} NothingRebilled(polls: seq<Poll>, k: nat, tags: set<string>)
    requires k <= |polls| && forall i :: 0 <= i < |polls| ==> !polls[i].restarted
    ensures RebilledBy(polls, k, tags) == ZERO && (k < |polls| ==> !Forgot(polls, k))
  {
    hide Carried, Rec.Plus;
    PlusZero(ZERO);
    if k != 0 {
      NothingRebilled(polls, k - 1, tags);
    }
  }

  lemma NothingCarried(tags: set<string>)
    ensures Carried(map[], tags) == ZERO && Tracks(map[], map[])
  {
    assert Counters(map[], tags, Up) == map[] && Counters(map[], tags, Down) == map[];
  }

  // The columns along a run.
  ghost predicate BilledRun(polls: seq<Poll>, books: seq<Books>) {
    |books| == |polls| + 1
    && forall k :: 0 <= k < |polls| ==> Billed(books[k], polls[k].rows, OutAt(polls, k), books[k + 1])
  }

  lemma {:induction false} InboundBilled(polls: seq<Poll>, books: seq<Books>, k: nat, tag: string)
    requires k <= |polls| && BilledRun(polls, books)
    requires forall i :: 0 <= i < |polls| ==> tag in polls[i].rows
    ensures Tally(books[k].inbounds, tag) == Tally(books[0].inbounds, tag).Plus(FoundBy(polls, k, {tag}))
  {
    hide Share, OutAt, Tally;
    if k == 0 {
      PlusZero(Tally(books[0].inbounds, tag));
    } else {
      InboundBilled(polls, books, k - 1, tag);
      assert Billed(books[k - 1], polls[k - 1].rows, OutAt(polls, k - 1), books[k]);
      PlusAssociates(Tally(books[0].inbounds, tag), FoundBy(polls, k - 1, {tag}), Share(OutAt(polls, k - 1), {tag}));
    }
  }

  // An inbound is billed the last observed counters of all its connections, over all its
  // listeners, and on top what restarts made the polls bill again.
  lemma {:induction false} InboundConserved(polls: seq<Poll>, books: seq<Books>, tag: string)
    requires SteadyRun(polls) && BilledRun(polls, books)
    requires forall i :: 0 <= i < |polls| ==> tag in polls[i].rows
    ensures
      var counters, again := Carried(LatestAfter(polls, |polls|), {tag}), RebilledBy(polls, |polls|, {tag});
      && Tally(books[|polls|].inbounds, tag) == Tally(books[0].inbounds, tag).Plus(counters).Plus(again)
      && (Tally(books[|polls|].inbounds, tag) == Tally(books[0].inbounds, tag).Plus(counters) <==> again == ZERO)
      && ((forall i :: 0 <= i < |polls| ==> !polls[i].restarted) ==> again == ZERO)
  {
    hide Tally, Carried, SteadyRun, BilledRun, LatestAfter, FoundBy, RebilledBy;
    InboundBilled(polls, books, |polls|, tag);
    DeltasAddUp(polls, |polls|, {tag});
    if forall i :: 0 <= i < |polls| ==> !polls[i].restarted {
      NothingRebilled(polls, |polls|, {tag});
    }
  }

  // The client is the one enabled client of this sing-box inbound, and of no other.
  predicate OnlyClient(rows: map<string, Row>, tag: string, c: nat) {
    Sole(rows, tag, c) && forall t :: t in rows && c in rows[t].enabled ==> t == tag
  }

  lemma OnlyTag(rows: map<string, Row>, tag: string, c: nat)
    requires OnlyClient(rows, tag, c)
    ensures SoleTags(rows, c) == {tag}
  {
    forall t | t in SoleTags(rows, c)
      ensures t == tag
    {
      assert c in rows[t].enabled;
    }
  }

  lemma {:induction false} ClientBilled(polls: seq<Poll>, books: seq<Books>, k: nat, tag: string, c: nat)
    requires k <= |polls| && BilledRun(polls, books)
    requires forall i :: 0 <= i < |polls| ==> OnlyClient(polls[i].rows, tag, c)
    ensures Tally(books[k].clients, c) == Tally(books[0].clients, c).Plus(FoundBy(polls, k, {tag}))
  {
    hide Share, OutAt, Tally, SoleTags, OnlyClient;
    if k == 0 {
      PlusZero(Tally(books[0].clients, c));
    } else {
      ClientBilled(polls, books, k - 1, tag, c);
      OnlyTag(polls[k - 1].rows, tag, c);
      assert Billed(books[k - 1], polls[k - 1].rows, OutAt(polls, k - 1), books[k]);
      PlusAssociates(Tally(books[0].clients, c), FoundBy(polls, k - 1, {tag}), Share(OutAt(polls, k - 1), {tag}));
    }
  }

  // A client that is its inbound's only enabled one at every poll is charged the same.
  lemma {:induction false} SoleClientConserved(polls: seq<Poll>, books: seq<Books>, tag: string, c: nat)
    requires SteadyRun(polls) && BilledRun(polls, books)
    requires forall i :: 0 <= i < |polls| ==> OnlyClient(polls[i].rows, tag, c)
    ensures
      var counters, again := Carried(LatestAfter(polls, |polls|), {tag}), RebilledBy(polls, |polls|, {tag});
      && Tally(books[|polls|].clients, c) == Tally(books[0].clients, c).Plus(counters).Plus(again)
      && (Tally(books[|polls|].clients, c) == Tally(books[0].clients, c).Plus(counters) <==> again == ZERO)
      && ((forall i :: 0 <= i < |polls| ==> !polls[i].restarted) ==> again == ZERO)
  {
    hide Tally, Carried, SteadyRun, BilledRun, LatestAfter, FoundBy, OnlyClient, RebilledBy;
    ClientBilled(polls, books, |polls|, tag, c);
    DeltasAddUp(polls, |polls|, {tag});
    if forall i :: 0 <= i < |polls| ==> !polls[i].restarted {
      NothingRebilled(polls, |polls|, {tag});
    }
  }

  // One connection, idle across a restart, is billed twice over.
  lemma RestartBillsTwice(rows: map<string, Row>) returns (polls: seq<Poll>)
    ensures SteadyRun(polls) && |polls| == 2
    ensures polls[0] == Poll(false, Some([Conn("c", "t", Rec(5, 7))]), rows) && polls[1] == polls[0].(restarted := true)
    ensures FoundBy(polls, 2, {"t"}) == Rec(10, 14) && Carried(LatestAfter(polls, 2), {"t"}) == Rec(5, 7)
  {
    var c := Conn("c", "t", Rec(5, 7));
    var snapshot := [c];
    polls := [Poll(false, Some(snapshot), rows), Poll(true, Some(snapshot), rows)];
    OneConnection(polls, c);
    DeltasAddUp(polls, 2, {"t"});
  }

  predicate OneIdleConnection(polls: seq<Poll>, c: Conn) {
    && |polls| == 2 && polls[0].seen == polls[1].seen == Some([c]) && c == Conn("c", "t", Rec(5, 7))
    && !polls[0].restarted && polls[1].restarted
  }

  lemma OneConnection(polls: seq<Poll>, c: Conn)
    requires OneIdleConnection(polls, c)
    ensures SteadyRun(polls) && Carried(LatestAfter(polls, 2), {"t"}) == Rec(5, 7)
            && RebilledBy(polls, 2, {"t"}) == Rec(5, 7)
  {
    hide Carried, LatestAfter, AliveAfter, SteadySnapshot, RebilledAt, Rec.Plus;
    OneLog(polls, c);
    OneNote(c);
    OneCarried(c);
    OneRebilled(polls, c);
    PlusZero(ZERO);
    Exchange(ZERO, ZERO, Rec(5, 7));
    assert RebilledBy(polls, 0, {"t"}) == ZERO && RebilledBy(polls, 1, {"t"}) == ZERO;
  }

  lemma OneLog(polls: seq<Poll>, c: Conn)
    requires OneIdleConnection(polls, c)
    ensures LatestAfter(polls, 0) == map[] && LatestAfter(polls, 1) == map["c" := c] == LatestAfter(polls, 2)
    ensures AliveAfter(polls, 0) == {} && AliveAfter(polls, 1) == {"c"}
  {
    hide NoteAll, IdsOf;
    OneNote(c);
    assert LatestAfter(polls, 0) == map[];
    assert LatestAfter(polls, 1) == map["c" := c];
    assert AliveAfter(polls, 0) == {};
  }

  lemma OneRebilled(polls: seq<Poll>, c: Conn)
    requires OneIdleConnection(polls, c)
    ensures RebilledAt(polls, 0, {"t"}) == ZERO && RebilledAt(polls, 1, {"t"}) == Rec(5, 7)
  {
    hide Carried, LatestAfter, IdsOf;
    OneLog(polls, c);
    OneNote(c);
    OneCarried(c);
    assert Relisted(map["c" := c], {"c"}) == map["c" := c];
  }

  lemma OneNote(c: Conn)
    requires c.id == "c"
    ensures IdsOf([c]) == {"c"}
    ensures NoteAll(map[], [c], 1) == map["c" := c] == NoteAll(map["c" := c], [c], 1)
    ensures SteadySnapshot(map[], {}, [c]) && SteadySnapshot(map["c" := c], {"c"}, [c])
  {
    assert [c][0] == c;
    assert NoteAll(map[], [c], 0) == map[] && NoteAll(map["c" := c], [c], 0) == map["c" := c];
  }

  lemma OneCarried(c: Conn)
    requires c.tag == "t"
    ensures Carried(map["c" := c], {"t"}) == c.bytes
  {
    hide Tags.BaseTag;
    var log: map<string, Conn> := map["c" := c];
    Tags.BaseTagOfPlain("t");
    forall d: Direction
      ensures Total(Counters(log, {"t"}, d)) == c.bytes.Of(d)
    {
      assert Counters(log, {"t"}, d) == map["c" := c.bytes.Of(d)];
      TotalWithout(Counters(log, {"t"}, d), "c");
      assert Counters(log, {"t"}, d) - {"c"} == map[];
    }
    assert c.bytes.Of(Up) == c.bytes.up && c.bytes.Of(Down) == c.bytes.down;
  }

  // ------------------------------------------------------------------------
  // Counters that fall
  // ------------------------------------------------------------------------

  function Rise(was: nat, now: nat): nat {
    if now > was then now - was else 0
  }

  // What the connections of a snapshot have risen by since they were last seen; a
  // counter that fell, a connection without an id or a listener, counts for nothing.
  function Risen(lastSeen: map<string, Rec>, snapshot: seq<Conn>, k: nat, tags: set<string>): Rec
    requires k <= |snapshot|
  {
    if k == 0 then ZERO
    else
      var before, c := Risen(lastSeen, snapshot, k - 1, tags), snapshot[k - 1];
      if c.id == "" || c.tag == "" || Tags.BaseTag(c.tag) !in tags then before
      else
        var was := if c.id in lastSeen then lastSeen[c.id] else Rec(0, 0);
        Rec(before.up + Rise(was.up, c.bytes.up), before.down + Rise(was.down, c.bytes.down))
  }

  predicate IdsOnce(snapshot: seq<Conn>) {
    forall i, j :: 0 <= i < j < |snapshot| && snapshot[i].id != "" ==> snapshot[i].id != snapshot[j].id
  }

  lemma {:induction false} ScanRemembers(lastSeen: map<string, Rec>, snapshot: seq<Conn>, k: nat, id: string)
    requires k <= |snapshot| && forall i :: 0 <= i < k ==> snapshot[i].id != id
    ensures Tally(Scan(lastSeen, snapshot, k).0, id) == Tally(lastSeen, id)
  {
    if k != 0 {
      ScanRemembers(lastSeen, snapshot, k - 1, id);
    }
  }

  lemma BillsRise(seen: map<string, Rec>, out: map<string, Rec>, c: Conn, was: Rec, tags: set<string>)
    requires c.id != "" ==> Tally(seen, c.id) == was
    ensures
      Share(AddTo(out, c.tag, Billable(seen, c)), tags) ==
        if c.id == "" || c.tag == "" || Tags.BaseTag(c.tag) !in tags then Share(out, tags)
        else Share(out, tags).Plus(Rec(Rise(was.up, c.bytes.up), Rise(was.down, c.bytes.down)))
  {
    hide Tags.BaseTag, Share, Tally;
    PlusZero(Share(out, tags));
    ShareAdd(out, c.tag, Billable(seen, c), tags);
  }

  // A query bills exactly that, whether counters fall or not.
  lemma {:induction false} ScanBillsRise(lastSeen: map<string, Rec>, snapshot: seq<Conn>, k: nat, tags: set<string>)
    requires k <= |snapshot| && IdsOnce(snapshot)
    ensures Share(Scan(lastSeen, snapshot, k).1, tags) == Risen(lastSeen, snapshot, k, tags)
  {
    hide Tags.BaseTag, Share, AddTo, Billable, Observe;
    if k == 0 {
      NoShare(tags);
    } else {
      var (seen, out) := Scan(lastSeen, snapshot, k - 1);
      var c := snapshot[k - 1];
      ScanBillsRise(lastSeen, snapshot, k - 1, tags);
      if c.id != "" {
        ScanRemembers(lastSeen, snapshot, k - 1, c.id);
      }
      BillsRise(seen, out, c, Tally(lastSeen, c.id), tags);
    }
  }
}
