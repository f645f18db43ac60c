// The data cap of SSH accounts: request handlers (api/ssh.py) and the poller
// (tasks._enforce_ssh_quota) share the OS lock, the rows and the memo _ssh_cut, and
// interleave between a handler's steps.
module SshQuota {
  import opened Models

  datatype Row = Row(enabled: bool, used: nat, cap: nat) {
    predicate Over() {
      cap != 0 && used >= cap
    }
  }

  // The requests that touch the lock. A password change runs chpasswd, which
  // clears a usermod -L lock.
  datatype Request =
    | Edit(password: bool, enabled: Option<bool>, cap: Option<nat>)
    | UnlockAccount
    | ResetTraffic
    | LockAccount

  // Where an account's request is: none; begun and not committed; committed, with
  // the row as re-read then, and the OS lock not yet reconciled.
  datatype Phase = Idle | Begun(request: Request) | Committed(seen: Row)

  datatype State = State(
    rows: map<nat, Row>,
    locked: set<nat>,        // accounts with usermod -L in force
    cut: set<nat>,           // tasks._ssh_cut
    phase: map<nat, Phase>,
    visiting: set<nat>)      // the poller's query result, still to be visited

  function Written(row: Row, request: Request): Row {
    match request
    case Edit(_, enabled, cap) =>
      row.(enabled := if enabled.Some? then enabled.value else row.enabled,
           cap := if cap.Some? then cap.value else row.cap)
    case UnlockAccount => row.(enabled := true)
    case ResetTraffic => row.(used := 0)
    case LockAccount => row.(enabled := false)
  }

  // What a handler does to the OS before it commits.
  function BeginOs(locked: set<nat>, id: nat, request: Request): set<nat> {
    match request
    case Edit(true, _, _) => locked - {id}
    case LockAccount => locked + {id}
    case _ => locked
  }

  // api/ssh._reconcile_os_lock, on the row the handler holds
  function ReconciledLock(locked: set<nat>, id: nat, seen: Row): set<nat> {
    if !seen.enabled || seen.Over() then locked + {id} else locked - {id}
  }

  function ReconciledCut(cut: set<nat>, id: nat, seen: Row): set<nat> {
    if seen.enabled && seen.Over() then cut + {id} else cut - {id}
  }

  function Capped(rows: map<nat, Row>): set<nat> {
    set id | id in rows && rows[id].cap > 0 && rows[id].enabled
  }

  // One account of the poll loop, on its refreshed row.
  function VisitedLock(s: State, id: nat): set<nat>
    requires id in s.rows
  {
    if s.rows[id].Over() && id !in s.cut then s.locked + {id}
    else if !s.rows[id].Over() && id in s.cut then s.locked - {id}
    else s.locked
  }

  function VisitedCut(s: State, id: nat): set<nat>
    requires id in s.rows
  {
    if s.rows[id].Over() then s.cut + {id} else s.cut - {id}
  }

  datatype Action =
    | Begin(id: nat, request: Request)
    | PasswordRefused(id: nat)
    | Commit(id: nat)
    | Reconcile(id: nat)
    | Accrue(id: nat, bytes: nat)
    | Query
    | Visit(id: nat)
    | PanelRestart
    | Create(id: nat, cap: nat)
    | Delete(id: nat)

  predicate AllIdle(s: State) {
    forall id :: id in s.phase ==> s.phase[id] == Idle
  }

  predicate Has(s: State, id: nat) {
    id in s.rows && id in s.phase
  }

  // At most one request is in flight per account; the panel is not restarted in the
  // middle of one; ids are not reused.
  predicate Enabled(s: State, a: Action) {
    match a
    case Begin(id, _) => Has(s, id) && s.phase[id] == Idle
    case PasswordRefused(id) => Has(s, id) && s.phase[id] == Idle
    case Commit(id) => Has(s, id) && s.phase[id].Begun?
    case Reconcile(id) => Has(s, id) && s.phase[id].Committed?
    case Accrue(id, _) => Has(s, id)
    case Query => true
    case Visit(id) => Has(s, id) && id in s.visiting
    case PanelRestart => AllIdle(s)
    case Create(id, _) => id !in s.rows && id !in s.phase && id !in s.locked && id !in s.cut && id !in s.visiting
    case Delete(id) => Has(s, id) && s.phase[id] == Idle
  }

  function Next(s: State, a: Action): State
    requires Enabled(s, a)
  {
    match a
    case Begin(id, request) => s.(locked := BeginOs(s.locked, id, request), phase := s.phase[id := Begun(request)])
    case PasswordRefused(_) => s
    case Commit(id) =>
      var request := s.phase[id].request;
      var row := Written(s.rows[id], request);
      // The lock handler has no reconcile step: it locked before it committed.
      s.(rows := s.rows[id := row], phase := s.phase[id := if request == LockAccount then Idle else Committed(row)])
    case Reconcile(id) =>
      var seen := s.phase[id].seen;
      s.(locked := ReconciledLock(s.locked, id, seen), cut := ReconciledCut(s.cut, id, seen),
        phase := s.phase[id := Idle])
    case Accrue(id, bytes) => s.(rows := s.rows[id := s.rows[id].(used := s.rows[id].used + bytes)])
    case Query => s.(cut := s.cut * Capped(s.rows), visiting := Capped(s.rows))
    case Visit(id) => s.(locked := VisitedLock(s, id), cut := VisitedCut(s, id), visiting := s.visiting - {id})
    case PanelRestart => s.(cut := {}, visiting := {})
    case Create(id, cap) => s.(rows := s.rows[id := Row(true, 0, cap)], phase := s.phase[id := Idle])
    case Delete(id) =>
      // The OS user goes with the row; the memo and a running poll may remember the id.
      s.(rows := s.rows - {id}, phase := s.phase - {id}, locked := s.locked - {id})
  }

  // What an account without a request in flight satisfies.
  predicate Settled(row: Row, locked: bool, cut: bool) {
    && (!row.enabled ==> locked)
    && (row.enabled && !row.Over() ==> !locked)
    && (cut ==> locked && row.Over())
  }

  predicate AccountOk(s: State, id: nat)
    requires Has(s, id)
  {
    var row, locked, cut := s.rows[id], id in s.locked, id in s.cut;
    match s.phase[id]
    case Idle => Settled(row, locked, cut)
    case Begun(request) => (cut ==> row.Over()) && (request == LockAccount ==> locked)
    case Committed(seen) => seen.enabled == row.enabled && seen.cap == row.cap && seen.used <= row.used
  }

  predicate Ok(s: State) {
    && s.rows.Keys == s.phase.Keys
    && forall id :: id in s.rows ==> AccountOk(s, id)
  }

  // What a request leaves in its row, column by column.
  predicate Wrote(was: Row, row: Row, request: Request) {
    && row.used == (if request == ResetTraffic then 0 else was.used)
    && row.cap == (if request.Edit? && request.cap.Some? then request.cap.value else was.cap)
    && (request == UnlockAccount ==> row.enabled)
    && (request == LockAccount ==> !row.enabled)
    && (request == ResetTraffic ==> row.enabled == was.enabled)
    && (request.Edit? ==> row.enabled == if request.enabled.Some? then request.enabled.value else was.enabled)
  }

  // Rows move by commits, traffic, creations and deletions alone: a commit writes its
  // request, traffic adds up, and every other row stays.
  lemma RowsMove(s: State, a: Action, id: nat)
    requires Enabled(s, a)
    ensures
      var next := Next(s, a);
      if a.Commit? && a.id == id then id in next.rows && Wrote(s.rows[id], next.rows[id], s.phase[id].request)
      else if a.Accrue? && a.id == id then
        id in next.rows && next.rows[id] == s.rows[id].(used := s.rows[id].used + a.bytes)
      else if a.Create? && a.id == id then id in next.rows && next.rows[id] == Row(true, 0, a.cap)
      else if a.Delete? && a.id == id then id !in next.rows && id !in next.locked
      else (id in next.rows <==> id in s.rows) && (id in s.rows ==> next.rows[id] == s.rows[id])
  {
  }

  // Between those, the lock moves for four reasons: a password change unlocks, a lock
  // request locks, a committed request settles its account by the row it wrote, and the
  // poller settles a capped account it cut or should cut.
  lemma LocksMove(s: State, a: Action, id: nat)
    requires Enabled(s, a)
    ensures
      var next := Next(s, a);
      id in next.locked <==>
        if a.Delete? && a.id == id then false
        else if a.Begin? && a.id == id && a.request == LockAccount then true
        else if a.Begin? && a.id == id && a.request.Edit? && a.request.password then false
        else if a.Reconcile? && a.id == id then
          var row := s.phase[id].seen;
          !row.enabled || (row.cap != 0 && row.used >= row.cap)
        else if a.Visit? && a.id == id then
          var row := s.rows[id];
          if row.cap != 0 && row.used >= row.cap then id in s.locked || id !in s.cut else id in s.locked && id !in s.cut
        else id in s.locked
  {
  }

  // The memo moves when a request is settled, when the poller starts (it keeps capped
  // accounts that are switched on), when it visits, and with the panel.
  lemma MemoMoves(s: State, a: Action, id: nat)
    requires Enabled(s, a)
    ensures
      var next := Next(s, a);
      id in next.cut <==>
        if a.Reconcile? && a.id == id then
          var row := s.phase[id].seen;
          row.enabled && row.cap != 0 && row.used >= row.cap
        else if a.Query? then id in s.cut && id in s.rows && s.rows[id].enabled && s.rows[id].cap > 0
        else if a.Visit? && a.id == id then s.rows[id].cap != 0 && s.rows[id].used >= s.rows[id].cap
        else id in s.cut && !a.PanelRestart?
    ensures
      id in Next(s, a).visiting <==>
        if a.Query? then id in s.rows && s.rows[id].enabled && s.rows[id].cap > 0
        else id in s.visiting && !a.PanelRestart? && !(a.Visit? && a.id == id)
  {
  }

  lemma KeysMatch(s: State)
    requires Ok(s)
    ensures s.rows.Keys == s.phase.Keys
  {
  }

  lemma NextOk(s: State, a: Action)
    requires Ok(s) && Enabled(s, a)
    ensures Ok(Next(s, a))
  {
    var next := Next(s, a);
    forall id | id in next.rows
      ensures id in next.phase && AccountOk(next, id)
    {
      if id in s.rows {
        assert AccountOk(s, id);
      }
    }
  }

  predicate Run(s: State, actions: seq<Action>)
    decreases |actions|
  {
    actions != [] ==> Enabled(s, actions[0]) && Run(Next(s, actions[0]), actions[1..])
  }

  function After(s: State, actions: seq<Action>): State
    requires Run(s, actions)
    decreases |actions|
  {
    if actions == [] then s else After(Next(s, actions[0]), actions[1..])
  }

  // However handlers and polls interleave: an account with no request in flight is
  // locked if disabled, unlocked if enabled and under its cap, and in the memo only
  // when locked and over its cap.
  lemma {:induction false} EveryRunSettles(s: State, actions: seq<Action>, id: nat)
    requires Ok(s) && Run(s, actions)
    ensures
      var end := After(s, actions);
      Ok(end) &&
      (id in end.rows && end.phase[id] == Idle ==>
         var row := end.rows[id];
         && (!row.enabled ==> id in end.locked)
         && (row.enabled && (row.cap == 0 || row.used < row.cap) ==> id !in end.locked)
         && (id in end.cut ==> id in end.locked && row.cap != 0 && row.used >= row.cap))
    decreases |actions|
  {
    if actions == [] {
      assert id in s.rows ==> AccountOk(s, id);
    } else {
      NextOk(s, actions[0]);
      EveryRunSettles(Next(s, actions[0]), actions[1..], id);
    }
  }

  // ------------------------------------------------------------------------
  // A whole poll, undisturbed
  // ------------------------------------------------------------------------

  // The state after a query and the visits of `done`.
  function PolledSoFar(s: State, done: set<nat>): State {
    var capped := Capped(s.rows);
    var kept := s.cut * capped;
    State(s.rows,
          s.locked + (set id | id in done && id in s.rows && s.rows[id].Over() && id !in kept)
                   - (set id | id in done && id in s.rows && !s.rows[id].Over() && id in kept),
          kept + (set id | id in done && id in s.rows && s.rows[id].Over())
               - (set id | id in done && id in s.rows && !s.rows[id].Over()),
          s.phase,
          capped - done)
  }

  function Polled(s: State): State {
    PolledSoFar(s, Capped(s.rows))
  }

  lemma PolledStart(s: State)
    ensures PolledSoFar(s, {}) == Next(s, Query)
  {
  }

  lemma PolledStep(s: State, done: set<nat>, id: nat)
    requires s.rows.Keys == s.phase.Keys && done <= Capped(s.rows) && id in Capped(s.rows) - done
    ensures Enabled(PolledSoFar(s, done), Visit(id))
    ensures PolledSoFar(s, done + {id}) == Next(PolledSoFar(s, done), Visit(id))
  {
    var a, b := PolledSoFar(s, done + {id}), Next(PolledSoFar(s, done), Visit(id));
    assert a.locked == b.locked;
    assert a.cut == b.cut;
    assert a.visiting == b.visiting;
  }

  // After an undisturbed poll the OS lock says exactly what it should.
  lemma PollDecidesLock(s: State, id: nat)
    requires Ok(s) && id in s.rows && s.phase[id] == Idle
    ensures
      var row := s.rows[id];
      && (id in Polled(s).locked <==> !row.enabled || (row.cap != 0 && row.used >= row.cap))
      && (id in Polled(s).cut <==> row.enabled && row.cap != 0 && row.used >= row.cap)
  {
    assert AccountOk(s, id);
  }

  class SshPanel {
    var state: State

    constructor ()
      ensures Ok(state) && state == State(map[], {}, {}, map[], {})
    {
      state := State(map[], {}, {}, map[], {});
    }

    // The loop body of _enforce_ssh_quota.
    method VisitAccount(id: nat)
      requires Enabled(state, Visit(id))
      modifies this
      ensures state == Next(old(state), Visit(id))
    {
      if state.rows[id].Over() && id !in state.cut {
        state := state.(locked := state.locked + {id}, cut := state.cut + {id});
      } else if !state.rows[id].Over() && id in state.cut {
        state := state.(locked := state.locked - {id}, cut := state.cut - {id});
      }
      state := state.(visiting := state.visiting - {id});
      assert state.cut == VisitedCut(old(state), id);
    }

    // _enforce_ssh_quota with nothing else running.
    method EnforceSshQuota()
      requires Ok(state)
      modifies this
      ensures Ok(state) && state == Polled(old(state))
    {
      var capped := Capped(state.rows);
      var todo := capped;
      PolledStart(state);
      NextOk(state, Query);
      state := state.(cut := state.cut * capped, visiting := capped);
      assert capped - todo == {};
      while todo != {}
        invariant todo <= capped && capped == Capped(old(state).rows)
        invariant Ok(state) && state == PolledSoFar(old(state), capped - todo)
        decreases |todo|
      {
        hide Ok, Next, PolledSoFar;
        var id :| id in todo;
        assert old(state).rows.Keys == old(state).phase.Keys by { KeysMatch(old(state)); }
        PolledStep(old(state), capped - todo, id);
        NextOk(state, Visit(id));
        VisitAccount(id);
        assert capped - (todo - {id}) == (capped - todo) + {id};
        todo := todo - {id};
      }
      assert capped - {} == capped;
    }

    // lock_account, undisturbed.
    method Lock(id: nat)
      requires Ok(state) && id in state.rows && state.phase[id] == Idle
      modifies this
      ensures Ok(state) && state.phase == old(state).phase && state.cut == old(state).cut
      ensures state.rows == old(state).rows[id := old(state).rows[id].(enabled := false)]
      ensures state.locked == old(state).locked + {id}
    {
      NextOk(state, Begin(id, LockAccount));
      NextOk(Next(state, Begin(id, LockAccount)), Commit(id));
      state := state.(locked := state.locked + {id});
      state := state.(rows := state.rows[id := state.rows[id].(enabled := false)]);
      assert state.phase == Next(Next(old(state), Begin(id, LockAccount)), Commit(id)).phase;
    }

    // update_account, unlock_account and reset_traffic, undisturbed: the account
    // ends settled, and no other account is touched.
    method Handle(id: nat, request: Request)
      requires Ok(state) && id in state.rows && state.phase[id] == Idle && request != LockAccount
      modifies this
      ensures Ok(state) && state.phase == old(state).phase
      ensures state.rows.Keys == old(state).rows.Keys && Wrote(old(state).rows[id], state.rows[id], request)
      ensures forall other :: other in state.rows && other != id ==> state.rows[other] == old(state).rows[other]
      ensures
        var row := state.rows[id];
        && (id in state.locked <==> !row.enabled || (row.cap != 0 && row.used >= row.cap))
        && (id in state.cut <==> row.enabled && row.cap != 0 && row.used >= row.cap)
      ensures request == ResetTraffic && old(state).rows[id].enabled ==> id !in state.locked && id !in state.cut
      ensures forall other :: other != id ==>
        (other in state.locked <==> other in old(state).locked) && (other in state.cut <==> other in old(state).cut)
    {
      hide Ok, AccountOk;
      KeysMatch(state);
      NextOk(state, Begin(id, request));
      state := Next(state, Begin(id, request));
      NextOk(state, Commit(id));
      state := Next(state, Commit(id));
      var seen := state.phase[id].seen;
      NextOk(state, Reconcile(id));
      if !seen.enabled || seen.Over() {
        state := state.(locked := state.locked + {id});
        if seen.enabled && seen.Over() {
          state := state.(cut := state.cut + {id});
        } else {
          state := state.(cut := state.cut - {id});
        }
      } else {
        state := state.(locked := state.locked - {id}, cut := state.cut - {id});
      }
      state := state.(phase := state.phase[id := Idle]);
    }
  }
}
