/** What each kind of request, and a cycle, does to the stored row and to the in-flight record,
    case by case, and that a resume undoes a suspend. */
module PolicyRequests {
  import opened Wrappers
  import opened PolicyLoop

  // ----- One execution -----

  /** Nothing the execution needs first has failed. */
  predicate Ready(action: SyncAction, env: Env) {
    env.notedOk && !(action.ActionUpdate? && action.setsGasPrice)
  }

  /** An update of the gas price, and a receipt or confirmations that cannot be recorded, end the
      execution: no row changes and the record stays. */
  lemma RefusedChangesNothing(rows: map<string, Row>, p: PendingState, action: SyncAction, env: Env)
    requires !Ready(action, env)
    ensures var r := Executed(rows, p, action, env);
      && r.rows == rows && !r.ok && r.pending == p.(deleteRequested := r.pending.deleteRequested)
      && (r.pending.deleteRequested ==> p.deleteRequested || action.ActionDelete?)
  {
  }

  /** Whatever was asked for: a write that is not carried out leaves every row, and a call that
      reports failure never drops the record. */
  lemma FailedChangesNothing(rows: map<string, Row>, p: PendingState, action: SyncAction, env: Env)
    ensures env.outcome.NotApplied? ==> Executed(rows, p, action, env).rows == rows
    ensures !Executed(rows, p, action, env).ok ==> Executed(rows, p, action, env).pending.remove == p.remove
  {
  }

  /** A pending transaction is persisted as Suspended and leaves the loop. */
  lemma SuspendPersists(rows: map<string, Row>, p: PendingState, env: Env)
    requires env.notedOk && env.outcome.Applied? && !p.confirmed && p.status.Pending? && p.id in rows
    ensures Executed(rows, p, ActionSuspend, env) ==
      Result(rows[p.id := rows[p.id].(status := Suspended)], p.(status := Suspended, remove := true), true)
  {
  }

  /** A suspended one is persisted as Pending and stays where it is. */
  lemma ResumePersists(rows: map<string, Row>, p: PendingState, env: Env)
    requires env.notedOk && env.outcome.Applied? && !p.confirmed && p.status.Suspended? && p.id in rows
    ensures Executed(rows, p, ActionResume, env) ==
      Result(rows[p.id := rows[p.id].(status := Pending)], p.(status := Pending), true)
  {
  }

  /** In any other status neither does anything. */
  lemma OutOfPlaceDoesNothing(rows: map<string, Row>, p: PendingState, action: SyncAction, env: Env)
    requires env.notedOk && !p.confirmed
    requires (action.ActionSuspend? && !p.status.Pending?) || (action.ActionResume? && !p.status.Suspended?)
    ensures Executed(rows, p, action, env) == Result(rows, p, true)
  {
  }

  /** A delete takes the row away at once, confirmed or not, unless one was already asked for, in
      which case it waits for the policy interval. */
  lemma DeletePersists(rows: map<string, Row>, p: PendingState, env: Env)
    requires env.notedOk && env.outcome.Applied?
    ensures Executed(rows, p, ActionDelete, env) ==
      if p.deleteRequested && !env.due then Result(rows, p, true)
      else Result(rows - {p.id}, p.(deleteRequested := true, remove := true), true)
  {
  }

  /** A confirmed record gets its final status from the receipt, whatever else was asked for short
      of a delete. */
  lemma ConfirmedPersists(rows: map<string, Row>, p: PendingState, action: SyncAction, env: Env)
    requires Ready(action, env) && env.outcome.Applied? && p.confirmed && !action.ActionDelete? && p.id in rows
    ensures var status := if p.receipt == Some(true) then Succeeded else Failed;
      var r := Executed(rows, p, action, env);
      && r.rows == rows[p.id := rows[p.id].(status := status)] && r.ok
      && r.pending == p.(status := status, remove := p.remove || !action.ActionResume?)
  {
  }

  /** An unconfirmed record in a plain cycle or under an update: a delete asked for earlier is
      carried out when the interval has passed or the update changes something, and neither ever
      changes a status. */
  lemma CycleDeletesOrKeeps(rows: map<string, Row>, p: PendingState, action: SyncAction, env: Env)
    requires (action.ActionNone? || action.ActionUpdate?) && Ready(action, env) && env.outcome.Applied?
    requires !p.confirmed && p.id in rows
    ensures Executed(rows, p, action, env) ==
      if (env.due || (action.ActionUpdate? && action.changes)) && p.deleteRequested
      then Result(rows - {p.id}, p.(remove := true), true)
      else Result(rows, p, true)
  {
    assert rows[p.id := rows[p.id]] == rows;
  }

  // ----- The list -----

  /** A refresh keeps every record that is not done with, as often as it was there. */
  lemma {:induction false} KeepsUnremoved(ps: seq<PendingState>, p: PendingState)
    ensures multiset(Kept(ps))[p] == if p.remove then 0 else multiset(ps)[p]
  {
    if ps != [] {
      KeepsUnremoved(ps[1..], p);
      assert ps == [ps[0]] + ps[1..];
    }
  }

  /** And appends one new record, with nothing reported yet, for each row listed, in that order. */
  lemma RefreshLoads(s: System, additional: seq<string>, i: nat)
    requires Enabled(s, Refresh(additional)) && i < |additional|
    ensures var t := Step(s, Refresh(additional));
      && t == s.(inflight := t.inflight) && |t.inflight| == |Kept(s.inflight)| + |additional|
      && t.inflight[..|Kept(s.inflight)|] == Kept(s.inflight)
      && t.inflight[|Kept(s.inflight)| + i] ==
           PendingState(additional[i], s.rows[additional[i]].seqId, s.rows[additional[i]].status,
                        false, false, None, false)
  {
  }

  /** Reports reach the record of their transaction, and no other. */
  lemma ReportReachesRecord(s: System, k: nat, confirmed: bool, success: bool)
    requires Inv(s) && k < |s.inflight|
    ensures var p := s.inflight[k];
      && Step(s, Confirmations(p.id, confirmed)) == s.(inflight := s.inflight[k := p.(confirmed := confirmed)])
      && Step(s, ReceiptReceived(p.id, success)) == s.(inflight := s.inflight[k := p.(receipt := Some(success))])
  {
    assert Find(s.inflight, s.inflight[k].id) == k;
  }

  // ----- Suspend and resume, over any run -----

  /** Suspend, the refresh that drops the record, and resume. */
  function RoundTrip(id: string, env: Env): seq<Action> {
    [Request(id, ActionSuspend, env), Refresh([]), Request(id, ActionResume, env)]
  }

  /** After suspending, the list without the record. */
  lemma SuspendDrops(s: System, k: nat, env: Env)
    requires Inv(s) && k < |s.inflight| && env.notedOk && env.outcome.Applied?
    requires var p := s.inflight[k];
      !p.confirmed && p.status.Pending? && p.id in s.rows
    ensures var id := s.inflight[k].id;
      var t := Step(s, Request(id, ActionSuspend, env));
      && t.rows == s.rows[id := s.rows[id].(status := Suspended)]
      && Enabled(t, Refresh([]))
      && var u := Step(t, Refresh([]));
         && u.rows == t.rows && u.used == s.used && u.maxInFlight == s.maxInFlight
         && u.inflight == Kept(s.inflight[..k] + s.inflight[k + 1..])
         && forall i :: 0 <= i < |u.inflight| ==> u.inflight[i].id != id
  {
    var p := s.inflight[k];
    assert Find(s.inflight, p.id) == k;
    SuspendPersists(s.rows, p, env);
    var t := Step(s, Request(p.id, ActionSuspend, env));
    KeptWithout(s.inflight, k, p.(status := Suspended, remove := true));
    var rest := s.inflight[..k] + s.inflight[k + 1..];
    assert Kept(t.inflight) + Loaded(t.rows, []) == Kept(t.inflight);
    forall i | 0 <= i < |Kept(rest)| ensures Kept(rest)[i].id != p.id {
      var j := KeptComesFrom(rest, i);
      assert rest[j] == s.inflight[if j < k then j else j + 1];
    }
  }

  lemma {:induction false} KeptWithout(ps: seq<PendingState>, k: nat, p: PendingState)
    requires k < |ps| && p.remove
    ensures Kept(ps[k := p]) == Kept(ps[..k] + ps[k + 1..])
  {
    var now, less := ps[k := p], ps[..k] + ps[k + 1..];
    if k == 0 {
      assert now[1..] == ps[1..] && less == ps[1..];
    } else {
      KeptWithout(ps[1..], k - 1, p);
      assert now[1..] == ps[1..][k - 1 := p];
      assert less[1..] == ps[1..][..k - 1] + ps[1..][k..];
    }
  }

  lemma RoundTripFrom(s: System, k: nat, env: Env)
    requires Inv(s) && env.notedOk && env.outcome.Applied?
    requires k < |s.inflight| && !s.inflight[k].confirmed && s.inflight[k].status.Pending?
    requires s.inflight[k].id in s.rows && s.rows[s.inflight[k].id].status.Pending?
    ensures var actions := RoundTrip(s.inflight[k].id, env);
      && Legal(s, actions)
      && Exec(s, actions) == s.(inflight := Kept(s.inflight[..k] + s.inflight[k + 1..]))
  {
    var id := s.inflight[k].id;
    SuspendDrops(s, k, env);
    var suspend, resume := Request(id, ActionSuspend, env), Request(id, ActionResume, env);
    var u := Step(Step(s, suspend), Refresh([]));
    ResumeRestores(s, u, id, env);
    ThreeSteps(s, suspend, Refresh([]), resume);
  }

  /** A suspended row with no record in flight. */
  lemma ResumeRestores(s: System, u: System, id: string, env: Env)
    requires env.notedOk && env.outcome.Applied?
    requires id in s.rows && s.rows[id].status.Pending? && u.rows == s.rows[id := s.rows[id].(status := Suspended)]
    requires forall i :: 0 <= i < |u.inflight| ==> u.inflight[i].id != id
    ensures Step(u, Request(id, ActionResume, env)) == u.(rows := s.rows)
  {
    assert Find(u.inflight, id) == |u.inflight|;
    ResumePersists(u.rows, FreshRecord(id, u.rows[id]), env);
    assert u.rows[id := s.rows[id]] == s.rows;
  }

  lemma ThreeSteps(s: System, a: Action, b: Action, c: Action)
    requires Enabled(s, a) && Enabled(Step(s, a), b) && Enabled(Step(Step(s, a), b), c)
    ensures Legal(s, [a, b, c]) && Exec(s, [a, b, c]) == Step(Step(Step(s, a), b), c)
  {
    ExecAppend(s, [], a);
    assert [] + [a] == [a];
    ExecAppend(s, [a], b);
    assert [a] + [b] == [a, b];
    ExecAppend(s, [a, b], c);
    assert [a, b] + [c] == [a, b, c];
  }

  /** A resume undoes a suspend: in every run, suspending a pending transaction that is in flight,
      the next refresh, and resuming it leave all rows as they were, with the transaction out of
      the list until it is listed again, and every other record that is not done with in place. */
  lemma ResumeUndoesSuspend(maxInFlight: nat, before: seq<Action>, k: nat, env: Env)
    requires Legal(Started(maxInFlight), before) && env.notedOk && env.outcome.Applied?
    requires var s := Exec(Started(maxInFlight), before);
      && k < |s.inflight| && !s.inflight[k].confirmed && s.inflight[k].status.Pending?
      && s.inflight[k].id in s.rows && s.rows[s.inflight[k].id].status.Pending?
    ensures var s := Exec(Started(maxInFlight), before);
      var actions := RoundTrip(s.inflight[k].id, env);
      && Legal(s, actions)
      && Exec(s, actions) == s.(inflight := Kept(s.inflight[..k] + s.inflight[k + 1..]))
  {
    ExecKeepsInv(Started(maxInFlight), before);
    RoundTripFrom(Exec(Started(maxInFlight), before), k, env);
  }
}
