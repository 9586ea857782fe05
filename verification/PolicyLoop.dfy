/** The policy loop of the simple transaction handler: an in-memory list of in-flight
    transactions, driven by cycles and API requests, over persistence that may fail. */
module PolicyLoop {
  import opened Wrappers

  datatype Status = Pending | Suspended | Succeeded | Failed

  predicate Terminal(s: Status) {
    s.Succeeded? || s.Failed?
  }

  /** What is persisted for a transaction, as far as the loop decides on it. A delete request
      is never persisted by itself: the call that notes it goes on to delete the row. */
  datatype Row = Row(seqId: nat, status: Status)

  /** pendingState with the in-memory copy of its transaction. receipt: the outcome the last
      receipt reported. */
  datatype PendingState = PendingState(
    id: string,
    seqId: nat,
    status: Status,
    deleteRequested: bool,
    confirmed: bool,
    receipt: Option<bool>,
    remove: bool)

  datatype SyncAction =
    | ActionNone
    | ActionDelete
    | ActionSuspend
    | ActionResume
    | ActionUpdate(setsGasPrice: bool, changes: bool)

  datatype Outcome = Applied | NotApplied | AppliedButReported

  /** What the surroundings do during one execPolicy. notedOk: receipt and confirmations were
      recorded; due: the policy interval elapsed; policyUpdates: the engine changed, or failed
      on, something worth persisting; outcome: of the final persistence call. */
  datatype Env = Env(notedOk: bool, due: bool, policyUpdates: bool, outcome: Outcome)

  datatype UpdateType = NoUpdate | Update(status: Option<Status>) | Delete

  /** The persisted rows and one in-memory record after execPolicy. */
  datatype Result = Result(rows: map<string, Row>, pending: PendingState, ok: bool)

  function MarkedForDelete(p: PendingState, action: SyncAction): bool {
    action.ActionDelete? && !p.deleteRequested
  }

  /** The status switch of execPolicy: the in-memory status, what to persist, and whether
      the record is done with. */
  function Decide(p: PendingState, action: SyncAction, env: Env): (PendingState, UpdateType, bool) {
    var marked := p.(deleteRequested := p.deleteRequested || action.ActionDelete?);
    var touched := MarkedForDelete(p, action) || (action.ActionUpdate? && action.changes);
    if p.confirmed && !action.ActionDelete? then
      var status := if p.receipt == Some(true) then Succeeded else Failed;
      (marked.(status := status), Update(Some(status)), true)
    else if action.ActionSuspend? && p.status.Pending? then
      (marked.(status := Suspended), Update(Some(Suspended)), true)
    else if action.ActionResume? && p.status.Suspended? then
      (marked.(status := Pending), Update(Some(Pending)), false)
    else if action.ActionSuspend? || action.ActionResume? then (marked, NoUpdate, false)
    else if (touched || env.due) && marked.deleteRequested then (marked, Delete, false)
    else if touched || (env.due && env.policyUpdates) then (marked, Update(None), false)
    else (marked, NoUpdate, false)
  }

  function Persisted(row: Row, u: UpdateType): Row
    requires u.Update?
  {
    row.(status := if u.status.Some? then u.status.value else row.status)
  }

  function Flushed(
      rows: map<string, Row>, p: PendingState, u: UpdateType, completed: bool, action: SyncAction, outcome: Outcome)
    : Result
  {
    match u
    case NoUpdate => Result(rows, p, true)
    case Update(_) =>
      if p.id !in rows || outcome.NotApplied? then Result(rows, p, false)
      else
        var after := rows[p.id := Persisted(rows[p.id], u)];
        if outcome.AppliedButReported? then Result(after, p, false)
        else Result(after, p.(remove := p.remove || (completed && !action.ActionResume?)), true)
    case Delete =>
      if outcome.NotApplied? then Result(rows, p, false)
      else Result(rows - {p.id}, p.(remove := p.remove || outcome.Applied?), outcome.Applied?)
  }

  function Executed(rows: map<string, Row>, p: PendingState, action: SyncAction, env: Env): Result {
    if action.ActionUpdate? && action.setsGasPrice then Result(rows, p, false)
    else if !env.notedOk then Result(rows, p.(deleteRequested := p.deleteRequested || action.ActionDelete?), false)
    else
      var (q, u, completed) := Decide(p, action, env);
      Flushed(rows, q, u, completed, action, env.outcome)
  }

  // ----- The whole loop as a state machine -----

  /** used: every sequence ID handed out so far; rows may appear out of their order. */
  datatype System = System(
    rows: map<string, Row>,
    inflight: seq<PendingState>,
    maxInFlight: nat,
    used: set<nat>)

  datatype Action =
    | Insert(id: string, seqId: nat)
    | Confirmations(id: string, confirmed: bool)
    | ReceiptReceived(id: string, success: bool)
    | Request(id: string, action: SyncAction, env: Env)
    | Cycle(index: nat, env: Env)
    | Refresh(additional: seq<string>)
    | Restart

  /** The first in-flight record of a transaction. */
  function Find(ps: seq<PendingState>, id: string): (k: nat)
    ensures k <= |ps|
    ensures k < |ps| ==> ps[k].id == id
    ensures forall i :: 0 <= i < k ==> ps[i].id != id
  {
    if ps == [] || ps[0].id == id then 0 else 1 + Find(ps[1..], id)
  }

  function Kept(ps: seq<PendingState>): seq<PendingState> {
    if ps == [] then [] else if ps[0].remove then Kept(ps[1..]) else [ps[0]] + Kept(ps[1..])
  }

  function FreshRecord(id: string, row: Row): PendingState {
    PendingState(id, row.seqId, row.status, false, false, None, false)
  }

  function Loaded(rows: map<string, Row>, ids: seq<string>): seq<PendingState>
    requires forall i :: 0 <= i < |ids| ==> ids[i] in rows
  {
    seq(|ids|, i requires 0 <= i < |ids| => FreshRecord(ids[i], rows[ids[i]]))
  }

  lemma LoadedAppend(rows: map<string, Row>, ids: seq<string>, id: string)
    requires (forall i :: 0 <= i < |ids| ==> ids[i] in rows) && id in rows
    ensures Loaded(rows, ids + [id]) == Loaded(rows, ids) + [FreshRecord(id, rows[id])]
  {
  }

  /** What ListTransactionsPending may answer: Pending rows after a sequence ID, in order, as
      many as there is room for. */
  predicate Listed(rows: map<string, Row>, after: Option<nat>, spaces: nat, ids: seq<string>) {
    && |ids| <= spaces
    && (forall i :: 0 <= i < |ids| ==> ids[i] in rows && rows[ids[i]].status.Pending?)
    && (forall i :: 0 <= i < |ids| ==> after.Some? ==> after.value < rows[ids[i]].seqId)
    && (forall i, j :: 0 <= i < j < |ids| ==> rows[ids[i]].seqId < rows[ids[j]].seqId)
  }

  function Tail(ps: seq<PendingState>): Option<nat> {
    if ps == [] then None else Some(ps[|ps| - 1].seqId)
  }

  /** The one case in which an ID must not be used again: its deleted predecessor's record is
      still being worked on, and the new row could be listed beside it; see
      ReopensExactlyWhenRisky. */
  predicate Risky(s: System, id: string, seqId: nat) {
    && s.maxInFlight >= 2
    && exists i :: 0 <= i < |s.inflight|
         && s.inflight[i].id == id && !s.inflight[i].remove && s.inflight[i].seqId < seqId
  }

  predicate Enabled(s: System, a: Action) {
    match a
    case Insert(id, seqId) => id !in s.rows && seqId !in s.used && !Risky(s, id, seqId)
    case Cycle(index, _) => index < |s.inflight|
    case Refresh(additional) =>
      var kept := Kept(s.inflight);
      Listed(s.rows, Tail(kept), if |kept| < s.maxInFlight then s.maxInFlight - |kept| else 0, additional)
    case _ => true
  }

  function Inserted(s: System, id: string, seqId: nat): System {
    s.(rows := s.rows[id := Row(seqId, Pending)], used := s.used + {seqId})
  }

  function WithResult(s: System, index: nat, r: Result): System
    requires index < |s.inflight|
  {
    s.(rows := r.rows, inflight := s.inflight[index := r.pending])
  }

  function Step(s: System, a: Action): System
    requires Enabled(s, a)
  {
    match a
    case Insert(id, seqId) => Inserted(s, id, seqId)
    case Confirmations(id, confirmed) =>
      var k := Find(s.inflight, id);
      if k == |s.inflight| then s else s.(inflight := s.inflight[k := s.inflight[k].(confirmed := confirmed)])
    case ReceiptReceived(id, success) =>
      var k := Find(s.inflight, id);
      if k == |s.inflight| then s else s.(inflight := s.inflight[k := s.inflight[k].(receipt := Some(success))])
    case Request(id, action, env) =>
      var k := Find(s.inflight, id);
      if k < |s.inflight| then WithResult(s, k, Executed(s.rows, s.inflight[k], action, env))
      else if id !in s.rows then s
      else s.(rows := Executed(s.rows, FreshRecord(id, s.rows[id]), action, env).rows)
    case Cycle(index, env) => WithResult(s, index, Executed(s.rows, s.inflight[index], ActionNone, env))
    case Refresh(additional) => s.(inflight := Kept(s.inflight) + Loaded(s.rows, additional))
    case Restart => s.(inflight := [])
  }

  predicate Legal(s: System, actions: seq<Action>)
    decreases |actions|
  {
    actions == [] || (Enabled(s, actions[0]) && Legal(Step(s, actions[0]), actions[1..]))
  }

  function Exec(s: System, actions: seq<Action>): System
    requires Legal(s, actions)
    decreases |actions|
  {
    if actions == [] then s else Exec(Step(s, actions[0]), actions[1..])
  }

  lemma {:induction false} ExecAppend(s: System, actions: seq<Action>, a: Action)
    requires Legal(s, actions) && Enabled(Exec(s, actions), a)
    ensures Legal(s, actions + [a]) && Exec(s, actions + [a]) == Step(Exec(s, actions), a)
    decreases |actions|
  {
    if actions == [] {
      assert ([] + [a])[1..] == [];
    } else {
      ExecAppend(Step(s, actions[0]), actions[1..], a);
      assert (actions + [a])[1..] == actions[1..] + [a];
    }
  }

  // ----- The handler object -----

  /** An API request and what happens around its execution. */
  datatype PolicyEngineAPIRequest = PolicyEngineAPIRequest(txID: string, requestType: SyncAction, env: Env)

  function AsActions(requests: seq<PolicyEngineAPIRequest>): seq<Action> {
    seq(|requests|, i requires 0 <= i < |requests| =>
      Request(requests[i].txID, requests[i].requestType, requests[i].env))
  }

  function Cycles(envs: seq<Env>): seq<Action> {
    seq(|envs|, i requires 0 <= i < |envs| => Cycle(i, envs[i]))
  }

  class SimpleTransactionHandler {
    var rows: map<string, Row>
    var inflight: seq<PendingState>
    const maxInFlight: nat

    constructor (rows: map<string, Row>, maxInFlight: nat)
      ensures this.rows == rows && inflight == [] && this.maxInFlight == maxInFlight
    {
      this.rows, inflight, this.maxInFlight := rows, [], maxInFlight;
    }

    ghost function View(used: set<nat>): System
      reads this
    {
      System(rows, inflight, maxInFlight, used)
    }

    method FindInflight(id: string) returns (k: nat)
      ensures k == Find(inflight, id)
    {
      k := 0;
      while k < |inflight| && inflight[k].id != id
        invariant k <= |inflight| && forall i :: 0 <= i < k ==> inflight[i].id != id
      {
        k := k + 1;
      }
    }

    /** pendingToRunContext, the status switch and flushChanges, for one record. */
    method ExecPolicy(pending: PendingState, action: SyncAction, env: Env) returns (after: PendingState, ok: bool)
      modifies this`rows
      ensures Result(rows, after, ok) == Executed(old(rows), pending, action, env)
    {
      after := pending;
      if action.ActionUpdate? && action.setsGasPrice {
        return after, false;
      }
      var updateType := NoUpdate;
      var processTx := false;
      if action.ActionUpdate? && action.changes {
        updateType, processTx := Update(None), true;
      }
      if action.ActionDelete? && !after.deleteRequested {
        after := after.(deleteRequested := true);
        updateType, processTx := Update(None), true;
      }
      if !env.notedOk {
        return after, false;
      }
      var completed := false;
      if after.confirmed && !action.ActionDelete? {
        completed := true;
        after := after.(status := if after.receipt == Some(true) then Succeeded else Failed);
        updateType := Update(Some(after.status));
      } else if action.ActionSuspend? {
        if after.status.Pending? {
          completed := true;
          after := after.(status := Suspended);
          updateType := Update(Some(Suspended));
        }
      } else if action.ActionResume? {
        if after.status.Suspended? {
          after := after.(status := Pending);
          updateType := Update(Some(Pending));
        }
      } else if processTx || env.due {
        if after.deleteRequested {
          updateType := Delete;
        } else if env.policyUpdates {
          updateType := Update(None);
        }
      }
      after, ok := FlushChanges(after, updateType, completed, action, env.outcome);
    }

    method FlushChanges(
        pending: PendingState, updateType: UpdateType, completed: bool, action: SyncAction, outcome: Outcome)
      returns (after: PendingState, ok: bool)
      modifies this`rows
      ensures Result(rows, after, ok) == Flushed(old(rows), pending, updateType, completed, action, outcome)
    {
      after, ok := pending, true;
      match updateType {
        case NoUpdate =>
        case Update(status) =>
          if pending.id in rows && !outcome.NotApplied? {
            rows := rows[pending.id := Persisted(rows[pending.id], updateType)];
          }
          ok := pending.id in rows && outcome.Applied?;
          if ok && !action.ActionResume? && completed {
            after := after.(remove := true);
          }
        case Delete =>
          if !outcome.NotApplied? {
            rows := rows - {pending.id};
          }
          ok := outcome.Applied?;
          if ok {
            after := after.(remove := true);
          }
      }
    }

    method DropRemoved()
      modifies this`inflight
      ensures inflight == Kept(old(inflight))
    {
      var oldInflight := inflight;
      inflight := [];
      for i := 0 to |oldInflight|
        invariant Kept(oldInflight) == inflight + Kept(oldInflight[i..])
      {
        assert oldInflight[i..][1..] == oldInflight[i + 1..];
        if !oldInflight[i].remove {
          assert inflight + ([oldInflight[i]] + Kept(oldInflight[i + 1..])) ==
            (inflight + [oldInflight[i]]) + Kept(oldInflight[i + 1..]);
          inflight := inflight + [oldInflight[i]];
        }
      }
    }

    /** Drops what is done with and fills the spaces from persistence. */
    method UpdateInflightSet(additional: seq<string>, ghost used: set<nat>)
      requires Enabled(View(used), Refresh(additional))
      modifies this`inflight
      ensures View(used) == Step(old(View(used)), Refresh(additional))
    {
      DropRemoved();
      ghost var kept := inflight;
      for i := 0 to |additional|
        invariant inflight == kept + Loaded(rows, additional[..i])
      {
        LoadedAppend(rows, additional[..i], additional[i]);
        assert additional[..i] + [additional[i]] == additional[..i + 1];
        inflight := inflight + [FreshRecord(additional[i], rows[additional[i]])];
      }
      assert additional[..|additional|] == additional;
    }

    /** Requests act on the in-flight record where there is one, else on a fresh read. */
    method ProcessPolicyAPIRequests(requests: seq<PolicyEngineAPIRequest>, ghost used: set<nat>)
      modifies this
      ensures Legal(old(View(used)), AsActions(requests))
      ensures View(used) == Exec(old(View(used)), AsActions(requests))
    {
      for n := 0 to |requests|
        invariant Legal(old(View(used)), AsActions(requests[..n]))
        invariant View(used) == Exec(old(View(used)), AsActions(requests[..n]))
      {
        var r := requests[n];
        ghost var before := View(used);
        var k := FindInflight(r.txID);
        if k < |inflight| {
          var after, _ := ExecPolicy(inflight[k], r.requestType, r.env);
          inflight := inflight[k := after];
        } else if r.txID in rows {
          var _, _ := ExecPolicy(FreshRecord(r.txID, rows[r.txID]), r.requestType, r.env);
        }
        assert View(used) == Step(before, Request(r.txID, r.requestType, r.env));
        ExecAppend(old(View(used)), AsActions(requests[..n]), Request(r.txID, r.requestType, r.env));
        assert AsActions(requests[..n + 1]) ==
          AsActions(requests[..n]) + [Request(r.txID, r.requestType, r.env)];
      }
      assert requests[..|requests|] == requests;
    }

    /** The policy is executed against every in-flight record in turn. */
    method ExecAll(envs: seq<Env>, ghost used: set<nat>)
      requires |envs| == |inflight|
      modifies this
      ensures Legal(old(View(used)), Cycles(envs))
      ensures View(used) == Exec(old(View(used)), Cycles(envs))
    {
      for n := 0 to |inflight|
        invariant |inflight| == |envs|
        invariant Legal(old(View(used)), Cycles(envs[..n]))
        invariant View(used) == Exec(old(View(used)), Cycles(envs[..n]))
      {
        ghost var before := View(used);
        var after, _ := ExecPolicy(inflight[n], ActionNone, envs[n]);
        inflight := inflight[n := after];
        assert View(used) == Step(before, Cycle(n, envs[n]));
        ExecAppend(old(View(used)), Cycles(envs[..n]), Cycle(n, envs[n]));
        assert Cycles(envs[..n + 1]) == Cycles(envs[..n]) + [Cycle(n, envs[n])];
      }
      assert envs[..|envs|] == envs;
    }
  }

  // ----- The invariant -----

  ghost predicate Ascending(ps: seq<PendingState>) {
    forall i, j :: 0 <= i < j < |ps| ==> ps[i].seqId < ps[j].seqId
  }

  ghost predicate OneEach(ps: seq<PendingState>) {
    forall i, j :: 0 <= i < j < |ps| ==> ps[i].id != ps[j].id
  }

  /** The in-memory record knows when the stored row is finished. */
  predicate Knows(rows: map<string, Row>, p: PendingState) {
    p.id in rows && Terminal(rows[p.id].status) ==> Terminal(p.status)
  }

  /** The record's ID has no row that could be listed beside the record. */
  predicate Alone(rows: map<string, Row>, maxInFlight: nat, p: PendingState) {
    p.id in rows && maxInFlight >= 2 && !p.remove ==> rows[p.id].seqId <= p.seqId
  }

  ghost predicate AllKnow(s: System) {
    forall i :: 0 <= i < |s.inflight| ==> Knows(s.rows, s.inflight[i]) && Alone(s.rows, s.maxInFlight, s.inflight[i])
  }

  ghost predicate Inv(s: System) {
    && Ascending(s.inflight) && OneEach(s.inflight) && |s.inflight| <= s.maxInFlight
    && AllKnow(s)
    && forall id :: id in s.rows ==> s.rows[id].seqId in s.used
  }

  predicate SameRecord(p: PendingState, q: PendingState) {
    q.id == p.id && q.seqId == p.seqId && (p.remove ==> q.remove)
  }

  /** A finished record is never reopened, and what is to be persisted is what it now says. */
  lemma DecideKeepsFinished(p: PendingState, action: SyncAction, env: Env)
    ensures var (q, u, _) := Decide(p, action, env);
      && SameRecord(p, q)
      && (Terminal(p.status) ==> Terminal(q.status))
      && (u.Update? && u.status.Some? ==> u.status.value == q.status)
  {
  }

  /** One row at most is touched; a finished one is never taken back. */
  ghost predicate SafeChange(rows: map<string, Row>, id: string, after: map<string, Row>) {
    && after - {id} == rows - {id}
    && (id in after ==> id in rows && after[id].seqId == rows[id].seqId)
    && (id in after && Terminal(rows[id].status) ==> Terminal(after[id].status))
  }

  lemma FlushedIsSafe(
      rows: map<string, Row>, q: PendingState, u: UpdateType, completed: bool, action: SyncAction, outcome: Outcome)
    requires Knows(rows, q) && (u.Update? && u.status.Some? ==> u.status.value == q.status)
    ensures var r := Flushed(rows, q, u, completed, action, outcome);
      Knows(r.rows, r.pending) && SameRecord(q, r.pending) && SafeChange(rows, q.id, r.rows)
  {
    var r := Flushed(rows, q, u, completed, action, outcome);
    assert r.rows - {q.id} == rows - {q.id};
  }

  /** Whatever fails, the in-memory record goes on knowing when its row is finished. */
  lemma ExecutedIsSafe(rows: map<string, Row>, p: PendingState, action: SyncAction, env: Env)
    requires Knows(rows, p)
    ensures var r := Executed(rows, p, action, env);
      Knows(r.rows, r.pending) && SameRecord(p, r.pending) && SafeChange(rows, p.id, r.rows)
  {
    DecideKeepsFinished(p, action, env);
    var (q, u, completed) := Decide(p, action, env);
    FlushedIsSafe(rows, q, u, completed, action, env.outcome);
  }

  lemma {:induction false} KeptComesFrom(ps: seq<PendingState>, j: nat) returns (k: nat)
    requires j < |Kept(ps)|
    ensures j <= k < |ps| && ps[k] == Kept(ps)[j] && !ps[k].remove
  {
    if ps[0].remove {
      k := KeptComesFrom(ps[1..], j);
      k := k + 1;
    } else if j == 0 {
      k := 0;
    } else {
      k := KeptComesFrom(ps[1..], j - 1);
      k := k + 1;
    }
  }

  /** Dropping the removed records keeps the order of the rest. */
  lemma {:induction false} KeptInOrder(ps: seq<PendingState>)
    requires Ascending(ps) && OneEach(ps)
    ensures |Kept(ps)| <= |ps| && Ascending(Kept(ps)) && OneEach(Kept(ps))
  {
    if ps != [] {
      KeptInOrder(ps[1..]);
      forall j | 0 <= j < |Kept(ps[1..])|
        ensures ps[0].seqId < Kept(ps[1..])[j].seqId && ps[0].id != Kept(ps[1..])[j].id
      {
        var k := KeptComesFrom(ps[1..], j);
        assert ps[k + 1] == ps[1..][k];
      }
    }
  }

  lemma ExecutedKeepsOthers(s: System, index: nat, r: Result)
    requires Inv(s) && index < |s.inflight|
    requires var p := s.inflight[index];
      && SameRecord(p, r.pending) && Knows(r.rows, r.pending)
      && SafeChange(s.rows, p.id, r.rows)
    ensures Inv(WithResult(s, index, r))
  {
    var p := s.inflight[index];
    OthersAlike(s.rows, r.rows, p.id);
  }

  lemma OthersAlike(a: map<string, Row>, b: map<string, Row>, id: string)
    requires a - {id} == b - {id}
    ensures forall k :: k != id ==> (k in a <==> k in b) && (k in a ==> a[k] == b[k])
  {
    forall k | k != id ensures (k in a <==> k in b) && (k in a ==> a[k] == b[k]) {
      assert k in a <==> k in a - {id};
      assert k in b <==> k in b - {id};
      if k in a { assert (a - {id})[k] == (b - {id})[k]; }
    }
  }

  lemma RefreshKeepsInv(s: System, additional: seq<string>)
    requires Inv(s) && Enabled(s, Refresh(additional))
    ensures Inv(Step(s, Refresh(additional)))
  {
    KeptInOrder(s.inflight);
    var kept := Kept(s.inflight);
    var more := Loaded(s.rows, additional);
    forall i | 0 <= i < |kept|
      ensures Knows(s.rows, kept[i]) && Alone(s.rows, s.maxInFlight, kept[i]) && !kept[i].remove
      ensures kept[i] == kept[|kept| - 1] || kept[i].seqId < Tail(kept).value
    {
      var k := KeptComesFrom(s.inflight, i);
    }
    forall i, j | 0 <= i < |kept| && 0 <= j < |more|
      ensures kept[i].seqId < more[j].seqId && kept[i].id != more[j].id
    {
      assert Alone(s.rows, s.maxInFlight, kept[i]) && more[j] == FreshRecord(additional[j], s.rows[additional[j]]);
    }
    forall i, j | 0 <= i < j < |more| ensures more[i].seqId < more[j].seqId && more[i].id != more[j].id {
      assert s.rows[additional[i]].seqId < s.rows[additional[j]].seqId;
    }
  }

  lemma RequestKeepsInv(s: System, a: Action)
    requires Inv(s) && a.Request?
    ensures Inv(Step(s, a))
    ensures SafeChange(s.rows, a.id, Step(s, a).rows)
  {
    var k := Find(s.inflight, a.id);
    if k < |s.inflight| {
      ExecutedIsSafe(s.rows, s.inflight[k], a.action, a.env);
      ExecutedKeepsOthers(s, k, Executed(s.rows, s.inflight[k], a.action, a.env));
    } else if a.id in s.rows {
      var p := FreshRecord(a.id, s.rows[a.id]);
      ExecutedIsSafe(s.rows, p, a.action, a.env);
      OthersAlike(s.rows, Step(s, a).rows, a.id);
    }
  }

  lemma CycleKeepsInv(s: System, a: Action)
    requires Inv(s) && a.Cycle? && Enabled(s, a)
    ensures Inv(Step(s, a))
  {
    ExecutedIsSafe(s.rows, s.inflight[a.index], ActionNone, a.env);
    ExecutedKeepsOthers(s, a.index, Executed(s.rows, s.inflight[a.index], ActionNone, a.env));
  }

  lemma StepKeepsInv(s: System, a: Action)
    requires Inv(s) && Enabled(s, a)
    ensures Inv(Step(s, a))
  {
    match a
    case Request(_, _, _) => RequestKeepsInv(s, a);
    case Cycle(_, _) => CycleKeepsInv(s, a);
    case Refresh(additional) => RefreshKeepsInv(s, additional);
    case Insert(id, seqId) => InsertKeepsInv(s, id, seqId);
    case Confirmations(id, confirmed) =>
      var k := Find(s.inflight, id);
      if k < |s.inflight| { ToldKeepsInv(s, k, s.inflight[k].(confirmed := confirmed)); }
    case ReceiptReceived(id, success) =>
      var k := Find(s.inflight, id);
      if k < |s.inflight| { ToldKeepsInv(s, k, s.inflight[k].(receipt := Some(success))); }
    case Restart =>
  }

  /** A record that is told something is otherwise as it was. */
  lemma ToldKeepsInv(s: System, k: nat, p: PendingState)
    requires Inv(s) && k < |s.inflight|
    requires SameRecord(s.inflight[k], p) && p.remove == s.inflight[k].remove && p.status == s.inflight[k].status
    ensures Inv(s.(inflight := s.inflight[k := p]))
  {
    var t := s.(inflight := s.inflight[k := p]);
    forall i | 0 <= i < |t.inflight|
      ensures Knows(t.rows, t.inflight[i]) && Alone(t.rows, t.maxInFlight, t.inflight[i])
    {
      assert Knows(s.rows, s.inflight[i]) && Alone(s.rows, s.maxInFlight, s.inflight[i]);
    }
  }

  lemma InsertKeepsInv(s: System, id: string, seqId: nat)
    requires Inv(s) && Enabled(s, Insert(id, seqId))
    ensures Inv(Inserted(s, id, seqId))
  {
  }

  lemma {:induction false} ExecKeepsInv(s: System, actions: seq<Action>)
    requires Inv(s) && Legal(s, actions)
    ensures Inv(Exec(s, actions)) && Exec(s, actions).maxInFlight == s.maxInFlight
    decreases |actions|
  {
    if actions != [] {
      StepKeepsInv(s, actions[0]);
      ExecKeepsInv(Step(s, actions[0]), actions[1..]);
    }
  }

  // ----- Main results -----

  function Started(maxInFlight: nat): System {
    System(map[], [], maxInFlight, {})
  }

  /** In every run the in-flight list is strictly ascending by sequence ID, within bounds, and
      holds one record per transaction. */
  lemma InflightInOrder(maxInFlight: nat, actions: seq<Action>)
    requires Legal(Started(maxInFlight), actions)
    ensures var s := Exec(Started(maxInFlight), actions);
      && |s.inflight| <= maxInFlight
      && (forall i, j :: 0 <= i < j < |s.inflight| ==>
            s.inflight[i].seqId < s.inflight[j].seqId && s.inflight[i].id != s.inflight[j].id)
  {
    ExecKeepsInv(Started(maxInFlight), actions);
  }

  /** The row of one transaction, if it is still stored, is finished. */
  predicate FinishedIfStored(s: System, id: string, seqId: nat) {
    seqId in s.used && (id in s.rows && s.rows[id].seqId == seqId ==> Terminal(s.rows[id].status))
  }

  lemma StepKeepsFinished(s: System, a: Action, id: string, seqId: nat)
    requires Inv(s) && Enabled(s, a) && FinishedIfStored(s, id, seqId)
    ensures FinishedIfStored(Step(s, a), id, seqId)
  {
    match a
    case Request(_, _, _) =>
      RequestKeepsInv(s, a);
      OthersAlike(s.rows, Step(s, a).rows, a.id);
    case Cycle(index, env) =>
      ExecutedIsSafe(s.rows, s.inflight[index], ActionNone, env);
      OthersAlike(s.rows, Step(s, a).rows, s.inflight[index].id);
    case _ =>
  }

  lemma {:induction false} RunKeepsFinished(s: System, actions: seq<Action>, id: string, seqId: nat)
    requires Inv(s) && Legal(s, actions) && FinishedIfStored(s, id, seqId)
    ensures FinishedIfStored(Exec(s, actions), id, seqId)
    decreases |actions|
  {
    if actions != [] {
      StepKeepsInv(s, actions[0]);
      StepKeepsFinished(s, actions[0], id, seqId);
      RunKeepsFinished(Step(s, actions[0]), actions[1..], id, seqId);
    }
  }

  /** Once a transaction is persisted as Succeeded or Failed it never goes back to Pending or
      Suspended, however many cycles, requests, failing persistence calls and restarts
      follow. */
  lemma FinishedStaysFinished(maxInFlight: nat, before: seq<Action>, after: seq<Action>, id: string)
    requires Legal(Started(maxInFlight), before)
    requires var s := Exec(Started(maxInFlight), before);
      Legal(s, after) && id in s.rows && Terminal(s.rows[id].status)
    ensures var s := Exec(Started(maxInFlight), before);
      var t := Exec(s, after);
      id in t.rows && t.rows[id].seqId == s.rows[id].seqId ==> Terminal(t.rows[id].status)
  {
    ExecKeepsInv(Started(maxInFlight), before);
    var s := Exec(Started(maxInFlight), before);
    RunKeepsFinished(s, after, id, s.rows[id].seqId);
  }

  // ----- Why a transaction is finished -----

  /** What must have been reported about a transaction before it can have a status; receipts:
      whether success is to be accounted for too. */
  predicate Justified(past: seq<Action>, id: string, status: Status, receipts: bool) {
    && (Terminal(status) ==> Confirmations(id, true) in past)
    && (receipts && status.Succeeded? ==> ReceiptReceived(id, true) in past)
  }

  /** A record of this ID, removed or not, has been told that it is confirmed. */
  predicate HeldConfirmed(s: System, id: string) {
    exists i :: 0 <= i < |s.inflight| && s.inflight[i].id == id && s.inflight[i].confirmed
  }

  predicate HeldSuccess(s: System, id: string) {
    exists i :: 0 <= i < |s.inflight| && s.inflight[i].id == id && s.inflight[i].receipt == Some(true)
  }

  /** Since the insert of (id, seqId): what its records were told, and what its row says. */
  ghost predicate Reported(past: seq<Action>, s: System, id: string, seqId: nat, receipts: bool) {
    && (forall i :: 0 <= i < |s.inflight| && s.inflight[i].id == id ==> RecordReported(past, s.inflight[i], receipts))
    && seqId in s.used
    && (id in s.rows && s.rows[id].seqId == seqId ==> Justified(past, id, s.rows[id].status, receipts))
  }

  predicate RecordReported(past: seq<Action>, p: PendingState, receipts: bool) {
    && (p.confirmed ==> Confirmations(p.id, true) in past)
    && (receipts && p.receipt == Some(true) ==> ReceiptReceived(p.id, true) in past)
  }

  lemma ExecutedIsReported(
      past: seq<Action>, rows: map<string, Row>, p: PendingState, action: SyncAction, env: Env, seqId: nat,
      receipts: bool)
    requires RecordReported(past, p, receipts)
    requires p.id in rows && rows[p.id].seqId == seqId ==> Justified(past, p.id, rows[p.id].status, receipts)
    ensures var r := Executed(rows, p, action, env);
      && RecordReported(past, r.pending, receipts) && r.pending.id == p.id
      && r.rows - {p.id} == rows - {p.id}
      && (p.id in r.rows && r.rows[p.id].seqId == seqId ==> Justified(past, p.id, r.rows[p.id].status, receipts))
  {
    var (q, u, completed) := Decide(p, action, env);
    DecideIsReported(past, p, action, env, receipts);
    FlushedIsReported(past, rows, q, u, completed, action, env.outcome, seqId, receipts);
  }

  lemma FlushedIsReported(
      past: seq<Action>, rows: map<string, Row>, q: PendingState, u: UpdateType, completed: bool, action: SyncAction,
      outcome: Outcome, seqId: nat, receipts: bool)
    requires q.id in rows && rows[q.id].seqId == seqId ==> Justified(past, q.id, rows[q.id].status, receipts)
    requires u.Update? && u.status.Some? ==> Justified(past, q.id, u.status.value, receipts)
    ensures var r := Flushed(rows, q, u, completed, action, outcome);
      && r.pending.(remove := q.remove) == q && r.rows - {q.id} == rows - {q.id}
      && (q.id in r.rows && r.rows[q.id].seqId == seqId ==> Justified(past, q.id, r.rows[q.id].status, receipts))
  {
    FlushedOwnRow(rows, q, u, completed, action, outcome);
  }

  /** The switch changes nothing a record was told, and finishes it only for a reason. */
  lemma DecideIsReported(past: seq<Action>, p: PendingState, action: SyncAction, env: Env, receipts: bool)
    ensures var (q, u, _) := Decide(p, action, env);
      && q.confirmed == p.confirmed && q.receipt == p.receipt && q.id == p.id
      && (RecordReported(past, p, receipts) && u.Update? && u.status.Some? ==>
            Justified(past, p.id, u.status.value, receipts))
  {
  }

  lemma StepKeepsReported(past: seq<Action>, s: System, a: Action, id: string, seqId: nat, receipts: bool)
    requires Reported(past, s, id, seqId, receipts) && Enabled(s, a)
    ensures Reported(past + [a], Step(s, a), id, seqId, receipts)
  {
    var now, t := past + [a], Step(s, a);
    assert a in now && forall b :: b in past ==> b in now;
    match a
    case Request(x, action, env) =>
      ReportedLater(past, now, s, id, seqId, receipts);
      RequestKeepsReported(now, s, a, id, seqId, receipts);
    case Cycle(index, env) => ExecutionKeepsReported(now, s, index, ActionNone, env, id, seqId, receipts);
    case Refresh(additional) =>
      forall i | 0 <= i < |t.inflight| && t.inflight[i].id == id ensures RecordReported(now, t.inflight[i], receipts) {
        if i < |Kept(s.inflight)| { var k := KeptComesFrom(s.inflight, i); }
      }
    case _ =>
  }

  lemma ReportedLater(past: seq<Action>, now: seq<Action>, s: System, id: string, seqId: nat, receipts: bool)
    requires Reported(past, s, id, seqId, receipts) && forall b :: b in past ==> b in now
    ensures Reported(now, s, id, seqId, receipts)
  {
  }

  lemma RequestKeepsReported(past: seq<Action>, s: System, a: Action, id: string, seqId: nat, receipts: bool)
    requires Reported(past, s, id, seqId, receipts) && a.Request?
    ensures Reported(past, Step(s, a), id, seqId, receipts)
  {
    var k := Find(s.inflight, a.id);
    if k < |s.inflight| {
      ExecutionKeepsReported(past, s, k, a.action, a.env, id, seqId, receipts);
    } else if a.id in s.rows {
      var p := FreshRecord(a.id, s.rows[a.id]);
      if a.id == id { ExecutedIsReported(past, s.rows, p, a.action, a.env, seqId, receipts); }
      OnlyOwnRow(s.rows, p, a.action, a.env);
      OthersAlike(s.rows, Step(s, a).rows, a.id);
    }
  }

  lemma OnlyOwnRow(rows: map<string, Row>, p: PendingState, action: SyncAction, env: Env)
    ensures Executed(rows, p, action, env).rows - {p.id} == rows - {p.id}
    ensures Executed(rows, p, action, env).pending.id == p.id
  {
    var (q, u, completed) := Decide(p, action, env);
    DecideIsReported([], p, action, env, false);
    FlushedOwnRow(rows, q, u, completed, action, env.outcome);
  }

  lemma FlushedOwnRow(
      rows: map<string, Row>, q: PendingState, u: UpdateType, completed: bool, action: SyncAction, outcome: Outcome)
    ensures var r := Flushed(rows, q, u, completed, action, outcome);
      r.pending.(remove := q.remove) == q && r.rows - {q.id} == rows - {q.id}
  {
  }

  lemma ExecutionKeepsReported(
      past: seq<Action>, s: System, index: nat, action: SyncAction, env: Env, id: string, seqId: nat,
      receipts: bool)
    requires Reported(past, s, id, seqId, receipts) && index < |s.inflight|
    ensures Reported(past, WithResult(s, index, Executed(s.rows, s.inflight[index], action, env)), id, seqId, receipts)
  {
    var p := s.inflight[index];
    if p.id == id { ExecutedIsReported(past, s.rows, p, action, env, seqId, receipts); }
    OnlyOwnRow(s.rows, p, action, env);
    OthersAlike(s.rows, Executed(s.rows, p, action, env).rows, p.id);
  }

  lemma {:induction false} RunKeepsReported(
      past: seq<Action>, s: System, actions: seq<Action>, id: string, seqId: nat, receipts: bool)
    requires Reported(past, s, id, seqId, receipts) && Legal(s, actions)
    ensures Reported(past + actions, Exec(s, actions), id, seqId, receipts)
    decreases |actions|
  {
    if actions == [] {
      assert past + actions == past;
    } else {
      StepKeepsReported(past, s, actions[0], id, seqId, receipts);
      RunKeepsReported(past + [actions[0]], Step(s, actions[0]), actions[1..], id, seqId, receipts);
      assert past + actions == (past + [actions[0]]) + actions[1..];
    }
  }

  /** A transaction inserted while no record of its ID has been told that it is confirmed is
      persisted as finished only after its confirmations were reported complete, and, while
      none holds a successful receipt either, as Succeeded only after a receipt that reported
      success: both since its own insert. */
  lemma FinishedForAReason(s: System, id: string, seqId: nat, after: seq<Action>)
    requires Enabled(s, Insert(id, seqId)) && !HeldConfirmed(s, id) && Legal(Step(s, Insert(id, seqId)), after)
    ensures var t := Exec(Step(s, Insert(id, seqId)), after);
      id in t.rows && t.rows[id].seqId == seqId ==>
        && (Terminal(t.rows[id].status) ==> Confirmations(id, true) in after)
        && (!HeldSuccess(s, id) && t.rows[id].status.Succeeded? ==> ReceiptReceived(id, true) in after)
  {
    RunKeepsReported([], Step(s, Insert(id, seqId)), after, id, seqId, !HeldSuccess(s, id));
    assert [] + after == after;
  }

  ghost predicate FinishesUnreported(s: System, id: string, seqId: nat) {
    exists after :: Legal(s, after) && Confirmations(id, true) !in after && Finished(Exec(s, after), id, seqId)
  }

  predicate Finished(s: System, id: string, seqId: nat) {
    id in s.rows && s.rows[id].seqId == seqId && Terminal(s.rows[id].status)
  }

  /** The condition is exact: an insert can be finished without any report of its own if and
      only if a record of its deleted predecessor that was told of confirmations is still in
      the list, removed or not. */
  lemma FinishesUnreportedExactlyWhenHeld(s: System, id: string, seqId: nat)
    requires Enabled(s, Insert(id, seqId))
    ensures FinishesUnreported(Step(s, Insert(id, seqId)), id, seqId) <==> HeldConfirmed(s, id)
  {
    var t := Step(s, Insert(id, seqId));
    if HeldConfirmed(s, id) {
      var i :| 0 <= i < |s.inflight| && s.inflight[i].id == id && s.inflight[i].confirmed;
      var after := [Cycle(i, CALM)];
      ExecAppend(t, [], Cycle(i, CALM));
      assert [] + after == after;
      assert Finished(Exec(t, after), id, seqId);
    } else if FinishesUnreported(t, id, seqId) {
      var after :| Legal(t, after) && Confirmations(id, true) !in after && Finished(Exec(t, after), id, seqId);
      FinishedForAReason(s, id, seqId, after);
    }
  }

  /** A confirmed record whose update is persisted ends up finished the way its receipt says,
      and leaves the list at the next refresh. */
  lemma ConfirmedIsFinished(s: System, index: nat, env: Env, additional: seq<string>)
    requires Inv(s) && index < |s.inflight| && s.inflight[index].confirmed && s.inflight[index].id in s.rows
    requires env.notedOk && env.outcome.Applied?
    requires Enabled(Step(s, Cycle(index, env)), Refresh(additional))
    ensures var id := s.inflight[index].id;
      var t := Step(s, Cycle(index, env));
      && id in t.rows
      && (t.rows[id].status.Succeeded? <==> s.inflight[index].receipt == Some(true))
      && (t.rows[id].status.Failed? <==> s.inflight[index].receipt != Some(true))
      && Find(Step(t, Refresh(additional)).inflight, id) == |Step(t, Refresh(additional)).inflight|
  {
    var id := s.inflight[index].id;
    var t := Step(s, Cycle(index, env));
    CycleKeepsInv(s, Cycle(index, env));
    assert t.inflight[index].remove && t.inflight[index].id == id;
    var after := Step(t, Refresh(additional)).inflight;
    forall i | 0 <= i < |after| ensures after[i].id != id {
      if i < |Kept(t.inflight)| {
        var k := KeptComesFrom(t.inflight, i);
        assert k != index;
      } else {
        assert after[i].id == additional[i - |Kept(t.inflight)|];
      }
    }
  }

  // ----- Reusing the ID of a deleted transaction -----

  const CALM: Env := Env(true, true, false, Applied)

  ghost predicate Reaches(s: System, t: System) {
    exists actions :: Legal(s, actions) && Exec(s, actions) == t
  }

  lemma ReachesItself(s: System)
    ensures Reaches(s, s)
  {
    assert Legal(s, []) && Exec(s, []) == s;
  }

  lemma ReachesFurther(s: System, t: System, a: Action)
    requires Reaches(s, t) && Enabled(t, a)
    ensures Reaches(s, Step(t, a))
  {
    var actions :| Legal(s, actions) && Exec(s, actions) == t;
    ExecAppend(s, actions, a);
    assert Legal(s, actions + [a]);
  }

  /** A run in which the row of one transaction is first finished and later is not. */
  ghost predicate CanReopen(s: System, id: string, seqId: nat) {
    exists t, u :: Reaches(s, t) && Finished(t, id, seqId) && Reaches(t, u) && Open(u, id, seqId)
  }

  predicate Open(s: System, id: string, seqId: nat) {
    id in s.rows && s.rows[id].seqId == seqId && !Terminal(s.rows[id].status)
  }

  /** A delete request that is carried out. */
  function Deleted(s: System, x: string): System {
    var k := Find(s.inflight, x);
    s.(rows := s.rows - {x},
       inflight := if k < |s.inflight| then s.inflight[k := s.inflight[k].(deleteRequested := true, remove := true)]
                   else s.inflight)
  }

  lemma DeleteRequested(s: System, x: string)
    ensures Step(s, Request(x, ActionDelete, CALM)) == Deleted(s, x)
  {
    var k := Find(s.inflight, x);
    if k == |s.inflight| && x !in s.rows { assert s.rows - {x} == s.rows; }
  }

  /** Everything about the other transactions is out of the way. */
  ghost predicate Cleared(s: System, xs: set<string>, t: System) {
    && t.rows == s.rows - xs && t.maxInFlight == s.maxInFlight && t.used == s.used
    && |t.inflight| == |s.inflight|
    && (forall i :: 0 <= i < |s.inflight| ==>
          && t.inflight[i].id == s.inflight[i].id
          && (if s.inflight[i].id in xs then t.inflight[i].remove else t.inflight[i] == s.inflight[i]))
  }

  lemma {:induction false} ClearOthers(s: System, xs: set<string>) returns (t: System)
    requires OneEach(s.inflight)
    ensures Reaches(s, t) && Cleared(s, xs, t)
    decreases |xs|
  {
    if xs == {} {
      ReachesItself(s);
      t := s;
      assert s.rows - xs == s.rows;
    } else {
      var x :| x in xs;
      var rest := xs - {x};
      var u := ClearOthers(s, rest);
      DeleteRequested(u, x);
      ReachesFurther(s, u, Request(x, ActionDelete, CALM));
      t := Deleted(u, x);
      assert xs == rest + {x} && u.rows - {x} == s.rows - xs;
      ClearedFurther(s, rest, u, x);
    }
  }

  lemma ClearedFurther(s: System, rest: set<string>, u: System, x: string)
    requires OneEach(s.inflight) && Cleared(s, rest, u) && x !in rest
    ensures Cleared(s, rest + {x}, Deleted(u, x))
  {
    assert u.rows - {x} == s.rows - (rest + {x});
    forall i, j | 0 <= i < j < |s.inflight| ensures u.inflight[i].id != u.inflight[j].id {
    }
  }

  lemma {:induction false} OnlyOneKept(ps: seq<PendingState>, k: nat)
    requires k < |ps| && !ps[k].remove && forall i :: 0 <= i < |ps| && i != k ==> ps[i].remove
    ensures Kept(ps) == [ps[k]]
  {
    if k == 0 {
      NoneKept(ps[1..]);
    } else {
      OnlyOneKept(ps[1..], k - 1);
    }
  }

  lemma {:induction false} NoneKept(ps: seq<PendingState>)
    requires forall i :: 0 <= i < |ps| ==> ps[i].remove
    ensures Kept(ps) == []
  {
    if ps != [] { NoneKept(ps[1..]); }
  }

  /** The old record alone in flight, confirmed, beside the one row. */
  function OldAlone(p: PendingState, row: Row, maxInFlight: nat, used: set<nat>): System {
    System(map[p.id := row], [p.(confirmed := true), FreshRecord(p.id, row)], maxInFlight, used)
  }

  /** The new row joins the old record in the list. */
  lemma NewRecordJoins(s: System, k: nat, row: Row)
    requires k < |s.inflight| && Find(s.inflight, s.inflight[k].id) == k && !s.inflight[k].remove
    requires s.rows == map[s.inflight[k].id := row] && row.status.Pending?
    requires s.inflight[k].seqId < row.seqId && s.maxInFlight >= 2
    requires forall i :: 0 <= i < |s.inflight| && i != k ==> s.inflight[i].remove
    ensures Reaches(s, OldAlone(s.inflight[k], row, s.maxInFlight, s.used))
  {
    var p := s.inflight[k];
    var t := Step(s, Confirmations(p.id, true));
    OnlyOneKept(t.inflight, k);
    ReachesItself(s);
    ReachesFurther(s, s, Confirmations(p.id, true));
    var u := Step(t, Refresh([p.id]));
    assert Loaded(t.rows, [p.id]) == [FreshRecord(p.id, row)];
    assert u.inflight == [p.(confirmed := true), FreshRecord(p.id, row)];
    ReachesFurther(s, t, Refresh([p.id]));
  }

  /** It finishes the row, leaves, and the new record does not know. */
  lemma OldRecordFinishes(p: PendingState, row: Row, maxInFlight: nat, used: set<nat>)
    requires row.status.Pending? && maxInFlight >= 2 && !p.remove
    ensures var s := OldAlone(p, row, maxInFlight, used);
      CanReopen(s, p.id, row.seqId)
  {
    var s := OldAlone(p, row, maxInFlight, used);
    var t := OldDone(p, row, maxInFlight, used);
    OldFinishesRow(p, row, maxInFlight, used);
    ReachesItself(s);
    ReachesFurther(s, s, Cycle(0, CALM));
    assert Finished(t, p.id, row.seqId);
    NewReopensRow(p, row, maxInFlight, used);
  }

  /** The row finished, the old record done with, and the new one none the wiser. */
  function OldDone(p: PendingState, row: Row, maxInFlight: nat, used: set<nat>): System {
    var status := if p.receipt == Some(true) then Succeeded else Failed;
    System(map[p.id := row.(status := status)],
           [p.(confirmed := true, status := status, remove := true), FreshRecord(p.id, row)], maxInFlight, used)
  }

  lemma OldFinishesRow(p: PendingState, row: Row, maxInFlight: nat, used: set<nat>)
    requires row.status.Pending? && !p.remove
    ensures Step(OldAlone(p, row, maxInFlight, used), Cycle(0, CALM)) == OldDone(p, row, maxInFlight, used)
  {
    var s, t := OldAlone(p, row, maxInFlight, used), OldDone(p, row, maxInFlight, used);
    assert Executed(s.rows, s.inflight[0], ActionNone, CALM) == Result(t.rows, t.inflight[0], true);
    assert s.inflight[0 := t.inflight[0]] == t.inflight;
  }

  lemma NewReopensRow(p: PendingState, row: Row, maxInFlight: nat, used: set<nat>)
    requires row.status.Pending? && maxInFlight >= 2
    ensures exists v :: Reaches(OldDone(p, row, maxInFlight, used), v) && Open(v, p.id, row.seqId)
  {
    var t := OldDone(p, row, maxInFlight, used);
    OnlyOneKept(t.inflight, 1);
    var u := Step(t, Refresh([]));
    assert u.inflight == [FreshRecord(p.id, row)];
    ReachesItself(t);
    ReachesFurther(t, t, Refresh([]));
    SuspendReopens(u, p.id, row);
    ReachesFurther(t, u, Request(p.id, ActionSuspend, CALM));
  }

  lemma SuspendReopens(u: System, id: string, row: Row)
    requires row.status.Pending? && u.inflight == [FreshRecord(id, row)]
    requires id in u.rows && u.rows[id].seqId == row.seqId
    ensures Open(Step(u, Request(id, ActionSuspend, CALM)), id, row.seqId)
  {
    assert Find(u.inflight, id) == 0;
  }

  lemma ReachesThrough(s: System, t: System, id: string, seqId: nat)
    requires Reaches(s, t) && CanReopen(t, id, seqId)
    ensures CanReopen(s, id, seqId)
  {
    var u, v :| Reaches(t, u) && Finished(u, id, seqId) && Reaches(u, v) && Open(v, id, seqId);
    var actions :| Legal(t, actions) && Exec(t, actions) == u;
    ReachesAll(s, t, actions);
  }

  lemma {:induction false} ReachesAll(s: System, t: System, actions: seq<Action>)
    requires Reaches(s, t) && Legal(t, actions)
    ensures Reaches(s, Exec(t, actions))
    decreases |actions|
  {
    if actions != [] {
      ReachesFurther(s, t, actions[0]);
      ReachesAll(s, Step(t, actions[0]), actions[1..]);
    }
  }

  /** Every ID with a row or a record, but this. */
  function OtherIds(s: System, id: string): set<string> {
    s.rows.Keys + (set i | 0 <= i < |s.inflight| :: s.inflight[i].id) - {id}
  }

  lemma OnlyOneLeft(n: System, id: string, t: System, k: nat, row: Row)
    requires OneEach(n.inflight) && k < |n.inflight| && n.inflight[k].id == id && !n.inflight[k].remove
    requires id in n.rows && n.rows[id] == row && Cleared(n, OtherIds(n, id), t)
    ensures t.rows == map[id := row] && t.inflight[k] == n.inflight[k] && Find(t.inflight, id) == k
    ensures forall i :: 0 <= i < |t.inflight| && i != k ==> t.inflight[i].remove
  {
    assert t.rows.Keys == {id};
    forall i | 0 <= i < |t.inflight| && i != k ensures t.inflight[i].remove && t.inflight[i].id != id {
      assert n.inflight[i].id != n.inflight[k].id;
      assert n.inflight[i].id in OtherIds(n, id);
    }
  }

  /** From a risky insert: every other transaction is deleted, so that the listing can only
      return the new row, and the old record is told of confirmations meant for it. */
  lemma RiskyReopens(s: System, id: string, seqId: nat)
    requires Inv(s) && id !in s.rows && Risky(s, id, seqId)
    ensures CanReopen(Inserted(s, id, seqId), id, seqId)
  {
    var k :| 0 <= k < |s.inflight| && s.inflight[k].id == id && !s.inflight[k].remove && s.inflight[k].seqId < seqId;
    var n := Inserted(s, id, seqId);
    var xs := OtherIds(n, id);
    var t := ClearOthers(n, xs);
    var row := Row(seqId, Pending);
    OnlyOneLeft(n, id, t, k, row);
    NewRecordJoins(t, k, row);
    OldRecordFinishes(t.inflight[k], row, t.maxInFlight, t.used);
    ReachesThrough(t, OldAlone(t.inflight[k], row, t.maxInFlight, t.used), id, seqId);
    ReachesThrough(n, t, id, seqId);
  }

  lemma FinishedOnlyOnce(s: System, id: string, seqId: nat)
    requires Inv(s) && seqId in s.used
    ensures !CanReopen(s, id, seqId)
  {
    if CanReopen(s, id, seqId) {
      var t, u :| Reaches(s, t) && Finished(t, id, seqId) && Reaches(t, u) && Open(u, id, seqId);
      var before :| Legal(s, before) && Exec(s, before) == t;
      var after :| Legal(t, after) && Exec(t, after) == u;
      ExecKeepsInv(s, before);
      RunKeepsFinished(t, after, id, seqId);
    }
  }

  /** The condition on inserts is exact. In every reachable state, inserting an ID that is not
      stored under a new sequence ID opens the way to a run that takes its persisted Succeeded
      or Failed back if and only if a record of the ID that is not done with, of a lower
      sequence ID, is in flight and there is room for two. */
  lemma ReopensExactlyWhenRisky(maxInFlight: nat, actions: seq<Action>, id: string, seqId: nat)
    requires Legal(Started(maxInFlight), actions)
    requires var s := Exec(Started(maxInFlight), actions); id !in s.rows && seqId !in s.used
    ensures var s := Exec(Started(maxInFlight), actions);
      CanReopen(Inserted(s, id, seqId), id, seqId) <==> Risky(s, id, seqId)
  {
    ExecKeepsInv(Started(maxInFlight), actions);
    var s := Exec(Started(maxInFlight), actions);
    if Risky(s, id, seqId) {
      RiskyReopens(s, id, seqId);
    } else {
      StepKeepsInv(s, Insert(id, seqId));
      FinishedOnlyOnce(Inserted(s, id, seqId), id, seqId);
    }
  }

  /** Such states are reached: a delete carried out but reported as failed leaves its record in
      flight with no row. */
  lemma RiskIsReached(maxInFlight: nat, id: string, seqId: nat, later: nat) returns (actions: seq<Action>)
    requires maxInFlight >= 2 && seqId < later
    ensures Legal(Started(maxInFlight), actions)
    ensures var s := Exec(Started(maxInFlight), actions); id !in s.rows && later !in s.used && Risky(s, id, later)
  {
    var failing := Request(id, ActionDelete, CALM.(outcome := AppliedButReported));
    var s0 := Started(maxInFlight);
    ReachesItself(s0);
    var s1 := Step(s0, Insert(id, seqId));
    ReachesFurther(s0, s0, Insert(id, seqId));
    var s2 := Step(s1, Refresh([id]));
    assert s2.inflight == [FreshRecord(id, Row(seqId, Pending))];
    ReachesFurther(s0, s1, Refresh([id]));
    var s3 := Step(s2, failing);
    assert Find(s2.inflight, id) == 0;
    ReachesFurther(s0, s2, failing);
    assert s3.inflight[0].id == id && !s3.inflight[0].remove && s3.inflight[0].seqId < later;
    actions :| Legal(s0, actions) && Exec(s0, actions) == s3;
  }
}
