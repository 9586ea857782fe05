/** The Postgres transaction writer's batches: operations queued one at a time are grouped
    by kind and written together. */
module BatchedWrites {
  import opened Wrappers

  datatype Status = Pending | Succeeded | Failed | Suspended

  /** The updatable columns of a transaction: as an update, None leaves a column alone; as a
      row, None is NULL. */
  datatype Fields = Fields(
    status: Option<Status>,
    deleteRequested: Option<string>,
    from: Option<string>,
    to: Option<string>,
    nonce: Option<nat>,
    gas: Option<nat>,
    value: Option<nat>,
    gasPrice: Option<string>,
    transactionData: Option<string>,
    transactionHash: Option<string>,
    policyInfo: Option<string>,
    firstSubmit: Option<string>,
    lastSubmit: Option<string>,
    errorMessage: Option<string>)

  function Over<T>(base: Option<T>, set_: Option<T>): Option<T> {
    if set_.Some? then set_ else base
  }

  /** The columns an update sets replace the row's, and likewise an earlier update's. */
  function Merged(base: Fields, u: Fields): Fields {
    Fields(
      Over(base.status, u.status),
      Over(base.deleteRequested, u.deleteRequested),
      Over(base.from, u.from),
      Over(base.to, u.to),
      Over(base.nonce, u.nonce),
      Over(base.gas, u.gas),
      Over(base.value, u.value),
      Over(base.gasPrice, u.gasPrice),
      Over(base.transactionData, u.transactionData),
      Over(base.transactionHash, u.transactionHash),
      Over(base.policyInfo, u.policyInfo),
      Over(base.firstSubmit, u.firstSubmit),
      Over(base.lastSubmit, u.lastSubmit),
      Over(base.errorMessage, u.errorMessage))
  }

  /** Every column the update sets is the update's, and every other is as it was. */
  lemma LaterWins(base: Fields, u: Fields)
    ensures var m := Merged(base, u);
      && m.status == (if u.status.Some? then u.status else base.status)
      && m.deleteRequested == (if u.deleteRequested.Some? then u.deleteRequested else base.deleteRequested)
      && m.from == (if u.from.Some? then u.from else base.from)
      && m.to == (if u.to.Some? then u.to else base.to)
      && m.nonce == (if u.nonce.Some? then u.nonce else base.nonce)
      && m.gas == (if u.gas.Some? then u.gas else base.gas)
      && m.value == (if u.value.Some? then u.value else base.value)
      && m.gasPrice == (if u.gasPrice.Some? then u.gasPrice else base.gasPrice)
      && m.transactionData == (if u.transactionData.Some? then u.transactionData else base.transactionData)
      && m.transactionHash == (if u.transactionHash.Some? then u.transactionHash else base.transactionHash)
      && m.policyInfo == (if u.policyInfo.Some? then u.policyInfo else base.policyInfo)
      && m.firstSubmit == (if u.firstSubmit.Some? then u.firstSubmit else base.firstSubmit)
      && m.lastSubmit == (if u.lastSubmit.Some? then u.lastSubmit else base.lastSubmit)
      && m.errorMessage == (if u.errorMessage.Some? then u.errorMessage else base.errorMessage)
  {
  }

  /** Writing two updates in turn is writing their merge. */
  lemma MergeIsSequencing(row: Fields, u: Fields, v: Fields)
    ensures Merged(Merged(row, u), v) == Merged(row, Merged(u, v))
  {
  }

  class TXUpdates {
    var status: Option<Status>
    var deleteRequested: Option<string>
    var from: Option<string>
    var to: Option<string>
    var nonce: Option<nat>
    var gas: Option<nat>
    var value: Option<nat>
    var gasPrice: Option<string>
    var transactionData: Option<string>
    var transactionHash: Option<string>
    var policyInfo: Option<string>
    var firstSubmit: Option<string>
    var lastSubmit: Option<string>
    var errorMessage: Option<string>

    function View(): Fields
      reads this
    {
      Fields(status, deleteRequested, from, to, nonce, gas, value, gasPrice, transactionData, transactionHash,
             policyInfo, firstSubmit, lastSubmit, errorMessage)
    }

    constructor (f: Fields)
      ensures View() == f
    {
      status, deleteRequested, from, to, nonce := f.status, f.deleteRequested, f.from, f.to, f.nonce;
      gas, value, gasPrice, transactionData := f.gas, f.value, f.gasPrice, f.transactionData;
      transactionHash, policyInfo, firstSubmit := f.transactionHash, f.policyInfo, f.firstSubmit;
      lastSubmit, errorMessage := f.lastSubmit, f.errorMessage;
    }

    /** Every field the other update sets replaces this one's. */
    method Merge(u: TXUpdates)
      modifies this
      ensures View() == Merged(old(View()), old(u.View()))
    {
      MergeHeaders(u);
      MergePayload(u);
      MergeProgress(u);
    }

    method MergeHeaders(u: TXUpdates)
      modifies this`status, this`deleteRequested, this`from, this`to, this`nonce
      ensures status == if old(u.status).Some? then old(u.status) else old(status)
      ensures deleteRequested == if old(u.deleteRequested).Some? then old(u.deleteRequested) else old(deleteRequested)
      ensures from == if old(u.from).Some? then old(u.from) else old(from)
      ensures to == if old(u.to).Some? then old(u.to) else old(to)
      ensures nonce == if old(u.nonce).Some? then old(u.nonce) else old(nonce)
    {
      if u.status.Some? { status := u.status; }
      if u.deleteRequested.Some? { deleteRequested := u.deleteRequested; }
      if u.from.Some? { from := u.from; }
      if u.to.Some? { to := u.to; }
      if u.nonce.Some? { nonce := u.nonce; }
    }

    method MergePayload(u: TXUpdates)
      modifies this`gas, this`value, this`gasPrice, this`transactionData, this`transactionHash
      ensures gas == if old(u.gas).Some? then old(u.gas) else old(gas)
      ensures value == if old(u.value).Some? then old(u.value) else old(value)
      ensures gasPrice == if old(u.gasPrice).Some? then old(u.gasPrice) else old(gasPrice)
      ensures transactionData == if old(u.transactionData).Some? then old(u.transactionData) else old(transactionData)
      ensures transactionHash == if old(u.transactionHash).Some? then old(u.transactionHash) else old(transactionHash)
    {
      if u.gas.Some? { gas := u.gas; }
      if u.value.Some? { value := u.value; }
      if u.gasPrice.Some? { gasPrice := u.gasPrice; }
      if u.transactionData.Some? { transactionData := u.transactionData; }
      if u.transactionHash.Some? { transactionHash := u.transactionHash; }
    }

    method MergeProgress(u: TXUpdates)
      modifies this`policyInfo, this`firstSubmit, this`lastSubmit, this`errorMessage
      ensures policyInfo == if old(u.policyInfo).Some? then old(u.policyInfo) else old(policyInfo)
      ensures firstSubmit == if old(u.firstSubmit).Some? then old(u.firstSubmit) else old(firstSubmit)
      ensures lastSubmit == if old(u.lastSubmit).Some? then old(u.lastSubmit) else old(lastSubmit)
      ensures errorMessage == if old(u.errorMessage).Some? then old(u.errorMessage) else old(errorMessage)
    {
      if u.policyInfo.Some? { policyInfo := u.policyInfo; }
      if u.firstSubmit.Some? { firstSubmit := u.firstSubmit; }
      if u.lastSubmit.Some? { lastSubmit := u.lastSubmit; }
      if u.errorMessage.Some? { errorMessage := u.errorMessage; }
    }
  }

  /** A row of a table that belongs to a transaction. */
  datatype Record = Record(tx: string, body: string)

  datatype Completion = Completion(tx: string, status: Status)

  datatype Store = Store(
    txs: map<string, Fields>,
    receipts: map<string, string>,
    confirmations: seq<Record>,
    history: seq<Record>,
    completions: seq<Completion>)

  datatype Op =
    | Update(tx: string, fields: Fields)
    | Receipt(tx: string, receipt: string)
    | Confirmation(record: Record, clear: bool)
    | History(record: Record)

  // ----- One operation at a time -----

  /** The records of a table that are not of these transactions. */
  function Except(rs: seq<Record>, txs: set<string>): seq<Record> {
    if rs == [] then []
    else
      var k := |rs| - 1;
      if rs[k].tx in txs then Except(rs[..k], txs) else Except(rs[..k], txs) + [rs[k]]
  }

  function Completes(tx: string, u: Fields): seq<Completion> {
    if u.status == Some(Succeeded) || u.status == Some(Failed) then [Completion(tx, u.status.value)] else []
  }

  predicate Has(done: seq<Completion>, tx: string) {
    exists i :: 0 <= i < |done| && done[i].tx == tx
  }

  /** The table of completions has one row per transaction, and the first stays. */
  function Noted(done: seq<Completion>, more: seq<Completion>): seq<Completion> {
    if more == [] then done
    else
      var k := |more| - 1;
      var before := Noted(done, more[..k]);
      if Has(before, more[k].tx) then before else before + [more[k]]
  }

  lemma {:induction false} NotedInTurn(done: seq<Completion>, a: seq<Completion>, b: seq<Completion>)
    ensures Noted(done, a + b) == Noted(Noted(done, a), b)
  {
    if b == [] {
      assert a + b == a;
    } else {
      var k := |b| - 1;
      NotedInTurn(done, a, b[..k]);
      assert (a + b)[..|a + b| - 1] == a + b[..k];
    }
  }

  predicate OnePerTransaction(done: seq<Completion>) {
    forall i, j :: 0 <= i < j < |done| ==> done[i].tx != done[j].tx
  }

  /** A transaction completes once: what was there stays, with its status, and nothing is
      added for a transaction that has completed. */
  lemma {:induction false} CompletesOnce(done: seq<Completion>, more: seq<Completion>)
    requires OnePerTransaction(done)
    ensures OnePerTransaction(Noted(done, more)) && done <= Noted(done, more)
    ensures forall i :: 0 <= i < |more| ==> Has(Noted(done, more), more[i].tx)
  {
    if more != [] {
      var k := |more| - 1;
      CompletesOnce(done, more[..k]);
      var before, after := Noted(done, more[..k]), Noted(done, more);
      assert before <= after;
      forall i | 0 <= i < |more| ensures Has(after, more[i].tx) {
        if i < k {
          assert Has(before, more[..k][i].tx);
          var j :| 0 <= j < |before| && before[j].tx == more[i].tx;
          assert after[j].tx == more[i].tx;
        } else if !Has(before, more[k].tx) {
          assert after[|before|].tx == more[k].tx;
        }
      }
    }
  }

  /** One operation applied on its own; None when its row does not exist. */
  function Applied(s: Store, op: Op): Option<Store> {
    match op
    case Update(tx, u) =>
      if tx in s.txs
      then Some(s.(txs := s.txs[tx := Merged(s.txs[tx], u)], completions := Noted(s.completions, Completes(tx, u))))
      else None
    case Receipt(tx, r) => Some(s.(receipts := s.receipts[tx := r]))
    case Confirmation(c, clear) =>
      Some(s.(confirmations := (if clear then Except(s.confirmations, {c.tx}) else s.confirmations) + [c]))
    case History(h) => Some(s.(history := s.history + [h]))
  }

  /** The operations in queue order; one that fails fails them all. */
  function InTurn(s: Store, ops: seq<Op>): Option<Store> {
    if ops == [] then Some(s)
    else
      match InTurn(s, ops[..|ops| - 1])
      case None => None
      case Some(t) => Applied(t, ops[|ops| - 1])
  }

  // ----- Grouped into one batch -----

  datatype Batch = Batch(
    updates: seq<(string, Fields)>,
    receipts: map<string, string>,
    confirmations: seq<Record>,
    resets: set<string>,
    history: seq<Record>)

  const EMPTY: Batch := Batch([], map[], [], {}, [])

  function Added(b: Batch, op: Op): Batch {
    match op
    case Update(tx, u) => b.(updates := b.updates + [(tx, u)])
    case Receipt(tx, r) => b.(receipts := b.receipts[tx := r])
    case Confirmation(c, clear) =>
      if clear then b.(confirmations := Except(b.confirmations, {c.tx}) + [c], resets := b.resets + {c.tx})
      else b.(confirmations := b.confirmations + [c])
    case History(h) => b.(history := b.history + [h])
  }

  function Grouped(ops: seq<Op>): Batch {
    if ops == [] then EMPTY else Added(Grouped(ops[..|ops| - 1]), ops[|ops| - 1])
  }

  /** The one update per transaction its queued updates merge into. */
  function MergedUpdates(us: seq<(string, Fields)>): map<string, Fields> {
    if us == [] then map[]
    else
      var m, (tx, u) := MergedUpdates(us[..|us| - 1]), us[|us| - 1];
      m[tx := if tx in m then Merged(m[tx], u) else u]
  }

  function Completions(us: seq<(string, Fields)>): seq<Completion> {
    if us == [] then []
    else
      var (tx, u) := us[|us| - 1];
      Completions(us[..|us| - 1]) + Completes(tx, u)
  }

  function Updated(txs: map<string, Fields>, us: map<string, Fields>): map<string, Fields> {
    map tx | tx in txs :: if tx in us then Merged(txs[tx], us[tx]) else txs[tx]
  }

  /** What the batch's statements do to the tables, or None when one fails and it rolls back. */
  function Executed(s: Store, b: Batch): Option<Store> {
    var us := MergedUpdates(b.updates);
    if us.Keys <= s.txs.Keys then
      Some(Store(
        Updated(s.txs, us),
        s.receipts + b.receipts,
        Except(s.confirmations, b.resets) + b.confirmations,
        s.history + b.history,
        Noted(s.completions, Completions(b.updates))))
    else None
  }

  lemma {:induction false} ExceptAppend(a: seq<Record>, b: seq<Record>, txs: set<string>)
    ensures Except(a + b, txs) == Except(a, txs) + Except(b, txs)
  {
    if b == [] {
      assert a + b == a;
    } else {
      var k := |b| - 1;
      assert (a + b)[..|a| + k] == a + b[..k];
      ExceptAppend(a, b[..k], txs);
    }
  }

  lemma {:induction false} ExceptTwice(rs: seq<Record>, xs: set<string>, ys: set<string>)
    ensures Except(Except(rs, xs), ys) == Except(rs, xs + ys)
  {
    if rs != [] {
      var k := |rs| - 1;
      ExceptTwice(rs[..k], xs, ys);
      if rs[k].tx !in xs {
        ExceptAppend(Except(rs[..k], xs), [rs[k]], ys);
        assert Except([rs[k]], ys) == if rs[k].tx in ys then [] else [rs[k]];
      }
    }
  }

  lemma AddedUpdate(s: Store, b: Batch, tx: string, u: Fields)
    requires Executed(s, b).Some?
    ensures Executed(s, Added(b, Update(tx, u))) == Applied(Executed(s, b).value, Update(tx, u))
  {
    var c := Added(b, Update(tx, u));
    OneMoreUpdate(b.updates, tx, u);
    assert c.updates == b.updates + [(tx, u)];
    if tx in s.txs {
      UpdatedOnceMore(s.txs, MergedUpdates(b.updates), tx, u);
      NotedInTurn(s.completions, Completions(b.updates), Completes(tx, u));
    }
  }

  lemma OneMoreUpdate(us: seq<(string, Fields)>, tx: string, u: Fields)
    ensures var more := us + [(tx, u)];
      var m := MergedUpdates(us);
      && MergedUpdates(more) == m[tx := if tx in m then Merged(m[tx], u) else u]
      && Completions(more) == Completions(us) + Completes(tx, u)
  {
    var more := us + [(tx, u)];
    assert more[..|more| - 1] == us;
  }

  lemma UpdatedOnceMore(txs: map<string, Fields>, us: map<string, Fields>, tx: string, u: Fields)
    requires tx in txs
    ensures Updated(txs, us[tx := if tx in us then Merged(us[tx], u) else u])
      == Updated(txs, us)[tx := Merged(Updated(txs, us)[tx], u)]
  {
    if tx in us { MergeIsSequencing(txs[tx], us[tx], u); }
  }

  lemma AddedConfirmation(s: Store, b: Batch, c: Record, clear: bool)
    requires Executed(s, b).Some?
    ensures Executed(s, Added(b, Confirmation(c, clear))) == Applied(Executed(s, b).value, Confirmation(c, clear))
  {
    if clear {
      ExceptAppend(Except(s.confirmations, b.resets), b.confirmations, {c.tx});
      ExceptTwice(s.confirmations, b.resets, {c.tx});
      var left, mid := Except(s.confirmations, b.resets + {c.tx}), Except(b.confirmations, {c.tx});
      assert left + (mid + [c]) == (left + mid) + [c];
    } else {
      var left := Except(s.confirmations, b.resets);
      assert left + (b.confirmations + [c]) == (left + b.confirmations) + [c];
    }
  }

  /** Adding an operation to a batch is applying it after the batch. */
  lemma AddedIsAppliedLast(s: Store, b: Batch, op: Op)
    requires Executed(s, b).Some?
    ensures Executed(s, Added(b, op)) == Applied(Executed(s, b).value, op)
  {
    match op
    case Update(tx, u) => AddedUpdate(s, b, tx, u);
    case Confirmation(c, clear) => AddedConfirmation(s, b, c, clear);
    case Receipt(tx, r) => assert s.receipts + b.receipts[tx := r] == (s.receipts + b.receipts)[tx := r];
    case History(h) => assert s.history + (b.history + [h]) == (s.history + b.history) + [h];
  }

  /** A batch that must roll back still must once it has grown. */
  lemma AddedStillFails(s: Store, b: Batch, op: Op)
    requires Executed(s, b).None?
    ensures Executed(s, Added(b, op)).None?
  {
    if op.Update? {
      var c := Added(b, op);
      assert c.updates[..|b.updates|] == b.updates;
      assert MergedUpdates(b.updates).Keys <= MergedUpdates(c.updates).Keys;
    }
  }

  /** Coalescing refines sequencing: a batch leaves every table, and the list of completions,
      exactly as its operations would in queue order, and fails exactly when one of them
      would. */
  lemma {:induction false} BatchRefinesSequence(s: Store, ops: seq<Op>)
    ensures Executed(s, Grouped(ops)) == InTurn(s, ops)
  {
    if ops == [] {
      assert Updated(s.txs, map[]) == s.txs;
      ExceptNothing(s.confirmations);
      assert s.receipts + map[] == s.receipts && s.confirmations + [] == s.confirmations;
      assert s.history + [] == s.history && s.completions + [] == s.completions;
    } else {
      var k := |ops| - 1;
      BatchRefinesSequence(s, ops[..k]);
      match InTurn(s, ops[..k])
      case None => AddedStillFails(s, Grouped(ops[..k]), ops[k]);
      case Some(_) => AddedIsAppliedLast(s, Grouped(ops[..k]), ops[k]);
    }
  }

  lemma {:induction false} ExceptNothing(rs: seq<Record>)
    ensures Except(rs, {}) == rs
  {
    if rs != [] { ExceptNothing(rs[..|rs| - 1]); }
  }

  // ----- The batch object -----

  class TransactionWriterBatch {
    var txUpdates: seq<(string, Fields)>
    var receiptInserts: map<string, string>
    var confirmationInserts: seq<Record>
    var confirmationResets: set<string>
    var historyInserts: seq<Record>

    ghost function View(): Batch
      reads this
    {
      Batch(txUpdates, receiptInserts, confirmationInserts, confirmationResets, historyInserts)
    }

    constructor ()
      ensures View() == EMPTY
    {
      txUpdates, receiptInserts, confirmationInserts, confirmationResets, historyInserts := [], map[], [], {}, [];
    }

    /** Sorts the queued operations into the batch's groups. */
    method Group(ops: seq<Op>)
      requires View() == EMPTY
      modifies this
      ensures View() == Grouped(ops)
    {
      for n := 0 to |ops|
        invariant View() == Grouped(ops[..n])
      {
        assert ops[..n + 1][..n] == ops[..n];
        match ops[n] {
          case Update(tx, u) => txUpdates := txUpdates + [(tx, u)];
          case Receipt(tx, r) => receiptInserts := receiptInserts[tx := r];
          case History(h) => historyInserts := historyInserts + [h];
          case Confirmation(c, clear) =>
            if clear {
              PurgeConfirmations(c.tx);
              confirmationResets := confirmationResets + {c.tx};
            }
            confirmationInserts := confirmationInserts + [c];
        }
      }
      assert ops[..|ops|] == ops;
    }

    method PurgeConfirmations(tx: string)
      modifies this`confirmationInserts
      ensures confirmationInserts == Except(old(confirmationInserts), {tx})
    {
      var was := confirmationInserts;
      var keep := [];
      for n := 0 to |was|
        invariant keep == Except(was[..n], {tx})
      {
        assert was[..n + 1][..n] == was[..n];
        if was[n].tx != tx {
          keep := keep + [was[n]];
        }
      }
      assert was[..|was|] == was;
      confirmationInserts := keep;
    }

    /** One merged update per transaction, and the completions in queue order. */
    method MergeTxUpdates() returns (completions: seq<Completion>, merged: map<string, Fields>)
      ensures completions == Completions(txUpdates) && merged == MergedUpdates(txUpdates)
    {
      completions, merged := [], map[];
      for n := 0 to |txUpdates|
        invariant completions == Completions(txUpdates[..n]) && merged == MergedUpdates(txUpdates[..n])
      {
        assert txUpdates[..n + 1][..n] == txUpdates[..n];
        var (tx, u) := txUpdates[n];
        if tx in merged {
          merged := merged[tx := Merged(merged[tx], u)];
        } else {
          merged := merged[tx := u];
        }
        if u.status.Some? && (u.status.value.Succeeded? || u.status.value.Failed?) {
          completions := completions + [Completion(tx, u.status.value)];
        }
      }
      assert txUpdates[..|txUpdates|] == txUpdates;
    }
  }
}
