/** What each table holds after the operations of a batch, told from the operations alone:
    the last update of a column, the last receipt, the confirmations since the last clear, all
    history, and the first completion. */
module WriterTables {
  import opened Wrappers
  import opened BatchedWrites

  // ----- One column at a time -----

  datatype Column =
    | StatusColumn | DeleteRequested | From | To | Nonce | Gas | Value | GasPrice | TransactionData | TransactionHash
    | PolicyInfo | FirstSubmit | LastSubmit | ErrorMessage

  datatype Cell = StatusCell(status: Status) | Text(text: string) | Number(number: nat)

  function OfText(o: Option<string>): Option<Cell> {
    if o.Some? then Some(Text(o.value)) else None
  }

  function OfNumber(o: Option<nat>): Option<Cell> {
    if o.Some? then Some(Number(o.value)) else None
  }

  function ColumnOf(f: Fields, c: Column): Option<Cell> {
    match c
    case StatusColumn => if f.status.Some? then Some(StatusCell(f.status.value)) else None
    case DeleteRequested => OfText(f.deleteRequested)
    case From => OfText(f.from)
    case To => OfText(f.to)
    case Nonce => OfNumber(f.nonce)
    case Gas => OfNumber(f.gas)
    case Value => OfNumber(f.value)
    case GasPrice => OfText(f.gasPrice)
    case TransactionData => OfText(f.transactionData)
    case TransactionHash => OfText(f.transactionHash)
    case PolicyInfo => OfText(f.policyInfo)
    case FirstSubmit => OfText(f.firstSubmit)
    case LastSubmit => OfText(f.lastSubmit)
    case ErrorMessage => OfText(f.errorMessage)
  }

  /** The operation sets this column of this transaction. */
  predicate Sets(op: Op, tx: string, c: Column) {
    op.Update? && op.tx == tx && ColumnOf(op.fields, c).Some?
  }

  lemma MergedColumn(base: Fields, u: Fields, c: Column)
    ensures ColumnOf(Merged(base, u), c) == if ColumnOf(u, c).Some? then ColumnOf(u, c) else ColumnOf(base, c)
  {
  }

  /** No operation adds or removes a transaction, and they fail together exactly when one of
      them updates a transaction that is not stored. */
  lemma {:induction false} FailsExactlyOnMissing(s: Store, ops: seq<Op>)
    ensures InTurn(s, ops).None? <==> exists i :: 0 <= i < |ops| && ops[i].Update? && ops[i].tx !in s.txs
    ensures InTurn(s, ops).Some? ==> InTurn(s, ops).value.txs.Keys == s.txs.Keys
  {
    if ops != [] {
      var k := |ops| - 1;
      FailsExactlyOnMissing(s, ops[..k]);
      if InTurn(s, ops[..k]).None? {
        var i :| 0 <= i < k && ops[..k][i].Update? && ops[..k][i].tx !in s.txs;
        assert ops[i].Update? && ops[i].tx !in s.txs;
      } else {
        forall i | 0 <= i < k ensures !(ops[i].Update? && ops[i].tx !in s.txs) {
          assert ops[i] == ops[..k][i];
        }
      }
    }
  }

  lemma ColumnAfter(s: Store, op: Op, tx: string, c: Column)
    requires tx in s.txs && Applied(s, op).Some?
    ensures tx in Applied(s, op).value.txs
    ensures ColumnOf(Applied(s, op).value.txs[tx], c) ==
      if Sets(op, tx, c) then ColumnOf(op.fields, c) else ColumnOf(s.txs[tx], c)
  {
    if op.Update? && op.tx == tx { MergedColumn(s.txs[tx], op.fields, c); }
  }

  lemma {:induction false} ColumnInTurn(s: Store, ops: seq<Op>, tx: string, c: Column, i: nat)
    requires InTurn(s, ops).Some? && tx in s.txs && i <= |ops|
    requires i < |ops| ==> Sets(ops[i], tx, c)
    requires forall j :: 0 <= j < |ops| && (i == |ops| || i < j) ==> !Sets(ops[j], tx, c)
    ensures tx in InTurn(s, ops).value.txs
    ensures ColumnOf(InTurn(s, ops).value.txs[tx], c) ==
      ColumnOf(if i < |ops| then ops[i].fields else s.txs[tx], c)
  {
    if ops != [] {
      var k := |ops| - 1;
      if i < k || i == |ops| {
        ColumnInTurn(s, ops[..k], tx, c, if i < k then i else k);
      } else {
        FailsExactlyOnMissing(s, ops[..k]);
      }
      ColumnAfter(InTurn(s, ops[..k]).value, ops[k], tx, c);
    }
  }

  /** The last update wins, column by column: after a batch a column holds what the last of its
      operations that sets it says. */
  lemma LastUpdateWins(s: Store, ops: seq<Op>, tx: string, c: Column, i: nat)
    requires Executed(s, Grouped(ops)).Some? && tx in s.txs && i < |ops| && Sets(ops[i], tx, c)
    requires forall j :: i < j < |ops| ==> !Sets(ops[j], tx, c)
    ensures tx in Executed(s, Grouped(ops)).value.txs
    ensures ColumnOf(Executed(s, Grouped(ops)).value.txs[tx], c) == ColumnOf(ops[i].fields, c)
    ensures Executed(s, Grouped(ops)) == InTurn(s, ops)
  {
    BatchRefinesSequence(s, ops);
    ColumnInTurn(s, ops, tx, c, i);
  }

  /** And what was stored if none does. */
  lemma UnsetColumnStays(s: Store, ops: seq<Op>, tx: string, c: Column)
    requires Executed(s, Grouped(ops)).Some? && tx in s.txs
    requires forall j :: 0 <= j < |ops| ==> !Sets(ops[j], tx, c)
    ensures tx in Executed(s, Grouped(ops)).value.txs
    ensures ColumnOf(Executed(s, Grouped(ops)).value.txs[tx], c) == ColumnOf(s.txs[tx], c)
  {
    BatchRefinesSequence(s, ops);
    ColumnInTurn(s, ops, tx, c, |ops|);
  }

  // ----- Receipts, confirmations and history -----

  predicate IsReceipt(op: Op, tx: string) {
    op.Receipt? && op.tx == tx
  }

  lemma {:induction false} ReceiptInTurn(s: Store, ops: seq<Op>, tx: string, i: nat)
    requires InTurn(s, ops).Some? && i <= |ops| && (i < |ops| ==> IsReceipt(ops[i], tx))
    requires forall j :: 0 <= j < |ops| && (i == |ops| || i < j) ==> !IsReceipt(ops[j], tx)
    ensures var t := InTurn(s, ops).value;
      if i < |ops| then tx in t.receipts && t.receipts[tx] == ops[i].receipt
      else (tx in t.receipts <==> tx in s.receipts) && (tx in s.receipts ==> t.receipts[tx] == s.receipts[tx])
  {
    if ops != [] {
      var k := |ops| - 1;
      if i < k || i == |ops| { ReceiptInTurn(s, ops[..k], tx, if i < k then i else k); }
    }
  }

  /** After a batch a transaction has the last of its receipts in the batch, or what it had. */
  lemma LastReceiptWins(s: Store, ops: seq<Op>, tx: string, i: nat)
    requires Executed(s, Grouped(ops)).Some? && i <= |ops| && (i < |ops| ==> IsReceipt(ops[i], tx))
    requires forall j :: 0 <= j < |ops| && (i == |ops| || i < j) ==> !IsReceipt(ops[j], tx)
    ensures var t := Executed(s, Grouped(ops)).value;
      if i < |ops| then tx in t.receipts && t.receipts[tx] == ops[i].receipt
      else (tx in t.receipts <==> tx in s.receipts) && (tx in s.receipts ==> t.receipts[tx] == s.receipts[tx])
  {
    BatchRefinesSequence(s, ops);
    ReceiptInTurn(s, ops, tx, i);
  }

  /** One transaction's records, in order. */
  function OfTx(rs: seq<Record>, tx: string): seq<Record> {
    if rs == [] then []
    else
      var k := |rs| - 1;
      OfTx(rs[..k], tx) + if rs[k].tx == tx then [rs[k]] else []
  }

  lemma OfTxAppend(rs: seq<Record>, r: Record, tx: string)
    ensures OfTx(rs + [r], tx) == OfTx(rs, tx) + if r.tx == tx then [r] else []
  {
    assert (rs + [r])[..|rs|] == rs;
  }

  lemma {:induction false} OfTxExcept(rs: seq<Record>, gone: string, tx: string)
    ensures OfTx(Except(rs, {gone}), tx) == if tx == gone then [] else OfTx(rs, tx)
  {
    if rs != [] {
      var k := |rs| - 1;
      OfTxExcept(rs[..k], gone, tx);
      if rs[k].tx != gone { OfTxAppend(Except(rs[..k], {gone}), rs[k], tx); }
    }
  }

  predicate Clears(op: Op, tx: string) {
    op.Confirmation? && op.clear && op.record.tx == tx
  }

  /** The confirmations of a transaction that the operations add, in queue order. */
  function Queued(ops: seq<Op>, tx: string): seq<Record> {
    if ops == [] then []
    else
      var k := |ops| - 1;
      Queued(ops[..k], tx) +
        if ops[k].Confirmation? && ops[k].record.tx == tx then [ops[k].record] else []
  }

  lemma ConfirmationsAfter(s: Store, op: Op, tx: string)
    requires Applied(s, op).Some?
    ensures OfTx(Applied(s, op).value.confirmations, tx) ==
      (if Clears(op, tx) then [] else OfTx(s.confirmations, tx))
      + if op.Confirmation? && op.record.tx == tx then [op.record] else []
  {
    if op.Confirmation? {
      var kept := if op.clear then Except(s.confirmations, {op.record.tx}) else s.confirmations;
      OfTxAppend(kept, op.record, tx);
      if op.clear { OfTxExcept(s.confirmations, op.record.tx, tx); }
    }
  }

  lemma {:induction false} ConfirmationsUncleared(s: Store, ops: seq<Op>, tx: string)
    requires InTurn(s, ops).Some? && forall j :: 0 <= j < |ops| ==> !Clears(ops[j], tx)
    ensures OfTx(InTurn(s, ops).value.confirmations, tx) == OfTx(s.confirmations, tx) + Queued(ops, tx)
  {
    if ops != [] {
      var k := |ops| - 1;
      ConfirmationsUncleared(s, ops[..k], tx);
      ConfirmationsAfter(InTurn(s, ops[..k]).value, ops[k], tx);
    }
  }

  /** One more operation at the end of a stretch of the queue. */
  lemma QueuedOneMore(ops: seq<Op>, i: nat, tx: string)
    requires i < |ops|
    ensures var k := |ops| - 1;
      Queued(ops[i..], tx) ==
        Queued(ops[i..k], tx) + if ops[k].Confirmation? && ops[k].record.tx == tx then [ops[k].record] else []
  {
    assert ops[i..][..|ops| - 1 - i] == ops[i..|ops| - 1];
  }

  lemma {:induction false} ConfirmationsCleared(s: Store, ops: seq<Op>, tx: string, i: nat)
    requires InTurn(s, ops).Some? && i < |ops| && Clears(ops[i], tx)
    requires forall j :: i < j < |ops| ==> !Clears(ops[j], tx)
    ensures OfTx(InTurn(s, ops).value.confirmations, tx) == Queued(ops[i..], tx)
  {
    var k := |ops| - 1;
    ConfirmationsAfter(InTurn(s, ops[..k]).value, ops[k], tx);
    QueuedOneMore(ops, i, tx);
    if i < k {
      ConfirmationsCleared(s, ops[..k], tx, i);
      assert ops[..k][i..] == ops[i..k];
    } else {
      assert ops[i..k] == [];
    }
  }

  /** After a batch a transaction's confirmations are those queued since the last clear, that
      one's own included, or, with no clear in the batch, the stored ones followed by those
      queued. */
  lemma ConfirmationsSinceClear(s: Store, ops: seq<Op>, tx: string, i: nat)
    requires Executed(s, Grouped(ops)).Some? && i <= |ops| && (i < |ops| ==> Clears(ops[i], tx))
    requires forall j :: 0 <= j < |ops| && (i == |ops| || i < j) ==> !Clears(ops[j], tx)
    ensures OfTx(Executed(s, Grouped(ops)).value.confirmations, tx) ==
      if i < |ops| then Queued(ops[i..], tx) else OfTx(s.confirmations, tx) + Queued(ops, tx)
  {
    BatchRefinesSequence(s, ops);
    if i < |ops| { ConfirmationsCleared(s, ops, tx, i); } else { ConfirmationsUncleared(s, ops, tx); }
  }

  function Histories(ops: seq<Op>): seq<Record> {
    if ops == [] then []
    else Histories(ops[..|ops| - 1]) + if ops[|ops| - 1].History? then [ops[|ops| - 1].record] else []
  }

  lemma {:induction false} HistoryInTurn(s: Store, ops: seq<Op>)
    requires InTurn(s, ops).Some?
    ensures InTurn(s, ops).value.history == s.history + Histories(ops)
  {
    if ops != [] { HistoryInTurn(s, ops[..|ops| - 1]); }
  }

  /** No history is lost or reordered. */
  lemma HistoryIsAppended(s: Store, ops: seq<Op>)
    requires Executed(s, Grouped(ops)).Some?
    ensures Executed(s, Grouped(ops)).value.history == s.history + Histories(ops)
  {
    BatchRefinesSequence(s, ops);
    HistoryInTurn(s, ops);
  }

  // ----- Completions -----

  /** An update to a final status. */
  predicate Finishes(op: Op, tx: string) {
    op.Update? && op.tx == tx && (op.fields.status == Some(Succeeded) || op.fields.status == Some(Failed))
  }

  lemma NotedOne(done: seq<Completion>, c: Completion)
    ensures Noted(done, [c]) == if Has(done, c.tx) then done else done + [c]
  {
    assert [c][..0] == [];
  }

  lemma HasOneMore(done: seq<Completion>, c: Completion, tx: string)
    ensures Has(done + [c], tx) <==> Has(done, tx) || c.tx == tx
  {
    var more := done + [c];
    assert more[|done|] == c;
    if i :| 0 <= i < |done| && done[i].tx == tx { assert more[i].tx == tx; }
  }

  lemma CompletionsAfter(s: Store, op: Op, tx: string)
    requires Applied(s, op).Some?
    ensures var t := Applied(s, op).value;
      && s.completions <= t.completions
      && (Has(t.completions, tx) <==> Has(s.completions, tx) || Finishes(op, tx))
      && (Finishes(op, tx) && !Has(s.completions, tx) ==>
            t.completions == s.completions + [Completion(tx, op.fields.status.value)])
  {
    if op.Update? && Finishes(op, op.tx) {
      var c := Completion(op.tx, op.fields.status.value);
      assert Completes(op.tx, op.fields) == [c];
      NotedOne(s.completions, c);
      HasOneMore(s.completions, c, tx);
    }
  }

  lemma {:induction false} CompletionsInTurn(s: Store, ops: seq<Op>, tx: string)
    requires InTurn(s, ops).Some?
    ensures var t := InTurn(s, ops).value;
      && s.completions <= t.completions
      && (Has(t.completions, tx) <==> Has(s.completions, tx) || exists i :: 0 <= i < |ops| && Finishes(ops[i], tx))
  {
    if ops != [] {
      var k := |ops| - 1;
      CompletionsInTurn(s, ops[..k], tx);
      CompletionsAfter(InTurn(s, ops[..k]).value, ops[k], tx);
      if i :| 0 <= i < k && Finishes(ops[..k][i], tx) {
        assert Finishes(ops[i], tx);
      } else {
        forall i | 0 <= i < k ensures !Finishes(ops[i], tx) {
          assert ops[i] == ops[..k][i];
        }
      }
    }
  }

  lemma {:induction false} FirstCompletionInTurn(s: Store, ops: seq<Op>, tx: string, i: nat)
    requires InTurn(s, ops).Some? && !Has(s.completions, tx) && i < |ops| && Finishes(ops[i], tx)
    requires forall j :: 0 <= j < i ==> !Finishes(ops[j], tx)
    ensures Completion(tx, ops[i].fields.status.value) in InTurn(s, ops).value.completions
  {
    var k := |ops| - 1;
    CompletionsAfter(InTurn(s, ops[..k]).value, ops[k], tx);
    CompletionsInTurn(s, ops[..k], tx);
    var was, now := InTurn(s, ops[..k]).value.completions, InTurn(s, ops).value.completions;
    if i < k {
      FirstCompletionInTurn(s, ops[..k], tx, i);
      var n :| 0 <= n < |was| && was[n] == Completion(tx, ops[i].fields.status.value);
      assert now[n] == was[n];
    } else {
      forall j | 0 <= j < k ensures !Finishes(ops[..k][j], tx) {
      }
      assert now[|was|] == Completion(tx, ops[i].fields.status.value);
    }
  }

  /** After a batch a transaction has completed if and only if it had before or an update in the
      batch gives it a final status, and earlier completions stay as they are. */
  lemma CompletedExactlyWhenFinished(s: Store, ops: seq<Op>, tx: string)
    requires Executed(s, Grouped(ops)).Some?
    ensures var done := Executed(s, Grouped(ops)).value.completions;
      && s.completions <= done
      && (Has(done, tx) <==> Has(s.completions, tx) || exists i :: 0 <= i < |ops| && Finishes(ops[i], tx))
  {
    BatchRefinesSequence(s, ops);
    CompletionsInTurn(s, ops, tx);
  }

  /** A new completion has the first final status given. */
  lemma FirstCompletionStands(s: Store, ops: seq<Op>, tx: string, i: nat)
    requires Executed(s, Grouped(ops)).Some? && !Has(s.completions, tx) && i < |ops| && Finishes(ops[i], tx)
    requires forall j :: 0 <= j < i ==> !Finishes(ops[j], tx)
    ensures Completion(tx, ops[i].fields.status.value) in Executed(s, Grouped(ops)).value.completions
  {
    BatchRefinesSequence(s, ops);
    FirstCompletionInTurn(s, ops, tx, i);
  }
}
