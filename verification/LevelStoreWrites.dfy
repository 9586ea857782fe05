/** What uninterrupted inserts, updates and deletes leave in the store, key by key, and that a
    delete undoes an insert. */
module LevelStoreWrites {
  import opened Wrappers
  import opened LevelStore

  lemma FourWrites(db: Db, a: Write, b: Write, c: Write, d: Write)
    ensures Applied(db, [a, b, c, d]) == After(After(After(After(db, a), b), c), d)
  {
    AppliedAppend(db, [], a);
    AppliedAppend(db, [a], b);
    AppliedAppend(db, [a, b], c);
    AppliedAppend(db, [a, b, c], d);
    assert [] + [a] == [a] && [a] + [b] == [a, b] && [a, b] + [c] == [a, b, c] && [a, b, c] + [d] == [a, b, c, d];
  }

  /** A whole insert leaves the record and an index entry for each of creation time, nonce and,
      while Pending, sequence ID, all naming the transaction, and changes nothing else. */
  lemma WholeInsert(db: Db, tx: Tx)
    requires Complete(tx)
    ensures var entries := db[Created(tx.created.value, tx.sequence) := Ref(tx.id)]
                             [Nonce(tx.signer, tx.nonce.value) := Ref(tx.id)][Data(tx.id) := Record(tx)];
      Applied(db, InsertWrites(tx)) ==
        if tx.status == "Pending" then entries[Pending(tx.sequence) := Ref(tx.id)] else entries - {Pending(tx.sequence)}
  {
    var ws := InsertWrites(tx);
    var c, n, p, d := Created(tx.created.value, tx.sequence), Nonce(tx.signer, tx.nonce.value), Pending(tx.sequence),
      Data(tx.id);
    if tx.status == "Pending" {
      FourWrites(db, Put(c, Ref(tx.id)), Put(p, Ref(tx.id)), Put(n, Ref(tx.id)), Put(d, Record(tx)));
      assert ws == [Put(c, Ref(tx.id)), Put(p, Ref(tx.id)), Put(n, Ref(tx.id)), Put(d, Record(tx))];
    } else {
      FourWrites(db, Put(c, Ref(tx.id)), Put(n, Ref(tx.id)), Del(p), Put(d, Record(tx)));
      assert ws == [Put(c, Ref(tx.id)), Put(n, Ref(tx.id)), Del(p), Put(d, Record(tx))];
    }
  }

  /** A whole update replaces the record, and takes the pending entry away unless the status is
      Pending; nothing else changes. */
  lemma WholeUpdate(db: Db, tx: Tx)
    ensures Applied(db, UpdateWrites(tx)) ==
      (if tx.status == "Pending" then db else db - {Pending(tx.sequence)})[Data(tx.id) := Record(tx)]
  {
    var ws := UpdateWrites(tx);
    AppliedAppend(db, [], ws[0]);
    assert [] + [ws[0]] == [ws[0]];
    if tx.status != "Pending" {
      AppliedAppend(db, [ws[0]], ws[1]);
      assert [ws[0]] + [ws[1]] == ws;
    } else {
      assert [ws[0]] == ws;
    }
  }

  /** The keys that belong to a transaction. */
  function KeysOf(tx: Tx): set<Key>
    requires Complete(tx)
  {
    {Data(tx.id), Created(tx.created.value, tx.sequence), Pending(tx.sequence), Nonce(tx.signer, tx.nonce.value)}
  }

  /** A whole delete takes away the transaction's four keys and no other. */
  lemma WholeDelete(db: Db, tx: Tx)
    requires Complete(tx)
    ensures Applied(db, DeleteWrites(tx)) == db - KeysOf(tx)
  {
    var ws := DeleteWrites(tx);
    FourWrites(db, ws[0], ws[1], ws[2], ws[3]);
    assert ws == [ws[0], ws[1], ws[2], ws[3]];
  }

  /** One update of the status after another. */
  function Updates(tx: Tx, statuses: seq<string>): seq<Write> {
    if statuses == [] then []
    else Updates(tx, statuses[..|statuses| - 1]) + UpdateWrites(tx.(status := statuses[|statuses| - 1]))
  }

  lemma {:induction false} AppliedInTurn(db: Db, a: seq<Write>, b: seq<Write>)
    ensures Applied(db, a + b) == Applied(Applied(db, a), b)
    decreases |b|
  {
    if b == [] {
      assert a + b == a;
    } else {
      AppliedAppend(db, a, b[0]);
      AppliedInTurn(db, a + [b[0]], b[1..]);
      assert (a + [b[0]]) + b[1..] == a + b;
    }
  }

  lemma {:induction false} UpdatesStayWithin(db: Db, tx: Tx, statuses: seq<string>)
    requires Complete(tx)
    ensures Applied(db, Updates(tx, statuses)) - KeysOf(tx) == db - KeysOf(tx)
  {
    if statuses != [] {
      var k := |statuses| - 1;
      var now := tx.(status := statuses[k]);
      UpdatesStayWithin(db, tx, statuses[..k]);
      AppliedInTurn(db, Updates(tx, statuses[..k]), UpdateWrites(now));
      WholeUpdate(Applied(db, Updates(tx, statuses[..k])), now);
    }
  }

  /** A store that has none of the transaction's keys is exactly what it was after the insert, any
      updates of the status, and the delete. */
  lemma DeleteUndoesInsert(db: Db, tx: Tx, statuses: seq<string>)
    requires Complete(tx) && forall k :: k in KeysOf(tx) ==> k !in db
    ensures Applied(Applied(Applied(db, InsertWrites(tx)), Updates(tx, statuses)), DeleteWrites(tx)) == db
  {
    var inserted := Applied(db, InsertWrites(tx));
    WholeInsert(db, tx);
    assert inserted - KeysOf(tx) == db;
    UpdatesStayWithin(inserted, tx, statuses);
    WholeDelete(Applied(inserted, Updates(tx, statuses)), tx);
  }
}
