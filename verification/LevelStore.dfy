/** Transactions in LevelDB: one record per transaction and three index entries pointing to
    it, written one key at a time, so a crash or a failing write can stop anywhere. */
module LevelStore {
  import opened Wrappers

  const TX_STATUS_PENDING: string := "Pending"

  datatype Tx = Tx(
    id: string,
    signer: string,
    nonce: Option<nat>,
    created: Option<nat>,
    status: string,
    sequence: string)

  datatype Key =
    | Data(id: string)
    | Created(time: nat, sequence: string)
    | Pending(sequence: string)
    | Nonce(signer: string, nonce: nat)

  datatype Value = Record(tx: Tx) | Ref(id: string)

  type Db = map<Key, Value>

  predicate Complete(tx: Tx) {
    tx.signer != "" && tx.nonce.Some? && tx.created.Some? && tx.id != "" && tx.status != ""
  }

  function CreatedKey(tx: Tx): Key
    requires Complete(tx)
  {
    Created(tx.created.value, tx.sequence)
  }

  function NonceKey(tx: Tx): Key
    requires Complete(tx)
  {
    Nonce(tx.signer, tx.nonce.value)
  }

  // ----- Single-key writes -----

  datatype Write = Put(key: Key, value: Value) | Del(key: Key)

  function After(db: Db, w: Write): Db {
    match w
    case Put(k, v) => db[k := v]
    case Del(k) => db - {k}
  }

  function Applied(db: Db, ws: seq<Write>): Db
    decreases |ws|
  {
    if ws == [] then db else Applied(After(db, ws[0]), ws[1..])
  }

  lemma {:induction false} AppliedAppend(db: Db, ws: seq<Write>, w: Write)
    ensures Applied(db, ws + [w]) == After(Applied(db, ws), w)
    decreases |ws|
  {
    if ws != [] {
      AppliedAppend(After(db, ws[0]), ws[1..], w);
      assert (ws + [w])[1..] == ws[1..] + [w];
    }
  }

  function IndexWrites(tx: Tx): seq<Write>
    requires Complete(tx)
  {
    if tx.status == TX_STATUS_PENDING then
      [Put(CreatedKey(tx), Ref(tx.id)), Put(Pending(tx.sequence), Ref(tx.id)), Put(NonceKey(tx), Ref(tx.id))]
    else
      [Put(CreatedKey(tx), Ref(tx.id)), Put(NonceKey(tx), Ref(tx.id))]
  }

  /** A record that is not pending has its pending entry cleared before it is written. */
  function UpdateWrites(tx: Tx): seq<Write> {
    if tx.status == TX_STATUS_PENDING then [Put(Data(tx.id), Record(tx))]
    else [Del(Pending(tx.sequence)), Put(Data(tx.id), Record(tx))]
  }

  /** A key that no write names keeps what it holds. */
  lemma {:induction false} Untouched(db: Db, ws: seq<Write>, k: Key)
    requires forall w :: w in ws ==> w.key != k
    ensures k in Applied(db, ws) <==> k in db
    ensures k in db ==> Applied(db, ws)[k] == db[k]
    decreases |ws|
  {
    if ws != [] {
      assert ws[0] in ws;
      Untouched(After(db, ws[0]), ws[1..], k);
    }
  }

  /** The index entries first, the record last. */
  function InsertWrites(tx: Tx): seq<Write>
    requires Complete(tx)
  {
    IndexWrites(tx) + UpdateWrites(tx)
  }

  /** The record first, then the index entries. */
  function DeleteWrites(tx: Tx): seq<Write>
    requires Complete(tx)
  {
    [Del(Data(tx.id)), Del(CreatedKey(tx)), Del(Pending(tx.sequence)), Del(NonceKey(tx))]
  }

  /** What a write of a transaction goes on to do; None for one refused before any write.
      sequence: the identifier a new transaction gets. */
  function Planned(db: Db, tx: Tx, newTx: bool, sequence: string): Option<seq<Write>> {
    if !Complete(tx) then None
    else if !newTx then Some(UpdateWrites(tx))
    else if tx.sequence != "" || Data(tx.id) in db then None
    else Some(InsertWrites(tx.(sequence := sequence)))
  }

  /** The stored record an update or a delete starts from. */
  function Loaded(db: Db, id: string): Option<Tx> {
    if Data(id) in db && db[Data(id)].Record? && Complete(db[Data(id)].tx) then Some(db[Data(id)].tx) else None
  }

  // ----- The store object -----

  function UpTo(n: nat, ws: seq<Write>): seq<Write> {
    if n < |ws| then ws[..n] else ws
  }

  /** Stopping within the first part of a plan. */
  lemma CutWithin(n: nat, done: seq<Write>, rest: seq<Write>)
    requires n <= |done| && rest != []
    ensures UpTo(n, done + rest) == UpTo(n, done)
  {
    assert (done + rest)[..n] == done[..n];
  }

  class LevelDBPersistence {
    var db: Db
    /** How many more writes the storage will take before one fails. */
    var healthy: nat

    constructor (healthy: nat)
      ensures db == map[] && this.healthy == healthy
    {
      db, this.healthy := map[], healthy;
    }

    method Perform(w: Write, ghost done: seq<Write>, ghost start: Db, ghost allowance: nat) returns (ok: bool)
      requires |done| + healthy == allowance && db == Applied(start, done)
      modifies this
      ensures ok == (|done| < allowance)
      ensures ok ==> db == Applied(start, done + [w]) && |done| + 1 + healthy == allowance
      ensures !ok ==> db == old(db) && healthy == old(healthy)
    {
      if healthy == 0 {
        return false;
      }
      AppliedAppend(start, done, w);
      match w {
        case Put(key, value) => db := db[key := value];
        case Del(key) => db := db - {key};
      }
      healthy := healthy - 1;
      ok := true;
    }

    /** The index entries of a new transaction, in order, up to the first that fails. */
    method WriteIndexes(tx: Tx) returns (ok: bool)
      requires Complete(tx)
      modifies this
      ensures var ws := IndexWrites(tx);
        && ok == (|ws| <= old(healthy))
        && db == Applied(old(db), UpTo(old(healthy), ws))
        && healthy == old(healthy) - |UpTo(old(healthy), ws)|
    {
      ghost var ws := IndexWrites(tx);
      ok := Perform(Put(CreatedKey(tx), Ref(tx.id)), [], old(db), old(healthy));
      if ok && tx.status == TX_STATUS_PENDING {
        ok := Perform(Put(Pending(tx.sequence), Ref(tx.id)), ws[..1], old(db), old(healthy));
        assert ws[..1] + [ws[1]] == ws[..2];
      }
      if ok {
        ok := Perform(Put(NonceKey(tx), Ref(tx.id)), ws[..|ws| - 1], old(db), old(healthy));
        assert ws[..|ws| - 1] + [ws[|ws| - 1]] == ws;
      }
    }

    /** writeTransactionLocked: either refused with no write, or the plan up to the first
        write that fails. */
    method WriteTransactionLocked(tx: Tx, newTx: bool, sequence: string) returns (ok: bool, written: Tx)
      modifies this
      ensures Planned(old(db), tx, newTx, sequence).None? ==> !ok && db == old(db) && healthy == old(healthy)
      ensures Planned(old(db), tx, newTx, sequence).Some? ==>
        var ws := Planned(old(db), tx, newTx, sequence).value;
        db == Applied(old(db), UpTo(old(healthy), ws)) && ok == (|ws| <= old(healthy))
      ensures written == if newTx && tx.sequence == "" && Complete(tx) then tx.(sequence := sequence) else tx
      ensures (tx.signer == "" || tx.nonce.None? || tx.created.None? || tx.id == "" || tx.status == ""
               || (newTx && (tx.sequence != "" || Data(tx.id) in old(db)))) <==>
        Planned(old(db), tx, newTx, sequence).None?
    {
      written := tx;
      ok := false;
      if tx.signer == "" || tx.nonce.None? || tx.created.None? || tx.id == "" || tx.status == "" {
        return;
      }
      if newTx {
        if tx.sequence != "" {
          return;
        }
        written := tx.(sequence := sequence);
        if Data(tx.id) in db {
          return;
        }
        ok := WriteIndexes(written);
        if ok {
          ok := WriteRecord(written, IndexWrites(written), old(db), old(healthy));
        } else {
          CutWithin(old(healthy), IndexWrites(written), UpdateWrites(written));
        }
      } else {
        ok := WriteRecord(written, [], old(db), old(healthy));
        assert [] + UpdateWrites(written) == UpdateWrites(written);
      }
    }

    /** The pending entry of a record that is not pending is cleared, then the record is
        written; done: what has been written before. */
    method WriteRecord(tx: Tx, ghost done: seq<Write>, ghost start: Db, ghost allowance: nat) returns (ok: bool)
      requires |done| + healthy == allowance && db == Applied(start, done)
      modifies this
      ensures var plan := done + UpdateWrites(tx);
        db == Applied(start, UpTo(allowance, plan)) && ok == (|plan| <= allowance)
    {
      ghost var before := done;
      if tx.status != TX_STATUS_PENDING {
        ok := Perform(Del(Pending(tx.sequence)), done, start, allowance);
        if !ok {
          CutWithin(allowance, done, UpdateWrites(tx));
          return;
        }
        before := done + [Del(Pending(tx.sequence))];
      }
      assert done + UpdateWrites(tx) == before + [Put(Data(tx.id), Record(tx))];
      ok := Perform(Put(Data(tx.id), Record(tx)), before, start, allowance);
      if !ok { CutWithin(allowance, before, [Put(Data(tx.id), Record(tx))]); }
    }

    method DeleteTransaction(id: string) returns (ok: bool)
      modifies this
      ensures Loaded(old(db), id).None? ==> ok && db == old(db)
      ensures Loaded(old(db), id).Some? ==>
        var ws := DeleteWrites(Loaded(old(db), id).value);
        db == Applied(old(db), UpTo(old(healthy), ws)) && ok == (|ws| <= old(healthy))
    {
      var loaded := Loaded(db, id);
      if loaded.None? {
        return true;
      }
      var tx := loaded.value;
      var writes := [Del(Data(tx.id)), Del(CreatedKey(tx)), Del(Pending(tx.sequence)), Del(NonceKey(tx))];
      for n := 0 to |writes|
        invariant n + healthy == old(healthy) && db == Applied(old(db), writes[..n])
      {
        assert writes[..n] + [writes[n]] == writes[..n + 1];
        ok := Perform(writes[n], writes[..n], old(db), old(healthy));
        if !ok {
          return;
        }
      }
      assert writes[..|writes|] == writes;
      ok := true;
    }
  }

  // ----- What survives any crash -----

  predicate OwnEntries(db: Db, tx: Tx)
    requires Complete(tx)
  {
    && CreatedKey(tx) in db && db[CreatedKey(tx)] == Ref(tx.id)
    && NonceKey(tx) in db && db[NonceKey(tx)] == Ref(tx.id)
    && (Pending(tx.sequence) in db ==> tx.status == TX_STATUS_PENDING)
  }

  predicate Filed(db: Db, id: string)
    requires Data(id) in db
  {
    var v := db[Data(id)];
    v.Record? && v.tx.id == id && Complete(v.tx) && OwnEntries(db, v.tx)
  }

  /** Each stored transaction has created-time and nonce entries of its own, and a pending
      entry under its sequence ID only while its stored status is Pending. */
  ghost predicate Indexed(db: Db) {
    forall id :: Data(id) in db ==> Filed(db, id)
  }

  ghost predicate Stored(db: Db, tx: Tx) {
    Data(tx.id) in db && db[Data(tx.id)] == Record(tx)
  }

  /** Nobody stored uses this sequence ID. */
  ghost predicate FreshSequence(db: Db, sequence: string) {
    forall tx :: Stored(db, tx) ==> tx.sequence != sequence
  }

  ghost predicate FreshNonce(db: Db, signer: string, nonce: nat) {
    forall tx :: Stored(db, tx) ==> tx.signer != signer || tx.nonce != Some(nonce)
  }

  /** A write to an index entry that no stored transaction relies on. */
  ghost predicate Spares(db: Db, w: Write) {
    && !w.key.Data?
    && (w.Put? && w.key.Pending? ==> FreshSequence(db, w.key.sequence))
    && forall tx :: Stored(db, tx) && Complete(tx) ==> w.key != CreatedKey(tx) && w.key != NonceKey(tx)
  }

  ghost predicate SameRecords(a: Db, b: Db) {
    forall id :: (Data(id) in a <==> Data(id) in b) && (Data(id) in a ==> a[Data(id)] == b[Data(id)])
  }

  lemma SparedKeepsIndexed(db: Db, w: Write)
    requires Indexed(db) && Spares(db, w)
    ensures Indexed(After(db, w)) && SameRecords(db, After(db, w))
  {
    forall id | Data(id) in After(db, w)
      ensures Filed(After(db, w), id)
    {
      assert Filed(db, id) && Stored(db, db[Data(id)].tx);
    }
  }

  lemma {:induction false} AllSparedKeepIndexed(db: Db, ws: seq<Write>)
    requires Indexed(db) && forall w :: w in ws ==> Spares(db, w)
    ensures Indexed(Applied(db, ws)) && SameRecords(db, Applied(db, ws))
    decreases |ws|
  {
    if ws != [] {
      SparedKeepsIndexed(db, ws[0]);
      var next := After(db, ws[0]);
      forall w | w in ws[1..] ensures Spares(next, w) {
        assert Spares(db, w);
        forall tx | Stored(next, tx) ensures Stored(db, tx) {
          assert Data(tx.id) in db;
        }
      }
      AllSparedKeepIndexed(next, ws[1..]);
    }
  }

  ghost predicate Insertable(db: Db, tx: Tx) {
    && Complete(tx)
    && Data(tx.id) !in db
    && FreshSequence(db, tx.sequence)
    && FreshNonce(db, tx.signer, tx.nonce.value)
  }

  lemma InsertSpares(db: Db, tx: Tx, n: nat)
    requires Insertable(db, tx) && n < 3
    ensures Spares(db, InsertWrites(tx)[n])
  {
  }

  /** However many of an insert's writes happened. */
  lemma InsertKeepsIndexed(db: Db, tx: Tx, cut: nat)
    requires Indexed(db) && Insertable(db, tx)
    ensures Indexed(Applied(db, UpTo(cut, InsertWrites(tx))))
    ensures SameRecords(if cut < 4 then db else db[Data(tx.id) := Record(tx)], Applied(db, UpTo(cut, InsertWrites(tx))))
  {
    var ws := InsertWrites(tx);
    forall w | w in ws[..3] ensures Spares(db, w) {
      var n :| 0 <= n < 3 && ws[n] == w;
      InsertSpares(db, tx, n);
    }
    if cut < 4 {
      AllSparedKeepIndexed(db, ws[..cut]);
    } else {
      AllSparedKeepIndexed(db, ws[..3]);
      var almost := Applied(db, ws[..3]);
      InsertLeaves(db, tx);
      AppliedAppend(db, ws[..3], ws[3]);
      assert ws[..3] + [ws[3]] == ws;
      var full := Applied(db, ws);
      forall id | Data(id) in full ensures Filed(full, id) {
        if id != tx.id { assert Filed(almost, id); }
      }
    }
  }

  /** The index entries are all in place just before the record is. */
  lemma InsertLeaves(db: Db, tx: Tx)
    requires Complete(tx)
    ensures OwnEntries(Applied(db, InsertWrites(tx)[..3]), tx)
  {
    var ws := InsertWrites(tx);
    var one := After(db, ws[0]);
    var two := After(one, ws[1]);
    assert ws[..3] == [ws[0], ws[1], ws[2]];
    assert Applied(db, ws[..3]) == After(two, ws[2]) by {
      assert ws[..3][1..] == [ws[1], ws[2]];
      assert [ws[1], ws[2]][1..] == [ws[2]];
      assert Applied(two, [ws[2]]) == After(two, ws[2]);
    }
  }

  lemma UpdateKeepsIndexed(db: Db, id: string, status: string, cut: nat)
    requires Indexed(db) && Data(id) in db && status != ""
    ensures Indexed(Applied(db, UpTo(cut, UpdateWrites(db[Data(id)].tx.(status := status)))))
  {
    assert Filed(db, id);
    var was := db[Data(id)].tx;
    var tx := was.(status := status);
    var ws := UpdateWrites(tx);
    var cleared := db;
    if status != TX_STATUS_PENDING {
      cleared := After(db, ws[0]);
      SparedKeepsIndexed(db, ws[0]);
      assert ws[1..] == [Put(Data(id), Record(tx))];
    }
    assert Filed(cleared, id);
    var end := After(cleared, Put(Data(id), Record(tx)));
    forall other | Data(other) in end ensures Filed(end, other) {
      assert Filed(cleared, other);
    }
    UpdateResult(db, tx, cut);
  }

  lemma UpdateResult(db: Db, tx: Tx, cut: nat)
    ensures var put := Put(Data(tx.id), Record(tx));
      var cleared := if tx.status == TX_STATUS_PENDING then db else After(db, Del(Pending(tx.sequence)));
      var r := Applied(db, UpTo(cut, UpdateWrites(tx)));
      r == db || r == cleared || r == After(cleared, put)
  {
    var ws := UpdateWrites(tx);
    if tx.status != TX_STATUS_PENDING {
      var w := ws[0];
      assert ws[..1] == [w] && [w][1..] == [];
      assert Applied(db, [w]) == After(db, w);
      assert ws == [w] + [ws[1]];
      AppliedAppend(db, [w], ws[1]);
    } else {
      AppliedAppend(db, [], ws[0]);
      assert [] + [ws[0]] == ws;
    }
  }

  lemma DeleteKeepsIndexed(db: Db, id: string, cut: nat)
    requires Indexed(db) && Data(id) in db
    ensures Filed(db, id)
    ensures Indexed(Applied(db, UpTo(cut, DeleteWrites(db[Data(id)].tx))))
    ensures SameRecords(if cut == 0 then db else db - {Data(id)}, Applied(db, UpTo(cut, DeleteWrites(db[Data(id)].tx))))
  {
    assert Filed(db, id);
    var tx := db[Data(id)].tx;
    var ws := DeleteWrites(tx);
    if cut > 0 {
      var gone := After(db, ws[0]);
      forall other | Data(other) in gone ensures Filed(gone, other) {
        assert Filed(db, other);
      }
      var rest := UpTo(cut, ws)[1..];
      forall w | w in rest ensures Spares(gone, w) {
        forall t | Stored(gone, t) && Complete(t) ensures w.key != CreatedKey(t) && w.key != NonceKey(t) {
          assert Filed(db, t.id);
        }
      }
      AllSparedKeepIndexed(gone, rest);
    }
  }

  // ----- The pending index -----

  /** A whole insert of a pending transaction lists it as pending. */
  lemma InsertListsPending(db: Db, tx: Tx)
    requires Complete(tx)
    ensures var after := Applied(db, InsertWrites(tx));
      && (Pending(tx.sequence) in after <==> tx.status == TX_STATUS_PENDING)
      && (tx.status == TX_STATUS_PENDING ==> after[Pending(tx.sequence)] == Ref(tx.id))
  {
    var ws := InsertWrites(tx);
    AppliedAppend(db, [], ws[0]);
    AppliedAppend(db, [ws[0]], ws[1]);
    AppliedAppend(db, [ws[0], ws[1]], ws[2]);
    AppliedAppend(db, [ws[0], ws[1], ws[2]], ws[3]);
    assert [] + [ws[0]] == [ws[0]] && [ws[0]] + [ws[1]] == [ws[0], ws[1]];
    assert [ws[0], ws[1]] + [ws[2]] == [ws[0], ws[1], ws[2]] && [ws[0], ws[1], ws[2]] + [ws[3]] == ws;
  }

  /** A whole update keeps a transaction listed exactly when it was and stays pending. */
  lemma UpdateListsPending(db: Db, tx: Tx)
    ensures var after := Applied(db, UpdateWrites(tx));
      && Stored(after, tx)
      && (Pending(tx.sequence) in after <==> tx.status == TX_STATUS_PENDING && Pending(tx.sequence) in db)
  {
    var ws := UpdateWrites(tx);
    AppliedAppend(db, [], ws[0]);
    assert [] + [ws[0]] == [ws[0]];
    if tx.status != TX_STATUS_PENDING {
      AppliedAppend(db, [ws[0]], ws[1]);
      assert [ws[0]] + [ws[1]] == ws;
    } else {
      assert [ws[0]] == ws;
    }
  }

  /** So a transaction that has left Pending and come back is stored as Pending and not
      listed, whatever the store held before. */
  lemma ResumedIsNotListed(db: Db, tx: Tx, away: string)
    requires tx.status == TX_STATUS_PENDING && away != TX_STATUS_PENDING
    ensures var after := Applied(Applied(db, UpdateWrites(tx.(status := away))), UpdateWrites(tx));
      Stored(after, tx) && Pending(tx.sequence) !in after
  {
    UpdateListsPending(db, tx.(status := away));
    UpdateListsPending(Applied(db, UpdateWrites(tx.(status := away))), tx);
  }

  // ----- Serial histories with a crash after any write -----

  /** cut: how many of the operation's writes reach the storage. */
  datatype Op =
    | Insert(tx: Tx, sequence: string, cut: nat)
    | Update(id: string, status: string, cut: nat)
    | Delete(id: string, cut: nat)

  function Plan(db: Db, op: Op): seq<Write> {
    match op
    case Insert(tx, sequence, cut) =>
      var p := Planned(db, tx, true, sequence);
      if p.Some? then UpTo(cut, p.value) else []
    case Update(id, status, cut) =>
      var was := Loaded(db, id);
      if was.None? || status == "" then [] else UpTo(cut, UpdateWrites(was.value.(status := status)))
    case Delete(id, cut) =>
      var was := Loaded(db, id);
      if was.None? then [] else UpTo(cut, DeleteWrites(was.value))
  }

  /** Generated sequence IDs are new, and nonces handed in are not in use. */
  ghost predicate Proper(db: Db, op: Op) {
    op.Insert? ==>
      && FreshSequence(db, op.sequence)
      && (op.tx.nonce.Some? ==> FreshNonce(db, op.tx.signer, op.tx.nonce.value))
  }

  lemma OpKeepsIndexed(db: Db, op: Op)
    requires Indexed(db) && Proper(db, op)
    ensures Indexed(Applied(db, Plan(db, op)))
  {
    match op
    case Insert(tx, sequence, cut) =>
      if Planned(db, tx, true, sequence).Some? { InsertKeepsIndexed(db, tx.(sequence := sequence), cut); }
    case Update(id, status, cut) =>
      if Data(id) in db && status != "" { UpdateKeepsIndexed(db, id, status, cut); }
    case Delete(id, cut) =>
      if Data(id) in db { DeleteKeepsIndexed(db, id, cut); }
  }

  /** Each operation in turn, cut short or not, keeping to fresh sequence IDs and nonces. */
  ghost predicate History(db: Db, ops: seq<Op>, end: Db)
    decreases |ops|
  {
    if ops == [] then end == db
    else Proper(db, ops[0]) && History(Applied(db, Plan(db, ops[0])), ops[1..], end)
  }

  /** At every crash point of every serial history from an empty store, whatever was cut short
      before, the indexes stand: the state after any cut is itself the end of a history. */
  lemma {:induction false} CrashConsistency(db: Db, ops: seq<Op>, end: Db)
    requires Indexed(db) && History(db, ops, end)
    ensures Indexed(end)
    decreases |ops|
  {
    if ops != [] {
      OpKeepsIndexed(db, ops[0]);
      CrashConsistency(Applied(db, Plan(db, ops[0])), ops[1..], end);
    }
  }

  // ----- Which pending transactions are listed, over whole histories -----

  /** The IDs whose stored transaction has left Pending since its insert: it was inserted
      otherwise, or an update to another status got at least as far as its first write. */
  function LeftBy(db: Db, op: Op, left: set<string>): set<string> {
    match op
    case Insert(tx, sequence, cut) =>
      if Planned(db, tx, true, sequence).None? || cut < 4 then left
      else if tx.status == TX_STATUS_PENDING then left - {tx.id}
      else left + {tx.id}
    case Update(id, status, cut) =>
      if Loaded(db, id).Some? && status != "" && status != TX_STATUS_PENDING && cut > 0 then left + {id} else left
    case Delete(_, _) => left
  }

  function LeftPending(db: Db, ops: seq<Op>, left: set<string>): set<string>
    decreases |ops|
  {
    if ops == [] then left
    else LeftPending(Applied(db, Plan(db, ops[0])), ops[1..], LeftBy(db, ops[0], left))
  }

  ghost predicate OwnSequences(db: Db) {
    forall a, b :: Stored(db, a) && Stored(db, b) && a.sequence == b.sequence ==> a.id == b.id
  }

  predicate ListedUnlessLeft(db: Db, left: set<string>, tx: Tx) {
    && (Pending(tx.sequence) in db <==> tx.id !in left)
    && (Pending(tx.sequence) in db ==> db[Pending(tx.sequence)] == Ref(tx.id))
  }

  ghost predicate AllListedUnlessLeft(db: Db, left: set<string>) {
    forall tx :: Stored(db, tx) ==> ListedUnlessLeft(db, left, tx)
  }

  /** Writes to other sequence IDs' entries leave a transaction's listing alone. */
  lemma ListingUntouched(db: Db, ws: seq<Write>, left: set<string>, tx: Tx)
    requires ListedUnlessLeft(db, left, tx) && forall w :: w in ws ==> w.key != Pending(tx.sequence)
    ensures ListedUnlessLeft(Applied(db, ws), left, tx)
  {
    Untouched(db, ws, Pending(tx.sequence));
  }

  lemma InsertKeepsListing(db: Db, tx: Tx, sequence: string, cut: nat, left: set<string>)
    requires Indexed(db) && OwnSequences(db) && AllListedUnlessLeft(db, left)
    requires var op := Insert(tx, sequence, cut);
      Proper(db, op) && Planned(db, tx, true, sequence).Some?
    ensures var op := Insert(tx, sequence, cut);
      var after := Applied(db, Plan(db, op));
      OwnSequences(after) && AllListedUnlessLeft(after, LeftBy(db, op, left))
  {
    var op := Insert(tx, sequence, cut);
    var filed := tx.(sequence := sequence);
    var ws := Plan(db, op);
    var after := Applied(db, ws);
    InsertKeepsIndexed(db, filed, cut);
    forall t | Stored(after, t)
      ensures if cut >= 4 && t.id == tx.id then t == filed else Stored(db, t) && t.id != tx.id
    {
      assert Data(t.id) in after;
    }
    forall t | Stored(after, t) ensures ListedUnlessLeft(after, LeftBy(db, op, left), t) {
      if cut >= 4 && t.id == tx.id {
        InsertListsPending(db, filed);
      } else {
        OtherListingStays(db, filed, cut, left, t);
      }
    }
  }

  /** An insert under a sequence ID of its own leaves the others' listings alone. */
  lemma OtherListingStays(db: Db, filed: Tx, cut: nat, left: set<string>, t: Tx)
    requires Complete(filed) && ListedUnlessLeft(db, left, t) && t.sequence != filed.sequence && t.id != filed.id
    ensures ListedUnlessLeft(Applied(db, UpTo(cut, InsertWrites(filed))), left, t)
    ensures ListedUnlessLeft(Applied(db, UpTo(cut, InsertWrites(filed))), left - {filed.id}, t)
    ensures ListedUnlessLeft(Applied(db, UpTo(cut, InsertWrites(filed))), left + {filed.id}, t)
  {
    ListingUntouched(db, UpTo(cut, InsertWrites(filed)), left, t);
  }

  lemma UpdateKeepsListing(db: Db, id: string, status: string, cut: nat, left: set<string>)
    requires Indexed(db) && OwnSequences(db) && AllListedUnlessLeft(db, left)
    requires Loaded(db, id).Some? && status != ""
    ensures var op := Update(id, status, cut);
      var after := Applied(db, Plan(db, op));
      OwnSequences(after) && AllListedUnlessLeft(after, LeftBy(db, op, left))
  {
    assert Filed(db, id);
    var op := Update(id, status, cut);
    var was := db[Data(id)].tx;
    var tx := was.(status := status);
    var ws := Plan(db, op);
    var after := Applied(db, ws);
    UpdateResult(db, tx, cut);
    UpdateUnlists(db, tx, cut);
    forall t | Stored(after, t)
      ensures Stored(db, t.(status := if t.id == id then was.status else t.status))
      ensures ListedUnlessLeft(after, LeftBy(db, op, left), t)
    {
      var before := t.(status := if t.id == id then was.status else t.status);
      assert Stored(db, before) && Stored(db, was);
      assert ListedUnlessLeft(db, left, before);
      if t.id != id { ListingUntouched(db, ws, left, before); }
    }
  }

  /** What an update, cut anywhere, does to its own listing. */
  lemma UpdateUnlists(db: Db, tx: Tx, cut: nat)
    ensures var after := Applied(db, UpTo(cut, UpdateWrites(tx)));
      && (Pending(tx.sequence) in after <==>
            Pending(tx.sequence) in db && (tx.status == TX_STATUS_PENDING || cut == 0))
      && (Pending(tx.sequence) in after ==> after[Pending(tx.sequence)] == db[Pending(tx.sequence)])
  {
    var ws := UpTo(cut, UpdateWrites(tx));
    if tx.status == TX_STATUS_PENDING || cut == 0 {
      Untouched(db, ws, Pending(tx.sequence));
    } else {
      assert ws[0] == Del(Pending(tx.sequence));
      Untouched(After(db, ws[0]), ws[1..], Pending(tx.sequence));
    }
  }

  lemma DeleteKeepsListing(db: Db, id: string, cut: nat, left: set<string>)
    requires Indexed(db) && OwnSequences(db) && AllListedUnlessLeft(db, left) && Loaded(db, id).Some?
    ensures var after := Applied(db, Plan(db, Delete(id, cut)));
      OwnSequences(after) && AllListedUnlessLeft(after, left)
  {
    var ws := Plan(db, Delete(id, cut));
    var after := Applied(db, ws);
    DeleteKeepsIndexed(db, id, cut);
    var gone := db[Data(id)].tx;
    forall t | Stored(after, t)
      ensures Stored(db, t) && ListedUnlessLeft(after, left, t)
    {
      assert Data(t.id) in after;
      assert Stored(db, t) && Stored(db, gone);
      if cut == 0 {
        assert ws == [];
      } else {
        ListingUntouched(db, ws, left, t);
      }
    }
  }

  lemma {:induction false} HistoryKeepsListing(db: Db, ops: seq<Op>, end: Db, left: set<string>)
    requires Indexed(db) && OwnSequences(db) && AllListedUnlessLeft(db, left) && History(db, ops, end)
    ensures AllListedUnlessLeft(end, LeftPending(db, ops, left))
    decreases |ops|
  {
    if ops != [] {
      var next := Applied(db, Plan(db, ops[0]));
      OpKeepsIndexed(db, ops[0]);
      match ops[0] {
        case Insert(tx, sequence, cut) =>
          if Planned(db, tx, true, sequence).Some? { InsertKeepsListing(db, tx, sequence, cut, left); }
        case Update(id, status, cut) =>
          if Loaded(db, id).Some? && status != "" { UpdateKeepsListing(db, id, status, cut, left); }
        case Delete(id, cut) =>
          if Loaded(db, id).Some? { DeleteKeepsListing(db, id, cut, left); }
      }
      HistoryKeepsListing(next, ops[1..], end, LeftBy(db, ops[0], left));
    }
  }

  /** After every serial history from an empty store, cut anywhere, a stored transaction is
      listed as pending, under its own sequence ID, if and only if it was inserted as Pending
      and no update to another status has performed its first write since. */
  lemma ListedExactlyUntilItLeaves(ops: seq<Op>, end: Db, tx: Tx)
    requires History(map[], ops, end) && Stored(end, tx)
    ensures Pending(tx.sequence) in end <==> tx.id !in LeftPending(map[], ops, {})
    ensures Pending(tx.sequence) in end ==> end[Pending(tx.sequence)] == Ref(tx.id)
  {
    HistoryKeepsListing(map[], ops, end, {});
    assert ListedUnlessLeft(end, LeftPending(map[], ops, {}), tx);
  }
}
