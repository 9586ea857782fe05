/** What every careful run over LevelDB keeps, so that nonces go up. */
module LevelNonceSafety {
  import opened Wrappers
  import opened LevelStore
  import opened LevelNonces

  // ----- What the index must tell -----

  predicate GoodRecord(v: Value, id: string) {
    v.Record? && v.tx.id == id && Complete(v.tx)
  }

  predicate GoodEntry(v: Value, signer: string) {
    v.Ref? && v.id != "" && signer != ""
  }

  ghost predicate Typed(db: Db) {
    && (forall id :: Data(id) in db ==> GoodRecord(db[Data(id)], id))
    && (forall s, n :: Nonce(s, n) in db ==> GoodEntry(db[Nonce(s, n)], s))
  }

  /** An entry may lead to a record other than the one it was written for, as long as that
      record's nonce is not further back than just below the entry. */
  predicate NearEntry(db: Db, s: string, n: nat)
    requires Nonce(s, n) in db
  {
    var v := db[Nonce(s, n)];
    v.Ref? && Data(v.id) in db && db[Data(v.id)].Record? ==>
      db[Data(v.id)].tx.nonce.Some? && n <= db[Data(v.id)].tx.nonce.value + 1
  }

  ghost predicate Near(db: Db) {
    forall s, n :: Nonce(s, n) in db ==> NearEntry(db, s, n)
  }

  ghost predicate Highest(db: Db, signer: string, last: Option<nat>) {
    forall tx :: Stored(db, tx) && tx.signer == signer ==>
      tx.nonce.Some? && last.Some? && tx.nonce.value <= last.value
  }

  /** What is read is not below a transaction that is anchored. */
  lemma ReadingReaches(db: Db, signer: string, entries: seq<Entry>, tx: Tx)
    requires Typed(db) && Near(db) && Iterates(entries, db, signer)
    requires Stored(db, tx) && tx.signer == signer && Anchored(db, tx)
    ensures tx.nonce.Some? && LastNonce(db, entries).Some? && tx.nonce.value <= LastNonce(db, entries).value
  {
    var k: nat :| AnchoredAt(db, tx, k);
    var i :| 0 <= i < |entries| && entries[i].nonce == k;
    assert entries[i].id == tx.id;
    var p := FirstResolved(db, entries);
    assert p <= i && entries[p].nonce >= k;
    assert GoodRecord(db[Data(entries[p].id)], entries[p].id);
    if entries[p].nonce > k {
      assert Nonce(signer, entries[p].nonce) in db;
      assert entries[p].nonce > tx.nonce.value;
      assert NearEntry(db, signer, entries[p].nonce);
    } else {
      assert p == i;
    }
  }

  /** Reading the index down from the top misses nothing stored, and finds exactly the highest
      stored nonce when the entry it stops at leads to its own record. */
  lemma LastIsHighest(db: Db, signer: string, entries: seq<Entry>)
    requires Typed(db) && Near(db) && Iterates(entries, db, signer)
    requires forall tx :: Stored(db, tx) && Complete(tx) ==> Anchored(db, tx)
    ensures Highest(db, signer, LastNonce(db, entries))
    ensures var p := FirstResolved(db, entries);
      && p < |entries| && db[Data(entries[p].id)].tx.signer == signer
      && db[Data(entries[p].id)].tx.nonce == Some(entries[p].nonce) ==>
        exists tx :: Stored(db, tx) && tx.signer == signer && tx.nonce == LastNonce(db, entries)
  {
    var p := FirstResolved(db, entries);
    if p < |entries| {
      assert GoodRecord(db[Data(entries[p].id)], entries[p].id);
      assert Stored(db, db[Data(entries[p].id)].tx);
    }
    forall tx | Stored(db, tx) && tx.signer == signer
      ensures tx.nonce.Some? && LastNonce(db, entries).Some? && tx.nonce.value <= LastNonce(db, entries).value
    {
      assert GoodRecord(db[Data(tx.id)], tx.id);
      ReadingReaches(db, signer, entries, tx);
    }
  }

  // ----- What stays held -----

  lemma HeldIsAnchored(s: System, id: Option<string>, db: Db, tx: Tx)
    requires Held(s, id, db, tx)
    ensures Anchored(db, tx)
  {
    assert Possible(s, id, db, {});
    assert db - {} == db;
  }

  /** Taking away entries that do not name the transaction does not loosen it. */
  lemma AnchorStays(db: Db, tx: Tx, gone: set<Key>)
    requires Anchored(db, tx)
    requires forall n: nat :: Nonce(tx.signer, n) in gone && Nonce(tx.signer, n) in db ==>
      db[Nonce(tx.signer, n)] != Ref(tx.id)
    ensures Anchored(db - gone, tx)
  {
    var k: nat :| AnchoredAt(db, tx, k);
    assert AnchoredAt(db - gone, tx, k);
  }

  ghost predicate SameEntries(a: Db, b: Db) {
    forall sg, n ::
      && (Nonce(sg, n) in a <==> Nonce(sg, n) in b)
      && (Nonce(sg, n) in a ==> a[Nonce(sg, n)] == b[Nonce(sg, n)])
  }

  lemma SameEntriesKeepAnchor(a: Db, b: Db, tx: Tx)
    requires SameEntries(a, b) && Anchored(a, tx)
    ensures Anchored(b, tx)
  {
    var k: nat :| AnchoredAt(a, tx, k);
    assert AnchoredAt(b, tx, k);
  }

  /** Nothing new is under way. */
  ghost predicate NoneNew(s: System, t: System) {
    forall todo :: Underway(t, todo) && todo != [] ==> Underway(s, todo)
  }

  lemma ComesBefore(s: System, t: System, id: Option<string>, gone: set<Key>, key: Key)
    requires NoneNew(s, t) && Comes(t, id, gone, key)
    ensures Comes(s, id, gone, key)
  {
    var todo: seq<Write>, m: nat :|
      && Underway(t, todo) && !TakesRecordFirst(todo, id) && m < |todo| && todo[m].key == key
      && forall l :: 0 <= l <= m ==> todo[l].key in gone;
    assert Underway(s, todo);
  }

  /** With the same entries and nothing new under way. */
  lemma HeldStill(s: System, t: System, id: Option<string>, before: Db, after: Db, tx: Tx)
    requires Held(s, id, before, tx) && NoneNew(s, t) && SameEntries(before, after)
    ensures Held(t, id, after, tx)
  {
    forall gone: set<Key> | Possible(t, id, after, gone) ensures Anchored(after - gone, tx) {
      forall sg, n | Nonce(sg, n) in gone && Nonce(sg, n) in before ensures Comes(s, id, gone, Nonce(sg, n)) {
        ComesBefore(s, t, id, gone, Nonce(sg, n));
      }
      assert Possible(s, id, before, gone);
      SameEntriesKeepAnchor(before - gone, after - gone, tx);
    }
  }

  /** A new list of removals none of which concerns an entry that names the transaction. */
  ghost predicate NewList(s: System, t: System, added: seq<Write>) {
    forall todo :: Underway(t, todo) && todo != [] ==> Underway(s, todo) || todo == added
  }

  ghost predicate Indifferent(added: seq<Write>, db: Db, tx: Tx) {
    forall w :: w in added && w.key.Nonce? && w.key in db ==> db[w.key] != Ref(tx.id)
  }

  /** The part of it that the older lists account for. */
  ghost function OlderPart(s: System, id: Option<string>, db: Db, gone: set<Key>): set<Key> {
    set k | k in gone && (!k.Nonce? || k !in db || Comes(s, id, gone, k))
  }

  lemma OlderPartIsPossible(s: System, id: Option<string>, db: Db, gone: set<Key>)
    ensures Possible(s, id, db, OlderPart(s, id, db, gone))
  {
    var older := OlderPart(s, id, db, gone);
    forall sg, n | Nonce(sg, n) in older && Nonce(sg, n) in db ensures Comes(s, id, older, Nonce(sg, n)) {
      var key := Nonce(sg, n);
      assert Comes(s, id, gone, key);
      var todo: seq<Write>, m: nat :|
        && Underway(s, todo) && !TakesRecordFirst(todo, id) && m < |todo| && todo[m].key == key
        && forall l :: 0 <= l <= m ==> todo[l].key in gone;
      forall l | 0 <= l <= m ensures todo[l].key in older {
        ComesAt(s, id, gone, todo, l);
      }
    }
  }

  lemma ComesAt(s: System, id: Option<string>, gone: set<Key>, todo: seq<Write>, l: nat)
    requires Underway(s, todo) && !TakesRecordFirst(todo, id) && l < |todo|
    requires forall j :: 0 <= j <= l ==> todo[j].key in gone
    ensures Comes(s, id, gone, todo[l].key)
  {
  }

  lemma HeldDespite(s: System, t: System, id: Option<string>, db: Db, tx: Tx, added: seq<Write>)
    requires Held(s, id, db, tx) && NewList(s, t, added)
    requires TakesRecordFirst(added, id) || Indifferent(added, db, tx)
    ensures Held(t, id, db, tx)
  {
    forall gone: set<Key> | Possible(t, id, db, gone) ensures Anchored(db - gone, tx) {
      var older := OlderPart(s, id, db, gone);
      OlderPartIsPossible(s, id, db, gone);
      assert Anchored(db - older, tx);
      forall n: nat | Nonce(tx.signer, n) in gone && Nonce(tx.signer, n) in db - older
        ensures db[Nonce(tx.signer, n)] != Ref(tx.id)
      {
        NewlyGone(s, t, id, db, gone, tx, added, Nonce(tx.signer, n));
      }
      AnchorStays(db - older, tx, gone);
      assert db - older - gone == db - gone;
    }
  }

  /** What is gone and not by the older lists is gone by the new one. */
  lemma NewlyGone(
      s: System, t: System, id: Option<string>, db: Db, gone: set<Key>, tx: Tx, added: seq<Write>, key: Key)
    requires NewList(s, t, added) && (TakesRecordFirst(added, id) || Indifferent(added, db, tx))
    requires Comes(t, id, gone, key) && !Comes(s, id, gone, key) && key.Nonce? && key in db
    ensures db[key] != Ref(tx.id)
  {
    var todo: seq<Write>, m: nat :|
      && Underway(t, todo) && !TakesRecordFirst(todo, id) && m < |todo| && todo[m].key == key
      && forall l :: 0 <= l <= m ==> todo[l].key in gone;
    assert todo == added && todo[m] in added;
  }

  /** The first removal of one list is made; the list goes on from there. */
  ghost predicate FirstMade(s: System, t: System, made: seq<Write>) {
    && made != [] && Underway(s, made)
    && forall todo :: Underway(t, todo) && todo != [] ==> Underway(s, todo) || todo == made[1..]
  }

  lemma ComesOneEarlier(s: System, t: System, id: Option<string>, made: seq<Write>, gone: set<Key>, key: Key)
    requires FirstMade(s, t, made) && !TakesRecordFirst(made, id) && Comes(t, id, gone, key)
    ensures Comes(s, id, gone + {made[0].key}, key)
  {
    var wider := gone + {made[0].key};
    var todo: seq<Write>, m: nat :|
      && Underway(t, todo) && !TakesRecordFirst(todo, id) && m < |todo| && todo[m].key == key
      && forall l :: 0 <= l <= m ==> todo[l].key in gone;
    if Underway(s, todo) {
      assert forall l :: 0 <= l <= m ==> todo[l].key in wider;
    } else {
      assert todo == made[1..] && made[m + 1] == todo[m];
      forall l | 0 <= l <= m + 1 ensures made[l].key in wider {
        if l > 0 { assert made[l] == todo[l - 1]; }
      }
    }
  }

  lemma HeldFurther(s: System, t: System, id: Option<string>, db: Db, tx: Tx, made: seq<Write>)
    requires Held(s, id, db, tx) && FirstMade(s, t, made) && !TakesRecordFirst(made, id)
    ensures Held(t, id, db - {made[0].key}, tx)
  {
    var key0 := made[0].key;
    forall gone: set<Key> | Possible(t, id, db - {key0}, gone) ensures Anchored(db - {key0} - gone, tx) {
      var wider := gone + {key0};
      forall sg, n | Nonce(sg, n) in wider && Nonce(sg, n) in db ensures Comes(s, id, wider, Nonce(sg, n)) {
        if Nonce(sg, n) == key0 {
          ComesAt(s, id, wider, made, 0);
        } else {
          ComesOneEarlier(s, t, id, made, gone, Nonce(sg, n));
        }
      }
      assert Possible(s, id, db, wider);
      assert db - wider == db - {key0} - gone;
    }
  }

  /** A transaction whose own entry is there is anchored. */
  lemma OwnEntryAnchors(db: Db, tx: Tx)
    requires tx.nonce.Some? && Nonce(tx.signer, tx.nonce.value) in db
    requires db[Nonce(tx.signer, tx.nonce.value)] == Ref(tx.id)
    ensures Anchored(db, tx)
  {
    assert AnchoredAt(db, tx, tx.nonce.value);
  }

  /** While the entry is still to be written, its removal before that does no harm. */
  lemma HeldWithEntry(s: System, t: System, db: Db, tx: Tx, made: seq<Write>)
    requires Complete(tx) && Held(s, None, WithEntry(db, tx), tx) && FirstMade(s, t, made)
    ensures Held(t, None, WithEntry(db - {made[0].key}, tx), tx)
  {
    if made[0].key != NonceKey(tx) {
      HeldFurther(s, t, None, WithEntry(db, tx), tx, made);
      assert WithEntry(db, tx) - {made[0].key} == WithEntry(db - {made[0].key}, tx);
    } else {
      var filed := WithEntry(db, tx);
      assert WithEntry(db - {made[0].key}, tx) == filed;
      forall gone: set<Key> | Possible(t, None, filed, gone) ensures Anchored(filed - gone, tx) {
        if NonceKey(tx) !in gone {
          OwnEntryAnchors(filed - gone, tx);
        } else {
          assert gone + {made[0].key} == gone;
          forall sg, n | Nonce(sg, n) in gone && Nonce(sg, n) in filed ensures Comes(s, None, gone, Nonce(sg, n)) {
            ComesOneEarlier(s, t, None, made, gone, Nonce(sg, n));
          }
          assert Possible(s, None, filed, gone);
        }
      }
    }
  }

  /** An entry written above the transaction's nonce, or for another signer. */
  lemma HeldBelow(s: System, t: System, id: Option<string>, db: Db, tx: Tx, entry: Key, v: Value)
    requires Held(s, id, db, tx) && NoneNew(s, t) && entry.Nonce?
    requires entry.signer == tx.signer ==> tx.nonce.Some? && tx.nonce.value < entry.nonce
    ensures Held(t, id, db[entry := v], tx)
  {
    var after := db[entry := v];
    forall gone: set<Key> | Possible(t, id, after, gone) ensures Anchored(after - gone, tx) {
      forall sg, n | Nonce(sg, n) in gone && Nonce(sg, n) in db ensures Comes(s, id, gone, Nonce(sg, n)) {
        ComesBefore(s, t, id, gone, Nonce(sg, n));
      }
      assert Possible(s, id, db, gone);
      var k: nat :| AnchoredAt(db - gone, tx, k);
      assert AnchoredAt(after - gone, tx, k);
    }
  }

  /** Leaving more lists out of account leaves fewer possibilities. */
  lemma HeldNarrower(s: System, id: string, db: Db, tx: Tx)
    requires Held(s, None, db, tx)
    ensures Held(s, Some(id), db, tx)
  {
    forall gone: set<Key> | Possible(s, Some(id), db, gone) ensures Anchored(db - gone, tx) {
      forall sg, n | Nonce(sg, n) in gone && Nonce(sg, n) in db ensures Comes(s, None, gone, Nonce(sg, n)) {
        assert Comes(s, Some(id), gone, Nonce(sg, n));
      }
      assert Possible(s, None, db, gone);
    }
  }

  predicate SameNonce(a: Tx, b: Tx) {
    a.id == b.id && a.signer == b.signer && a.nonce == b.nonce
  }

  lemma HeldAlike(s: System, id: Option<string>, db: Db, a: Tx, b: Tx)
    requires Held(s, id, db, a) && SameNonce(a, b)
    ensures Held(s, id, db, b)
  {
    forall gone: set<Key> | Possible(s, id, db, gone) ensures Anchored(db - gone, b) {
      assert Anchored(db - gone, a);
      var k: nat :| AnchoredAt(db - gone, a, k);
      assert AnchoredAt(db - gone, b, k);
    }
  }

  // ----- The invariant -----

  ghost predicate DbOk(db: Db) {
    Typed(db) && Near(db)
  }

  ghost predicate AllHeld(s: System) {
    forall tx :: Stored(s.db, tx) && Complete(tx) ==> Held(s, Some(tx.id), s.db, tx)
  }

  ghost predicate PhaseOk(db: Db, p: Phase) {
    match p
    case Looked(tx, last, orphans) =>
      Highest(db, tx.signer, last) && forall w :: w in orphans ==> w.Del? && w.key.Nonce?
    case Assigned(tx) => Above(db, tx.signer, tx.nonce)
    case Storing(tx) => Above(db, tx.signer, tx.nonce)
    case _ => true
  }

  ghost predicate PhasesOk(s: System) {
    forall i :: i in s.inserters ==> PhaseOk(s.db, s.inserters[i])
  }

  /** Tasks only delete, and delete a record, if any, first. */
  predicate TaskOk(t: Task) {
    match t
    case Updating(tx) => Complete(tx)
    case Deleting(todo) => forall k :: 0 <= k < |todo| ==> todo[k].Del? && (k > 0 ==> !todo[k].key.Data?)
    case Cleaning(todo) => forall k :: 0 <= k < |todo| ==> todo[k].Del? && !todo[k].key.Data?
  }

  ghost predicate TasksOk(s: System) {
    forall d :: d in s.tasks ==> TaskOk(s.tasks[d])
  }

  function WholePlan(w: Writing): seq<Write>
    requires Complete(w.tx)
  {
    if w.inserter.Some? then InsertWrites(w.tx) else UpdateWrites(w.tx)
  }

  /** What is left of the plan. */
  predicate OnPlan(w: Writing)
    requires Complete(w.tx)
  {
    0 < |w.todo| && IsTail(w.todo, WholePlan(w))
  }

  predicate IsTail(todo: seq<Write>, plan: seq<Write>) {
    |todo| <= |plan| && forall i :: 0 <= i < |todo| ==> todo[i] == plan[|plan| - |todo| + i]
  }

  predicate EntryToCome(w: Writing)
    requires Complete(w.tx)
  {
    Put(NonceKey(w.tx), Ref(w.tx.id)) in w.todo
  }

  /** The store once the insert's entry is there. */
  function WithItsEntry(db: Db, w: Writing): Db
    requires Complete(w.tx)
  {
    if EntryToCome(w) then WithEntry(db, w.tx) else db
  }

  ghost predicate InsertOk(s: System, w: Writing)
    requires w.inserter.Some? && Complete(w.tx)
  {
    && w.inserter.value in s.inserters && s.inserters[w.inserter.value].Storing?
    && s.inserters[w.inserter.value].tx.(sequence := w.tx.sequence) == w.tx
    && Data(w.tx.id) !in s.db
    && NearFor(s.db, w.tx)
    && Held(s, None, WithItsEntry(s.db, w), w.tx)
  }

  ghost predicate WritingOk(s: System) {
    s.writing.Some? ==>
      var w := s.writing.value;
      Complete(w.tx) && OnPlan(w) && (w.inserter.Some? ==> InsertOk(s, w))
  }

  /** Only the inserter that has the mutex is storing. */
  ghost predicate OneStores(s: System) {
    forall i :: i in s.inserters && s.inserters[i].Storing? ==> s.writing.Some? && s.writing.value.inserter == Some(i)
  }

  ghost predicate Inv(s: System) {
    && DbOk(s.db) && LocksHeld(s) && PhasesOk(s) && AllHeld(s) && TasksOk(s)
    && WritingOk(s) && OneStores(s)
  }

  // ----- Conjunct by conjunct -----

  ghost predicate FewerStored(before: Db, after: Db) {
    forall tx :: Stored(after, tx) ==> Stored(before, tx)
  }

  lemma FewerKeepsPhase(before: Db, after: Db, p: Phase)
    requires PhaseOk(before, p) && FewerStored(before, after)
    ensures PhaseOk(after, p)
  {
  }

  lemma FewerKeepsPhases(s: System, t: System)
    requires PhasesOk(s) && FewerStored(s.db, t.db)
    requires forall i :: i in t.inserters ==>
      (i in s.inserters && t.inserters[i] == s.inserters[i]) || PhaseOk(t.db, t.inserters[i])
    ensures PhasesOk(t)
  {
    forall i | i in t.inserters ensures PhaseOk(t.db, t.inserters[i]) {
      if i in s.inserters && t.inserters[i] == s.inserters[i] { FewerKeepsPhase(s.db, t.db, s.inserters[i]); }
    }
  }

  lemma AllHeldStill(s: System, t: System)
    requires AllHeld(s) && NoneNew(s, t) && SameEntries(s.db, t.db) && FewerStored(s.db, t.db)
    ensures AllHeld(t)
  {
    forall tx | Stored(t.db, tx) && Complete(tx) ensures Held(t, Some(tx.id), t.db, tx) {
      assert Stored(s.db, tx);
      HeldStill(s, t, Some(tx.id), s.db, t.db, tx);
    }
  }

  lemma WritingStill(s: System, t: System)
    requires WritingOk(s) && NoneNew(s, t) && t.db == s.db && t.writing == s.writing
    requires forall i :: i in s.inserters && s.inserters[i].Storing? ==>
      i in t.inserters && t.inserters[i] == s.inserters[i]
    ensures WritingOk(t)
  {
    if t.writing.Some? && t.writing.value.inserter.Some? {
      var w := t.writing.value;
      assert InsertOk(s, w);
      HeldStill(s, t, None, WithItsEntry(s.db, w), WithItsEntry(t.db, w), w.tx);
    }
  }

  lemma RemovalKeepsDb(db: Db, k: Key)
    requires DbOk(db)
    ensures DbOk(db - {k}) && FewerStored(db, db - {k})
  {
    var after := db - {k};
    forall s, n | Nonce(s, n) in after ensures NearEntry(after, s, n) {
      assert NearEntry(db, s, n);
    }
  }

  // ----- A removal -----

  lemma TaskNextIsRemoval(s: System, d: nat)
    requires Enabled(s, TaskNext(d))
    ensures FirstMade(s, Step(s, TaskNext(d)), s.tasks[d].todo)
  {
    var t := Step(s, TaskNext(d));
    var made := s.tasks[d].todo;
    assert Underway(s, made) by { assert Todo(s.tasks[d]) == made; }
    forall todo | Underway(t, todo) && todo != [] ensures Underway(s, todo) || todo == made[1..] {
      if e :| e in t.tasks && todo == Todo(t.tasks[e]) {
        if e != d { assert t.tasks[e] == s.tasks[e]; }
      } else {
        assert t.inserters == s.inserters;
      }
    }
  }

  lemma CleanUpIsRemoval(s: System, i: nat)
    requires Enabled(s, CleanUp(i))
    ensures FirstMade(s, Step(s, CleanUp(i)), s.inserters[i].orphans)
  {
    var t := Step(s, CleanUp(i));
    var made := s.inserters[i].orphans;
    forall todo | Underway(t, todo) && todo != [] ensures Underway(s, todo) || todo == made[1..] {
      if j :| j in t.inserters && t.inserters[j].Looked? && todo == t.inserters[j].orphans {
        if j != i { assert t.inserters[j] == s.inserters[j]; }
      } else {
        assert t.tasks == s.tasks;
      }
    }
  }

  lemma RemovalKeepsHeld(s: System, t: System, made: seq<Write>)
    requires AllHeld(s) && FirstMade(s, t, made) && t.db == s.db - {made[0].key} && made[0].Del?
    ensures AllHeld(t)
  {
    forall tx | Stored(t.db, tx) && Complete(tx) ensures Held(t, Some(tx.id), t.db, tx) {
      assert Stored(s.db, tx) && made[0] != Del(Data(tx.id));
      HeldFurther(s, t, Some(tx.id), s.db, tx, made);
    }
  }

  lemma RemovalKeepsWriting(s: System, t: System, made: seq<Write>)
    requires WritingOk(s) && FirstMade(s, t, made) && t.db == s.db - {made[0].key}
    requires t.writing == s.writing && t.inserters == s.inserters
    ensures WritingOk(t)
  {
    if t.writing.Some? && t.writing.value.inserter.Some? {
      var w := t.writing.value;
      assert InsertOk(s, w);
      if EntryToCome(w) {
        HeldWithEntry(s, t, s.db, w.tx, made);
      } else {
        HeldFurther(s, t, None, s.db, w.tx, made);
      }
      assert NearFor(t.db, w.tx);
    }
  }

  lemma TaskNextKeepsTasks(s: System, d: nat)
    requires TasksOk(s) && Enabled(s, TaskNext(d))
    ensures TasksOk(Step(s, TaskNext(d)))
  {
    var t := Step(s, TaskNext(d));
    var todo := s.tasks[d].todo;
    assert TaskOk(s.tasks[d]);
    forall e | e in t.tasks ensures TaskOk(t.tasks[e]) {
      if e == d {
        forall k | 0 <= k < |todo[1..]| ensures todo[1..][k].Del? && !todo[1..][k].key.Data? {
          assert todo[1..][k] == todo[k + 1];
        }
      } else {
        assert TaskOk(s.tasks[e]);
      }
    }
  }

  lemma TaskNextKeepsInv(s: System, d: nat)
    requires Inv(s) && Enabled(s, TaskNext(d))
    ensures Inv(Step(s, TaskNext(d)))
  {
    var t := Step(s, TaskNext(d));
    var todo := s.tasks[d].todo;
    assert TaskOk(s.tasks[d]) && todo[0].Del?;
    TaskNextIsRemoval(s, d);
    RemovalKeepsDb(s.db, todo[0].key);
    RemovalKeepsHeld(s, t, todo);
    RemovalKeepsWriting(s, t, todo);
    FewerKeepsPhases(s, t);
    StepKeepsLocks(s, TaskNext(d));
    TaskNextKeepsTasks(s, d);
  }

  lemma CleanUpKeepsInv(s: System, i: nat)
    requires Inv(s) && Enabled(s, CleanUp(i))
    ensures Inv(Step(s, CleanUp(i)))
  {
    var t := Step(s, CleanUp(i));
    var orphans := s.inserters[i].orphans;
    assert PhaseOk(s.db, s.inserters[i]) && orphans[0] in orphans;
    CleanUpIsRemoval(s, i);
    RemovalKeepsDb(s.db, orphans[0].key);
    RemovalKeepsHeld(s, t, orphans);
    assert PhaseOk(t.db, t.inserters[i]) by { FewerKeepsPhase(s.db, t.db, s.inserters[i]); }
    FewerKeepsPhases(s, t);
    StepKeepsLocks(s, CleanUp(i));
  }

  // ----- A write -----

  /** A write that is not of the record is not the last, and one to a nonce entry is the
      insert's own. */
  lemma PlanStep(w: Writing)
    requires Complete(w.tx) && OnPlan(w) && !w.todo[0].key.Data?
    ensures |w.todo| > 1 && OnPlan(w.(todo := w.todo[1..]))
    ensures w.todo[0].key.Nonce? ==> w.inserter.Some? && w.todo[0] == Put(NonceKey(w.tx), Ref(w.tx.id))
  {
    PlanShape(w, |WholePlan(w)| - |w.todo|);
    TailOfTail(w.todo, WholePlan(w));
  }

  lemma TailOfTail(todo: seq<Write>, plan: seq<Write>)
    requires IsTail(todo, plan) && todo != []
    ensures IsTail(todo[1..], plan)
  {
  }

  lemma PlanShape(w: Writing, k: nat)
    requires Complete(w.tx) && k < |WholePlan(w)|
    ensures var write := WholePlan(w)[k];
      && (write.key.Data? <==> k == |WholePlan(w)| - 1)
      && (write.key.Data? ==> write == Put(Data(w.tx.id), Record(w.tx)))
      && (write.key.Nonce? ==> w.inserter.Some? && write == Put(NonceKey(w.tx), Ref(w.tx.id)))
  {
  }

  /** The record is the last write of its plan. */
  lemma RecordIsLast(w: Writing)
    requires Complete(w.tx) && OnPlan(w) && w.todo[0].key.Data?
    ensures w.todo == [Put(Data(w.tx.id), Record(w.tx))]
  {
    PlanShape(w, |WholePlan(w)| - |w.todo|);
  }

  /** An index write of a plan, and what is the same after it. */
  ghost predicate IndexWritten(s: System, t: System, w: Writing) {
    && s.writing == Some(w) && |w.todo| > 1 && !w.todo[0].key.Data?
    && t == s.(db := After(s.db, w.todo[0]), writing := Some(w.(todo := w.todo[1..])))
  }

  lemma IndexWriteStep(s: System)
    requires s.writing.Some? && |s.writing.value.todo| > 1 && !s.writing.value.todo[0].key.Data?
    ensures IndexWritten(s, Step(s, WriteNext), s.writing.value)
  {
  }

  lemma OtherWriteKeepsDb(db: Db, w: Write)
    requires DbOk(db) && !w.key.Data? && !w.key.Nonce?
    ensures DbOk(After(db, w)) && FewerStored(db, After(db, w)) && SameEntries(db, After(db, w))
  {
    var after := After(db, w);
    forall s, n | Nonce(s, n) in after ensures NearEntry(after, s, n) {
      assert NearEntry(db, s, n);
    }
  }

  lemma EntryKeepsDb(db: Db, tx: Tx)
    requires DbOk(db) && Complete(tx) && Data(tx.id) !in db
    ensures DbOk(WithEntry(db, tx)) && FewerStored(db, WithEntry(db, tx))
  {
    var after := WithEntry(db, tx);
    forall s, n | Nonce(s, n) in after ensures NearEntry(after, s, n) {
      if Nonce(s, n) != NonceKey(tx) { assert NearEntry(db, s, n); }
    }
  }

  /** Other transactions are below the entry written, or of another signer. */
  lemma EntryKeepsHeld(s: System, t: System, tx: Tx)
    requires AllHeld(s) && Complete(tx) && Above(s.db, tx.signer, tx.nonce) && FewerStored(s.db, t.db)
    requires t.db == WithEntry(s.db, tx) && NoneNew(s, t)
    ensures AllHeld(t)
  {
    forall x | Stored(t.db, x) && Complete(x) ensures Held(t, Some(x.id), t.db, x) {
      assert Stored(s.db, x);
      HeldBelow(s, t, Some(x.id), s.db, x, NonceKey(tx), Ref(tx.id));
    }
  }

  lemma SameListsNoneNew(s: System, t: System)
    requires t.tasks == s.tasks && t.inserters == s.inserters
    ensures NoneNew(s, t)
  {
  }

  lemma IndexWriteKeepsInsert(s: System, t: System, w: Writing)
    requires w.inserter.Some? && Complete(w.tx) && IndexWritten(s, t, w) && InsertOk(s, w)
    requires w.todo[0].key.Nonce? ==> w.todo[0] == Put(NonceKey(w.tx), Ref(w.tx.id))
    ensures InsertOk(t, w.(todo := w.todo[1..]))
  {
    var next := w.(todo := w.todo[1..]);
    var entry := Put(NonceKey(w.tx), Ref(w.tx.id));
    assert EntryToCome(w) ==> entry == w.todo[0] || EntryToCome(next);
    assert EntryToCome(next) ==> EntryToCome(w);
    SameListsNoneNew(s, t);
    assert SameEntries(WithItsEntry(s.db, w), WithItsEntry(t.db, next));
    HeldStill(s, t, None, WithItsEntry(s.db, w), WithItsEntry(t.db, next), w.tx);
    assert NearFor(t.db, w.tx);
  }

  lemma IndexWriteKeepsInv(s: System)
    requires Inv(s) && s.writing.Some? && !s.writing.value.todo[0].key.Data?
    ensures Inv(Step(s, WriteNext))
  {
    var w, t := s.writing.value, Step(s, WriteNext);
    PlanStep(w);
    IndexWriteStep(s);
    SameListsNoneNew(s, t);
    if w.todo[0].key.Nonce? {
      assert InsertOk(s, w) && PhaseOk(s.db, s.inserters[w.inserter.value]);
      EntryKeepsDb(s.db, w.tx);
      EntryKeepsHeld(s, t, w.tx);
    } else {
      OtherWriteKeepsDb(s.db, w.todo[0]);
      AllHeldStill(s, t);
    }
    FewerKeepsPhases(s, t);
    if w.inserter.Some? { IndexWriteKeepsInsert(s, t, w); }
  }

  /** A record that no much higher entry names. */
  lemma RecordKeepsDb(db: Db, tx: Tx)
    requires DbOk(db) && Complete(tx) && NearFor(db, tx)
    ensures DbOk(db[Data(tx.id) := Record(tx)])
    ensures forall t :: Stored(db[Data(tx.id) := Record(tx)], t) ==> t == tx || Stored(db, t)
  {
    var after := db[Data(tx.id) := Record(tx)];
    forall s, n | Nonce(s, n) in after ensures NearEntry(after, s, n) {
      assert NearEntry(db, s, n);
    }
  }

  lemma RecordKeepsHeld(s: System, t: System, tx: Tx)
    requires AllHeld(s) && Held(s, Some(tx.id), s.db, tx) && NoneNew(s, t)
    requires t.db == s.db[Data(tx.id) := Record(tx)]
    ensures AllHeld(t)
  {
    forall x | Stored(t.db, x) && Complete(x) ensures Held(t, Some(x.id), t.db, x) {
      assert x == tx || Stored(s.db, x);
      HeldStill(s, t, Some(x.id), s.db, t.db, x);
    }
  }

  lemma InsertedRecordKeepsPhases(s: System, t: System, w: Writing)
    requires LocksHeld(s) && PhasesOk(s) && Complete(w.tx) && w.inserter.Some? && InsertOk(s, w)
    requires t.db == s.db[Data(w.tx.id) := Record(w.tx)]
    requires t.inserters == s.inserters[w.inserter.value := Written(s.inserters[w.inserter.value].tx)]
    ensures PhasesOk(t)
  {
    forall j | j in t.inserters ensures PhaseOk(t.db, t.inserters[j]) {
      if j != w.inserter.value {
        assert PhaseOk(s.db, s.inserters[j]);
        if HoldsLock(s.inserters[j]) { assert s.inserters[j].tx.signer != w.tx.signer; }
        OtherSignerKeepsPhase(s.db, t.db, w.tx, s.inserters[j]);
      }
    }
  }

  lemma OtherSignerKeepsPhase(before: Db, after: Db, tx: Tx, p: Phase)
    requires PhaseOk(before, p) && after == before[Data(tx.id) := Record(tx)]
    requires HoldsLock(p) ==> p.tx.signer != tx.signer
    ensures PhaseOk(after, p)
  {
    forall x | Stored(after, x) ensures x == tx || Stored(before, x) {
    }
  }

  lemma InsertedRecordStep(s: System, w: Writing)
    requires s.writing == Some(w) && w.inserter.Some? && w.todo == [Put(Data(w.tx.id), Record(w.tx))]
    requires w.inserter.value in s.inserters && s.inserters[w.inserter.value].Storing?
    ensures Step(s, WriteNext) == s.(
      db := s.db[Data(w.tx.id) := Record(w.tx)], writing := None,
      inserters := s.inserters[w.inserter.value := Written(s.inserters[w.inserter.value].tx)])
  {
  }

  lemma InsertedRecordKeepsInv(s: System)
    requires Inv(s) && s.writing.Some? && s.writing.value.inserter.Some? && s.writing.value.todo[0].key.Data?
    ensures Inv(Step(s, WriteNext))
  {
    var w, t := s.writing.value, Step(s, WriteNext);
    assert InsertOk(s, w);
    RecordIsLast(w);
    InsertedRecordStep(s, w);
    RecordKeepsDb(s.db, w.tx);
    InsertedRecordKeepsPhases(s, t, w);
    assert NoneNew(s, t);
    HeldNarrower(s, w.tx.id, s.db, w.tx);
    RecordKeepsHeld(s, t, w.tx);
    StepKeepsLocks(s, WriteNext);
  }

  lemma UpdatedRecordStep(s: System, w: Writing)
    requires s.writing == Some(w) && w.inserter.None? && w.todo == [Put(Data(w.tx.id), Record(w.tx))]
    ensures Step(s, WriteNext) == s.(db := s.db[Data(w.tx.id) := Record(w.tx)], writing := None)
  {
  }

  lemma NotOvertakenKeepsPhase(before: Db, after: Db, tx: Tx, p: Phase)
    requires Complete(tx) && PhaseOk(before, p) && after == before[Data(tx.id) := Record(tx)] && !Overtaken(p, tx)
    ensures PhaseOk(after, p)
  {
    forall x | Stored(after, x) ensures x == tx || Stored(before, x) {
    }
  }

  lemma UpdatedRecordKeepsInv(s: System)
    requires Inv(s) && WritesRecord(s) && RecordSafe(s, s.writing.value.tx)
    ensures Inv(Step(s, WriteNext))
  {
    var w, t := s.writing.value, Step(s, WriteNext);
    RecordIsLast(w);
    UpdatedRecordStep(s, w);
    RecordKeepsDb(s.db, w.tx);
    forall j | j in t.inserters ensures PhaseOk(t.db, t.inserters[j]) {
      assert PhaseOk(s.db, s.inserters[j]) && !Overtaken(s.inserters[j], w.tx);
      NotOvertakenKeepsPhase(s.db, t.db, w.tx, s.inserters[j]);
    }
    SameListsNoneNew(s, t);
    RecordKeepsHeld(s, t, w.tx);
  }

  lemma WriteNextKeepsInv(s: System)
    requires Inv(s) && Enabled(s, WriteNext) && Careful(s, WriteNext)
    ensures Inv(Step(s, WriteNext))
  {
    if !s.writing.value.todo[0].key.Data? {
      IndexWriteKeepsInv(s);
    } else if s.writing.value.inserter.Some? {
      InsertedRecordKeepsInv(s);
    } else {
      UpdatedRecordKeepsInv(s);
    }
  }

  // ----- Reading, settling, starting -----

  /** Entries that lead nowhere name nobody stored. */
  lemma OrphansAreIndifferent(db: Db, todo: seq<Write>, tx: Tx)
    requires Stored(db, tx) && forall w :: w in todo ==> OrphanNow(db, w)
    ensures Indifferent(todo, db, tx)
  {
  }

  lemma SkippedAreOrphans(db: Db, signer: string, entries: seq<Entry>)
    requires Iterates(entries, db, signer)
    ensures var ws := Orphans(signer, entries[..FirstResolved(db, entries)]);
      forall w :: w in ws ==> OrphanNow(db, w) && w.key.Nonce? && w.key.signer == signer
  {
    var missing := entries[..FirstResolved(db, entries)];
    var ws := Orphans(signer, missing);
    if missing != [] { OrphanAt(signer, missing, 0); }
    forall w | w in ws ensures OrphanNow(db, w) && w.key.Nonce? && w.key.signer == signer {
      var k :| 0 <= k < |ws| && ws[k] == w;
      OrphanAt(signer, missing, k);
      assert missing[k] == entries[k];
    }
  }

  /** A new list of orphans' removals threatens nobody. */
  lemma OrphansKeepHeld(s: System, t: System, orphans: seq<Write>)
    requires AllHeld(s) && t.db == s.db && NewList(s, t, orphans) && forall w :: w in orphans ==> OrphanNow(s.db, w)
    ensures AllHeld(t)
  {
    forall x | Stored(t.db, x) && Complete(x) ensures Held(t, Some(x.id), t.db, x) {
      OrphansAreIndifferent(s.db, orphans, x);
      HeldDespite(s, t, Some(x.id), s.db, x, orphans);
    }
  }

  lemma LookIsNewList(s: System, i: nat, entries: seq<Entry>)
    requires Enabled(s, Look(i, entries))
    ensures var t := Step(s, Look(i, entries));
      NewList(s, t, t.inserters[i].orphans)
  {
    var t := Step(s, Look(i, entries));
    forall todo | Underway(t, todo) && todo != [] ensures Underway(s, todo) || todo == t.inserters[i].orphans {
      if j :| j in t.inserters && t.inserters[j].Looked? && todo == t.inserters[j].orphans {
        if j != i { assert t.inserters[j] == s.inserters[j]; }
      } else {
        assert t.tasks == s.tasks;
      }
    }
  }

  lemma AllAnchored(s: System)
    requires AllHeld(s)
    ensures forall tx :: Stored(s.db, tx) && Complete(tx) ==> Anchored(s.db, tx)
  {
    forall tx | Stored(s.db, tx) && Complete(tx) ensures Anchored(s.db, tx) {
      HeldIsAnchored(s, Some(tx.id), s.db, tx);
    }
  }

  lemma LookKeepsInv(s: System, i: nat, entries: seq<Entry>)
    requires Inv(s) && Enabled(s, Look(i, entries))
    ensures Inv(Step(s, Look(i, entries)))
  {
    var tx := s.inserters[i].tx;
    var t := Step(s, Look(i, entries));
    AllAnchored(s);
    LastIsHighest(s.db, tx.signer, entries);
    SkippedAreOrphans(s.db, tx.signer, entries);
    LookIsNewList(s, i, entries);
    OrphansKeepHeld(s, t, t.inserters[i].orphans);
    FewerKeepsPhases(s, t);
    StepKeepsLocks(s, Look(i, entries));
  }

  lemma StartListKeepsInv(s: System, d: nat, orphans: seq<Write>)
    requires Inv(s) && Enabled(s, StartList(d, orphans))
    ensures Inv(Step(s, StartList(d, orphans)))
  {
    var t := Step(s, StartList(d, orphans));
    NewTaskIsNewList(s, t, d);
    OrphansKeepHeld(s, t, orphans);
    forall k | 0 <= k < |orphans| ensures OrphanNow(s.db, orphans[k]) {
      assert orphans[k] in orphans;
    }
    forall e | e in t.tasks ensures TaskOk(t.tasks[e]) {
      if e != d { assert TaskOk(s.tasks[e]); }
    }
  }

  lemma NewTaskIsNewList(s: System, t: System, d: nat)
    requires d !in s.tasks && d in t.tasks && t.tasks == s.tasks[d := t.tasks[d]] && t.inserters == s.inserters
    ensures NewList(s, t, Todo(t.tasks[d]))
  {
    forall todo | Underway(t, todo) && todo != [] ensures Underway(s, todo) || todo == Todo(t.tasks[d]) {
      if e :| e in t.tasks && todo == Todo(t.tasks[e]) {
        if e != d { assert t.tasks[e] == s.tasks[e]; }
      } else {
        assert t.inserters == s.inserters;
      }
    }
  }

  /** The entry at a stored transaction's own nonce, if there is one, names it. */
  lemma OwnEntryNames(db: Db, tx: Tx)
    requires Complete(tx) && Anchored(db, tx) && NonceKey(tx) in db
    ensures db[NonceKey(tx)] == Ref(tx.id)
  {
    var k: nat :| AnchoredAt(db, tx, k);
    assert k == tx.nonce.value;
  }

  lemma DeleteIsIndifferent(s: System, gone: Tx, db: Db, tx: Tx)
    requires AllHeld(s) && Stored(s.db, gone) && Complete(gone) && gone.id != tx.id
    requires NonceKey(gone) in db ==> NonceKey(gone) in s.db && s.db[NonceKey(gone)] == db[NonceKey(gone)]
    ensures Indifferent(DeleteWrites(gone), db, tx)
  {
    HeldIsAnchored(s, Some(gone.id), s.db, gone);
    if NonceKey(gone) in db { OwnEntryNames(s.db, gone); }
  }

  lemma StartDeleteKeepsHeld(s: System, t: System, d: nat, gone: Tx)
    requires AllHeld(s) && Stored(s.db, gone) && Complete(gone) && t.db == s.db
    requires NewList(s, t, DeleteWrites(gone))
    ensures AllHeld(t)
  {
    forall x | Stored(t.db, x) && Complete(x) ensures Held(t, Some(x.id), t.db, x) {
      if x.id != gone.id { DeleteIsIndifferent(s, gone, s.db, x); }
      HeldDespite(s, t, Some(x.id), s.db, x, DeleteWrites(gone));
    }
  }

  lemma StartDeleteKeepsWriting(s: System, t: System, gone: Tx)
    requires AllHeld(s) && WritingOk(s) && PhasesOk(s) && Stored(s.db, gone) && Complete(gone)
    requires t.db == s.db && t.writing == s.writing && t.inserters == s.inserters && NewList(s, t, DeleteWrites(gone))
    ensures WritingOk(t)
  {
    if s.writing.Some? && s.writing.value.inserter.Some? {
      var w := s.writing.value;
      assert InsertOk(s, w) && PhaseOk(s.db, s.inserters[w.inserter.value]);
      assert NonceKey(gone) != NonceKey(w.tx);
      DeleteIsIndifferent(s, gone, WithItsEntry(s.db, w), w.tx);
      HeldDespite(s, t, None, WithItsEntry(s.db, w), w.tx, DeleteWrites(gone));
    }
  }

  lemma StartDeleteKeepsInv(s: System, d: nat, id: string)
    requires Inv(s) && Enabled(s, StartDelete(d, id))
    ensures Inv(Step(s, StartDelete(d, id)))
  {
    var t := Step(s, StartDelete(d, id));
    var gone := Loaded(s.db, id).value;
    assert GoodRecord(s.db[Data(id)], id);
    NewTaskIsNewList(s, t, d);
    StartDeleteKeepsHeld(s, t, d, gone);
    StartDeleteKeepsWriting(s, t, gone);
    forall e | e in t.tasks ensures TaskOk(t.tasks[e]) {
      if e != d { assert TaskOk(s.tasks[e]); }
    }
  }

  /** Fewer readers, and no other tasks. */
  lemma InsertersLessNoneNew(s: System, t: System)
    requires forall d :: d in t.tasks ==> d in s.tasks && t.tasks[d] == s.tasks[d]
    requires forall i :: i in t.inserters && t.inserters[i].Looked? ==>
      i in s.inserters && s.inserters[i] == t.inserters[i]
    ensures NoneNew(s, t)
  {
  }

  lemma SettledKeepsInv(s: System, i: nat, next: Option<nat>, t: System)
    requires Inv(s) && i in s.inserters && s.inserters[i].Looked? && next.Some?
    requires s.inserters[i].last.Some? ==> next.value > s.inserters[i].last.value
    requires t == s.(inserters := s.inserters[i := Assigned(s.inserters[i].tx.(nonce := next))])
    ensures Inv(t)
  {
    assert PhaseOk(s.db, s.inserters[i]);
    InsertersLessNoneNew(s, t);
    AllHeldStill(s, t);
    WritingStill(s, t);
    SameHoldersKeepLocks(s, t);
    FewerKeepsPhases(s, t);
  }

  lemma StartStoreStep(s: System, i: nat, sequence: string)
    requires Enabled(s, StartStore(i, sequence)) && Planned(s.db, s.inserters[i].tx, true, sequence).Some?
    ensures var tx := s.inserters[i].tx;
      Step(s, StartStore(i, sequence)) == s.(
        inserters := s.inserters[i := Storing(tx)],
        writing := Some(Writing(Some(i), tx.(sequence := sequence), InsertWrites(tx.(sequence := sequence)))))
  {
  }

  lemma StartStoreKeepsWriting(s: System, i: nat, sequence: string)
    requires Enabled(s, StartStore(i, sequence)) && Planned(s.db, s.inserters[i].tx, true, sequence).Some?
    requires StoreSafe(s, s.inserters[i].tx)
    ensures WritingOk(Step(s, StartStore(i, sequence)))
  {
    var tx := s.inserters[i].tx;
    var t := Step(s, StartStore(i, sequence));
    StartStoreStep(s, i, sequence);
    var w := t.writing.value;
    EntryIsPlanned(w.tx);
    InsertersLessNoneNew(s, t);
    HeldStill(s, t, None, WithEntry(s.db, tx), WithEntry(t.db, tx), tx);
    HeldAlike(t, None, WithEntry(t.db, tx), tx, w.tx);
    StartedIsOk(t, w, tx);
  }

  lemma EntryIsPlanned(tx: Tx)
    requires Complete(tx)
    ensures Put(NonceKey(tx), Ref(tx.id)) in InsertWrites(tx) && |InsertWrites(tx)| == 4
  {
    var ws := InsertWrites(tx);
    assert ws[if tx.status == TX_STATUS_PENDING then 2 else 1] == Put(NonceKey(tx), Ref(tx.id));
  }

  lemma StartedIsOk(t: System, w: Writing, tx: Tx)
    requires t.writing == Some(w) && w.inserter.Some? && Complete(w.tx) && w.todo == InsertWrites(w.tx) && w.todo != []
    requires w.inserter.value in t.inserters && t.inserters[w.inserter.value] == Storing(tx)
    requires tx.(sequence := w.tx.sequence) == w.tx && Data(w.tx.id) !in t.db && NearFor(t.db, tx)
    requires EntryToCome(w) && Held(t, None, WithEntry(t.db, tx), w.tx)
    ensures WritingOk(t)
  {
  }

  lemma StartStoreKeepsInv(s: System, i: nat, sequence: string)
    requires Inv(s) && Enabled(s, StartStore(i, sequence)) && Careful(s, StartStore(i, sequence))
    ensures Inv(Step(s, StartStore(i, sequence)))
  {
    var t := Step(s, StartStore(i, sequence));
    assert PhaseOk(s.db, s.inserters[i]);
    InsertersLessNoneNew(s, t);
    AllHeldStill(s, t);
    FewerKeepsPhases(s, t);
    StepKeepsLocks(s, StartStore(i, sequence));
    if Planned(s.db, s.inserters[i].tx, true, sequence).Some? { StartStoreKeepsWriting(s, i, sequence); }
  }

  lemma UpdateStepNoneNew(s: System, a: Action)
    requires Enabled(s, a) && (a.StartUpdate? || a.StartRewrite?)
    ensures NoneNew(s, Step(s, a))
  {
    var t := Step(s, a);
    forall todo | Underway(t, todo) && todo != [] ensures Underway(s, todo) {
      if d :| d in t.tasks && todo == Todo(t.tasks[d]) {
        assert d in s.tasks && t.tasks[d] == s.tasks[d];
      } else {
        assert t.inserters == s.inserters;
      }
    }
  }

  lemma UpdateStepKeepsInv(s: System, a: Action)
    requires Inv(s) && Enabled(s, a) && (a.StartUpdate? || a.StartRewrite?)
    ensures Inv(Step(s, a))
  {
    var t := Step(s, a);
    UpdateStepNoneNew(s, a);
    AllHeldStill(s, t);
    forall d | d in t.tasks ensures TaskOk(t.tasks[d]) {
      if d in s.tasks { assert TaskOk(s.tasks[d]); }
    }
    if a.StartRewrite? {
      assert TaskOk(s.tasks[a.d]);
      var w := t.writing.value;
      }
  }

  lemma BeginKeepsInv(s: System, i: nat, tx: Tx)
    requires Inv(s) && Enabled(s, Begin(i, tx))
    ensures Inv(Step(s, Begin(i, tx)))
  {
    var t := Step(s, Begin(i, tx));
    InsertersLessNoneNew(s, t);
    AllHeldStill(s, t);
    WritingStill(s, t);
    StepKeepsLocks(s, Begin(i, tx));
    FewerKeepsPhases(s, t);
  }

  lemma TakeLockKeepsInv(s: System, i: nat)
    requires Inv(s) && Enabled(s, TakeLock(i))
    ensures Inv(Step(s, TakeLock(i)))
  {
    var t := Step(s, TakeLock(i));
    InsertersLessNoneNew(s, t);
    AllHeldStill(s, t);
    WritingStill(s, t);
    StepKeepsLocks(s, TakeLock(i));
    FewerKeepsPhases(s, t);
  }

  lemma FreedKeepsInv(s: System, i: nat)
    requires Inv(s) && i in s.inserters && HoldsLock(s.inserters[i]) && !s.inserters[i].Storing?
    ensures Inv(Freed(s, i))
  {
    var t := Freed(s, i);
    InsertersLessNoneNew(s, t);
    AllHeldStill(s, t);
    WritingStill(s, t);
    FreedKeepsLocks(s, i);
    FewerKeepsPhases(s, t);
  }

  lemma AssignKeepsInv(s: System, a: Action)
    requires Inv(s) && a.Assign? && Enabled(s, a)
    ensures Inv(Step(s, a))
  {
    var next := NextNonce(s.inserters[a.i].last, a.recent, a.node);
    if next.None? {
      FreedKeepsInv(s, a.i);
    } else {
      SettledKeepsInv(s, a.i, next, Step(s, a));
    }
  }

  lemma TaskStopsKeepsInv(s: System, d: nat)
    requires Inv(s) && Enabled(s, TaskStops(d))
    ensures Inv(Step(s, TaskStops(d)))
  {
    var t := Step(s, TaskStops(d));
    InsertersLessNoneNew(s, t);
    AllHeldStill(s, t);
    WritingStill(s, t);
    FewerKeepsPhases(s, t);
  }

  lemma WriteFailsKeepsInv(s: System)
    requires Inv(s) && Enabled(s, WriteFails)
    ensures Inv(Step(s, WriteFails))
  {
    var t := Step(s, WriteFails);
    InsertersLessNoneNew(s, t);
    AllHeldStill(s, t);
    StepKeepsLocks(s, WriteFails);
    FewerKeepsPhases(s, t);
  }

  lemma CrashKeepsInv(s: System)
    requires Inv(s)
    ensures Inv(Idle(s.db))
  {
    InsertersLessNoneNew(s, Idle(s.db));
    AllHeldStill(s, Idle(s.db));
  }

  lemma StepKeepsInv(s: System, a: Action)
    requires Inv(s) && Enabled(s, a) && Careful(s, a)
    ensures Inv(Step(s, a))
  {
    match a
    case Look(i, entries) => LookKeepsInv(s, i, entries);
    case CleanUp(i) => CleanUpKeepsInv(s, i);
    case Assign(_, _, _) => AssignKeepsInv(s, a);
    case StartStore(i, sequence) => StartStoreKeepsInv(s, i, sequence);
    case WriteNext => WriteNextKeepsInv(s);
    case StartDelete(d, id) => StartDeleteKeepsInv(s, d, id);
    case StartList(d, orphans) => StartListKeepsInv(s, d, orphans);
    case StartUpdate(_, _, _) => UpdateStepKeepsInv(s, a);
    case StartRewrite(_) => UpdateStepKeepsInv(s, a);
    case TaskNext(d) => TaskNextKeepsInv(s, d);
    case WriteFails => WriteFailsKeepsInv(s);
    case Crash => CrashKeepsInv(s);
    case Begin(i, tx) => BeginKeepsInv(s, i, tx);
    case TakeLock(i) => TakeLockKeepsInv(s, i);
    case Release(i) => FreedKeepsInv(s, i);
    case TaskStops(d) => TaskStopsKeepsInv(s, d);
  }

  lemma {:induction false} ExecKeepsInv(s: System, actions: seq<Action>)
    requires Inv(s) && Legal(s, actions) && CarefulRun(s, actions)
    ensures Inv(Exec(s, actions))
    decreases |actions|
  {
    if actions != [] {
      StepKeepsInv(s, actions[0]);
      ExecKeepsInv(Step(s, actions[0]), actions[1..]);
    }
  }

  // ----- Main results -----

  lemma InvIsNotViolated(s: System)
    requires Inv(s)
    ensures !Violated(s)
  {
    forall i | i in s.inserters && s.inserters[i].Assigned?
      ensures Above(s.db, s.inserters[i].tx.signer, s.inserters[i].tx.nonce)
    {
      assert PhaseOk(s.db, s.inserters[i]);
    }
  }

  /** In every interleaving, key by key, of inserters, deletes, updates, readers, failing writes
      and crashes in which each insert and each update writes when that is safe, a nonce about
      to be stored exceeds all then stored for its signer, even when the node answers behind. */
  lemma StoredNoncesGoUp(actions: seq<Action>)
    requires Legal(Idle(map[]), actions) && CarefulRun(Idle(map[]), actions)
    ensures !Violated(Exec(Idle(map[]), actions))
  {
    ExecKeepsInv(Idle(map[]), actions);
    InvIsNotViolated(Exec(Idle(map[]), actions));
  }

  /** An update that replaces the record it read, up to status, is always safe. */
  lemma SameRecordIsSafe(s: System, status: string)
    requires Inv(s) && WritesRecord(s) && status != "" && Stored(s.db, s.writing.value.tx.(status := status))
    ensures RecordSafe(s, s.writing.value.tx)
  {
    var tx := s.writing.value.tx;
    var was := tx.(status := status);
    HeldAlike(s, Some(tx.id), s.db, was, tx);
    forall sg: string, n: nat | Nonce(sg, n) in s.db && s.db[Nonce(sg, n)] == Ref(tx.id)
      ensures n <= tx.nonce.value + 1
    {
      assert NearEntry(s.db, sg, n);
    }
    forall i | i in s.inserters ensures !Overtaken(s.inserters[i], tx) {
      assert PhaseOk(s.db, s.inserters[i]);
    }
  }

  /** Nobody has this key to remove. */
  ghost predicate Undisturbed(s: System, key: Key) {
    forall todo: seq<Write>, m: nat :: Underway(s, todo) && m < |todo| ==> todo[m].key != key
  }

  /** An insert whose entry nobody has to remove is held. */
  lemma UndisturbedIsHeld(s: System, tx: Tx)
    requires Complete(tx) && Undisturbed(s, NonceKey(tx))
    ensures Held(s, None, WithEntry(s.db, tx), tx)
  {
    var db := WithEntry(s.db, tx);
    forall gone: set<Key> | Possible(s, None, db, gone) ensures Anchored(db - gone, tx) {
      assert NonceKey(tx) in gone ==> Comes(s, None, gone, Nonce(tx.signer, tx.nonce.value));
      OwnEntryAnchors(db - gone, tx);
    }
  }
}
