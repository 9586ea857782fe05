/** Where the guarantee ends: writing when it is not safe opens the way to a run, careful from
    then on, in which a nonce does not exceed one that is stored. */
module LevelNonceLimits {
  import opened Wrappers
  import opened LevelStore
  import opened LevelNonces
  import opened LevelNonceSafety
  import opened LevelNonceRuns
  import opened LevelNonceTraps

  // ----- Making the removals that are under way -----

  predicate DeletesEntries(orphans: seq<Write>) {
    forall w :: w in orphans ==> w.Del? && w.key.Nonce?
  }

  ghost predicate ListsOk(s: System) {
    && TasksOk(s)
    && forall i :: i in s.inserters && s.inserters[i].Looked? ==> DeletesEntries(s.inserters[i].orphans)
  }

  lemma InvListsOk(s: System)
    requires Inv(s)
    ensures ListsOk(s)
  {
    forall i | i in s.inserters && s.inserters[i].Looked? ensures DeletesEntries(s.inserters[i].orphans) {
      assert PhaseOk(s.db, s.inserters[i]);
    }
  }

  /** Only the first removal of a list can be of a record. */
  lemma ListShape(s: System, todo: seq<Write>)
    requires ListsOk(s) && Underway(s, todo)
    ensures forall k :: 0 <= k < |todo| ==> todo[k].Del? && (k > 0 ==> !todo[k].key.Data?)
  {
    if d :| d in s.tasks && todo == Todo(s.tasks[d]) {
      assert TaskOk(s.tasks[d]);
    } else {
      var i :| i in s.inserters && s.inserters[i].Looked? && todo == s.inserters[i].orphans;
      assert DeletesEntries(todo);
      assert forall k :: 0 <= k < |todo| ==> todo[k] in todo;
    }
  }

  /** The state after one removal of a list. */
  ghost predicate Removed(s: System, t: System, todo: seq<Write>) {
    && todo != [] && t.db == s.db - {todo[0].key} && t.writing == s.writing
    && Underway(t, todo[1..])
    && (forall other :: Underway(s, other) && other != todo ==> Underway(t, other))
    && ListsOk(t)
  }

  lemma TaskRemoves(s: System, d: nat)
    requires ListsOk(s) && Enabled(s, TaskNext(d))
    ensures Removed(s, Step(s, TaskNext(d)), s.tasks[d].todo)
  {
    var t := Step(s, TaskNext(d));
    var todo := s.tasks[d].todo;
    assert TaskOk(s.tasks[d]) && todo[0].Del?;
    TaskNextKeepsTasks(s, d);
    assert Underway(t, todo[1..]) by { assert Todo(t.tasks[d]) == todo[1..]; }
    forall other | Underway(s, other) && other != todo ensures Underway(t, other) {
      if e :| e in s.tasks && other == Todo(s.tasks[e]) {
        assert e != d && t.tasks[e] == s.tasks[e];
      } else {
        assert t.inserters == s.inserters;
      }
    }
  }

  lemma CleanUpRemoves(s: System, i: nat)
    requires ListsOk(s) && Enabled(s, CleanUp(i))
    ensures Removed(s, Step(s, CleanUp(i)), s.inserters[i].orphans)
  {
    var t := Step(s, CleanUp(i));
    var todo := s.inserters[i].orphans;
    assert DeletesEntries(todo) && todo[0] in todo;
    assert t.inserters[i].orphans == todo[1..];
    assert DeletesEntries(todo[1..]);
    forall other | Underway(s, other) && other != todo ensures Underway(t, other) {
      if e :| e in s.inserters && s.inserters[e].Looked? && other == s.inserters[e].orphans {
        assert e != i && t.inserters[e] == s.inserters[e];
      } else {
        assert t.tasks == s.tasks;
      }
    }
  }

  /** Whoever has the list to go through makes its next removal. */
  lemma NextRemoval(s: System, todo: seq<Write>) returns (t: System)
    requires Underway(s, todo) && todo != [] && s.writing.None? && ListsOk(s)
    ensures Removed(s, t, todo) && (Breaks(CarefulSteps, t) ==> Breaks(CarefulSteps, s))
  {
    if d :| d in s.tasks && todo == Todo(s.tasks[d]) {
      t := Step(s, TaskNext(d));
      TaskRemoves(s, d);
      if Breaks(CarefulSteps, t) { BreaksAfter(CarefulSteps, s, TaskNext(d)); }
    } else {
      var i :| i in s.inserters && s.inserters[i].Looked? && todo == s.inserters[i].orphans;
      t := Step(s, CleanUp(i));
      CleanUpRemoves(s, i);
      if Breaks(CarefulSteps, t) { BreaksAfter(CarefulSteps, s, CleanUp(i)); }
    }
  }

  /** What was possible and includes this removal still is. */
  lemma PossibleAfter(s: System, t: System, id: Option<string>, before: Db, after: Db, gone: set<Key>, todo: seq<Write>)
    requires Possible(s, id, before, gone) && Removed(s, t, todo) && todo[0].key in gone
    requires after == before - {todo[0].key} && !TakesRecordFirst(todo[1..], id)
    ensures Possible(t, id, after, gone)
  {
    forall sg, n | Nonce(sg, n) in gone && Nonce(sg, n) in after ensures Comes(t, id, gone, Nonce(sg, n)) {
      var key := Nonce(sg, n);
      assert Comes(s, id, gone, key);
      var list: seq<Write>, m: nat :|
        && Underway(s, list) && !TakesRecordFirst(list, id) && m < |list| && list[m].key == key
        && forall l :: 0 <= l <= m ==> list[l].key in gone;
      if list == todo {
        ComesOneLater(t, id, gone, todo, m);
      } else {
        assert Underway(t, list);
      }
    }
  }

  lemma ComesOneLater(t: System, id: Option<string>, gone: set<Key>, todo: seq<Write>, m: nat)
    requires 0 < m < |todo| && Underway(t, todo[1..]) && !TakesRecordFirst(todo[1..], id)
    requires forall l :: 0 <= l <= m ==> todo[l].key in gone
    ensures Comes(t, id, gone, todo[m].key)
  {
    var rest := todo[1..];
    assert rest[m - 1] == todo[m];
    forall l | 0 <= l <= m - 1 ensures rest[l].key in gone {
      assert rest[l] == todo[l + 1];
    }
  }

  /** A stored transaction that the removals under way can leave without an anchor. */
  ghost predicate Loose(s: System, tx: Tx, gone: set<Key>) {
    && Typed(s.db) && Stored(s.db, tx) && Complete(tx) && NearFor(s.db, tx)
    && s.writing.None? && ListsOk(s)
    && Possible(s, Some(tx.id), s.db, gone) && !Anchored(s.db - gone, tx)
  }

  lemma {:induction false} LooseBreaks(s: System, tx: Tx, gone: set<Key>)
    requires Loose(s, tx, gone)
    ensures Breaks(CarefulSteps, s)
    decreases |s.db|, 1, 0
  {
    if sg: string, n: nat :| Nonce(sg, n) in gone && Nonce(sg, n) in s.db {
      assert Comes(s, Some(tx.id), gone, Nonce(sg, n));
      var todo: seq<Write>, m: nat :|
        && Underway(s, todo) && !TakesRecordFirst(todo, Some(tx.id)) && m < |todo| && todo[m].key == Nonce(sg, n)
        && forall l :: 0 <= l <= m ==> todo[l].key in gone;
      LooserBreaks(s, tx, gone, todo, m);
    } else {
      if Anchored(s.db, tx) { SameEntriesKeepAnchor(s.db, s.db - gone, tx); }
      UnanchoredBreaks(s, tx);
    }
  }

  /** The list comes to something that is in the store, with everything before it to go. */
  ghost predicate DownTo(s: System, tx: Tx, gone: set<Key>, todo: seq<Write>, m: nat) {
    && Underway(s, todo) && !TakesRecordFirst(todo, Some(tx.id)) && m < |todo| && todo[m].key in s.db
    && forall l :: 0 <= l <= m ==> todo[l].key in gone
  }

  lemma DownFurther(s: System, t: System, tx: Tx, gone: set<Key>, todo: seq<Write>, m: nat)
    requires DownTo(s, tx, gone, todo, m) && Removed(s, t, todo) && todo[0].key !in s.db
    requires !TakesRecordFirst(todo[1..], Some(tx.id))
    ensures m > 0 && t.db == s.db && DownTo(t, tx, gone, todo[1..], m - 1)
  {
    var rest := todo[1..];
    assert t.db == s.db;
    assert rest[m - 1] == todo[m];
    forall l | 0 <= l <= m - 1 ensures rest[l].key in gone {
      assert rest[l] == todo[l + 1];
    }
  }

  lemma SmallerWithout(db: Db, k: Key)
    requires k in db
    ensures |db - {k}| < |db|
  {
    assert (db - {k}).Keys == db.Keys - {k};
  }

  /** Down the list to the entry it is about. */
  lemma {:induction false} LooserBreaks(s: System, tx: Tx, gone: set<Key>, todo: seq<Write>, m: nat)
    requires Loose(s, tx, gone) && DownTo(s, tx, gone, todo, m)
    ensures Breaks(CarefulSteps, s)
    decreases |s.db|, 0, m
  {
    var t := NextRemoval(s, todo);
    RemovedIsLoose(s, t, tx, gone, todo);
    if todo[0].key in s.db {
      SmallerWithout(s.db, todo[0].key);
      LooseBreaks(t, tx, gone);
    } else {
      DownFurther(s, t, tx, gone, todo, m);
      LooserBreaks(t, tx, gone, todo[1..], m - 1);
    }
  }

  lemma RemovedIsLoose(s: System, t: System, tx: Tx, gone: set<Key>, todo: seq<Write>)
    requires Loose(s, tx, gone) && Removed(s, t, todo) && Underway(s, todo) && todo[0].key in gone
    requires !TakesRecordFirst(todo, Some(tx.id))
    ensures Loose(t, tx, gone) && !TakesRecordFirst(todo[1..], Some(tx.id))
  {
    ListShape(s, todo);
    PossibleAfter(s, t, Some(tx.id), s.db, t.db, gone, todo);
    assert t.db - gone == s.db - gone;
    RemovalKeepsTyped(s.db, todo[0].key);
  }

  lemma RemovalKeepsTyped(db: Db, k: Key)
    requires Typed(db)
    ensures Typed(db - {k})
  {
  }

  // ----- Storing -----

  /** The tasks that begin with the record of this ID. */
  function Takers(s: System, id: string): set<nat> {
    set d | d in s.tasks && TakesRecordFirst(Todo(s.tasks[d]), Some(id))
  }

  /** An insert under the mutex whose entry the removals under way can make useless. */
  ghost predicate LooseStore(s: System, tx: Tx, gone: set<Key>) {
    && Typed(s.db) && Complete(tx) && Data(tx.id) !in s.db && NearFor(s.db, tx) && ListsOk(s)
    && s.writing.Some? && s.writing.value.inserter.Some? && s.writing.value.todo == InsertWrites(tx)
    && Possible(s, None, WithEntry(s.db, tx), gone) && !Anchored(WithEntry(s.db, tx) - gone, tx)
  }

  lemma {:induction false} LooseStoreBreaks(s: System, tx: Tx, gone: set<Key>)
    requires LooseStore(s, tx, gone)
    ensures Breaks(CarefulSteps, s)
    decreases |Takers(s, tx.id)|
  {
    if Data(tx.id) in gone && Takers(s, tx.id) != {} {
      var d :| d in Takers(s, tx.id);
      var t := TakerGoesFirst(s, tx, gone, d);
      LooseStoreBreaks(t, tx, gone);
    } else {
      NoTakers(s, tx, gone);
      StoredIsLoose(s, tx, gone);
      LooseBreaks(Ended(s.(db := Applied(s.db, InsertWrites(tx)))), tx, gone);
      WritesBreak(CarefulSteps, s);
    }
  }

  /** A delete that begins with the record finds none, and goes on to the entries. */
  lemma TakerGoesFirst(s: System, tx: Tx, gone: set<Key>, d: nat) returns (t: System)
    requires LooseStore(s, tx, gone) && Data(tx.id) in gone && d in Takers(s, tx.id)
    ensures LooseStore(t, tx, gone) && |Takers(t, tx.id)| < |Takers(s, tx.id)|
    ensures Breaks(CarefulSteps, t) ==> Breaks(CarefulSteps, s)
  {
    assert TaskOk(s.tasks[d]);
    assert s.tasks[d].Deleting? && Enabled(s, TaskNext(d));
    t := Step(s, TaskNext(d));
    TaskRemoves(s, d);
    TakenIsLoose(s, t, tx, gone, Todo(s.tasks[d]));
    FewerTakers(s, t, tx.id, d);
    if Breaks(CarefulSteps, t) { BreaksAfter(CarefulSteps, s, TaskNext(d)); }
  }

  lemma TakenIsLoose(s: System, t: System, tx: Tx, gone: set<Key>, todo: seq<Write>)
    requires LooseStore(s, tx, gone) && Data(tx.id) in gone && Removed(s, t, todo) && Underway(s, todo)
    requires TakesRecordFirst(todo, Some(tx.id))
    ensures LooseStore(t, tx, gone)
  {
    ListShape(s, todo);
    assert t.db == s.db;
    assert WithEntry(t.db, tx) == WithEntry(s.db, tx) - {todo[0].key};
    PossibleAfter(s, t, None, WithEntry(s.db, tx), WithEntry(t.db, tx), gone, todo);
  }

  lemma FewerTakers(s: System, t: System, id: string, d: nat)
    requires d in Takers(s, id) && TaskOk(s.tasks[d]) && Enabled(s, TaskNext(d)) && t == Step(s, TaskNext(d))
    ensures |Takers(t, id)| < |Takers(s, id)|
  {
    var todo := s.tasks[d].todo;
    assert !TakesRecordFirst(todo[1..], Some(id));
    assert d !in Takers(t, id);
    assert Takers(t, id) == Takers(s, id) - {d};
  }

  lemma NoTakers(s: System, tx: Tx, gone: set<Key>)
    requires LooseStore(s, tx, gone) && !(Data(tx.id) in gone && Takers(s, tx.id) != {})
    ensures Possible(s, Some(tx.id), WithEntry(s.db, tx), gone)
  {
    var db := WithEntry(s.db, tx);
    forall sg, n | Nonce(sg, n) in gone && Nonce(sg, n) in db ensures Comes(s, Some(tx.id), gone, Nonce(sg, n)) {
      assert Comes(s, None, gone, Nonce(sg, n));
      var list: seq<Write>, m: nat :|
        && Underway(s, list) && !TakesRecordFirst(list, None) && m < |list| && list[m].key == Nonce(sg, n)
        && forall l :: 0 <= l <= m ==> list[l].key in gone;
      NotATaker(s, tx, gone, list);
    }
  }

  lemma NotATaker(s: System, tx: Tx, gone: set<Key>, list: seq<Write>)
    requires ListsOk(s) && Underway(s, list) && list != [] && list[0].key in gone
    requires !(Data(tx.id) in gone && Takers(s, tx.id) != {})
    ensures !TakesRecordFirst(list, Some(tx.id))
  {
    if d :| d in s.tasks && list == Todo(s.tasks[d]) {
      assert TakesRecordFirst(list, Some(tx.id)) ==> d in Takers(s, tx.id);
    } else {
      var i :| i in s.inserters && s.inserters[i].Looked? && list == s.inserters[i].orphans;
      assert DeletesEntries(list) && list[0] in list;
    }
  }

  lemma StoredIsLoose(s: System, tx: Tx, gone: set<Key>)
    requires LooseStore(s, tx, gone) && Possible(s, Some(tx.id), WithEntry(s.db, tx), gone)
    ensures Loose(Ended(s.(db := Applied(s.db, InsertWrites(tx)))), tx, gone)
  {
    var after := Applied(s.db, InsertWrites(tx));
    var t := Ended(s.(db := after));
    InsertKeepsTyped(s.db, tx);
    InsertShows(s.db, tx);
    EndedKeepsLists(s, t);
    SameListsSamePossible(s, t, Some(tx.id), WithEntry(s.db, tx), after, gone);
    if Anchored(after - gone, tx) { SameEntriesKeepAnchor(after - gone, WithEntry(s.db, tx) - gone, tx); }
    forall sg: string, n: nat | Nonce(sg, n) in after && after[Nonce(sg, n)] == Ref(tx.id)
      ensures n <= tx.nonce.value + 1
    {
      assert Nonce(sg, n) in WithEntry(s.db, tx);
    }
  }

  lemma EndedKeepsLists(s: System, t: System)
    requires s.writing.Some? && ListsOk(s) && t.tasks == s.tasks && t.inserters == Ended(s).inserters
    ensures ListsOk(t) && forall todo :: Underway(s, todo) <==> Underway(t, todo)
  {
    forall i | i in t.inserters && t.inserters[i].Looked? ensures i in s.inserters && t.inserters[i] == s.inserters[i] {
    }
    forall i | i in s.inserters && s.inserters[i].Looked? ensures i in t.inserters && t.inserters[i] == s.inserters[i] {
    }
  }

  lemma SameListsSamePossible(s: System, t: System, id: Option<string>, before: Db, after: Db, gone: set<Key>)
    requires Possible(s, id, before, gone) && SameEntries(after, before)
    requires forall todo :: Underway(s, todo) <==> Underway(t, todo)
    ensures Possible(t, id, after, gone)
  {
    forall sg, n | Nonce(sg, n) in gone && Nonce(sg, n) in after ensures Comes(t, id, gone, Nonce(sg, n)) {
      assert Comes(s, id, gone, Nonce(sg, n));
    }
  }

  // ----- The conditions are exact -----

  lemma SafeDoesNotBreak(s: System)
    requires Inv(s)
    ensures !Breaks(CarefulSteps, s)
  {
    if Breaks(CarefulSteps, s) {
      var actions :| Permitted(CarefulSteps, s, actions) && Legal(s, actions) && Violated(Exec(s, actions));
      PermittedIsLegal(CarefulSteps, s, actions);
      ExecKeepsInv(s, actions);
      InvIsNotViolated(Exec(s, actions));
    }
  }

  /** Once the insert is through, a far entry is still there. */
  lemma FarStoreBreaks(s: System, i: nat, sequence: string)
    requires Typed(s.db) && Enabled(s, StartStore(i, sequence))
    requires Planned(s.db, s.inserters[i].tx, true, sequence).Some? && !NearFor(s.db, s.inserters[i].tx)
    ensures Breaks(CarefulSteps, Step(s, StartStore(i, sequence)))
  {
    var filed := s.inserters[i].tx.(sequence := sequence);
    var sg: string, m: nat :| Nonce(sg, m) in s.db && s.db[Nonce(sg, m)] == Ref(filed.id) && m > filed.nonce.value + 1;
    StartStoreStep(s, i, sequence);
    var t := Step(s, StartStore(i, sequence));
    var after := Applied(s.db, InsertWrites(filed));
    InsertKeepsTyped(s.db, filed);
    InsertShows(s.db, filed);
    assert Nonce(sg, m) in WithEntry(s.db, filed) && WithEntry(s.db, filed)[Nonce(sg, m)] == Ref(filed.id);
    assert NamedFar(after, filed, sg, m);
    FarBreaks(Ended(t.(db := after)), filed, sg, m);
    WritesBreak(CarefulSteps, t);
  }

  lemma LooseStartBreaks(s: System, i: nat, sequence: string)
    requires Inv(s) && Enabled(s, StartStore(i, sequence)) && Planned(s.db, s.inserters[i].tx, true, sequence).Some?
    requires NearFor(s.db, s.inserters[i].tx)
    requires !Held(s, None, WithEntry(s.db, s.inserters[i].tx), s.inserters[i].tx)
    ensures Breaks(CarefulSteps, Step(s, StartStore(i, sequence)))
  {
    var tx := s.inserters[i].tx;
    var filed := tx.(sequence := sequence);
    var gone: set<Key> :| Possible(s, None, WithEntry(s.db, tx), gone) && !Anchored(WithEntry(s.db, tx) - gone, tx);
    StartStoreStep(s, i, sequence);
    var t := Step(s, StartStore(i, sequence));
    InvListsOk(s);
    StartKeepsLists(s, t, i, filed);
    SameListsSamePossible(s, t, None, WithEntry(s.db, tx), WithEntry(s.db, filed), gone);
    AnchoredAlike(WithEntry(s.db, tx) - gone, filed, tx);
    LooseStoreBreaks(t, filed, gone);
  }

  lemma StartKeepsLists(s: System, t: System, i: nat, filed: Tx)
    requires ListsOk(s) && i in s.inserters && s.inserters[i].Assigned? && t.tasks == s.tasks
    requires t.inserters == s.inserters[i := Storing(s.inserters[i].tx)]
    ensures ListsOk(t) && forall todo :: Underway(s, todo) <==> Underway(t, todo)
  {
    forall j | j in t.inserters && t.inserters[j].Looked? ensures j in s.inserters && t.inserters[j] == s.inserters[j] {
    }
    forall j | j in s.inserters && s.inserters[j].Looked? ensures j in t.inserters && t.inserters[j] == s.inserters[j] {
    }
  }

  lemma AnchoredAlike(db: Db, a: Tx, b: Tx)
    requires SameNonce(a, b)
    ensures Anchored(db, a) ==> Anchored(db, b)
  {
    if Anchored(db, a) {
      var k: nat :| AnchoredAt(db, a, k);
      assert AnchoredAt(db, b, k);
    }
  }

  /** The condition on inserts is exact. In every state a careful run can reach, storing a
      transaction opens the way to a violation, by a run that is careful from then on, if and
      only if an entry of a nonce more than one above its own names it, or the removals under
      way can leave it without an anchor. */
  lemma StoreBreaksExactlyWhenUnsafe(s: System, i: nat, sequence: string)
    requires Inv(s) && Enabled(s, StartStore(i, sequence)) && Planned(s.db, s.inserters[i].tx, true, sequence).Some?
    ensures Breaks(CarefulSteps, Step(s, StartStore(i, sequence))) <==> !StoreSafe(s, s.inserters[i].tx)
  {
    var tx := s.inserters[i].tx;
    if StoreSafe(s, tx) {
      StepKeepsInv(s, StartStore(i, sequence));
      SafeDoesNotBreak(Step(s, StartStore(i, sequence)));
    } else if !NearFor(s.db, tx) {
      FarStoreBreaks(s, i, sequence);
    } else {
      LooseStartBreaks(s, i, sequence);
    }
  }

  /** The record of an update has been written. */
  lemma RecordWritten(s: System)
    requires Inv(s) && WritesRecord(s)
    ensures var tx, t := s.writing.value.tx, Step(s, WriteNext);
      && t == s.(db := s.db[Data(tx.id) := Record(tx)], writing := None)
      && Typed(t.db) && Stored(t.db, tx) && SameEntries(t.db, s.db) && ListsOk(t)
      && forall todo :: Underway(s, todo) <==> Underway(t, todo)
  {
    RecordIsLast(s.writing.value);
    UpdatedRecordStep(s, s.writing.value);
    InvListsOk(s);
  }

  /** Somebody has settled on something too low, or will. */
  lemma OvertakingBreaks(t: System, tx: Tx, i: nat)
    requires Stored(t.db, tx) && Complete(tx) && i in t.inserters && Overtaken(t.inserters[i], tx)
    requires !t.inserters[i].Storing? && t.writing.None? && ListsOk(t)
    ensures Breaks(CarefulSteps, t)
  {
    if t.inserters[i].Assigned? {
      assert !Above(t.db, t.inserters[i].tx.signer, t.inserters[i].tx.nonce);
      BreaksNow(CarefulSteps, t);
    } else {
      var p := t.inserters[i];
      var clean := t.(db := Applied(t.db, p.orphans), inserters := t.inserters[i := p.(orphans := [])]);
      assert DeletesEntries(p.orphans);
      Untouched(t.db, p.orphans, Data(tx.id));
      LowSettlingBreaks(clean, tx, i);
      CleanUpBreaks(CarefulSteps, t, i);
    }
  }

  lemma LowSettlingBreaks(t: System, tx: Tx, i: nat)
    requires Stored(t.db, tx) && Complete(tx) && i in t.inserters && Overtaken(t.inserters[i], tx)
    requires t.inserters[i].Looked? && t.inserters[i].orphans == []
    ensures Breaks(CarefulSteps, t)
  {
    var u := Step(t, Assign(i, true, Some(0)));
    assert u.inserters[i].Assigned? && !Above(u.db, tx.signer, u.inserters[i].tx.nonce);
    BreaksNow(CarefulSteps, u);
    BreaksAfter(CarefulSteps, t, Assign(i, true, Some(0)));
  }

  lemma LooseRecordBreaks(s: System)
    requires Inv(s) && WritesRecord(s) && NearFor(s.db, s.writing.value.tx)
    requires !Held(s, Some(s.writing.value.tx.id), s.db, s.writing.value.tx)
    ensures Breaks(CarefulSteps, Step(s, WriteNext))
  {
    var tx, t := s.writing.value.tx, Step(s, WriteNext);
    RecordWritten(s);
    var gone: set<Key> :| Possible(s, Some(tx.id), s.db, gone) && !Anchored(s.db - gone, tx);
    SameListsSamePossible(s, t, Some(tx.id), s.db, t.db, gone);
    if Anchored(t.db - gone, tx) { SameEntriesKeepAnchor(t.db - gone, s.db - gone, tx); }
    assert NearFor(t.db, tx);
    LooseBreaks(t, tx, gone);
  }

  /** The condition on updates is exact in the same sense. */
  lemma UpdateBreaksExactlyWhenUnsafe(s: System)
    requires Inv(s) && WritesRecord(s)
    ensures Breaks(CarefulSteps, Step(s, WriteNext)) <==> !RecordSafe(s, s.writing.value.tx)
  {
    var tx := s.writing.value.tx;
    if RecordSafe(s, tx) {
      StepKeepsInv(s, WriteNext);
      SafeDoesNotBreak(Step(s, WriteNext));
    } else if Overtakes(s, tx) {
      RecordWritten(s);
      var i :| i in s.inserters && Overtaken(s.inserters[i], tx);
      OvertakingBreaks(Step(s, WriteNext), tx, i);
    } else if !NearFor(s.db, tx) {
      RecordWritten(s);
      var sg: string, m: nat :| Nonce(sg, m) in s.db && s.db[Nonce(sg, m)] == Ref(tx.id) && m > tx.nonce.value + 1;
      assert NamedFar(Step(s, WriteNext).db, tx, sg, m);
      FarBreaks(Step(s, WriteNext), tx, sg, m);
    } else {
      LooseRecordBreaks(s);
    }
  }

  // ----- A run in which nothing fails -----

  /** A whole list, by the task that has it. */
  lemma {:induction false} TaskBreaks(mode: Mode, s: System, d: nat)
    requires d in s.tasks && !s.tasks[d].Updating? && (s.tasks[d].Cleaning? ==> s.writing.None?)
    requires Breaks(mode, s.(db := Applied(s.db, s.tasks[d].todo), tasks := s.tasks[d := s.tasks[d].(todo := [])]))
    ensures Breaks(mode, s)
    decreases |s.tasks[d].todo|
  {
    var task := s.tasks[d];
    if task.todo == [] {
      assert s.tasks[d := task.(todo := [])] == s.tasks;
    } else {
      var t := Step(s, TaskNext(d));
      assert t.tasks[d] == task.(todo := task.todo[1..]);
      assert t.tasks[d := t.tasks[d].(todo := [])] == s.tasks[d := task.(todo := [])];
      TaskBreaks(mode, t, d);
      BreaksAfter(mode, s, TaskNext(d));
    }
  }

  /** A delete that straddles an insert of the same signer, with nothing failing: the second
      transaction is given the nonce of the first and writes its entry again, the delete takes
      that entry away, and a third is given the same nonce once more. */
  lemma StraddlingDeleteBreaks(b: Tx, c: Tx, n: nat)
    requires b.id != c.id && b.signer == c.signer
    requires Complete(b.(nonce := Some(n))) && Complete(c.(nonce := Some(n))) && b.sequence == "" && c.sequence == ""
    ensures Breaks(CalmSteps, Idle(map[]))
  {
    var first := b.(nonce := Some(n), sequence := "1");
    var one := Applied(map[], InsertWrites(first));
    InsertShows(map[], first);
    InsertKeepsTyped(map[], first);
    assert OnlyEntry(one, first) by { EntryOfEmpty(map[], one, first); }
    DeleteStraddles(first, c.(nonce := Some(n), sequence := "2"), one);
    assert Iterates([], map[], b.signer) && LastNonce(map[], []) == None;
    assert Cleaned(map[], b.signer, []) == map[] && Idle(map[]).(db := one) == Idle(one);
    InsertBreaks(CalmSteps, Idle(map[]), 0, b, [], false, Some(n), "1");
  }

  /** The two transactions of the run, both at one nonce of one signer. */
  predicate Rivals(first: Tx, second: Tx) {
    && Complete(first) && Complete(second) && first.id != second.id && NonceKey(first) == NonceKey(second)
    && second.sequence != ""
  }

  ghost predicate OnlyEntry(db: Db, tx: Tx)
    requires Complete(tx)
  {
    && (forall sg: string, k: nat :: Nonce(sg, k) in db <==> Nonce(sg, k) == NonceKey(tx))
    && NonceKey(tx) in db && db[NonceKey(tx)] == Ref(tx.id)
  }

  lemma EntryOfEmpty(db: Db, after: Db, tx: Tx)
    requires Complete(tx) && SameEntries(after, WithEntry(db, tx)) && forall sg: string, k: nat :: Nonce(sg, k) !in db
    ensures OnlyEntry(after, tx)
  {
    forall sg: string, k: nat ensures Nonce(sg, k) in after <==> Nonce(sg, k) == NonceKey(tx) {
      assert Nonce(sg, k) in WithEntry(db, tx) <==> Nonce(sg, k) == NonceKey(tx);
    }
    assert Nonce(tx.signer, tx.nonce.value) in WithEntry(db, tx);
  }

  lemma DeleteStraddles(first: Tx, second: Tx, db: Db)
    requires Rivals(first, second) && OnlyEntry(db, first) && Typed(db) && Stored(db, first) && OnlyRecord(db, first.id)
    ensures Breaks(CalmSteps, Idle(db))
  {
    var todo := DeleteWrites(first);
    var t := Idle(db - {Data(first.id)}).(tasks := map[0 := Deleting(todo[1..])]);
    RemovalKeepsTyped(db, Data(first.id));
    InsertIsStraddled(first, second, t.db, t);
    DeleteBegins(db, first);
    var s := Idle(db).(tasks := map[0 := Deleting(todo)]);
    BreaksAfter(CalmSteps, s, TaskNext(0));
    BreaksAfter(CalmSteps, Idle(db), StartDelete(0, first.id));
  }

  /** The record goes; the entries are still to go. */
  lemma DeleteBegins(db: Db, first: Tx)
    requires Stored(db, first) && Complete(first)
    ensures var todo := DeleteWrites(first);
      var s := Idle(db).(tasks := map[0 := Deleting(todo)]);
      && Step(Idle(db), StartDelete(0, first.id)) == s
      && Step(s, TaskNext(0)) == Idle(db - {Data(first.id)}).(tasks := map[0 := Deleting(todo[1..])])
  {
    var todo := DeleteWrites(first);
    var s := Idle(db).(tasks := map[0 := Deleting(todo)]);
    assert Idle(db).tasks[0 := Deleting(todo)] == s.tasks;
    assert s.tasks[0 := Deleting(todo[1..])] == map[0 := Deleting(todo[1..])];
  }

  /** The second inserter finds the entry orphaned, removes it, and writes it again. */
  lemma InsertIsStraddled(first: Tx, second: Tx, db: Db, s: System)
    requires Rivals(first, second) && Typed(db) && OnlyEntry(db, first) && forall id :: Data(id) !in db
    requires s == Idle(db).(tasks := map[0 := Deleting(DeleteWrites(first)[1..])])
    ensures Breaks(CalmSteps, s)
  {
    var n := first.nonce.value;
    var entries := [Entry(n, first.id)];
    assert Iterates(entries, db, first.signer) by {
      assert entries[0].nonce == n;
    }
    assert FirstResolved(db, entries) == 1 by { assert entries[1..] == []; }
    OrphanRemoved(db, first, entries);
    var clean := Cleaned(db, first.signer, entries);
    var after := Applied(clean, InsertWrites(second));
    InsertShows(clean, second);
    InsertKeepsTyped(clean, second);
    EntryOfEmpty(clean, after, second);
    var t := s.(db := clean);
    DeleteResumes(first, second, t.(db := after));
    var wanted := second.(nonce := None, sequence := "");
    assert wanted.(nonce := Some(n)).(sequence := second.sequence) == second;
    InsertBreaks(CalmSteps, s, 0, wanted, entries, false, Some(n), second.sequence);
  }

  lemma OrphanRemoved(db: Db, first: Tx, entries: seq<Entry>)
    requires Complete(first) && OnlyEntry(db, first) && Typed(db) && entries == [Entry(first.nonce.value, first.id)]
    requires forall id :: Data(id) !in db
    requires FirstResolved(db, entries) == 1 && Iterates(entries, db, first.signer)
    ensures var clean := Cleaned(db, first.signer, entries);
      Typed(clean) && (forall id :: Data(id) !in clean) && forall sg: string, k: nat :: Nonce(sg, k) !in clean
  {
    CleanedShows(db, first.signer, entries);
    var ws := Skipped(db, first.signer, entries);
    assert entries[..1] == entries;
    OrphanCount(first.signer, entries);
    OrphanAt(first.signer, entries, 0);
    assert ws == [Del(NonceKey(first))];
    AppliedAppend(db, [], ws[0]);
    assert [] + [ws[0]] == ws;
  }

  lemma DeleteResumes(first: Tx, second: Tx, s: System)
    requires Rivals(first, second) && Typed(s.db) && Stored(s.db, second) && OnlyEntry(s.db, second)
    requires s == Idle(s.db).(tasks := map[0 := Deleting(DeleteWrites(first)[1..])])
    ensures Breaks(CalmSteps, s)
  {
    var rest := DeleteWrites(first)[1..];
    assert rest == [Del(CreatedKey(first)), Del(Pending(first.sequence)), Del(NonceKey(first))];
    var end := Applied(s.db, rest);
    DeletesKeepTyped(s.db, rest);
    Untouched(s.db, rest, Data(second.id));
    EntryTaken(s.db, rest, second);
    assert Iterates([], end, second.signer) && LastNonce(end, []) == None;
    LowReadingBreaks(
      CalmSteps, s.(db := end, tasks := s.tasks[0 := Deleting([])]), 0, second, [], false, second.nonce);
    TaskBreaks(CalmSteps, s, 0);
  }

  lemma EntryTaken(db: Db, rest: seq<Write>, tx: Tx)
    requires Complete(tx) && OnlyEntry(db, tx) && |rest| == 3 && rest[2] == Del(NonceKey(tx))
    requires forall w :: w in rest ==> w.Del?
    ensures forall sg: string, k: nat :: Nonce(sg, k) !in Applied(db, rest)
  {
    AppliedAppend(db, rest[..2], rest[2]);
    assert rest[..2] + [rest[2]] == rest;
    forall sg: string, k: nat ensures Nonce(sg, k) !in Applied(db, rest) {
      if Nonce(sg, k) in Applied(db, rest) { OnlyDeleted(db, rest, Nonce(sg, k)); }
    }
  }

  // ----- A run that leaves a far entry behind -----

  ghost predicate Leads(mode: Mode, s: System, t: System) {
    exists actions :: Permitted(mode, s, actions) && Legal(s, actions) && Exec(s, actions) == t
  }

  lemma LeadsToItself(mode: Mode, s: System)
    ensures Leads(mode, s, s)
  {
    assert Permitted(mode, s, []) && Legal(s, []) && Exec(s, []) == s;
  }

  lemma LeadsFirst(mode: Mode, s: System, a: Action, t: System)
    requires Enabled(s, a) && Permits(mode, s, a) && Leads(mode, Step(s, a), t)
    ensures Leads(mode, s, t)
  {
    var u := Step(s, a);
    var rest :| Permitted(mode, u, rest) && Legal(u, rest) && Exec(u, rest) == t;
    var actions := [a] + rest;
    assert actions[0] == a && actions[1..] == rest;
    assert Permitted(mode, s, actions) && Legal(s, actions) && Exec(s, actions) == t;
  }

  lemma LeadsOn(mode: Mode, s: System, t: System, u: System)
    requires Leads(mode, s, t) && Leads(mode, t, u)
    ensures Leads(mode, s, u)
  {
    var actions :| Permitted(mode, s, actions) && Legal(s, actions) && Exec(s, actions) == t;
    LeadsAll(mode, s, actions, u);
  }

  lemma {:induction false} LeadsAll(mode: Mode, s: System, actions: seq<Action>, u: System)
    requires Permitted(mode, s, actions) && Legal(s, actions) && Leads(mode, Exec(s, actions), u)
    ensures Leads(mode, s, u)
    decreases |actions|
  {
    if actions != [] {
      LeadsAll(mode, Step(s, actions[0]), actions[1..], u);
      LeadsFirst(mode, s, actions[0], u);
    }
  }

  /** From Begin to Assigned, with nothing to clean up or with the clean-up failing. */
  lemma LeadsToAssigned(mode: Mode, db: Db, i: nat, tx: Tx, n: nat, entries: seq<Entry>)
    requires !mode.CalmSteps? && (entries == [] || mode.SloppySteps?)
    requires Iterates(entries, db, tx.signer) && FirstResolved(db, entries) == |entries|
    ensures Leads(mode, Idle(db), Settled(Idle(db), i, tx.(nonce := Some(n))))
  {
    var s := Idle(db);
    var orphans := Skipped(db, tx.signer, entries);
    var end := Settled(s, i, tx.(nonce := Some(n)));
    var three := Behind(s, i, Looked(tx, None, orphans));
    assert Step(three, Assign(i, false, Some(n))) == end by {
      assert three.inserters[i := Assigned(tx.(nonce := Some(n)))] == end.inserters;
    }
    LeadsToItself(mode, end);
    LeadsFirst(mode, three, Assign(i, false, Some(n)), end);
    LookStep(s, i, tx, entries);
    LeadsFirst(mode, Behind(s, i, Locked(tx)), Look(i, entries), end);
    LeadsToLock(mode, s, i, tx, end);
  }

  lemma LeadsToLock(mode: Mode, s: System, i: nat, tx: Tx, end: System)
    requires !mode.CalmSteps? && i !in s.inserters && tx.signer !in s.lockedNonces
    requires Leads(mode, Behind(s, i, Locked(tx)), end)
    ensures Leads(mode, s, end)
  {
    LockSteps(s, i, tx);
    LeadsFirst(mode, s.(inserters := s.inserters[i := Waiting(tx)]), TakeLock(i), end);
    LeadsFirst(mode, s, Begin(i, tx), end);
  }

  /** An insert cut short before its last write. */
  lemma LeadsToLeftover(mode: Mode, tx: Tx, i: nat)
    requires !mode.CalmSteps? && Complete(tx) && tx.sequence == ""
    ensures Leads(mode, Settled(Idle(map[]), i, tx), Idle(Applied(map[], InsertWrites(tx)[..3])))
  {
    var s := Settled(Idle(map[]), i, tx);
    var end := Idle(Applied(map[], InsertWrites(tx)[..3]));
    StartStoreStep(s, i, "");
    var one := Step(s, StartStore(i, ""));
    assert one.writing == Some(Writing(Some(i), tx, InsertWrites(tx)));
    ThreeWritesLead(mode, one, end);
    AloneIsSafe(Idle(map[]), i, tx);
    LeadsFirst(mode, s, StartStore(i, ""), end);
  }

  lemma ThreeWritesLead(mode: Mode, one: System, end: System)
    requires !mode.CalmSteps? && one.writing.Some? && one.writing.value.inserter.Some?
    requires |one.writing.value.todo| == 4 && end == Idle(Applied(one.db, one.writing.value.todo[..3]))
    ensures Leads(mode, one, end)
  {
    var ws := one.writing.value.todo;
    WriteNextInPlan(one);
    var two := Step(one, WriteNext);
    WriteNextInPlan(two);
    var three := Step(two, WriteNext);
    WriteNextInPlan(three);
    var four := Step(three, WriteNext);
    ThreeWrites(one.db, ws);
    assert Step(four, Crash) == end;
    LeadsToItself(mode, end);
    LeadsFirst(mode, four, Crash, end);
    LeadsFirst(mode, three, WriteNext, end);
    LeadsFirst(mode, two, WriteNext, end);
    LeadsFirst(mode, one, WriteNext, end);
  }

  lemma ThreeWrites(db: Db, ws: seq<Write>)
    requires |ws| >= 3
    ensures Applied(db, ws[..3]) == After(After(After(db, ws[0]), ws[1]), ws[2])
  {
    AppliedAppend(db, [], ws[0]);
    AppliedAppend(db, [ws[0]], ws[1]);
    AppliedAppend(db, [ws[0], ws[1]], ws[2]);
    assert [] + [ws[0]] == [ws[0]] && [ws[0]] + [ws[1]] == [ws[0], ws[1]];
    assert [ws[0], ws[1]] + [ws[2]] == ws[..3];
  }

  /** The leftover names an ID with no record. */
  lemma LeftoverShows(tx: Tx)
    requires Complete(tx)
    ensures var db := Applied(map[], InsertWrites(tx)[..3]);
      OnlyEntry(db, tx) && Typed(db) && forall id :: Data(id) !in db
  {
    var ws := InsertWrites(tx);
    var db := Applied(map[], ws[..3]);
    InsertLeaves(map[], tx);
    forall id ensures Data(id) !in db {
      Untouched(map[], ws[..3], Data(id));
    }
    forall sg: string, k: nat | Nonce(sg, k) != NonceKey(tx) ensures Nonce(sg, k) !in db {
      Untouched(map[], ws[..3], Nonce(sg, k));
    }
  }

  /** The leftover as an inserter of this signer reads it. */
  lemma LeftoverReading(db: Db, tx: Tx, signer: string, entries: seq<Entry>)
    requires Complete(tx) && OnlyEntry(db, tx) && forall id :: Data(id) !in db
    requires entries == if signer == tx.signer then [Entry(tx.nonce.value, tx.id)] else []
    ensures Iterates(entries, db, signer) && FirstResolved(db, entries) == |entries|
  {
    if signer == tx.signer {
      assert entries[0].nonce == tx.nonce.value && entries[1..] == [];
    }
  }

  /** After an insert cut short at nonce m, the same ID can come up again with a nonce n more
      than one below m, and storing it opens the way to a violation. For another signer no
      second failure is needed; for the same signer the clean-up of the leftover must fail. */
  lemma LeftoverIsReached(cut: Tx, again: Tx, m: nat, n: nat)
    requires Complete(cut.(nonce := Some(m))) && cut.sequence == "" && again.sequence == "" && again.id == cut.id
    requires Complete(again.(nonce := Some(n))) && n + 1 < m
    ensures var leftover := Applied(map[], InsertWrites(cut.(nonce := Some(m)))[..3]);
      var s := Settled(Idle(leftover), 1, again.(nonce := Some(n)));
      && Leads(if again.signer == cut.signer then SloppySteps else CarefulSteps, Idle(map[]), s) && Inv(s)
      && Planned(s.db, s.inserters[1].tx, true, "q").Some? && !NearFor(s.db, s.inserters[1].tx)
      && Breaks(CarefulSteps, Step(s, StartStore(1, "q")))
  {
    var mode := if again.signer == cut.signer then SloppySteps else CarefulSteps;
    var filed := cut.(nonce := Some(m));
    var leftover := Applied(map[], InsertWrites(filed)[..3]);
    var s := Settled(Idle(leftover), 1, again.(nonce := Some(n)));
    LeadsToLeftoverState(mode, cut, m, leftover);
    LeftoverShows(filed);
    var entries := if again.signer == cut.signer then [Entry(m, cut.id)] else [];
    LeftoverReading(leftover, filed, again.signer, entries);
    LeadsToAssigned(mode, leftover, 1, again, n, entries);
    LeadsOn(mode, Idle(map[]), Idle(leftover), s);
    LedIsInv(mode, s);
    assert s.db[NonceKey(filed)] == Ref(again.id) && Nonce(filed.signer, m) in s.db;
    FarStoreBreaks(s, 1, "q");
  }

  lemma LeadsToLeftoverState(mode: Mode, cut: Tx, m: nat, leftover: Db)
    requires !mode.CalmSteps? && Complete(cut.(nonce := Some(m))) && cut.sequence == ""
    requires leftover == Applied(map[], InsertWrites(cut.(nonce := Some(m)))[..3])
    ensures Leads(mode, Idle(map[]), Idle(leftover))
  {
    var filed := cut.(nonce := Some(m));
    assert Iterates([], map[], cut.signer);
    LeadsToAssigned(mode, map[], 0, cut, m, []);
    LeadsToLeftover(mode, filed, 0);
    LeadsOn(mode, Idle(map[]), Settled(Idle(map[]), 0, filed), Idle(leftover));
  }

  lemma LedIsInv(mode: Mode, s: System)
    requires !mode.CalmSteps? && Leads(mode, Idle(map[]), s)
    ensures Inv(s)
  {
    var actions :|
      Permitted(mode, Idle(map[]), actions) && Legal(Idle(map[]), actions) && Exec(Idle(map[]), actions) == s;
    PermittedIsLegal(mode, Idle(map[]), actions);
    ExecKeepsInv(Idle(map[]), actions);
  }
}
