/** Runs over LevelDB in which nothing fails and deletes are not interleaved with anything: no
    further care is needed for nonces to go up. */
module LevelNonceOrder {
  import opened Wrappers
  import opened LevelStore
  import opened LevelNonces
  import opened LevelNonceSafety

  predicate Halfway(t: Task) {
    t.Deleting? && t.todo != []
  }

  ghost predicate DeleteUnderWay(s: System) {
    exists d :: d in s.tasks && Halfway(s.tasks[d])
  }

  /** No update of this record is between its read and its last write. */
  ghost predicate Unread(s: System, id: string) {
    && (forall d :: d in s.tasks && s.tasks[d].Updating? ==> s.tasks[d].tx.id != id)
    && (s.writing.Some? && s.writing.value.inserter.None? ==> s.writing.value.tx.id != id)
  }

  /** No write fails and nothing crashes; a delete, once it has read its record, runs to its end
      before anything else does; and it does not start between an update's read of the same
      record and its last write. */
  ghost predicate Orderly(s: System, a: Action)
    requires Enabled(s, a)
  {
    && !a.Crash? && !a.WriteFails?
    && (DeleteUnderWay(s) ==> a.TaskNext? && s.tasks[a.d].Deleting?)
    && (a.StartDelete? ==> Unread(s, a.id))
  }

  ghost predicate OrderlyRun(s: System, actions: seq<Action>)
    requires Legal(s, actions)
    decreases |actions|
  {
    actions == [] || (Orderly(s, actions[0]) && OrderlyRun(Step(s, actions[0]), actions[1..]))
  }

  // ----- What such runs keep -----

  predicate OwnRecord(db: Db, sg: string, n: nat, id: string) {
    Data(id) in db && db[Data(id)].Record? && db[Data(id)].tx.signer == sg && db[Data(id)].tx.nonce == Some(n)
  }

  predicate BeingStored(s: System, sg: string, n: nat, id: string) {
    && s.writing.Some? && s.writing.value.inserter.Some?
    && s.writing.value.tx.id == id && s.writing.value.tx.signer == sg && s.writing.value.tx.nonce == Some(n)
  }

  ghost predicate BeingDeleted(s: System, sg: string, n: nat) {
    exists d :: d in s.tasks && s.tasks[d].Deleting? && Del(Nonce(sg, n)) in s.tasks[d].todo
  }

  /** Every nonce entry leads to its own record, or is being written or removed right now. */
  ghost predicate EntriesExplained(s: System) {
    forall sg, n :: Nonce(sg, n) in s.db ==> Explained(s, sg, n)
  }

  ghost predicate Explained(s: System, sg: string, n: nat)
    requires Nonce(sg, n) in s.db
  {
    var v := s.db[Nonce(sg, n)];
    v.Ref? && (OwnRecord(s.db, sg, n, v.id) || BeingStored(s, sg, n, v.id) || BeingDeleted(s, sg, n))
  }

  /** The record is still the one that was read, up to status. */
  predicate StillThere(db: Db, tx: Tx) {
    Data(tx.id) in db && db[Data(tx.id)].Record? && db[Data(tx.id)].tx.(status := tx.status) == tx
  }

  ghost predicate TaskFits(s: System, t: Task) {
    match t
    case Updating(tx) => StillThere(s.db, tx)
    case Cleaning(todo) => forall w :: w in todo ==> !w.key.Nonce?
    case Deleting(todo) =>
      todo != [] && todo[0].key.Data? ==>
        exists tx :: Stored(s.db, tx) && Complete(tx) && todo == DeleteWrites(tx) && Unread(s, tx.id)
  }

  ghost predicate TasksFit(s: System) {
    && (forall d :: d in s.tasks ==> TaskFits(s, s.tasks[d]))
    && (forall d, e :: d in s.tasks && e in s.tasks && Halfway(s.tasks[d]) && Halfway(s.tasks[e]) ==> d == e)
  }

  ghost predicate NothingToClean(s: System) {
    forall i :: i in s.inserters && s.inserters[i].Looked? ==> s.inserters[i].orphans == []
  }

  ghost predicate UpdateFits(s: System) {
    s.writing.Some? && s.writing.value.inserter.None? ==> StillThere(s.db, s.writing.value.tx)
  }

  ghost predicate OrderInv(s: System) {
    EntriesExplained(s) && TasksFit(s) && NothingToClean(s) && UpdateFits(s)
  }

  /** With no delete and no write under way every entry leads to its own record. */
  lemma AllOwn(s: System, sg: string, n: nat)
    requires Inv(s) && OrderInv(s) && !DeleteUnderWay(s) && s.writing.None? && Nonce(sg, n) in s.db
    ensures s.db[Nonce(sg, n)].Ref? && OwnRecord(s.db, sg, n, s.db[Nonce(sg, n)].id)
  {
    assert Explained(s, sg, n);
    assert forall d :: d in s.tasks ==> !Halfway(s.tasks[d]);
  }

  lemma NobodyRemovesEntries(s: System, key: Key)
    requires TasksFit(s) && NothingToClean(s) && !DeleteUnderWay(s) && key.Nonce?
    ensures Undisturbed(s, key)
  {
    forall todo: seq<Write>, m: nat | Underway(s, todo) && m < |todo| ensures todo[m].key != key {
      if d :| d in s.tasks && todo == Todo(s.tasks[d]) {
        assert TaskFits(s, s.tasks[d]) && !Halfway(s.tasks[d]) && todo[m] in todo;
      }
    }
  }

  lemma OrderlyStoreIsSafe(s: System, i: nat, sequence: string)
    requires Inv(s) && OrderInv(s) && Enabled(s, StartStore(i, sequence)) && !DeleteUnderWay(s)
    requires Planned(s.db, s.inserters[i].tx, true, sequence).Some?
    ensures StoreSafe(s, s.inserters[i].tx)
  {
    var tx := s.inserters[i].tx;
    NobodyRemovesEntries(s, NonceKey(tx));
    UndisturbedIsHeld(s, tx);
    forall sg: string, n: nat | Nonce(sg, n) in s.db ensures s.db[Nonce(sg, n)] != Ref(tx.id) {
      AllOwn(s, sg, n);
    }
  }

  lemma OrderlyIsCareful(s: System, a: Action)
    requires Inv(s) && OrderInv(s) && Enabled(s, a) && Orderly(s, a)
    ensures Careful(s, a)
  {
    match a
    case StartStore(i, sequence) =>
      if Planned(s.db, s.inserters[i].tx, true, sequence).Some? { OrderlyStoreIsSafe(s, i, sequence); }
    case WriteNext =>
      if WritesRecord(s) {
        var was := s.db[Data(s.writing.value.tx.id)].tx;
        assert GoodRecord(s.db[Data(s.writing.value.tx.id)], s.writing.value.tx.id);
        SameRecordIsSafe(s, was.status);
      }
    case _ =>
  }

  // ----- Every orderly step keeps it -----

  lemma SameDbKeepsOrder(s: System, t: System)
    requires OrderInv(s) && t.db == s.db && t.writing == s.writing
    requires forall d :: d in t.tasks ==> d in s.tasks && t.tasks[d] == s.tasks[d]
    requires forall d :: d in s.tasks && Halfway(s.tasks[d]) ==> d in t.tasks
    requires NothingToClean(t)
    ensures OrderInv(t)
  {
    forall sg, n | Nonce(sg, n) in t.db ensures Explained(t, sg, n) {
      assert Explained(s, sg, n);
      if BeingDeleted(s, sg, n) {
        var d :| d in s.tasks && s.tasks[d].Deleting? && Del(Nonce(sg, n)) in s.tasks[d].todo;
        assert Halfway(s.tasks[d]) && d in t.tasks;
      }
    }
    forall d | d in t.tasks ensures TaskFits(t, t.tasks[d]) {
      FitsStill(s, t, d);
    }
  }

  lemma FitsStill(s: System, t: System, d: nat)
    requires TasksFit(s) && t.db == s.db && t.writing == s.writing && d in t.tasks && d in s.tasks
    requires t.tasks[d] == s.tasks[d]
    requires forall e :: e in t.tasks && t.tasks[e].Updating? ==> e in s.tasks && t.tasks[e] == s.tasks[e]
    ensures TaskFits(t, t.tasks[d])
  {
    assert TaskFits(s, s.tasks[d]);
    if Halfway(t.tasks[d]) && t.tasks[d].todo[0].key.Data? {
      var tx :| Stored(s.db, tx) && Complete(tx) && s.tasks[d].todo == DeleteWrites(tx) && Unread(s, tx.id);
      assert Unread(t, tx.id);
    }
  }

  lemma LookKeepsOrder(s: System, i: nat, entries: seq<Entry>)
    requires Inv(s) && OrderInv(s) && Enabled(s, Look(i, entries)) && !DeleteUnderWay(s)
    ensures OrderInv(Step(s, Look(i, entries)))
  {
    var signer := s.inserters[i].tx.signer;
    if entries != [] { AllOwn(s, signer, entries[0].nonce); }
    assert FirstResolved(s.db, entries) == 0;
    assert entries[..0] == [];
    SameDbKeepsOrder(s, Step(s, Look(i, entries)));
  }

  /** Writing anything but records and nonce entries. */
  lemma OtherKeyKeepsOrder(s: System, t: System, w: Write)
    requires OrderInv(s) && !DeleteUnderWay(s) && !w.key.Data? && !w.key.Nonce? && t.db == After(s.db, w)
    requires t.tasks == s.tasks && t.inserters == s.inserters
    requires t.writing.Some? == s.writing.Some?
    requires s.writing.Some? ==>
      t.writing.value.inserter == s.writing.value.inserter && t.writing.value.tx == s.writing.value.tx
    ensures OrderInv(t)
  {
    forall sg, n | Nonce(sg, n) in t.db ensures Explained(t, sg, n) {
      assert Explained(s, sg, n);
    }
    forall d | d in t.tasks ensures TaskFits(t, t.tasks[d]) {
      assert TaskFits(s, s.tasks[d]) && !Halfway(s.tasks[d]);
    }
  }

  /** The insert's own nonce entry. */
  lemma EntryKeepsOrder(s: System)
    requires Inv(s) && OrderInv(s) && !DeleteUnderWay(s) && s.writing.Some? && s.writing.value.todo[0].key.Nonce?
    ensures OrderInv(Step(s, WriteNext))
  {
    var w := s.writing.value;
    PlanStep(w);
    var t := Step(s, WriteNext);
    forall sg, n | Nonce(sg, n) in t.db ensures Explained(t, sg, n) {
      if Nonce(sg, n) != NonceKey(w.tx) { assert Explained(s, sg, n); }
    }
    forall d | d in t.tasks ensures TaskFits(t, t.tasks[d]) {
      assert TaskFits(s, s.tasks[d]) && !Halfway(s.tasks[d]);
    }
  }

  /** The last write of an insert. */
  lemma InsertedKeepsOrder(s: System)
    requires Inv(s) && OrderInv(s) && !DeleteUnderWay(s) && s.writing.Some? && s.writing.value.inserter.Some?
    requires s.writing.value.todo[0].key.Data?
    ensures OrderInv(Step(s, WriteNext))
  {
    var w, t := s.writing.value, Step(s, WriteNext);
    assert InsertOk(s, w);
    RecordIsLast(w);
    InsertedRecordStep(s, w);
    forall sg, n | Nonce(sg, n) in t.db ensures Explained(t, sg, n) {
      assert Explained(s, sg, n);
    }
    forall d | d in t.tasks ensures TaskFits(t, t.tasks[d]) {
      assert TaskFits(s, s.tasks[d]) && !Halfway(s.tasks[d]);
    }
  }

  /** The last write of an update. */
  lemma UpdatedKeepsOrder(s: System)
    requires Inv(s) && OrderInv(s) && !DeleteUnderWay(s) && s.writing.Some? && s.writing.value.inserter.None?
    requires s.writing.value.todo[0].key.Data?
    ensures OrderInv(Step(s, WriteNext))
  {
    var w, t := s.writing.value, Step(s, WriteNext);
    RecordIsLast(w);
    UpdatedRecordStep(s, w);
    forall sg, n | Nonce(sg, n) in t.db ensures Explained(t, sg, n) {
      UpdatedExplains(s, t, w.tx, sg, n);
    }
    forall d | d in t.tasks ensures TaskFits(t, t.tasks[d]) {
      assert TaskFits(s, s.tasks[d]) && !Halfway(s.tasks[d]);
    }
  }

  lemma UpdatedExplains(s: System, t: System, tx: Tx, sg: string, n: nat)
    requires StillThere(s.db, tx) && s.writing.Some? && s.writing.value.inserter.None?
    requires t.db == s.db[Data(tx.id) := Record(tx)] && t.tasks == s.tasks
    requires Nonce(sg, n) in s.db && Explained(s, sg, n)
    ensures Explained(t, sg, n)
  {
    var v := s.db[Nonce(sg, n)];
    if OwnRecord(s.db, sg, n, v.id) { assert OwnRecord(t.db, sg, n, v.id); }
  }

  lemma WriteKeepsOrder(s: System)
    requires Inv(s) && OrderInv(s) && !DeleteUnderWay(s) && Enabled(s, WriteNext)
    ensures OrderInv(Step(s, WriteNext))
  {
    var w := s.writing.value;
    if w.todo[0].key.Data? {
      if w.inserter.Some? { InsertedKeepsOrder(s); } else { UpdatedKeepsOrder(s); }
    } else if w.todo[0].key.Nonce? {
      EntryKeepsOrder(s);
    } else {
      PlanStep(w);
      OtherKeyKeepsOrder(s, Step(s, WriteNext), w.todo[0]);
    }
  }

  lemma StartDeleteKeepsOrder(s: System, d: nat, id: string)
    requires Inv(s) && OrderInv(s) && Enabled(s, StartDelete(d, id)) && Orderly(s, StartDelete(d, id))
    ensures OrderInv(Step(s, StartDelete(d, id)))
  {
    var t := Step(s, StartDelete(d, id));
    var tx := Loaded(s.db, id).value;
    assert GoodRecord(s.db[Data(id)], id);
    forall sg, n | Nonce(sg, n) in t.db ensures Explained(t, sg, n) {
      assert Explained(s, sg, n);
      assert forall e :: e in s.tasks ==> !Halfway(s.tasks[e]);
    }
    assert Stored(s.db, tx) && Unread(t, id);
    forall e | e in t.tasks ensures TaskFits(t, t.tasks[e]) {
      if e != d { assert TaskFits(s, s.tasks[e]) && !Halfway(s.tasks[e]); }
    }
  }

  lemma TaskNextKeepsOrder(s: System, d: nat)
    requires Inv(s) && OrderInv(s) && Enabled(s, TaskNext(d)) && Orderly(s, TaskNext(d))
    ensures OrderInv(Step(s, TaskNext(d)))
  {
    var t := Step(s, TaskNext(d));
    var todo := s.tasks[d].todo;
    assert TaskOk(s.tasks[d]) && TaskFits(s, s.tasks[d]) && todo[0] in todo;
    forall e | e in s.tasks && e != d ensures !Halfway(s.tasks[e]) {
      assert Halfway(s.tasks[e]) ==> DeleteUnderWay(s);
    }
    TaskNextKeepsFits(s, d, t);
    forall sg, n | Nonce(sg, n) in t.db ensures Explained(t, sg, n) {
      TaskNextExplains(s, d, t, sg, n);
    }
  }

  lemma TaskNextKeepsFits(s: System, d: nat, t: System)
    requires Inv(s) && OrderInv(s) && Enabled(s, TaskNext(d)) && t == Step(s, TaskNext(d))
    requires forall e :: e in s.tasks && e != d ==> !Halfway(s.tasks[e])
    ensures TasksFit(t) && UpdateFits(t)
  {
    var todo := s.tasks[d].todo;
    assert TaskOk(s.tasks[d]) && TaskFits(s, s.tasks[d]) && todo[0] in todo;
    if todo[0].key.Data? {
      var tx :| Stored(s.db, tx) && Complete(tx) && todo == DeleteWrites(tx) && Unread(s, tx.id);
    }
    forall e | e in t.tasks ensures TaskFits(t, t.tasks[e]) {
      if e != d {
        assert TaskFits(s, s.tasks[e]);
      } else if todo[1..] != [] {
        assert todo[1..][0] == todo[1] && !todo[1].key.Data?;
      }
    }
  }

  lemma TaskNextExplains(s: System, d: nat, t: System, sg: string, n: nat)
    requires Inv(s) && OrderInv(s) && Enabled(s, TaskNext(d)) && t == Step(s, TaskNext(d)) && Nonce(sg, n) in t.db
    requires forall e :: e in s.tasks && e != d ==> !Halfway(s.tasks[e])
    ensures Explained(t, sg, n)
  {
    var todo := s.tasks[d].todo;
    assert TaskOk(s.tasks[d]) && TaskFits(s, s.tasks[d]) && todo[0] in todo && Explained(s, sg, n);
    var id := s.db[Nonce(sg, n)].id;
    if BeingDeleted(s, sg, n) {
      var e :| e in s.tasks && s.tasks[e].Deleting? && Del(Nonce(sg, n)) in s.tasks[e].todo;
      assert Halfway(s.tasks[e]);
      assert Del(Nonce(sg, n)) in todo[1..];
      assert t.tasks[d].todo == todo[1..];
    } else {
      assert todo[0] != Del(Data(id));
    }
  }

  lemma UpdateStepKeepsOrder(s: System, a: Action)
    requires Inv(s) && OrderInv(s) && Enabled(s, a) && Orderly(s, a) && (a.StartUpdate? || a.StartRewrite?)
    ensures OrderInv(Step(s, a))
  {
    var t := Step(s, a);
    forall sg, n | Nonce(sg, n) in t.db ensures Explained(t, sg, n) {
      AllOwn(s, sg, n);
    }
    if a.StartUpdate? { assert GoodRecord(s.db[Data(a.id)], a.id); }
    if a.StartRewrite? { assert TaskFits(s, s.tasks[a.d]); }
    forall e | e in t.tasks ensures TaskFits(t, t.tasks[e]) {
      if e in s.tasks && t.tasks[e] == s.tasks[e] { assert TaskFits(s, s.tasks[e]) && !Halfway(s.tasks[e]); }
    }
  }

  lemma StartStoreKeepsOrder(s: System, i: nat, sequence: string)
    requires Inv(s) && OrderInv(s) && Enabled(s, StartStore(i, sequence)) && !DeleteUnderWay(s)
    ensures OrderInv(Step(s, StartStore(i, sequence)))
  {
    var t := Step(s, StartStore(i, sequence));
    forall sg, n | Nonce(sg, n) in t.db ensures Explained(t, sg, n) {
      AllOwn(s, sg, n);
    }
    forall e | e in t.tasks ensures TaskFits(t, t.tasks[e]) {
      assert TaskFits(s, s.tasks[e]) && !Halfway(s.tasks[e]);
    }
  }

  lemma StartListKeepsOrder(s: System, d: nat, orphans: seq<Write>)
    requires Inv(s) && OrderInv(s) && Enabled(s, StartList(d, orphans)) && !DeleteUnderWay(s)
    ensures OrderInv(Step(s, StartList(d, orphans)))
  {
    var t := Step(s, StartList(d, orphans));
    forall w | w in orphans ensures !w.key.Nonce? {
      assert OrphanNow(s.db, w);
      if w.key.Nonce? { AllOwn(s, w.key.signer, w.key.nonce); }
    }
    forall sg, n | Nonce(sg, n) in t.db ensures Explained(t, sg, n) {
      AllOwn(s, sg, n);
    }
    forall e | e in t.tasks ensures TaskFits(t, t.tasks[e]) {
      if e != d { assert TaskFits(s, s.tasks[e]) && !Halfway(s.tasks[e]); }
    }
  }

  lemma StepKeepsOrder(s: System, a: Action)
    requires Inv(s) && OrderInv(s) && Enabled(s, a) && Orderly(s, a)
    ensures OrderInv(Step(s, a))
  {
    if a.Look? {
      LookKeepsOrder(s, a.i, a.entries);
    } else if a.StartStore? {
      StartStoreKeepsOrder(s, a.i, a.sequence);
    } else if a.WriteNext? {
      WriteKeepsOrder(s);
    } else if a.StartDelete? {
      StartDeleteKeepsOrder(s, a.d, a.id);
    } else if a.StartList? {
      StartListKeepsOrder(s, a.d, a.orphans);
    } else if a.StartUpdate? || a.StartRewrite? {
      UpdateStepKeepsOrder(s, a);
    } else if a.TaskNext? {
      TaskNextKeepsOrder(s, a.d);
    } else if a.Begin? || a.TakeLock? || a.Assign? || a.Release? || a.TaskStops? {
      SameDbKeepsOrder(s, Step(s, a));
    }
  }

  lemma {:induction false} OrderlyRunsAreCareful(s: System, actions: seq<Action>)
    requires Inv(s) && OrderInv(s) && Legal(s, actions) && OrderlyRun(s, actions)
    ensures CarefulRun(s, actions)
    decreases |actions|
  {
    if actions != [] {
      OrderlyIsCareful(s, actions[0]);
      StepKeepsInv(s, actions[0]);
      StepKeepsOrder(s, actions[0]);
      OrderlyRunsAreCareful(Step(s, actions[0]), actions[1..]);
    }
  }

  /** In every interleaving of inserters, updates and readers whose writes succeed and whose
      deletes run through, a nonce about to be stored exceeds all then stored for its signer,
      with no further condition. */
  lemma OrderlyNoncesGoUp(actions: seq<Action>)
    requires Legal(Idle(map[]), actions) && OrderlyRun(Idle(map[]), actions)
    ensures !Violated(Exec(Idle(map[]), actions))
  {
    OrderlyRunsAreCareful(Idle(map[]), actions);
    StoredNoncesGoUp(actions);
  }
}
