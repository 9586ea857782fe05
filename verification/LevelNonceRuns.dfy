/** Runs over LevelDB that end in a nonce not exceeding one that is stored, put together from
    their last step backwards. */
module LevelNonceRuns {
  import opened Wrappers
  import opened LevelStore
  import opened LevelNonces
  import opened LevelNonceSafety

  /** Runs that are careful, and runs in which nothing fails and every task is carried through.
      In both an inserter removes the orphans it found before it settles on a nonce; Sloppy
      runs are careful ones in which that clean-up may fail. */
  datatype Mode = CarefulSteps | SloppySteps | CalmSteps

  ghost predicate Permits(mode: Mode, s: System, a: Action)
    requires Enabled(s, a)
  {
    && (!mode.SloppySteps? && a.Assign? ==> s.inserters[a.i].orphans == [])
    && match mode
       case CarefulSteps => Careful(s, a)
       case SloppySteps => Careful(s, a)
       case CalmSteps => !a.WriteFails? && !a.Crash? && (a.TaskStops? ==> Todo(s.tasks[a.d]) == [])
  }

  ghost predicate Permitted(mode: Mode, s: System, actions: seq<Action>)
    decreases |actions|
  {
    actions == [] ||
    (Enabled(s, actions[0]) && Permits(mode, s, actions[0]) && Permitted(mode, Step(s, actions[0]), actions[1..]))
  }

  lemma {:induction false} PermittedIsLegal(mode: Mode, s: System, actions: seq<Action>)
    requires Permitted(mode, s, actions)
    ensures Legal(s, actions) && (!mode.CalmSteps? ==> CarefulRun(s, actions))
    decreases |actions|
  {
    if actions != [] { PermittedIsLegal(mode, Step(s, actions[0]), actions[1..]); }
  }

  /** A permitted run from s ends in a state in which the guarantee is broken. */
  ghost predicate Breaks(mode: Mode, s: System) {
    exists actions :: Permitted(mode, s, actions) && Legal(s, actions) && Violated(Exec(s, actions))
  }

  lemma BreaksNow(mode: Mode, s: System)
    requires Violated(s)
    ensures Breaks(mode, s)
  {
    assert Permitted(mode, s, []) && Legal(s, []) && Exec(s, []) == s;
  }

  lemma BreaksAfter(mode: Mode, s: System, a: Action)
    requires Enabled(s, a) && Permits(mode, s, a) && Breaks(mode, Step(s, a))
    ensures Breaks(mode, s)
  {
    var t := Step(s, a);
    var rest :| Permitted(mode, t, rest) && Legal(t, rest) && Violated(Exec(t, rest));
    var actions := [a] + rest;
    assert actions[0] == a && actions[1..] == rest;
    assert Permitted(mode, s, actions) && Legal(s, actions) && Exec(s, actions) == Exec(t, rest);
  }

  // ----- Runs of several steps -----

  lemma WriteNextInPlan(s: System)
    requires s.writing.Some? && |s.writing.value.todo| > 1
    ensures var w := s.writing.value;
      Step(s, WriteNext) == s.(db := After(s.db, w.todo[0]), writing := Some(w.(todo := w.todo[1..])))
  {
  }

  lemma WriteLast(s: System)
    requires s.writing.Some? && |s.writing.value.todo| == 1
    ensures Step(s, WriteNext) == Ended(s.(db := After(s.db, s.writing.value.todo[0])))
  {
  }

  lemma {:induction false} WritesBreak(mode: Mode, s: System)
    requires s.writing.Some? && s.writing.value.inserter.Some? && s.writing.value.todo != []
    requires Breaks(mode, Ended(s.(db := Applied(s.db, s.writing.value.todo))))
    ensures Breaks(mode, s)
    decreases |s.writing.value.todo|
  {
    var w := s.writing.value;
    if |w.todo| == 1 {
      WriteLast(s);
      assert w.todo[1..] == [];
      assert Applied(s.db, w.todo) == After(s.db, w.todo[0]);
    } else {
      WriteNextInPlan(s);
      var t := Step(s, WriteNext);
      SameEnd(s, t);
      WritesBreak(mode, t);
    }
    BreaksAfter(mode, s, WriteNext);
  }

  lemma SameEnd(s: System, t: System)
    requires s.writing.Some? && |s.writing.value.todo| > 1
    requires var w := s.writing.value;
      t == s.(db := After(s.db, w.todo[0]), writing := Some(w.(todo := w.todo[1..])))
    ensures Ended(t.(db := Applied(t.db, t.writing.value.todo))) == Ended(s.(db := Applied(s.db, s.writing.value.todo)))
  {
  }

  lemma {:induction false} CleanUpBreaks(mode: Mode, s: System, i: nat)
    requires i in s.inserters && s.inserters[i].Looked? && s.writing.None?
    requires var p := s.inserters[i];
      Breaks(mode, s.(db := Applied(s.db, p.orphans), inserters := s.inserters[i := p.(orphans := [])]))
    ensures Breaks(mode, s)
    decreases |s.inserters[i].orphans|
  {
    var p := s.inserters[i];
    if p.orphans == [] {
      assert s.inserters[i := p.(orphans := [])] == s.inserters;
    } else {
      var t := Step(s, CleanUp(i));
      assert t.inserters[i] == p.(orphans := p.orphans[1..]);
      assert t.inserters[i := t.inserters[i].(orphans := [])] == s.inserters[i := p.(orphans := [])];
      CleanUpBreaks(mode, t, i);
      BreaksAfter(mode, s, CleanUp(i));
    }
  }

  // ----- Settling on a nonce -----

  /** The removals an inserter makes after its look. */
  function Skipped(db: Db, signer: string, entries: seq<Entry>): seq<Write> {
    Orphans(signer, entries[..FirstResolved(db, entries)])
  }

  function Cleaned(db: Db, signer: string, entries: seq<Entry>): Db {
    Applied(db, Skipped(db, signer, entries))
  }

  /** What an inserter ends up holding: the lock, and a nonce from what it read. */
  function Settled(s: System, i: nat, tx: Tx): System {
    s.(inserters := s.inserters[i := Assigned(tx)], lockedNonces := s.lockedNonces[tx.signer := i])
  }

  function Behind(s: System, i: nat, p: Phase): System {
    s.(inserters := s.inserters[i := p], lockedNonces := s.lockedNonces[p.tx.signer := i])
  }

  lemma SettlingBreaks(mode: Mode, s: System, i: nat, tx: Tx, entries: seq<Entry>, recent: bool, node: Option<nat>)
    requires i !in s.inserters && tx.signer !in s.lockedNonces && s.writing.None? && Iterates(entries, s.db, tx.signer)
    requires var next := NextNonce(LastNonce(s.db, entries), recent, node);
      next.Some? && Breaks(mode, Settled(s.(db := Cleaned(s.db, tx.signer, entries)), i, tx.(nonce := next)))
    ensures Breaks(mode, s)
  {
    LookingBreaks(mode, s, i, tx, entries, recent, node);
    LockingBreaks(mode, s, i, tx);
  }

  /** Taking the lock at once. */
  lemma LockSteps(s: System, i: nat, tx: Tx)
    requires i !in s.inserters && tx.signer !in s.lockedNonces
    ensures var one := s.(inserters := s.inserters[i := Waiting(tx)]);
      && Step(s, Begin(i, tx)) == one
      && Enabled(one, TakeLock(i)) && Step(one, TakeLock(i)) == Behind(s, i, Locked(tx))
  {
    assert s.inserters[i := Waiting(tx)][i := Locked(tx)] == s.inserters[i := Locked(tx)];
  }

  lemma LockingBreaks(mode: Mode, s: System, i: nat, tx: Tx)
    requires i !in s.inserters && tx.signer !in s.lockedNonces && Breaks(mode, Behind(s, i, Locked(tx)))
    ensures Breaks(mode, s)
  {
    LockSteps(s, i, tx);
    BreaksAfter(mode, s.(inserters := s.inserters[i := Waiting(tx)]), TakeLock(i));
    BreaksAfter(mode, s, Begin(i, tx));
  }

  lemma LookStep(s: System, i: nat, tx: Tx, entries: seq<Entry>)
    requires s.writing.None? && Iterates(entries, s.db, tx.signer)
    ensures Enabled(Behind(s, i, Locked(tx)), Look(i, entries))
    ensures Step(Behind(s, i, Locked(tx)), Look(i, entries)) ==
      Behind(s, i, Looked(tx, LastNonce(s.db, entries), Skipped(s.db, tx.signer, entries)))
  {
    var p := Looked(tx, LastNonce(s.db, entries), Skipped(s.db, tx.signer, entries));
    assert Behind(s, i, Locked(tx)).inserters[i := p] == s.inserters[i := p];
  }

  lemma AssignStep(s: System, i: nat, tx: Tx, last: Option<nat>, recent: bool, node: Option<nat>)
    requires NextNonce(last, recent, node).Some?
    ensures Step(Behind(s, i, Looked(tx, last, [])), Assign(i, recent, node)) ==
      Settled(s, i, tx.(nonce := NextNonce(last, recent, node)))
  {
    var p := Assigned(tx.(nonce := NextNonce(last, recent, node)));
    assert Behind(s, i, Looked(tx, last, [])).inserters[i := p] == s.inserters[i := p];
  }

  lemma LookingBreaks(mode: Mode, s: System, i: nat, tx: Tx, entries: seq<Entry>, recent: bool, node: Option<nat>)
    requires s.writing.None? && Iterates(entries, s.db, tx.signer)
    requires var next := NextNonce(LastNonce(s.db, entries), recent, node);
      next.Some? && Breaks(mode, Settled(s.(db := Cleaned(s.db, tx.signer, entries)), i, tx.(nonce := next)))
    ensures Breaks(mode, Behind(s, i, Locked(tx)))
  {
    var last := LastNonce(s.db, entries);
    var clean := s.(db := Cleaned(s.db, tx.signer, entries));
    AssignStep(clean, i, tx, last, recent, node);
    BreaksAfter(mode, Behind(clean, i, Looked(tx, last, [])), Assign(i, recent, node));
    var three := Behind(s, i, Looked(tx, last, Skipped(s.db, tx.signer, entries)));
    CleaningBreaks(mode, s, i, tx, entries, three, clean);
    LookStep(s, i, tx, entries);
    BreaksAfter(mode, Behind(s, i, Locked(tx)), Look(i, entries));
  }

  lemma CleaningBreaks(mode: Mode, s: System, i: nat, tx: Tx, entries: seq<Entry>, three: System, clean: System)
    requires s.writing.None? && clean == s.(db := Cleaned(s.db, tx.signer, entries))
    requires three == Behind(s, i, Looked(tx, LastNonce(s.db, entries), Skipped(s.db, tx.signer, entries)))
    requires Breaks(mode, Behind(clean, i, Looked(tx, LastNonce(s.db, entries), [])))
    ensures Breaks(mode, three)
  {
    var p := three.inserters[i];
    assert three.inserters[i := p.(orphans := [])] == s.inserters[i := p.(orphans := [])];
    CleanUpBreaks(mode, three, i);
  }

  /** This entry leads to a record. */
  predicate Resolves(db: Db, signer: string, n: nat) {
    Nonce(signer, n) in db && db[Nonce(signer, n)].Ref? && Data(db[Nonce(signer, n)].id) in db
  }

  /** Some of the signer's entries that lead nowhere are gone, none of them below one that does
      not; everything else is there. */
  ghost predicate CleanedVersion(db: Db, signer: string, clean: Db) {
    && Typed(clean)
    && (forall k :: k in clean ==> k in db && clean[k] == db[k])
    && (forall k :: k in db && !(k.Nonce? && k.signer == signer) ==> k in clean)
    && (forall n, m :: n <= m && Nonce(signer, n) in db && Resolves(db, signer, m) ==> Nonce(signer, n) in clean)
  }

  /** What is skipped is above everything that leads to a record. */
  lemma SkippedIsAbove(db: Db, signer: string, entries: seq<Entry>, n: nat, m: nat)
    requires Iterates(entries, db, signer) && n <= m && Resolves(db, signer, m)
    ensures Del(Nonce(signer, n)) !in Skipped(db, signer, entries)
  {
    var missing := entries[..FirstResolved(db, entries)];
    var i :| 0 <= i < |entries| && entries[i].nonce == m;
    assert FirstResolved(db, entries) <= i;
    forall k | 0 <= k < |Orphans(signer, missing)| ensures Orphans(signer, missing)[k] != Del(Nonce(signer, n)) {
      OrphanCount(signer, missing);
      OrphanAt(signer, missing, k);
      assert missing[k] == entries[k] && entries[k].nonce > m;
    }
  }

  lemma {:induction false} OrphanCount(signer: string, entries: seq<Entry>)
    ensures |Orphans(signer, entries)| == |entries|
  {
    if entries != [] { OrphanCount(signer, entries[1..]); }
  }

  lemma CleanedShows(db: Db, signer: string, entries: seq<Entry>)
    requires Iterates(entries, db, signer) && Typed(db)
    ensures CleanedVersion(db, signer, Cleaned(db, signer, entries))
  {
    var ws := Skipped(db, signer, entries);
    var clean := Applied(db, ws);
    SkippedAreOrphans(db, signer, entries);
    forall k | k in clean ensures k in db && clean[k] == db[k] {
      OnlyDeleted(db, ws, k);
    }
    forall k | k in db && !(k.Nonce? && k.signer == signer) ensures k in clean {
      Untouched(db, ws, k);
    }
    forall n, m | n <= m && Nonce(signer, n) in db && Resolves(db, signer, m) ensures Nonce(signer, n) in clean {
      SkippedIsAbove(db, signer, entries, n, m);
      Untouched(db, ws, Nonce(signer, n));
    }
    DeletesKeepTyped(db, ws);
  }

  lemma {:induction false} OnlyDeleted(db: Db, ws: seq<Write>, k: Key)
    requires k in Applied(db, ws) && forall w :: w in ws ==> w.Del?
    ensures k in db && db[k] == Applied(db, ws)[k]
    decreases |ws|
  {
    if ws != [] {
      assert ws[0] in ws;
      OnlyDeleted(After(db, ws[0]), ws[1..], k);
    }
  }

  lemma DeletesKeepTyped(db: Db, ws: seq<Write>)
    requires Typed(db) && forall w :: w in ws ==> w.Del?
    ensures Typed(Applied(db, ws))
  {
    var after := Applied(db, ws);
    forall id | Data(id) in after ensures GoodRecord(after[Data(id)], id) {
      OnlyDeleted(db, ws, Data(id));
    }
    forall s, n | Nonce(s, n) in after ensures GoodEntry(after[Nonce(s, n)], s) {
      OnlyDeleted(db, ws, Nonce(s, n));
    }
  }

  // ----- A whole insert -----

  lemma StoringBreaks(mode: Mode, s: System, i: nat, filed: Tx, sequence: string)
    requires i !in s.inserters && filed.signer !in s.lockedNonces && s.writing.None?
    requires Complete(filed) && filed.sequence == "" && Data(filed.id) !in s.db
    requires !mode.CalmSteps? ==> StoreSafe(Settled(s, i, filed), filed)
    requires Breaks(mode, s.(db := Applied(s.db, InsertWrites(filed.(sequence := sequence)))))
    ensures Breaks(mode, Settled(s, i, filed))
  {
    var one := Settled(s, i, filed);
    var ws := InsertWrites(filed.(sequence := sequence));
    StartStoreStep(one, i, sequence);
    var two := Step(one, StartStore(i, sequence));
    assert two.inserters == s.inserters[i := Storing(filed)];
    StoredBreaks(mode, s, two, i, filed, ws);
    WritesBreak(mode, two);
    BreaksAfter(mode, one, StartStore(i, sequence));
  }

  lemma StoredBreaks(mode: Mode, s: System, two: System, i: nat, filed: Tx, ws: seq<Write>)
    requires i !in s.inserters && filed.signer !in s.lockedNonces && s.writing.None?
    requires two.inserters == s.inserters[i := Storing(filed)]
    requires two.lockedNonces == s.lockedNonces[filed.signer := i]
    requires two.db == s.db && two.tasks == s.tasks && two.writing.Some? && two.writing.value.inserter == Some(i)
    requires Breaks(mode, s.(db := Applied(s.db, ws)))
    ensures Breaks(mode, Ended(two.(db := Applied(s.db, ws))))
  {
    var three := Ended(two.(db := Applied(s.db, ws)));
    var four := Step(three, Release(i));
    assert four.inserters == s.inserters && four.lockedNonces == s.lockedNonces;
    assert four == s.(db := Applied(s.db, ws));
    BreaksAfter(mode, three, Release(i));
  }

  /** With no task under way, an insert that no much higher entry names is safe. */
  lemma AloneIsSafe(s: System, i: nat, filed: Tx)
    requires s.tasks == map[] && s.inserters == map[] && Complete(filed) && NearFor(s.db, filed)
    ensures StoreSafe(Settled(s, i, filed), filed)
  {
    UndisturbedIsHeld(Settled(s, i, filed), filed);
  }

  /** An insert over the store as its own clean-up leaves it. */
  lemma InsertBreaks(
      mode: Mode, s: System, i: nat, tx: Tx, entries: seq<Entry>, recent: bool, node: Option<nat>, sequence: string)
    requires i !in s.inserters && tx.signer !in s.lockedNonces && s.writing.None? && Iterates(entries, s.db, tx.signer)
    requires NextNonce(LastNonce(s.db, entries), recent, node).Some?
    requires var filed := tx.(nonce := NextNonce(LastNonce(s.db, entries), recent, node));
      var clean := s.(db := Cleaned(s.db, tx.signer, entries));
      && Complete(filed) && tx.sequence == "" && Data(tx.id) !in clean.db
      && (!mode.CalmSteps? ==> StoreSafe(Settled(clean, i, filed), filed))
      && Breaks(mode, clean.(db := Applied(clean.db, InsertWrites(filed.(sequence := sequence)))))
    ensures Breaks(mode, s)
  {
    var filed := tx.(nonce := NextNonce(LastNonce(s.db, entries), recent, node));
    StoringBreaks(mode, s.(db := Cleaned(s.db, tx.signer, entries)), i, filed, sequence);
    SettlingBreaks(mode, s, i, tx, entries, recent, node);
  }

  /** The records and nonce entries after a whole insert. */
  lemma InsertShows(db: Db, e: Tx)
    requires Complete(e)
    ensures var r := Applied(db, InsertWrites(e));
      && (forall id :: Data(id) in r <==> Data(id) in db || id == e.id)
      && (forall id :: Data(id) in r ==> r[Data(id)] == if id == e.id then Record(e) else db[Data(id)])
      && SameEntries(r, WithEntry(db, e))
  {
    var ws := InsertWrites(e);
    var r := Applied(db, ws);
    AppliedAppend(db, ws[..3], ws[3]);
    assert ws[..3] + [ws[3]] == ws;
    InsertLeaves(db, e);
    forall id | id != e.id
      ensures (Data(id) in r <==> Data(id) in db) && (Data(id) in db ==> r[Data(id)] == db[Data(id)])
    {
      Untouched(db, ws, Data(id));
    }
    forall s: string, n: nat | Nonce(s, n) != NonceKey(e)
      ensures (Nonce(s, n) in r <==> Nonce(s, n) in db) && (Nonce(s, n) in db ==> r[Nonce(s, n)] == db[Nonce(s, n)])
    {
      Untouched(db, ws, Nonce(s, n));
    }
  }

  lemma InsertKeepsTyped(db: Db, e: Tx)
    requires Typed(db) && Complete(e)
    ensures Typed(Applied(db, InsertWrites(e))) && Stored(Applied(db, InsertWrites(e)), e)
  {
    InsertShows(db, e);
    var r := Applied(db, InsertWrites(e));
    forall s, n | Nonce(s, n) in r ensures GoodEntry(r[Nonce(s, n)], s) {
      assert Nonce(s, n) in WithEntry(db, e);
    }
  }

  /** Reading too low: the nonce settled on is not above a stored one. */
  lemma LowReadingBreaks(mode: Mode, s: System, i: nat, tx: Tx, entries: seq<Entry>, recent: bool, node: Option<nat>)
    requires i !in s.inserters && tx.signer !in s.lockedNonces && s.writing.None? && Typed(s.db)
    requires Stored(s.db, tx) && tx.nonce.Some? && Iterates(entries, s.db, tx.signer)
    requires var next := NextNonce(LastNonce(s.db, entries), recent, node);
      next.Some? && next.value <= tx.nonce.value
    ensures Breaks(mode, s)
  {
    var next := NextNonce(LastNonce(s.db, entries), recent, node);
    CleanedShows(s.db, tx.signer, entries);
    var t := Settled(s.(db := Cleaned(s.db, tx.signer, entries)), i, tx.(nonce := next));
    assert Stored(t.db, tx);
    assert t.inserters[i].Assigned? && !Above(t.db, tx.signer, next);
    BreaksNow(mode, t);
    SettlingBreaks(mode, s, i, tx, entries, recent, node);
  }
}
