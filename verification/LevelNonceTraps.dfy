/** States from which a careful run leads to a nonce not exceeding one that is stored: a stored
    transaction is named by a far entry, or is not anchored. */
module LevelNonceTraps {
  import opened Wrappers
  import opened LevelStore
  import opened LevelNonces
  import opened LevelNonceSafety
  import opened LevelNonceRuns

  // ----- There is always something to read, and a name to use -----

  function NoncesOf(db: Db, signer: string): set<nat> {
    set k | k in db.Keys && k.Nonce? && k.signer == signer :: k.nonce
  }

  lemma {:induction false} Topmost(ns: set<nat>) returns (top: nat)
    requires ns != {}
    ensures top in ns && forall n :: n in ns ==> n <= top
    decreases |ns|
  {
    var n :| n in ns;
    var rest := ns - {n};
    assert forall m :: m in ns ==> m == n || m in rest;
    if rest == {} {
      top := n;
    } else {
      var t := Topmost(rest);
      top := if t > n then t else n;
    }
  }

  /** These are the signer's entries at these nonces, highest first. */
  ghost predicate Lists(entries: seq<Entry>, db: Db, signer: string, ns: set<nat>) {
    && Descends(entries)
    && (forall i :: 0 <= i < |entries| ==> entries[i].nonce in ns && EntryOf(entries[i], db, signer))
    && (forall n :: n in ns ==> exists i :: 0 <= i < |entries| && entries[i].nonce == n)
  }

  predicate EntryOf(e: Entry, db: Db, signer: string) {
    Nonce(signer, e.nonce) in db && db[Nonce(signer, e.nonce)] == Ref(e.id)
  }

  lemma DescendsFurther(top: Entry, rest: seq<Entry>)
    requires Descends(rest) && forall i :: 0 <= i < |rest| ==> rest[i].nonce < top.nonce
    ensures Descends([top] + rest)
  {
  }

  lemma ListsMore(top: Entry, rest: seq<Entry>, db: Db, signer: string, ns: set<nat>)
    requires Lists(rest, db, signer, ns - {top.nonce}) && EntryOf(top, db, signer)
    requires top.nonce in ns && forall n :: n in ns ==> n <= top.nonce
    ensures Lists([top] + rest, db, signer, ns)
  {
    var entries := [top] + rest;
    forall i | 0 <= i < |rest| ensures rest[i].nonce < top.nonce {
      assert rest[i].nonce in ns - {top.nonce};
    }
    DescendsFurther(top, rest);
    forall n | n in ns ensures exists i :: 0 <= i < |entries| && entries[i].nonce == n {
      if n == top.nonce {
        assert entries[0].nonce == n;
      } else {
        assert n in ns - {top.nonce};
        var i :| 0 <= i < |rest| && rest[i].nonce == n;
        assert entries[i + 1].nonce == n;
      }
    }
  }

  lemma {:induction false} EntriesOf(db: Db, signer: string, ns: set<nat>) returns (entries: seq<Entry>)
    requires ns <= NoncesOf(db, signer) && Typed(db)
    ensures Lists(entries, db, signer, ns)
    decreases |ns|
  {
    if ns == {} {
      entries := [];
    } else {
      var n := Topmost(ns);
      var rest := EntriesOf(db, signer, ns - {n});
      assert Nonce(signer, n) in db;
      var top := Entry(n, db[Nonce(signer, n)].id);
      ListsMore(top, rest, db, signer, ns);
      entries := [top] + rest;
    }
  }

  lemma CanIterate(db: Db, signer: string) returns (entries: seq<Entry>)
    requires Typed(db)
    ensures Iterates(entries, db, signer)
  {
    entries := EntriesOf(db, signer, NoncesOf(db, signer));
    assert forall i :: 0 <= i < |entries| ==> EntryOf(entries[i], db, signer);
    forall n | Nonce(signer, n) in db ensures exists i :: 0 <= i < |entries| && entries[i].nonce == n {
      assert n in NoncesOf(db, signer);
    }
  }

  lemma {:induction false} Longest(xs: set<string>) returns (n: nat)
    ensures forall x :: x in xs ==> |x| < n
    decreases |xs|
  {
    if xs == {} {
      n := 0;
    } else {
      var x :| x in xs;
      n := Longest(xs - {x});
      n := if |x| < n then n else |x| + 1;
      assert forall y :: y in xs ==> y == x || y in xs - {x};
    }
  }

  lemma Unused(xs: set<string>) returns (x: string)
    ensures x != "" && x !in xs
  {
    var n := Longest(xs);
    x := seq(n + 1, _ => 'x');
    assert |x| == n + 1;
  }

  /** An ID that nothing in the store names. */
  lemma UnusedId(db: Db) returns (id: string)
    ensures id != "" && Data(id) !in db
    ensures forall k :: k in db && db[k].Ref? ==> db[k].id != id
  {
    var xs := (set k | k in db.Keys && k.Data? :: k.id) + (set k | k in db.Keys && db[k].Ref? :: db[k].id);
    id := Unused(xs);
    assert forall k :: k in db.Keys && k.Data? ==> k.id in xs;
    assert forall k :: k in db.Keys && db[k].Ref? ==> db[k].id in xs;
  }

  lemma UnusedSigner(db: Db) returns (signer: string)
    ensures signer != "" && forall n :: Nonce(signer, n) !in db
  {
    var xs := set k | k in db.Keys && k.Nonce? :: k.signer;
    signer := Unused(xs);
    assert forall k :: k in db.Keys && k.Nonce? ==> k.signer in xs;
    forall n ensures Nonce(signer, n) !in db {
      assert Nonce(signer, n) in db ==> Nonce(signer, n) in db.Keys;
    }
  }

  // ----- With nothing else under way -----

  /** A delete that gets no further than the record. */
  lemma DropBreaks(db: Db, id: string)
    requires Typed(db) && Data(id) in db && Breaks(CarefulSteps, Idle(db - {Data(id)}))
    ensures Breaks(CarefulSteps, Idle(db))
  {
    assert GoodRecord(db[Data(id)], id);
    var todo := DeleteWrites(Loaded(db, id).value);
    var one := Step(Idle(db), StartDelete(0, id));
    assert one.tasks[0] == Deleting(todo) && todo[0] == Del(Data(id));
    var two := Step(one, TaskNext(0));
    assert Step(two, Crash) == Idle(db - {Data(id)});
    BreaksAfter(CarefulSteps, two, Crash);
    BreaksAfter(CarefulSteps, one, TaskNext(0));
    BreaksAfter(CarefulSteps, Idle(db), StartDelete(0, id));
  }

  /** The store with no record but this. */
  function OnlyOf(db: Db, id: string): Db {
    map k | k in db && (k.Data? ==> k.id == id) :: db[k]
  }

  lemma {:induction false} DropOthersBreaks(db: Db, id: string)
    requires Typed(db) && Breaks(CarefulSteps, Idle(OnlyOf(db, id)))
    ensures Breaks(CarefulSteps, Idle(db))
    decreases |db|
  {
    if x :| Data(x) in db && x != id {
      var less := db - {Data(x)};
      assert OnlyOf(less, id) == OnlyOf(db, id);
      assert less.Keys == db.Keys - {Data(x)};
      DropOthersBreaks(less, id);
      DropBreaks(db, x);
    } else {
      assert OnlyOf(db, id) == db;
    }
  }

  /** A reader removes one entry that leads nowhere. */
  lemma RemoveOrphanBreaks(db: Db, key: Key)
    requires OrphanNow(db, Del(key)) && Breaks(CarefulSteps, Idle(db - {key}))
    ensures Breaks(CarefulSteps, Idle(db))
  {
    var one := Step(Idle(db), StartList(0, [Del(key)]));
    assert one.tasks[0] == Cleaning([Del(key)]);
    var two := Step(one, TaskNext(0));
    assert Step(two, Crash) == Idle(db - {key});
    BreaksAfter(CarefulSteps, two, Crash);
    BreaksAfter(CarefulSteps, one, TaskNext(0));
    BreaksAfter(CarefulSteps, Idle(db), StartList(0, [Del(key)]));
  }

  predicate LeadsNowhere(db: Db, k: Key) {
    k.Nonce? && k in db && db[k].Ref? && Data(db[k].id) !in db
  }

  /** The store with no entry that leads nowhere, but perhaps one. */
  function Tidied(db: Db, keep: Key): Db {
    map k | k in db && (LeadsNowhere(db, k) ==> k == keep) :: db[k]
  }

  lemma {:induction false} TidyBreaks(db: Db, keep: Key)
    requires Breaks(CarefulSteps, Idle(Tidied(db, keep)))
    ensures Breaks(CarefulSteps, Idle(db))
    decreases |db|
  {
    if k :| k in db && LeadsNowhere(db, k) && k != keep {
      var less := db - {k};
      TidiedLess(db, k, keep);
      assert less.Keys == db.Keys - {k};
      TidyBreaks(less, keep);
      RemoveOrphanBreaks(db, k);
    } else {
      assert Tidied(db, keep) == db;
    }
  }

  lemma TidiedLess(db: Db, k: Key, keep: Key)
    requires k in db && LeadsNowhere(db, k) && k != keep
    ensures Tidied(db - {k}, keep) == Tidied(db, keep)
  {
    var less := db - {k};
    forall x | x in less ensures LeadsNowhere(less, x) <==> LeadsNowhere(db, x) {
    }
    assert Tidied(less, keep).Keys == Tidied(db, keep).Keys;
  }

  ghost predicate OnlyRecord(db: Db, id: string) {
    forall x :: Data(x) in db ==> x == id
  }

  /** The one record there is. */
  ghost predicate Single(db: Db, tx: Tx) {
    Typed(db) && Stored(db, tx) && Complete(tx) && OnlyRecord(db, tx.id)
  }

  lemma OnlyOfIsSingle(db: Db, tx: Tx)
    requires Typed(db) && Stored(db, tx) && Complete(tx)
    ensures Single(OnlyOf(db, tx.id), tx) && SameEntries(db, OnlyOf(db, tx.id))
  {
  }

  ghost predicate Names(db: Db, tx: Tx, signer: string, n: nat) {
    Nonce(signer, n) in db && db[Nonce(signer, n)] == Ref(tx.id)
  }

  // ----- No entry of the signer names it -----

  ghost predicate Unnamed(db: Db, tx: Tx) {
    forall n: nat :: !Names(db, tx, tx.signer, n)
  }

  /** Nothing is found, and the node's answer is taken as it is. */
  lemma UnnamedSingleBreaks(db: Db, tx: Tx)
    requires Single(db, tx) && Unnamed(db, tx)
    ensures Breaks(CarefulSteps, Idle(db))
  {
    var entries := CanIterate(db, tx.signer);
    assert LastNonce(db, entries) == None by {
      forall i | 0 <= i < |entries| ensures entries[i].id != tx.id {
        assert !Names(db, tx, tx.signer, entries[i].nonce);
      }
    }
    LowReadingBreaks(CarefulSteps, Idle(db), 0, tx, entries, true, Some(0));
  }

  lemma UnnamedBreaks(db: Db, tx: Tx)
    requires Typed(db) && Stored(db, tx) && Complete(tx) && Unnamed(db, tx)
    ensures Breaks(CarefulSteps, Idle(db))
  {
    OnlyOfIsSingle(db, tx);
    forall n: nat ensures !Names(OnlyOf(db, tx.id), tx, tx.signer, n) {
      assert !Names(db, tx, tx.signer, n);
    }
    UnnamedSingleBreaks(OnlyOf(db, tx.id), tx);
    DropOthersBreaks(db, tx.id);
  }

  // ----- The next insert takes over the entry just above -----

  /** A transaction to insert for the signer. */
  function Fresh(id: string, signer: string): Tx {
    Tx(id, signer, None, Some(0), TX_STATUS_PENDING, "")
  }

  /** Reading for the signer comes to the only record there is. */
  lemma SingleReading(db: Db, tx: Tx, signer: string, n: nat, entries: seq<Entry>)
    requires Single(db, tx) && Names(db, tx, signer, n) && Iterates(entries, db, signer)
    ensures LastNonce(db, entries) == tx.nonce
  {
    var i :| 0 <= i < |entries| && entries[i].nonce == n;
    assert entries[i].id == tx.id;
  }

  /** After reading the only record, the next transaction goes just above it; everything named
      so far still is, but for the entry taken over. */
  lemma NextInsertBreaks(db: Db, tx: Tx, signer: string, n: nat, id: string)
    requires Single(db, tx) && Names(db, tx, signer, n) && signer != "" && id != "" && Data(id) !in db
    requires forall k :: k in db && db[k].Ref? ==> db[k].id != id
    requires var e := Fresh(id, signer).(nonce := Some(tx.nonce.value + 1), sequence := "q");
      forall clean :: CleanedVersion(db, signer, clean) ==> Breaks(CarefulSteps, Idle(Applied(clean, InsertWrites(e))))
    ensures Breaks(CarefulSteps, Idle(db))
  {
    var entries := CanIterate(db, signer);
    SingleReading(db, tx, signer, n, entries);
    CleanedShows(db, signer, entries);
    var clean := Cleaned(db, signer, entries);
    assert CleanedVersion(db, signer, clean);
    var filed := Fresh(id, signer).(nonce := Some(tx.nonce.value + 1));
    assert NearFor(clean, filed);
    AloneIsSafe(Idle(clean), 0, filed);
    assert Idle(db).(db := clean) == Idle(clean);
    InsertBreaks(CarefulSteps, Idle(db), 0, Fresh(id, signer), entries, true, None, "q");
  }

  // ----- A much higher entry names it -----

  ghost predicate NamedFar(db: Db, tx: Tx, signer: string, m: nat) {
    Names(db, tx, signer, m) && tx.nonce.Some? && m > tx.nonce.value + 1
  }

  /** With the gap filled, reading from the far entry still comes to the lower record. */
  lemma FilledGapBreaks(db: Db, tx: Tx, signer: string, m: nat, e: Tx)
    requires Single(db, tx) && NamedFar(db, tx, signer, m) && Complete(e) && e.id != tx.id
    requires e.signer == signer && e.nonce == Some(tx.nonce.value + 1)
    requires forall k :: k in db && db[k].Ref? ==> db[k].id != e.id
    ensures Breaks(CarefulSteps, Idle(Applied(db, InsertWrites(e))))
  {
    var after := Applied(db, InsertWrites(e));
    InsertKeepsTyped(db, e);
    InsertShows(db, e);
    var entries := CanIterate(after, signer);
    FarReading(db, tx, signer, m, e, after, entries);
    LowReadingBreaks(CarefulSteps, Idle(after), 0, e, entries, true, None);
  }

  lemma FarReading(db: Db, tx: Tx, signer: string, m: nat, e: Tx, after: Db, entries: seq<Entry>)
    requires Single(db, tx) && NamedFar(db, tx, signer, m) && Complete(e) && e.id != tx.id
    requires e.signer == signer && e.nonce == Some(tx.nonce.value + 1)
    requires forall k :: k in db && db[k].Ref? ==> db[k].id != e.id
    requires Typed(after) && SameEntries(after, WithEntry(db, e)) && Iterates(entries, after, signer)
    requires forall id :: Data(id) in after <==> id == tx.id || id == e.id
    requires after[Data(tx.id)] == Record(tx)
    ensures LastNonce(after, entries) == tx.nonce
  {
    assert Nonce(signer, m) in after && after[Nonce(signer, m)] == Ref(tx.id);
    var i :| 0 <= i < |entries| && entries[i].nonce == m;
    assert entries[i].id == tx.id;
    var p := FirstResolved(after, entries);
    assert p <= i && entries[p].nonce >= m;
    assert after[Nonce(signer, entries[p].nonce)] == Ref(entries[p].id);
    assert Nonce(signer, entries[p].nonce) in db && db[Nonce(signer, entries[p].nonce)] == Ref(entries[p].id);
  }

  lemma CleanedKeepsSingle(db: Db, signer: string, clean: Db, tx: Tx)
    requires Single(db, tx) && CleanedVersion(db, signer, clean)
    ensures Single(clean, tx)
    ensures forall sg: string, n: nat :: Names(db, tx, sg, n) <==> Names(clean, tx, sg, n)
  {
    assert Data(tx.id) in clean;
    forall sg: string, n: nat ensures Names(db, tx, sg, n) <==> Names(clean, tx, sg, n) {
      if Names(db, tx, sg, n) { assert Resolves(db, sg, n); }
    }
  }

  lemma FarSingleBreaks(db: Db, tx: Tx, signer: string, m: nat)
    requires Single(db, tx) && NamedFar(db, tx, signer, m)
    ensures Breaks(CarefulSteps, Idle(db))
  {
    var id := UnusedId(db);
    var e := Fresh(id, signer).(nonce := Some(tx.nonce.value + 1), sequence := "q");
    assert signer != "";
    forall clean | CleanedVersion(db, signer, clean)
      ensures Breaks(CarefulSteps, Idle(Applied(clean, InsertWrites(e))))
    {
      CleanedKeepsSingle(db, signer, clean, tx);
      FilledGapBreaks(clean, tx, signer, m, e);
    }
    NextInsertBreaks(db, tx, signer, m, id);
  }

  lemma FarBreaks(s: System, tx: Tx, signer: string, m: nat)
    requires Typed(s.db) && Stored(s.db, tx) && Complete(tx) && NamedFar(s.db, tx, signer, m)
    ensures Breaks(CarefulSteps, s)
  {
    OnlyOfIsSingle(s.db, tx);
    FarSingleBreaks(OnlyOf(s.db, tx.id), tx, signer, m);
    DropOthersBreaks(s.db, tx.id);
    BreaksAfter(CarefulSteps, s, Crash);
  }

  // ----- Named at most by the entry just above, or hidden by a stranger -----

  ghost predicate NamedOnlyAbove(db: Db, tx: Tx) {
    forall n: nat :: Names(db, tx, tx.signer, n) ==> tx.nonce.Some? && n == tx.nonce.value + 1
  }

  lemma NamedOnlyAboveBreaks(db: Db, tx: Tx)
    requires Single(db, tx) && NamedOnlyAbove(db, tx)
    ensures Breaks(CarefulSteps, Idle(db))
  {
    if Unnamed(db, tx) {
      UnnamedSingleBreaks(db, tx);
    } else {
      var n := tx.nonce.value;
      var m: nat :| Names(db, tx, tx.signer, m);
      var id := UnusedId(db);
      var e := Fresh(id, tx.signer).(nonce := Some(n + 1), sequence := "q");
      assert tx.signer != "";
      forall clean | CleanedVersion(db, tx.signer, clean)
        ensures Breaks(CarefulSteps, Idle(Applied(clean, InsertWrites(e))))
      {
        TakenOver(db, clean, tx, e);
      }
      NextInsertBreaks(db, tx, tx.signer, m, id);
    }
  }

  lemma TakenOver(db: Db, clean: Db, tx: Tx, e: Tx)
    requires Single(db, tx) && NamedOnlyAbove(db, tx) && CleanedVersion(db, tx.signer, clean)
    requires Complete(e) && e.id != tx.id && e.signer == tx.signer && e.nonce == Some(tx.nonce.value + 1)
    ensures Breaks(CarefulSteps, Idle(Applied(clean, InsertWrites(e))))
  {
    var after := Applied(clean, InsertWrites(e));
    CleanedKeepsSingle(db, tx.signer, clean, tx);
    InsertKeepsTyped(clean, e);
    InsertShows(clean, e);
    assert Stored(after, tx);
    forall n: nat ensures !Names(after, tx, tx.signer, n) {
      assert Nonce(tx.signer, n) in after <==> Nonce(tx.signer, n) in WithEntry(clean, e);
      assert Names(clean, tx, tx.signer, n) ==> Names(db, tx, tx.signer, n);
    }
    UnnamedBreaks(after, tx);
  }

  /** Reading down from its nonce, the first entry of the signer is another's. */
  ghost predicate HiddenAt(db: Db, tx: Tx, j: nat) {
    && tx.nonce.Some? && 0 < j <= tx.nonce.value
    && Nonce(tx.signer, j) in db && db[Nonce(tx.signer, j)] != Ref(tx.id)
    && forall m: nat :: Names(db, tx, tx.signer, m) ==> m < j
  }

  /** The stranger comes back, for another signer, at the nonce just below. */
  lemma StrangerBreaks(db: Db, tx: Tx, j: nat)
    requires Single(db, tx) && HiddenAt(db, tx, j)
    requires forall k :: k in db && k.Nonce? && db[k] == db[Nonce(tx.signer, j)] ==> k == Nonce(tx.signer, j)
    ensures Breaks(CarefulSteps, Idle(db))
  {
    var n := tx.nonce.value;
    var y := db[Nonce(tx.signer, j)].id;
    assert GoodEntry(db[Nonce(tx.signer, j)], tx.signer) && y != tx.id;
    var signer := UnusedSigner(db);
    assert Iterates([], db, signer) && LastNonce(db, []) == None;
    var filed := Fresh(y, signer).(nonce := Some(n - 1));
    assert Cleaned(db, signer, []) == db;
    assert NearFor(db, filed);
    AloneIsSafe(Idle(db), 0, filed);
    StrangerIsRead(db, tx, j, filed.(sequence := "q"));
    assert Idle(db).(db := db) == Idle(db);
    InsertBreaks(CarefulSteps, Idle(db), 0, Fresh(y, signer), [], true, Some(n - 1), "q");
  }

  lemma StrangerIsRead(db: Db, tx: Tx, j: nat, e: Tx)
    requires Single(db, tx) && HiddenAt(db, tx, j) && Complete(e) && db[Nonce(tx.signer, j)] == Ref(e.id)
    requires e.id != tx.id && e.signer != tx.signer && e.nonce == Some(tx.nonce.value - 1)
    requires forall k :: k in db && k.Nonce? && db[k] == Ref(e.id) ==> k == Nonce(tx.signer, j)
    ensures Breaks(CarefulSteps, Idle(Applied(db, InsertWrites(e))))
  {
    var after := Applied(db, InsertWrites(e));
    InsertKeepsTyped(db, e);
    InsertShows(db, e);
    assert Stored(after, tx);
    var entries := CanIterate(after, tx.signer);
    ReadsStranger(db, after, tx, j, e, entries);
    LowReadingBreaks(CarefulSteps, Idle(after), 0, tx, entries, true, None);
  }

  lemma ReadsStranger(db: Db, after: Db, tx: Tx, j: nat, e: Tx, entries: seq<Entry>)
    requires Single(db, tx) && HiddenAt(db, tx, j) && Complete(e) && db[Nonce(tx.signer, j)] == Ref(e.id)
    requires e.id != tx.id && e.signer != tx.signer
    requires forall k :: k in db && k.Nonce? && db[k] == Ref(e.id) ==> k == Nonce(tx.signer, j)
    requires Typed(after) && SameEntries(after, WithEntry(db, e)) && Iterates(entries, after, tx.signer)
    requires forall id :: Data(id) in after <==> id == tx.id || id == e.id
    requires after[Data(e.id)] == Record(e)
    ensures LastNonce(after, entries) == e.nonce
  {
    assert Nonce(tx.signer, j) in after && after[Nonce(tx.signer, j)] == Ref(e.id);
    var i :| 0 <= i < |entries| && entries[i].nonce == j;
    assert entries[i].id == e.id;
    var p := FirstResolved(after, entries);
    var top := entries[p].nonce;
    assert p <= i && top >= j;
    assert after[Nonce(tx.signer, top)] == Ref(entries[p].id);
    assert Nonce(tx.signer, top) in db && db[Nonce(tx.signer, top)] == Ref(entries[p].id);
    assert !Names(db, tx, tx.signer, top);
  }

  /** Everything else that leads nowhere is removed first. */
  lemma HiddenBreaks(db: Db, tx: Tx, j: nat)
    requires Single(db, tx) && HiddenAt(db, tx, j)
    ensures Breaks(CarefulSteps, Idle(db))
  {
    var keep := Nonce(tx.signer, j);
    var tidy := Tidied(db, keep);
    TidiedIsHidden(db, tx, j);
    StrangerBreaks(tidy, tx, j);
    TidyBreaks(db, keep);
  }

  lemma TidiedIsHidden(db: Db, tx: Tx, j: nat)
    requires Single(db, tx) && HiddenAt(db, tx, j)
    ensures var tidy := Tidied(db, Nonce(tx.signer, j));
      && Single(tidy, tx) && HiddenAt(tidy, tx, j)
      && forall k :: k in tidy && k.Nonce? && tidy[k] == tidy[Nonce(tx.signer, j)] ==> k == Nonce(tx.signer, j)
  {
    var tidy := Tidied(db, Nonce(tx.signer, j));
    assert GoodEntry(db[Nonce(tx.signer, j)], tx.signer);
    forall m: nat | Names(tidy, tx, tx.signer, m) ensures m < j {
      assert Names(db, tx, tx.signer, m);
    }
  }

  /** As HiddenAt, but for the entry just above, which the next insert takes over. */
  ghost predicate HiddenBelow(db: Db, tx: Tx, j: nat) {
    && tx.nonce.Some? && 0 < j <= tx.nonce.value
    && Nonce(tx.signer, j) in db && db[Nonce(tx.signer, j)] != Ref(tx.id)
    && forall m: nat :: Names(db, tx, tx.signer, m) ==> m < j || m == tx.nonce.value + 1
  }

  lemma HiddenBelowBreaks(db: Db, tx: Tx, j: nat)
    requires Single(db, tx) && HiddenBelow(db, tx, j)
    ensures Breaks(CarefulSteps, Idle(db))
  {
    var n := tx.nonce.value;
    if Names(db, tx, tx.signer, n + 1) {
      var id := UnusedId(db);
      var e := Fresh(id, tx.signer).(nonce := Some(n + 1), sequence := "q");
      assert tx.signer != "";
      forall clean | CleanedVersion(db, tx.signer, clean)
        ensures Breaks(CarefulSteps, Idle(Applied(clean, InsertWrites(e))))
      {
        AboveTaken(db, clean, tx, j, e);
      }
      NextInsertBreaks(db, tx, tx.signer, n + 1, id);
    } else {
      assert HiddenAt(db, tx, j);
      HiddenBreaks(db, tx, j);
    }
  }

  lemma AboveTaken(db: Db, clean: Db, tx: Tx, j: nat, e: Tx)
    requires Single(db, tx) && HiddenBelow(db, tx, j) && Names(db, tx, tx.signer, tx.nonce.value + 1)
    requires CleanedVersion(db, tx.signer, clean)
    requires Complete(e) && e.id != tx.id && e.signer == tx.signer && e.nonce == Some(tx.nonce.value + 1)
    ensures Breaks(CarefulSteps, Idle(Applied(clean, InsertWrites(e))))
  {
    var after := Applied(clean, InsertWrites(e));
    CleanedKeepsSingle(db, tx.signer, clean, tx);
    assert Nonce(tx.signer, j) in clean by { assert Resolves(db, tx.signer, tx.nonce.value + 1); }
    InsertKeepsTyped(clean, e);
    InsertShows(clean, e);
    assert Stored(after, tx);
    OnlyOfIsSingle(after, tx);
    var only := OnlyOf(after, tx.id);
    forall m: nat | Names(only, tx, tx.signer, m) ensures m < j {
      assert Names(after, tx, tx.signer, m);
      assert Nonce(tx.signer, m) in WithEntry(clean, e);
      assert Names(clean, tx, tx.signer, m);
      assert Names(db, tx, tx.signer, m);
    }
    assert HiddenAt(only, tx, j);
    HiddenBreaks(only, tx, j);
    DropOthersBreaks(after, tx.id);
  }

  // ----- A stored transaction that is not anchored -----

  /** The highest nonce not above n at which the signer has an entry. */
  lemma {:induction false} FirstBelow(db: Db, signer: string, n: nat) returns (k: nat, found: bool)
    ensures found ==> k <= n && Nonce(signer, k) in db && forall j: nat :: k < j <= n ==> Nonce(signer, j) !in db
    ensures !found ==> forall j: nat :: j <= n ==> Nonce(signer, j) !in db
  {
    if Nonce(signer, n) in db {
      k, found := n, true;
    } else if n == 0 {
      k, found := 0, false;
    } else {
      k, found := FirstBelow(db, signer, n - 1);
    }
  }

  lemma UnanchoredSingleBreaks(db: Db, tx: Tx)
    requires Single(db, tx) && NearFor(db, tx) && !Anchored(db, tx)
    ensures Breaks(CarefulSteps, Idle(db))
  {
    var n := tx.nonce.value;
    var k, found := FirstBelow(db, tx.signer, n);
    assert !AnchoredAt(db, tx, k);
    if !(exists m: nat :: Names(db, tx, tx.signer, m) && m <= n) {
      NamedOnlyAboveBreaks(db, tx);
    } else {
      var m: nat :| Names(db, tx, tx.signer, m) && m <= n;
      assert found && m <= k && db[Nonce(tx.signer, k)] != Ref(tx.id);
      assert HiddenBelow(db, tx, k) by {
        forall q: nat | Names(db, tx, tx.signer, q) ensures q < k || q == n + 1 {
          assert q <= n + 1;
        }
      }
      HiddenBelowBreaks(db, tx, k);
    }
  }

  lemma UnanchoredBreaks(s: System, tx: Tx)
    requires Typed(s.db) && Stored(s.db, tx) && Complete(tx) && NearFor(s.db, tx) && !Anchored(s.db, tx)
    ensures Breaks(CarefulSteps, s)
  {
    var only := OnlyOf(s.db, tx.id);
    OnlyOfIsSingle(s.db, tx);
    if Anchored(only, tx) { SameEntriesKeepAnchor(only, s.db, tx); }
    UnanchoredSingleBreaks(only, tx);
    DropOthersBreaks(s.db, tx.id);
    BreaksAfter(CarefulSteps, s, Crash);
  }
}
