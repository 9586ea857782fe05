/** Nonce allocation over LevelDB: concurrent inserters serialised per signer by a lock, each
    reading the signer's highest stored nonce through the nonce index, asking a node that may
    answer anything, and writing its transaction key by key. */
module LevelNonces {
  import opened Wrappers
  import opened LevelStore

  /** last: the nonce of the signer's last stored transaction; recent: it was created recently
      enough to be trusted alone; node: the node's answer, None for an error. */
  function NextNonce(last: Option<nat>, recent: bool, node: Option<nat>): (next: Option<nat>)
    ensures next.None? <==> node.None? && !(last.Some? && recent)
    ensures next.Some? && last.Some? ==> next.value > last.value
    ensures next.Some? && last.Some? && recent ==> next.value == last.value + 1
    ensures next.Some? && !(last.Some? && recent) ==>
      next.value >= node.value && (next.value == node.value || (last.Some? && next.value == last.value + 1))
  {
    if last.Some? && recent then Some(last.value + 1)
    else if node.Some? && last.Some? && node.value <= last.value then Some(last.value + 1)
    else node
  }

  // ----- Reading the index from its highest entry down -----

  /** One nonce index entry of the signer at hand. */
  datatype Entry = Entry(nonce: nat, id: string)

  ghost predicate Descends(entries: seq<Entry>) {
    forall i, j :: 0 <= i < j < |entries| ==> entries[i].nonce > entries[j].nonce
  }

  /** What the iterator yields: all the signer's entries, highest nonce first. */
  ghost predicate Iterates(entries: seq<Entry>, db: Db, signer: string) {
    && Descends(entries)
    && (forall i :: 0 <= i < |entries| ==>
          Nonce(signer, entries[i].nonce) in db && db[Nonce(signer, entries[i].nonce)] == Ref(entries[i].id))
    && (forall n :: Nonce(signer, n) in db ==> exists i :: 0 <= i < |entries| && entries[i].nonce == n)
  }

  /** Entries before the first that leads to a record are orphans. */
  function FirstResolved(db: Db, entries: seq<Entry>): (p: nat)
    ensures p <= |entries|
    ensures p < |entries| ==> Data(entries[p].id) in db
    ensures forall i :: 0 <= i < p ==> Data(entries[i].id) !in db
  {
    if entries == [] || Data(entries[0].id) in db then 0 else 1 + FirstResolved(db, entries[1..])
  }

  function LastNonce(db: Db, entries: seq<Entry>): Option<nat> {
    var p := FirstResolved(db, entries);
    if p < |entries| && db[Data(entries[p].id)].Record? then db[Data(entries[p].id)].tx.nonce else None
  }

  function Orphans(signer: string, entries: seq<Entry>): seq<Write> {
    if entries == [] then [] else [Del(Nonce(signer, entries[0].nonce))] + Orphans(signer, entries[1..])
  }

  method ListLastTransaction(db: Db, signer: string, entries: seq<Entry>)
    returns (last: Option<Value>, orphans: seq<Write>)
    ensures var p := FirstResolved(db, entries);
      && last == (if p < |entries| then Some(db[Data(entries[p].id)]) else None)
      && orphans == Orphans(signer, entries[..p])
  {
    last, orphans := None, [];
    var n := 0;
    assert entries[..0] == [];
    while n < |entries|
      invariant n <= FirstResolved(db, entries) && last.None?
      invariant orphans == Orphans(signer, entries[..n])
    {
      if Data(entries[n].id) in db {
        assert FirstResolved(db, entries) == n;
        return Some(db[Data(entries[n].id)]), orphans;
      }
      OrphansAppend(signer, entries[..n], entries[n]);
      assert entries[..n] + [entries[n]] == entries[..n + 1];
      assert FirstResolved(db, entries) != n;
      orphans := orphans + [Del(Nonce(signer, entries[n].nonce))];
      n := n + 1;
    }
  }

  lemma {:induction false} OrphansAppend(signer: string, entries: seq<Entry>, e: Entry)
    ensures Orphans(signer, entries + [e]) == Orphans(signer, entries) + [Del(Nonce(signer, e.nonce))]
  {
    if entries != [] {
      OrphansAppend(signer, entries[1..], e);
      assert (entries + [e])[1..] == entries[1..] + [e];
    }
  }

  lemma {:induction false} OrphanAt(signer: string, entries: seq<Entry>, k: nat)
    requires k < |entries|
    ensures |Orphans(signer, entries)| == |entries|
    ensures Orphans(signer, entries)[k] == Del(Nonce(signer, entries[k].nonce))
  {
    if k > 0 {
      OrphanAt(signer, entries[1..], k - 1);
    } else if |entries| > 1 {
      OrphanAt(signer, entries[1..], 0);
    }
  }

  // ----- Inserters, deletes, updates and readers, interleaved key by key -----

  /** Where an inserter is in assigning a nonce to its transaction and storing it. */
  datatype Phase =
    | Waiting(tx: Tx)
    | Locked(tx: Tx)
    | Looked(tx: Tx, last: Option<nat>, orphans: seq<Write>)
    | Assigned(tx: Tx)
    | Storing(tx: Tx)
    | Written(tx: Tx)

  predicate HoldsLock(p: Phase) {
    !p.Waiting?
  }

  /** What else is under way. A delete takes no lock; a reader that found orphaned entries
      removes them after it has let go of the read lock; an update has read its record and
      not yet written it. */
  datatype Task =
    | Deleting(todo: seq<Write>)
    | Cleaning(todo: seq<Write>)
    | Updating(tx: Tx)

  function Todo(t: Task): seq<Write> {
    if t.Updating? then [] else t.todo
  }

  /** The writes under the transaction mutex: an inserter's, or an update's. */
  datatype Writing = Writing(inserter: Option<nat>, tx: Tx, todo: seq<Write>)

  datatype System = System(
    db: Db,
    lockedNonces: map<string, nat>,
    inserters: map<nat, Phase>,
    tasks: map<nat, Task>,
    writing: Option<Writing>)

  function Idle(db: Db): System {
    System(db, map[], map[], map[], None)
  }

  datatype Action =
    | Begin(i: nat, tx: Tx)
    | TakeLock(i: nat)
    | Look(i: nat, entries: seq<Entry>)
    | CleanUp(i: nat)
    | Assign(i: nat, recent: bool, node: Option<nat>)
    | StartStore(i: nat, sequence: string)
    | Release(i: nat)
    | WriteNext
    | WriteFails
    | StartDelete(d: nat, id: string)
    | StartList(d: nat, orphans: seq<Write>)
    | StartUpdate(d: nat, id: string, status: string)
    | StartRewrite(d: nat)
    | TaskNext(d: nat)
    | TaskStops(d: nat)
    | Crash

  /** An index entry that leads nowhere now. */
  predicate OrphanNow(db: Db, w: Write) {
    w.Del? && !w.key.Data? && w.key in db && db[w.key].Ref? && Data(db[w.key].id) !in db
  }

  /** Reading and cleaning up wait for the mutex; a delete does not. */
  ghost predicate Enabled(s: System, a: Action) {
    match a
    case Begin(i, _) => i !in s.inserters
    case TakeLock(i) => i in s.inserters && s.inserters[i].Waiting? && s.inserters[i].tx.signer !in s.lockedNonces
    case Look(i, entries) =>
      && i in s.inserters && s.inserters[i].Locked? && s.writing.None?
      && Iterates(entries, s.db, s.inserters[i].tx.signer)
    case CleanUp(i) =>
      i in s.inserters && s.inserters[i].Looked? && s.inserters[i].orphans != [] && s.writing.None?
    case Assign(i, _, _) => i in s.inserters && s.inserters[i].Looked?
    case StartStore(i, _) => i in s.inserters && s.inserters[i].Assigned? && s.writing.None?
    case Release(i) => i in s.inserters && HoldsLock(s.inserters[i]) && !s.inserters[i].Storing?
    case WriteNext => s.writing.Some? && s.writing.value.todo != []
    case WriteFails => s.writing.Some?
    case StartDelete(d, id) => d !in s.tasks && Loaded(s.db, id).Some?
    case StartList(d, orphans) => d !in s.tasks && s.writing.None? && forall w :: w in orphans ==> OrphanNow(s.db, w)
    case StartUpdate(d, id, status) => d !in s.tasks && s.writing.None? && Loaded(s.db, id).Some? && status != ""
    case StartRewrite(d) => d in s.tasks && s.tasks[d].Updating? && s.writing.None?
    case TaskNext(d) => d in s.tasks && Todo(s.tasks[d]) != [] && (s.tasks[d].Cleaning? ==> s.writing.None?)
    case TaskStops(d) => d in s.tasks
    case Crash => true
  }

  ghost function Step(s: System, a: Action): System
    requires Enabled(s, a)
  {
    match a
    case Begin(i, tx) => s.(inserters := s.inserters[i := Waiting(tx)])
    case TakeLock(i) =>
      var tx := s.inserters[i].tx;
      s.(inserters := s.inserters[i := Locked(tx)], lockedNonces := s.lockedNonces[tx.signer := i])
    case Look(i, entries) =>
      var tx := s.inserters[i].tx;
      s.(inserters := s.inserters[i :=
           Looked(tx, LastNonce(s.db, entries), Orphans(tx.signer, entries[..FirstResolved(s.db, entries)]))])
    case CleanUp(i) =>
      var p := s.inserters[i];
      s.(db := After(s.db, p.orphans[0]), inserters := s.inserters[i := p.(orphans := p.orphans[1..])])
    case Assign(i, recent, node) =>
      var p := s.inserters[i];
      var next := NextNonce(p.last, recent, node);
      if next.None? then Freed(s, i) else s.(inserters := s.inserters[i := Assigned(p.tx.(nonce := next))])
    case StartStore(i, sequence) =>
      var tx := s.inserters[i].tx;
      (match Planned(s.db, tx, true, sequence)
       case None => s.(inserters := s.inserters[i := Written(tx)])
       case Some(ws) =>
         s.(inserters := s.inserters[i := Storing(tx)],
            writing := Some(Writing(Some(i), tx.(sequence := sequence), ws))))
    case Release(i) => Freed(s, i)
    case WriteNext =>
      var w := s.writing.value;
      var t := s.(db := After(s.db, w.todo[0]), writing := Some(w.(todo := w.todo[1..])));
      if |w.todo| == 1 then Ended(t) else t
    case WriteFails => Ended(s)
    case StartDelete(d, id) => s.(tasks := s.tasks[d := Deleting(DeleteWrites(Loaded(s.db, id).value))])
    case StartList(d, orphans) => s.(tasks := s.tasks[d := Cleaning(orphans)])
    case StartUpdate(d, id, status) =>
      s.(tasks := s.tasks[d := Updating(Loaded(s.db, id).value.(status := status))])
    case StartRewrite(d) =>
      var tx := s.tasks[d].tx;
      s.(tasks := s.tasks - {d}, writing := Some(Writing(None, tx, UpdateWrites(tx))))
    case TaskNext(d) =>
      var t := s.tasks[d];
      s.(db := After(s.db, t.todo[0]), tasks := s.tasks[d := t.(todo := t.todo[1..])])
    case TaskStops(d) => s.(tasks := s.tasks - {d})
    case Crash => Idle(s.db)
  }

  /** complete: the signer's lock goes, whoever is recorded against it. */
  function Freed(s: System, i: nat): System
    requires i in s.inserters
  {
    s.(inserters := s.inserters - {i}, lockedNonces := s.lockedNonces - {s.inserters[i].tx.signer})
  }

  /** The mutex is let go of; an inserter has yet to complete. */
  function Ended(s: System): System
    requires s.writing.Some?
  {
    var i := s.writing.value.inserter;
    s.(writing := None,
       inserters := if i.Some? && i.value in s.inserters && s.inserters[i.value].Storing?
                    then s.inserters[i.value := Written(s.inserters[i.value].tx)] else s.inserters)
  }

  // ----- When a write is safe -----

  /** A list of removals that somebody has still to make. */
  ghost predicate Underway(s: System, todo: seq<Write>) {
    || (exists d :: d in s.tasks && todo == Todo(s.tasks[d]))
    || (exists i :: i in s.inserters && s.inserters[i].Looked? && todo == s.inserters[i].orphans)
  }

  /** The removals that begin with the record of this ID. */
  predicate TakesRecordFirst(todo: seq<Write>, id: Option<string>) {
    id.Some? && todo != [] && todo[0] == Del(Data(id.value))
  }

  /** One of the lists comes to this key, with everything before it gone too. */
  ghost predicate Comes(s: System, id: Option<string>, gone: set<Key>, key: Key) {
    exists todo: seq<Write>, m: nat ::
      && Underway(s, todo) && !TakesRecordFirst(todo, id) && m < |todo| && todo[m].key == key
      && forall l :: 0 <= l <= m ==> todo[l].key in gone
  }

  /** How far the removals under way may have got, as far as nonce entries go; those that begin
      with the record of the given ID are left out. */
  ghost predicate Possible(s: System, id: Option<string>, db: Db, gone: set<Key>) {
    forall sg, n :: Nonce(sg, n) in gone && Nonce(sg, n) in db ==> Comes(s, id, gone, Nonce(sg, n))
  }

  /** Reading down from the transaction's own nonce, the first entry of its signer, at k, names
      the transaction. */
  ghost predicate AnchoredAt(db: Db, tx: Tx, k: nat) {
    && tx.nonce.Some? && k <= tx.nonce.value
    && Nonce(tx.signer, k) in db && db[Nonce(tx.signer, k)] == Ref(tx.id)
    && forall j: nat :: k < j <= tx.nonce.value ==> Nonce(tx.signer, j) !in db
  }

  ghost predicate Anchored(db: Db, tx: Tx) {
    exists k: nat :: AnchoredAt(db, tx, k)
  }

  /** However far the removals under way have got. */
  ghost predicate Held(s: System, id: Option<string>, db: Db, tx: Tx) {
    forall gone: set<Key> :: Possible(s, id, db, gone) ==> Anchored(db - gone, tx)
  }

  /** No entry of a nonce more than one above its own names this transaction. */
  ghost predicate NearFor(db: Db, tx: Tx) {
    forall sg: string, n: nat :: Nonce(sg, n) in db && db[Nonce(sg, n)] == Ref(tx.id) ==>
      tx.nonce.Some? && n <= tx.nonce.value + 1
  }

  function WithEntry(db: Db, tx: Tx): Db
    requires Complete(tx)
  {
    db[NonceKey(tx) := Ref(tx.id)]
  }

  /** Checked when an insert takes the mutex: once its entry is there, no removal under way can
      make reading down from it miss the transaction. */
  ghost predicate StoreSafe(s: System, tx: Tx)
    requires Complete(tx)
  {
    NearFor(s.db, tx) && Held(s, None, WithEntry(s.db, tx), tx)
  }

  /** An inserter has settled on something the transaction's nonce is not below. */
  predicate Overtaken(p: Phase, tx: Tx)
    requires Complete(tx)
  {
    p.tx.signer == tx.signer &&
    match p
    case Looked(_, last, _) => last.None? || last.value < tx.nonce.value
    case Assigned(t) => t.nonce.None? || t.nonce.value <= tx.nonce.value
    case Storing(t) => t.nonce.None? || t.nonce.value <= tx.nonce.value
    case _ => false
  }

  ghost predicate Overtakes(s: System, tx: Tx)
    requires Complete(tx)
  {
    exists i :: i in s.inserters && Overtaken(s.inserters[i], tx)
  }

  /** Checked when an update writes its record. */
  ghost predicate RecordSafe(s: System, tx: Tx)
    requires Complete(tx)
  {
    NearFor(s.db, tx) && Held(s, Some(tx.id), s.db, tx) && !Overtakes(s, tx)
  }

  ghost predicate WritesRecord(s: System) {
    && s.writing.Some? && s.writing.value.inserter.None? && s.writing.value.todo != []
    && s.writing.value.todo[0].key.Data? && Complete(s.writing.value.tx)
  }

  ghost predicate Careful(s: System, a: Action)
    requires Enabled(s, a)
  {
    match a
    case StartStore(i, sequence) =>
      Planned(s.db, s.inserters[i].tx, true, sequence).Some? ==> StoreSafe(s, s.inserters[i].tx)
    case WriteNext => WritesRecord(s) ==> RecordSafe(s, s.writing.value.tx)
    case _ => true
  }

  ghost predicate Legal(s: System, actions: seq<Action>)
    decreases |actions|
  {
    actions == [] || (Enabled(s, actions[0]) && Legal(Step(s, actions[0]), actions[1..]))
  }

  ghost predicate CarefulRun(s: System, actions: seq<Action>)
    requires Legal(s, actions)
    decreases |actions|
  {
    actions == [] || (Careful(s, actions[0]) && CarefulRun(Step(s, actions[0]), actions[1..]))
  }

  ghost function Exec(s: System, actions: seq<Action>): System
    requires Legal(s, actions)
    decreases |actions|
  {
    if actions == [] then s else Exec(Step(s, actions[0]), actions[1..])
  }

  ghost predicate Above(db: Db, signer: string, nonce: Option<nat>) {
    nonce.Some? && forall tx :: Stored(db, tx) && tx.signer == signer ==> tx.nonce.Some? && tx.nonce.value < nonce.value
  }

  /** A nonce about to be stored does not exceed one that is stored for the same signer. */
  ghost predicate Violated(s: System) {
    exists i :: i in s.inserters && s.inserters[i].Assigned?
      && !Above(s.db, s.inserters[i].tx.signer, s.inserters[i].tx.nonce)
  }

  // ----- One inserter per signer -----

  ghost predicate LocksHeld(s: System) {
    forall i :: i in s.inserters && HoldsLock(s.inserters[i]) ==>
      s.inserters[i].tx.signer in s.lockedNonces && s.lockedNonces[s.inserters[i].tx.signer] == i
  }

  lemma FreedKeepsLocks(s: System, i: nat)
    requires LocksHeld(s) && i in s.inserters && HoldsLock(s.inserters[i])
    ensures LocksHeld(Freed(s, i))
  {
  }

  /** The same locks, and nobody new behind one. */
  lemma SameHoldersKeepLocks(s: System, t: System)
    requires LocksHeld(s) && t.lockedNonces == s.lockedNonces
    requires forall i :: i in t.inserters && HoldsLock(t.inserters[i]) ==>
      i in s.inserters && HoldsLock(s.inserters[i]) && s.inserters[i].tx.signer == t.inserters[i].tx.signer
    ensures LocksHeld(t)
  {
  }

  lemma AssignKeepsLocks(s: System, a: Action)
    requires LocksHeld(s) && a.Assign? && Enabled(s, a)
    ensures LocksHeld(Step(s, a))
  {
    if NextNonce(s.inserters[a.i].last, a.recent, a.node).None? {
      FreedKeepsLocks(s, a.i);
    } else {
      SameHoldersKeepLocks(s, Step(s, a));
    }
  }

  lemma WriteKeepsLocks(s: System, a: Action)
    requires LocksHeld(s) && Enabled(s, a) && (a.WriteNext? || a.WriteFails?)
    ensures LocksHeld(Step(s, a))
  {
    SameHoldersKeepLocks(s, Step(s, a));
  }

  lemma InserterStepKeepsLocks(s: System, a: Action)
    requires LocksHeld(s) && Enabled(s, a) && (a.Begin? || a.Look? || a.CleanUp? || a.StartStore?)
    ensures LocksHeld(Step(s, a))
  {
    SameHoldersKeepLocks(s, Step(s, a));
  }

  lemma TaskStepKeepsLocks(s: System, a: Action)
    requires LocksHeld(s) && Enabled(s, a)
    requires a.StartDelete? || a.StartList? || a.StartUpdate? || a.StartRewrite? || a.TaskNext? || a.TaskStops?
    ensures LocksHeld(Step(s, a))
  {
    assert Step(s, a).inserters == s.inserters;
    SameHoldersKeepLocks(s, Step(s, a));
  }

  lemma TakeLockKeepsLocks(s: System, i: nat)
    requires LocksHeld(s) && Enabled(s, TakeLock(i))
    ensures LocksHeld(Step(s, TakeLock(i)))
  {
  }

  lemma StepKeepsLocks(s: System, a: Action)
    requires LocksHeld(s) && Enabled(s, a)
    ensures LocksHeld(Step(s, a))
  {
    if a.TakeLock? {
      TakeLockKeepsLocks(s, a.i);
    } else if a.Release? {
      FreedKeepsLocks(s, a.i);
    } else if a.Assign? {
      AssignKeepsLocks(s, a);
    } else if a.WriteNext? || a.WriteFails? {
      WriteKeepsLocks(s, a);
    } else if a.Begin? || a.Look? || a.CleanUp? || a.StartStore? {
      InserterStepKeepsLocks(s, a);
    } else if !a.Crash? {
      TaskStepKeepsLocks(s, a);
    }
  }

  lemma {:induction false} ExecKeepsLocks(s: System, actions: seq<Action>)
    requires LocksHeld(s) && Legal(s, actions)
    ensures LocksHeld(Exec(s, actions))
    decreases |actions|
  {
    if actions != [] {
      StepKeepsLocks(s, actions[0]);
      ExecKeepsLocks(Step(s, actions[0]), actions[1..]);
    }
  }

  /** In every interleaving, at most one inserter per signer is between lock and complete. */
  lemma OneInserterPerSigner(actions: seq<Action>, i: nat, j: nat)
    requires Legal(Idle(map[]), actions)
    requires var s := Exec(Idle(map[]), actions);
      && i in s.inserters && j in s.inserters && HoldsLock(s.inserters[i]) && HoldsLock(s.inserters[j])
      && s.inserters[i].tx.signer == s.inserters[j].tx.signer
    ensures i == j
  {
    ExecKeepsLocks(Idle(map[]), actions);
  }

  // ----- The lock table -----

  /** The signers whose next nonce is being decided, and by whom. */
  class NonceLocks {
    var lockedNonces: map<string, nat>

    constructor ()
      ensures lockedNonces == map[]
    {
      lockedNonces := map[];
    }

    method Complete(signer: string)
      modifies this
      ensures lockedNonces == old(lockedNonces) - {signer}
    {
      lockedNonces := lockedNonces - {signer};
    }

    /** The assign loop. wakes: the table as the other inserters have left it each time the
        caller looks. The caller goes on waiting while the signer is taken, takes the first
        turn at which it is free, and has the lock after that if and only if it has a nonce;
        otherwise the table is as it was found. */
    method AssignAndLockNonce(
        signer: string, me: nat, wakes: seq<map<string, nat>>, last: Option<nat>, recent: bool, node: Option<nat>)
      returns (turn: nat, nonce: Option<nat>)
      modifies this
      ensures turn <= |wakes| && forall k :: 0 <= k < turn ==> signer in wakes[k]
      ensures turn == |wakes| ==> nonce.None? && (wakes != [] ==> lockedNonces == wakes[|wakes| - 1])
      ensures turn < |wakes| ==>
        && signer !in wakes[turn] && nonce == NextNonce(last, recent, node)
        && lockedNonces == if nonce.Some? then wakes[turn][signer := me] else wakes[turn]
    {
      turn := 0;
      while turn < |wakes|
        invariant turn <= |wakes| && forall k :: 0 <= k < turn ==> signer in wakes[k]
        invariant turn > 0 ==> lockedNonces == wakes[turn - 1]
      {
        lockedNonces := wakes[turn];
        if signer !in lockedNonces {
          lockedNonces := lockedNonces[signer := me];
          nonce := NextNonce(last, recent, node);
          if nonce.None? {
            Complete(signer);
            assert lockedNonces == wakes[turn];
          }
          return;
        }
        turn := turn + 1;
      }
      nonce := None;
    }
  }
}
