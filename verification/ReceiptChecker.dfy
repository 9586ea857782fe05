/** The receipt checker: an unbounded queue of pending transactions served by racing
    workers, whose receipts reach the confirmation manager in any order. */
module Receipts {
  import opened Wrappers

  datatype Receipt = Receipt(number: nat, hash: string)

  /** The receipt-related fields of one pending item. queuedStale names the list element
      the item was last queued as, whether or not that element is still in the list. */
  datatype ItemState = ItemState(
    queuedStale: Option<nat>,
    generation: nat,
    applied: nat,
    block: Option<Receipt>)

  datatype Element = Element(id: nat, item: nat)

  /** The list and the items' fields the checker's mutex protects. */
  datatype Queue = Queue(items: map<nat, ItemState>, entries: seq<Element>, nextElement: nat)

  function Pushed(q: Queue, item: nat, generation: nat): Queue
    requires item in q.items
  {
    Queue(q.items[item := q.items[item].(queuedStale := Some(q.nextElement), generation := generation)],
          q.entries + [Element(q.nextElement, item)], q.nextElement + 1)
  }

  /** tooRecent: a suspected timeout that turned out not to be one under the lock. */
  function Scheduled(q: Queue, item: nat, tooRecent: bool): Queue
    requires item in q.items
  {
    if q.items[item].queuedStale.Some? || tooRecent then q
    else Pushed(q, item, q.items[item].generation + 1)
  }

  function Requeued(q: Queue, item: nat): Queue
    requires item in q.items
  {
    Pushed(q, item, q.items[item].generation)
  }

  function Finished(q: Queue, item: nat): Queue
    requires item in q.items
  {
    q.(items := q.items[item := q.items[item].(queuedStale := None)])
  }

  function Position(entries: seq<Element>, id: nat): (p: nat)
    ensures p <= |entries|
    ensures p < |entries| ==> entries[p].id == id
    ensures forall i :: 0 <= i < p ==> entries[i].id != id
  {
    if entries == [] || entries[0].id == id then 0 else 1 + Position(entries[1..], id)
  }

  function Without(entries: seq<Element>, id: nat): seq<Element> {
    var p := Position(entries, id);
    if p < |entries| then entries[..p] + entries[p + 1..] else entries
  }

  /** Takes the item's element out of the list if it is still there. */
  function Removed(q: Queue, item: nat): Queue
    requires item in q.items
  {
    match q.items[item].queuedStale
    case None => q
    case Some(id) => q.(entries := Without(q.entries, id))
  }

  /** A receipt is applied unless its generation was overtaken. */
  function Delivered(s: ItemState, generation: nat, r: Receipt): ItemState {
    if 0 < generation <= s.applied then s
    else s.(applied := if generation > 0 then generation else s.applied, block := Some(r))
  }

  // ----- The queue object -----

  class ReceiptChecker {
    var items: map<nat, ItemState>
    var entries: seq<Element>
    var nextElement: nat

    ghost function View(): Queue
      reads this
    {
      Queue(items, entries, nextElement)
    }

    constructor ()
      ensures View() == Queue(map[], [], 0)
    {
      items, entries, nextElement := map[], [], 0;
    }

    method PushBack(item: nat) returns (element: nat)
      modifies this`entries, this`nextElement
      ensures element == old(nextElement) && nextElement == element + 1
      ensures entries == old(entries) + [Element(element, item)]
    {
      element := nextElement;
      entries := entries + [Element(element, item)];
      nextElement := nextElement + 1;
    }

    method Schedule(item: nat, suspectedTimeout: bool, checkedRecently: bool)
      requires item in items
      modifies this
      ensures View() == Scheduled(old(View()), item, suspectedTimeout && checkedRecently)
    {
      if items[item].queuedStale.Some? || (suspectedTimeout && checkedRecently) {
        return;
      }
      var element := PushBack(item);
      items := items[item := items[item].(generation := items[item].generation + 1, queuedStale := Some(element))];
    }

    /** Pops the front; queuedStale stays set, so nobody else queues the item meanwhile. */
    method Next() returns (item: Option<nat>)
      modifies this`entries
      ensures item.None? <==> old(entries) == []
      ensures item.Some? ==> item.value == old(entries)[0].item && entries == old(entries)[1..]
      ensures item.None? ==> entries == old(entries)
    {
      if entries == [] {
        return None;
      }
      item := Some(entries[0].item);
      entries := entries[1..];
    }

    method Requeue(item: nat)
      requires item in items
      modifies this
      ensures View() == Requeued(old(View()), item)
    {
      var element := PushBack(item);
      items := items[item := items[item].(queuedStale := Some(element))];
    }

    method Complete(item: nat)
      requires item in items
      modifies this`items
      ensures View() == Finished(old(View()), item)
    {
      items := items[item := items[item].(queuedStale := None)];
    }

    method Remove(item: nat)
      requires item in items
      modifies this`entries
      ensures View() == Removed(old(View()), item)
    {
      var stale := items[item].queuedStale;
      if stale.Some? {
        var p := 0;
        while p < |entries| && entries[p].id != stale.value
          invariant p <= |entries| && forall i :: 0 <= i < p ==> entries[i].id != stale.value
        {
          p := p + 1;
        }
        assert p == Position(entries, stale.value);
        if p < |entries| {
          entries := entries[..p] + entries[p + 1..];
        }
      }
    }
  }

  // ----- Workers and deliveries, interleaved -----

  datatype Worker =
    | Idle
    | Popped(item: nat)
    | Checking(item: nat, generation: nat)

  datatype Delivery = Delivery(item: nat, generation: nat, receipt: Receipt)

  /** sent: every receipt a worker has notified; underWay: the indices of those the manager
      has not taken yet; delivered: the indices of those it has, in the order it took them. */
  datatype System = System(
    q: Queue,
    workers: map<nat, Worker>,
    sent: seq<Delivery>,
    underWay: set<nat>,
    delivered: seq<nat>)

  datatype Action =
    | Track(item: nat)
    | Schedule(item: nat, tooRecent: bool)
    | Pop(worker: nat)
    | ReadGeneration(worker: nat)
    | Retry(worker: nat)
    | Complete(worker: nat, receipt: Option<Receipt>)
    | Remove(item: nat)
    | Deliver(index: nat)

  predicate Enabled(s: System, a: Action) {
    match a
    case Track(item) => item !in s.q.items
    case Schedule(item, _) => item in s.q.items
    case Pop(w) => w in s.workers && s.workers[w].Idle? && s.q.entries != []
    case ReadGeneration(w) => w in s.workers && s.workers[w].Popped? && s.workers[w].item in s.q.items
    case Retry(w) => w in s.workers && s.workers[w].Checking? && s.workers[w].item in s.q.items
    case Complete(w, _) => w in s.workers && s.workers[w].Checking? && s.workers[w].item in s.q.items
    case Remove(item) => item in s.q.items
    case Deliver(i) => i in s.underWay && i < |s.sent| && s.sent[i].item in s.q.items
  }

  function Step(s: System, a: Action): System
    requires Enabled(s, a)
  {
    match a
    case Track(item) =>
      s.(q := s.q.(items := s.q.items[item := ItemState(None, 0, 0, None)]))
    case Schedule(item, tooRecent) => s.(q := Scheduled(s.q, item, tooRecent))
    case Pop(w) =>
      s.(q := s.q.(entries := s.q.entries[1..]), workers := s.workers[w := Popped(s.q.entries[0].item)])
    case ReadGeneration(w) =>
      var item := s.workers[w].item;
      s.(workers := s.workers[w := Checking(item, s.q.items[item].generation)])
    case Retry(w) =>
      s.(q := Requeued(s.q, s.workers[w].item), workers := s.workers[w := Idle])
    case Complete(w, receipt) =>
      var Checking(item, generation) := s.workers[w];
      var done := s.(q := Finished(s.q, item), workers := s.workers[w := Idle]);
      (match receipt
       case None => done
       case Some(r) => done.(sent := s.sent + [Delivery(item, generation, r)], underWay := s.underWay + {|s.sent|}))
    case Remove(item) => s.(q := Removed(s.q, item))
    case Deliver(i) =>
      var d := s.sent[i];
      s.(q := s.q.(items := s.q.items[d.item := Delivered(s.q.items[d.item], d.generation, d.receipt)]),
         underWay := s.underWay - {i},
         delivered := s.delivered + [i])
  }

  predicate Legal(s: System, actions: seq<Action>)
    decreases |actions|
  {
    actions == [] || (Enabled(s, actions[0]) && Legal(Step(s, actions[0]), actions[1..]))
  }

  function Exec(s: System, actions: seq<Action>): System
    requires Legal(s, actions)
    decreases |actions|
  {
    if actions == [] then s else Exec(Step(s, actions[0]), actions[1..])
  }

  predicate Initial(s: System) {
    && s.q == Queue(map[], [], 0) && s.sent == [] && s.underWay == {} && s.delivered == []
    && forall w :: w in s.workers ==> s.workers[w].Idle?
  }

  // ----- Never twice in the queue or in workers' hands -----

  predicate Holds(s: System, w: nat, item: nat) {
    w in s.workers && !s.workers[w].Idle? && s.workers[w].item == item
  }

  /** A tracked item, in the queue or in a worker's hands, is marked as queued, is there
      once, and a worker that has read its generation read the current one. */
  ghost predicate Once(s: System) {
    && (forall i, j :: 0 <= i < j < |s.q.entries| ==> s.q.entries[i].item != s.q.entries[j].item)
    && (forall w, e :: w in s.workers && e in s.q.entries ==> !Holds(s, w, e.item))
    && (forall v, w :: v in s.workers && w in s.workers && v != w && !s.workers[v].Idle? ==>
          !Holds(s, w, s.workers[v].item))
    && (forall e :: e in s.q.entries ==> Marked(s, e.item))
    && (forall w :: w in s.workers && !s.workers[w].Idle? ==>
          && Marked(s, s.workers[w].item)
          && (s.workers[w].Checking? ==> s.workers[w].generation == s.q.items[s.workers[w].item].generation))
  }

  predicate Marked(s: System, item: nat) {
    item in s.q.items && s.q.items[item].queuedStale.Some?
  }

  /** With the same list and workers, marks and generations decide. */
  lemma SamePlacesKeepOnce(s: System, t: System)
    requires Once(s) && t.q.entries == s.q.entries && t.workers == s.workers
    requires forall item :: Marked(s, item) ==>
      Marked(t, item) && t.q.items[item].generation == s.q.items[item].generation
    ensures Once(t)
  {
    forall w, item | Holds(t, w, item) ensures Holds(s, w, item) {
    }
  }

  lemma TrackKeepsOnce(s: System, item: nat)
    requires Once(s) && Enabled(s, Track(item))
    ensures Once(Step(s, Track(item)))
  {
    SamePlacesKeepOnce(s, Step(s, Track(item)));
  }

  lemma DeliverKeepsOnce(s: System, i: nat)
    requires Once(s) && Enabled(s, Deliver(i))
    ensures Once(Step(s, Deliver(i)))
  {
    SamePlacesKeepOnce(s, Step(s, Deliver(i)));
  }

  lemma ScheduleKeepsOnce(s: System, item: nat, tooRecent: bool)
    requires Once(s) && Enabled(s, Schedule(item, tooRecent))
    ensures Once(Step(s, Schedule(item, tooRecent)))
  {
    var t := Step(s, Schedule(item, tooRecent));
    if t.q != s.q {
      assert !Marked(s, item);
      forall w, x | Holds(t, w, x) ensures Holds(s, w, x) && x != item {
      }
    }
  }

  lemma RemoveKeepsOnce(s: System, item: nat)
    requires Once(s) && item in s.q.items
    ensures Once(Step(s, Remove(item)))
  {
  }

  lemma PopKeepsOnce(s: System, w: nat)
    requires Once(s) && Enabled(s, Pop(w))
    ensures Once(Step(s, Pop(w)))
  {
    var t := Step(s, Pop(w));
    var head := s.q.entries[0];
    assert head in s.q.entries;
    forall e | e in t.q.entries ensures e in s.q.entries && e.item != head.item {
      var i :| 0 <= i < |t.q.entries| && t.q.entries[i] == e;
      assert s.q.entries[i + 1] == e;
    }
    forall v, item | v != w && Holds(t, v, item) ensures Holds(s, v, item) && item != head.item {
    }
  }

  lemma ReadGenerationKeepsOnce(s: System, w: nat)
    requires Once(s) && Enabled(s, ReadGeneration(w))
    ensures Once(Step(s, ReadGeneration(w)))
  {
    var t := Step(s, ReadGeneration(w));
    forall v, item | Holds(t, v, item) ensures Holds(s, v, item) {
    }
  }

  lemma RetryKeepsOnce(s: System, w: nat)
    requires Once(s) && Enabled(s, Retry(w))
    ensures Once(Step(s, Retry(w)))
  {
    assert Holds(s, w, s.workers[w].item);
  }

  lemma CompleteKeepsOnce(s: System, w: nat, receipt: Option<Receipt>)
    requires Once(s) && Enabled(s, Complete(w, receipt))
    ensures Once(Step(s, Complete(w, receipt)))
  {
    assert Holds(s, w, s.workers[w].item);
  }

  // ----- The highest generation wins -----

  /** The item is in the queue or in a worker's hands. */
  ghost predicate Busy(s: System, item: nat) {
    (exists e :: e in s.q.entries && e.item == item) || (exists w :: Holds(s, w, item))
  }

  /** Every receipt carries a generation its item has reached, and while the item is being
      checked again that generation is already in the past. */
  ghost predicate Dated(s: System) {
    && (forall i :: 0 <= i < |s.sent| ==>
          && s.sent[i].item in s.q.items
          && 0 < s.sent[i].generation <= s.q.items[s.sent[i].item].generation
          && (Busy(s, s.sent[i].item) ==> s.sent[i].generation < s.q.items[s.sent[i].item].generation))
    && (forall item :: item in s.q.items && Busy(s, item) ==> s.q.items[item].generation > 0)
  }

  /** No two receipts of one item carry the same generation. */
  predicate Unrepeated(ds: seq<Delivery>) {
    forall i, j :: 0 <= i < j < |ds| && ds[i].item == ds[j].item ==> ds[i].generation != ds[j].generation
  }

  /** Each receipt is taken at most once. */
  predicate TakenOnce(s: System) {
    && (forall i :: i in s.underWay ==> i < |s.sent| && i !in s.delivered)
    && (forall k :: 0 <= k < |s.delivered| ==> s.delivered[k] < |s.sent|)
    && (forall k, l :: 0 <= k < l < |s.delivered| ==> s.delivered[k] != s.delivered[l])
  }

  /** The recorded block is that of the highest generation delivered. */
  predicate Newest(s: System) {
    && (forall i :: i in s.delivered ==>
          && i < |s.sent|
          && s.sent[i].item in s.q.items && s.sent[i].generation <= s.q.items[s.sent[i].item].applied)
    && (forall item :: item in s.q.items ==> Recorded(s, item))
  }

  predicate Recorded(s: System, item: nat)
    requires item in s.q.items
  {
    var st := s.q.items[item];
    if st.applied == 0 then st.block == None
    else exists i :: i in s.delivered && i < |s.sent| && s.sent[i].item == item
           && s.sent[i].generation == st.applied && st.block == Some(s.sent[i].receipt)
  }

  ghost predicate Inv(s: System) {
    Once(s) && Dated(s) && Unrepeated(s.sent) && TakenOnce(s) && Newest(s)
  }

  /** The step queues this item under a generation of its own. */
  ghost predicate NewlyScheduled(s: System, a: Action, item: nat)
    requires Enabled(s, a)
  {
    a.Schedule? && a.item == item && Step(s, a).q == Pushed(s.q, item, s.q.items[item].generation + 1)
  }

  /** A worker gets an item from the queue, and the queue gets one from scheduling or from
      a worker that must try again. */
  lemma HeldComesFrom(s: System, a: Action, w: nat, item: nat)
    requires Enabled(s, a) && Holds(Step(s, a), w, item)
    ensures Busy(s, item)
    ensures a.Complete? ==> w != a.worker && Holds(s, w, item)
  {
    if a.Pop? && a.worker == w { assert s.q.entries[0] in s.q.entries; } else { assert Holds(s, w, item); }
  }

  lemma QueuedComesFrom(s: System, a: Action, e: Element)
    requires Enabled(s, a) && e in Step(s, a).q.entries
    ensures Busy(s, e.item) || NewlyScheduled(s, a, e.item)
    ensures a.Complete? ==> e in s.q.entries
  {
    if e !in s.q.entries && a.Retry? { assert Holds(s, a.worker, e.item); }
  }

  /** Only scheduling, and only of an item that is not busy, makes an item busy. */
  lemma BusyComesFromScheduling(s: System, a: Action, item: nat)
    requires Once(s) && Enabled(s, a) && Busy(Step(s, a), item)
    ensures Busy(s, item) || NewlyScheduled(s, a, item)
    ensures a.Complete? ==> item != s.workers[a.worker].item
  {
    var t := Step(s, a);
    if w :| Holds(t, w, item) {
      HeldComesFrom(s, a, w, item);
    } else {
      var e :| e in t.q.entries && e.item == item;
      QueuedComesFrom(s, a, e);
    }
    if a.Complete? { assert Holds(s, a.worker, s.workers[a.worker].item); }
  }

  lemma StepKeepsDated(s: System, a: Action)
    requires Once(s) && Dated(s) && Enabled(s, a)
    ensures Dated(Step(s, a))
  {
    var t := Step(s, a);
    forall item | Busy(t, item)
      ensures Busy(s, item) || NewlyScheduled(s, a, item)
      ensures a.Complete? ==> item != s.workers[a.worker].item
    {
      BusyComesFromScheduling(s, a, item);
    }
    if a.Complete? { assert Holds(s, a.worker, s.workers[a.worker].item); }
  }

  lemma StepKeepsUnrepeated(s: System, a: Action)
    requires Once(s) && Dated(s) && Enabled(s, a) && Unrepeated(s.sent)
    ensures Unrepeated(Step(s, a).sent)
  {
    if a.Complete? { assert Holds(s, a.worker, s.workers[a.worker].item); }
  }

  lemma DeliverKeepsNewest(s: System, i: nat)
    requires Dated(s) && Newest(s) && Enabled(s, Deliver(i))
    ensures Newest(Step(s, Deliver(i)))
  {
    var t := Step(s, Deliver(i));
    var d := s.sent[i];
    assert t.delivered[|s.delivered|] == i;
    forall item | item in t.q.items ensures Recorded(t, item) {
      assert Recorded(s, item);
      if t.q.items[item].applied > 0 && t.q.items[item] == s.q.items[item] {
        var j :| j in s.delivered && j < |s.sent| && s.sent[j].item == item
          && s.sent[j].generation == s.q.items[item].applied && s.q.items[item].block == Some(s.sent[j].receipt);
        assert j in t.delivered;
      }
    }
  }

  /** Except when a receipt is taken, nothing recorded changes. */
  lemma RecordsStay(s: System, a: Action)
    requires Enabled(s, a) && !a.Deliver?
    ensures var t := Step(s, a);
      && t.delivered == s.delivered && s.sent <= t.sent && s.q.items.Keys <= t.q.items.Keys
      && (forall item :: item in t.q.items ==>
            if item in s.q.items
            then t.q.items[item].applied == s.q.items[item].applied && t.q.items[item].block == s.q.items[item].block
            else t.q.items[item].applied == 0 && t.q.items[item].block == None)
  {
  }

  lemma StepKeepsNewest(s: System, a: Action)
    requires Newest(s) && Enabled(s, a) && !a.Deliver?
    ensures Newest(Step(s, a))
  {
    var t := Step(s, a);
    RecordsStay(s, a);
    forall item | item in t.q.items ensures Recorded(t, item) {
      if item in s.q.items && s.q.items[item].applied > 0 {
        assert Recorded(s, item);
        var j :| j in s.delivered && j < |s.sent| && s.sent[j].item == item
          && s.sent[j].generation == s.q.items[item].applied && s.q.items[item].block == Some(s.sent[j].receipt);
        assert j in t.delivered && t.sent[j] == s.sent[j];
      }
    }
  }

  lemma StepKeepsTakenOnce(s: System, a: Action)
    requires TakenOnce(s) && Enabled(s, a)
    ensures TakenOnce(Step(s, a))
  {
  }

  lemma StepKeepsOnce(s: System, a: Action)
    requires Once(s) && Enabled(s, a)
    ensures Once(Step(s, a))
  {
    match a
    case Remove(item) => RemoveKeepsOnce(s, item);
    case Pop(w) => PopKeepsOnce(s, w);
    case ReadGeneration(w) => ReadGenerationKeepsOnce(s, w);
    case Retry(w) => RetryKeepsOnce(s, w);
    case Complete(w, receipt) => CompleteKeepsOnce(s, w, receipt);
    case Track(item) => TrackKeepsOnce(s, item);
    case Schedule(item, tooRecent) => ScheduleKeepsOnce(s, item, tooRecent);
    case Deliver(i) => DeliverKeepsOnce(s, i);
  }

  lemma StepKeepsInv(s: System, a: Action)
    requires Inv(s) && Enabled(s, a)
    ensures Inv(Step(s, a))
  {
    StepKeepsOnce(s, a);
    StepKeepsDated(s, a);
    StepKeepsUnrepeated(s, a);
    StepKeepsTakenOnce(s, a);
    if a.Deliver? { DeliverKeepsNewest(s, a.index); } else { StepKeepsNewest(s, a); }
  }

  lemma {:induction false} ExecKeepsInv(s: System, actions: seq<Action>)
    requires Inv(s) && Legal(s, actions)
    ensures Inv(Exec(s, actions))
    decreases |actions|
  {
    if actions != [] {
      StepKeepsInv(s, actions[0]);
      ExecKeepsInv(Step(s, actions[0]), actions[1..]);
    }
  }

  /** In every interleaving a pending item is in the queue or in a worker's hands at most
      once in total. */
  lemma CheckedOnceAtATime(s0: System, actions: seq<Action>)
    requires Initial(s0) && Legal(s0, actions)
    ensures var s := Exec(s0, actions);
      && (forall i, j :: 0 <= i < j < |s.q.entries| ==> s.q.entries[i].item != s.q.entries[j].item)
      && (forall w, e :: w in s.workers && e in s.q.entries ==> !Holds(s, w, e.item))
      && (forall v, w, item :: Holds(s, v, item) && Holds(s, w, item) ==> v == w)
  {
    ExecKeepsInv(s0, actions);
  }

  /** Whatever order receipts are taken in, no two of one item carry the same generation,
      none is taken twice, and the block recorded on the item is that of the highest
      generation taken so far. */
  lemma HighestGenerationWins(s0: System, actions: seq<Action>, i: nat)
    requires Initial(s0) && Legal(s0, actions)
    ensures var s := Exec(s0, actions);
      && Unrepeated(s.sent) && TakenOnce(s)
      && (i in s.delivered
          && (forall j :: j in s.delivered && s.sent[j].item == s.sent[i].item ==>
                s.sent[j].generation <= s.sent[i].generation)
          ==> s.sent[i].item in s.q.items
              && s.q.items[s.sent[i].item].block == Some(s.sent[i].receipt)
              && s.q.items[s.sent[i].item].applied == s.sent[i].generation)
  {
    ExecKeepsInv(s0, actions);
    var s := Exec(s0, actions);
    if i in s.delivered && forall j :: j in s.delivered && s.sent[j].item == s.sent[i].item ==>
         s.sent[j].generation <= s.sent[i].generation {
      TopIsRecorded(s, i);
    }
  }

  lemma TopIsRecorded(s: System, i: nat)
    requires Inv(s) && i in s.delivered
    requires forall j :: j in s.delivered && s.sent[j].item == s.sent[i].item ==>
      s.sent[j].generation <= s.sent[i].generation
    ensures s.q.items[s.sent[i].item].block == Some(s.sent[i].receipt)
    ensures s.q.items[s.sent[i].item].applied == s.sent[i].generation
  {
    assert Recorded(s, s.sent[i].item);
    var j :| j in s.delivered && j < |s.sent| && s.sent[j].item == s.sent[i].item
      && s.sent[j].generation == s.q.items[s.sent[i].item].applied
      && s.q.items[s.sent[i].item].block == Some(s.sent[j].receipt);
    assert i == j;
  }
}
