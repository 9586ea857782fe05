/** The receipt queue over whole runs: what is scheduled gets checked, in order, and what is
    removed leaves the queue. */
module ReceiptQueue {
  import opened Wrappers
  import opened Receipts

  /** List elements are numbered as they are pushed, each is the one its item names, and no two
      items name the same. */
  ghost predicate Tagged(q: Queue) {
    && (forall i, j :: 0 <= i < j < |q.entries| ==> q.entries[i].id < q.entries[j].id)
    && (forall e :: e in q.entries ==> e.item in q.items && q.items[e.item].queuedStale == Some(e.id))
    && (forall x :: x in q.items && q.items[x].queuedStale.Some? ==> q.items[x].queuedStale.value < q.nextElement)
    && (forall x, y :: x in q.items && y in q.items && x != y && q.items[x].queuedStale.Some? ==>
          q.items[x].queuedStale != q.items[y].queuedStale)
  }

  lemma PushedKeepsTags(q: Queue, item: nat, generation: nat)
    requires Tagged(q) && item in q.items && forall e :: e in q.entries ==> e.item != item
    ensures Tagged(Pushed(q, item, generation))
  {
    var p := Pushed(q, item, generation);
    forall i, j | 0 <= i < j < |p.entries| ensures p.entries[i].id < p.entries[j].id {
      assert p.entries[i] in q.entries;
    }
  }

  /** Taking one element out of the list. */
  lemma OneOutKeepsTags(q: Queue, k: nat)
    requires Tagged(q) && k < |q.entries|
    ensures Tagged(q.(entries := q.entries[..k] + q.entries[k + 1..]))
  {
    var less := q.entries[..k] + q.entries[k + 1..];
    forall i | 0 <= i < |less| ensures less[i] == q.entries[if i < k then i else i + 1] && less[i] in q.entries {
      assert less[i] == q.entries[if i < k then i else i + 1];
    }
  }

  lemma RemoveKeepsTags(q: Queue, item: nat)
    requires Tagged(q) && item in q.items
    ensures Tagged(Removed(q, item))
  {
    if q.items[item].queuedStale.Some? {
      var p := Position(q.entries, q.items[item].queuedStale.value);
      if p < |q.entries| { OneOutKeepsTags(q, p); }
    }
  }

  lemma PopKeepsTags(q: Queue)
    requires Tagged(q) && q.entries != []
    ensures Tagged(q.(entries := q.entries[1..]))
  {
    assert q.entries[..0] + q.entries[1..] == q.entries[1..];
    OneOutKeepsTags(q, 0);
  }

  lemma CompleteKeepsTags(s: System, w: nat, receipt: Option<Receipt>)
    requires Once(s) && Tagged(s.q) && Enabled(s, Complete(w, receipt))
    ensures Tagged(Step(s, Complete(w, receipt)).q)
  {
    assert Holds(s, w, s.workers[w].item);
  }

  lemma StepKeepsTags(s: System, a: Action)
    requires Once(s) && Tagged(s.q) && Enabled(s, a)
    ensures Tagged(Step(s, a).q)
  {
    match a
    case Schedule(item, tooRecent) =>
      if !Marked(s, item) && !tooRecent { PushedKeepsTags(s.q, item, s.q.items[item].generation + 1); }
    case Retry(w) =>
      var item := s.workers[w].item;
      assert Holds(s, w, item);
      PushedKeepsTags(s.q, item, s.q.items[item].generation);
    case Pop(w) => PopKeepsTags(s.q);
    case Remove(item) => RemoveKeepsTags(s.q, item);
    case Complete(w, receipt) => CompleteKeepsTags(s, w, receipt);
    case Track(_) =>
    case ReadGeneration(_) =>
    case Deliver(_) =>
  }

  lemma {:induction false} ExecKeepsTags(s: System, actions: seq<Action>)
    requires Once(s) && Tagged(s.q) && Legal(s, actions)
    ensures Once(Exec(s, actions)) && Tagged(Exec(s, actions).q)
    decreases |actions|
  {
    if actions != [] {
      StepKeepsTags(s, actions[0]);
      StepKeepsOnce(s, actions[0]);
      ExecKeepsTags(Step(s, actions[0]), actions[1..]);
    }
  }

  lemma StaleIsOwn(q: Queue, item: nat, p: nat)
    requires Tagged(q) && item in q.items && p < |q.entries| && q.entries[p].item == item
    ensures q.items[item].queuedStale == Some(q.entries[p].id) && Position(q.entries, q.entries[p].id) == p
  {
    assert q.entries[p] in q.entries;
  }

  lemma UnqueuedIsNotFound(q: Queue, item: nat)
    requires Tagged(q) && item in q.items && forall i :: 0 <= i < |q.entries| ==> q.entries[i].item != item
    ensures Removed(q, item) == q
  {
    var stale := q.items[item].queuedStale;
    forall k | 0 <= k < |q.entries| ensures stale != Some(q.entries[k].id) {
      assert q.entries[k] in q.entries;
    }
  }

  /** Without the item's element, wherever it was, and otherwise the same. */
  predicate TakenOut(q: Queue, item: nat, p: nat, r: Queue) {
    && r == q.(entries := r.entries)
    && (p < |q.entries| && q.entries[p].item == item ==> r.entries == q.entries[..p] + q.entries[p + 1..])
    && ((forall i :: 0 <= i < |q.entries| ==> q.entries[i].item != item) ==> r == q)
  }

  lemma RemovedIsTakenOut(q: Queue, item: nat, p: nat)
    requires Tagged(q) && item in q.items
    ensures TakenOut(q, item, p, Removed(q, item))
  {
    if p < |q.entries| && q.entries[p].item == item { StaleIsOwn(q, item, p); }
    if forall i :: 0 <= i < |q.entries| ==> q.entries[i].item != item { UnqueuedIsNotFound(q, item); }
  }

  /** In every run, removing an item takes exactly its own element out of the queue, wherever it
      is, and leaves the rest in order; an item that is not queued leaves it as it is. */
  lemma RemoveTakesOut(s0: System, actions: seq<Action>, item: nat, p: nat)
    requires Initial(s0) && Legal(s0, actions) && item in Exec(s0, actions).q.items
    ensures var s := Exec(s0, actions);
      var t := Step(s, Remove(item));
      t == s.(q := t.q) && TakenOut(s.q, item, p, t.q)
  {
    ExecKeepsTags(s0, actions);
    RemovedIsTakenOut(Exec(s0, actions).q, item, p);
  }

  // ----- What is scheduled is checked -----

  /** While an item is not removed, being marked as queued means being in the queue or in a
      worker's hands. */
  lemma StepKeepsBusy(s: System, a: Action, item: nat)
    requires Once(s) && Enabled(s, a) && a != Remove(item)
    requires Tagged(s.q) && (Marked(s, item) ==> Busy(s, item))
    ensures Marked(Step(s, a), item) ==> Busy(Step(s, a), item)
  {
    var t := Step(s, a);
    if Marked(t, item) && Marked(s, item) {
      if w :| Holds(s, w, item) {
        HeldGoesOn(s, a, w, item);
      } else {
        var e :| e in s.q.entries && e.item == item;
        QueuedGoesOn(s, a, e);
      }
    } else if Marked(t, item) {
      assert t.q.entries[|s.q.entries|].item == item;
    }
  }

  lemma HeldGoesOn(s: System, a: Action, w: nat, item: nat)
    requires Enabled(s, a) && Holds(s, w, item) && Marked(Step(s, a), item)
    ensures Busy(Step(s, a), item)
  {
    var t := Step(s, a);
    if a.Retry? && a.worker == w {
      assert t.q.entries[|s.q.entries|].item == item;
    } else {
      assert Holds(t, w, item);
    }
  }

  lemma QueuedGoesOn(s: System, a: Action, e: Element)
    requires Tagged(s.q) && Enabled(s, a) && e in s.q.entries && a != Remove(e.item)
    ensures Busy(Step(s, a), e.item)
  {
    var t := Step(s, a);
    if a.Pop? && s.q.entries[0] == e {
      assert Holds(t, a.worker, e.item);
    } else if a.Pop? {
      var i :| 0 <= i < |s.q.entries| && s.q.entries[i] == e;
      assert t.q.entries[i - 1] == e;
    } else if a.Remove? {
      RemoveSpares(s.q, a.item, e);
    } else {
      assert e in t.q.entries;
    }
  }

  lemma RemoveSpares(q: Queue, item: nat, e: Element)
    requires Tagged(q) && item in q.items && e in q.entries && e.item != item
    ensures e in Removed(q, item).entries
  {
    var i :| 0 <= i < |q.entries| && q.entries[i] == e;
    if q.items[item].queuedStale.Some? {
      var p := Position(q.entries, q.items[item].queuedStale.value);
      if p < |q.entries| {
        assert q.entries[p] in q.entries && i != p;
        assert Removed(q, item).entries[if i < p then i else i - 1] == e;
      }
    }
  }

  lemma {:induction false} ExecKeepsBusy(s: System, actions: seq<Action>, item: nat)
    requires Once(s) && Tagged(s.q) && Legal(s, actions) && Remove(item) !in actions
    requires Marked(s, item) ==> Busy(s, item)
    ensures Marked(Exec(s, actions), item) ==> Busy(Exec(s, actions), item)
    decreases |actions|
  {
    if actions != [] {
      StepKeepsBusy(s, actions[0], item);
      StepKeepsTags(s, actions[0]);
      StepKeepsOnce(s, actions[0]);
      ExecKeepsBusy(Step(s, actions[0]), actions[1..], item);
    }
  }

  /** In every run, scheduling an item that has not been removed puts it at the back of the queue,
      under the next generation, if and only if it is neither in the queue nor in a worker's
      hands and was not checked too recently; nothing else changes. */
  lemma IdleItemIsQueued(s0: System, actions: seq<Action>, item: nat, tooRecent: bool)
    requires Initial(s0) && Legal(s0, actions) && Remove(item) !in actions && item in Exec(s0, actions).q.items
    ensures var s := Exec(s0, actions);
      var t := Step(s, Schedule(item, tooRecent));
      && t == s.(q := t.q)
      && (if Busy(s, item) || tooRecent then t == s
          else
            && |t.q.entries| == |s.q.entries| + 1 && t.q.entries[..|s.q.entries|] == s.q.entries
            && t.q.entries[|s.q.entries|].item == item
            && t.q.items == s.q.items[item := t.q.items[item]]
            && t.q.items[item].generation == s.q.items[item].generation + 1
            && t.q.items[item].applied == s.q.items[item].applied && t.q.items[item].block == s.q.items[item].block)
  {
    ExecKeepsTags(s0, actions);
    ExecKeepsBusy(s0, actions, item);
    var s := Exec(s0, actions);
    if Busy(s, item) { assert Marked(s, item); }
  }

  /** A check that ends, with a receipt or without, leaves its worker and its item free, and a
      receipt goes out under the generation the worker read; one that must be tried again goes
      to the back of the queue and keeps its generation. */
  lemma CheckEnds(s0: System, actions: seq<Action>, w: nat, receipt: Option<Receipt>)
    requires Initial(s0) && Legal(s0, actions) && Enabled(Exec(s0, actions), Complete(w, receipt))
    ensures var s := Exec(s0, actions);
      var Checking(item, generation) := s.workers[w];
      var t, u := Step(s, Complete(w, receipt)), Step(s, Retry(w));
      && !Busy(t, item) && !Marked(t, item) && t.workers[w] == Idle && t.q.entries == s.q.entries
      && t.sent == (if receipt.Some? then s.sent + [Delivery(item, generation, receipt.value)] else s.sent)
      && generation == s.q.items[item].generation
      && u.workers[w] == Idle && u.sent == s.sent && |u.q.entries| == |s.q.entries| + 1
      && u.q.entries[..|s.q.entries|] == s.q.entries && u.q.entries[|s.q.entries|].item == item
      && Marked(u, item) && u.q.items[item].generation == generation
  {
    ExecKeepsTags(s0, actions);
    var s := Exec(s0, actions);
    var item := s.workers[w].item;
    assert Holds(s, w, item);
    if Busy(Step(s, Complete(w, receipt)), item) { BusyComesFromScheduling(s, Complete(w, receipt), item); }
  }

  // ----- In order -----

  function Pops(actions: seq<Action>): nat {
    if actions == [] then 0 else (if actions[0].Pop? then 1 else 0) + Pops(actions[1..])
  }

  predicate NoRemoves(actions: seq<Action>) {
    forall i :: 0 <= i < |actions| ==> !actions[i].Remove?
  }

  lemma StepMovesUp(s: System, a: Action, p: nat)
    requires Enabled(s, a) && !a.Remove? && (if a.Pop? then 1 else 0) <= p < |s.q.entries|
    ensures var k := p - if a.Pop? then 1 else 0;
      k < |Step(s, a).q.entries| && Step(s, a).q.entries[k] == s.q.entries[p]
  {
  }

  /** First come, first checked: in every run without removals an element moves up one place
      with each pop, whatever else happens, and is taken by the pop that finds it in front. */
  lemma {:induction false} QueueMovesUp(s: System, actions: seq<Action>, p: nat)
    requires Legal(s, actions) && NoRemoves(actions) && Pops(actions) <= p < |s.q.entries|
    ensures var t := Exec(s, actions);
      && p - Pops(actions) < |t.q.entries| && t.q.entries[p - Pops(actions)] == s.q.entries[p]
      && (forall w :: Pops(actions) == p && Enabled(t, Pop(w)) ==>
            Holds(Step(t, Pop(w)), w, s.q.entries[p].item))
    decreases |actions|
  {
    if actions != [] {
      var a := actions[0];
      StepMovesUp(s, a, p);
      QueueMovesUp(Step(s, a), actions[1..], p - if a.Pop? then 1 else 0);
    }
  }
}
