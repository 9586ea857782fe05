/** The confirmation manager's event path over a whole run on a linear chain: blocks are
    notified in ascending order without gaps and events in chain order, in any mix. */
module ConfirmationOrder {
  import opened Wrappers
  import opened Chain
  import opened ItemConfirmations

  /** The linear chain, block n at n. */
  type Canon = nat -> Block

  ghost predicate LinearChain(canon: Canon) {
    && (forall n: nat :: canon(n).number == n && canon(n).hash != "")
    && (forall n: nat :: ChildOfPrevious(canon, n))
  }

  predicate ChildOfPrevious(canon: Canon, n: nat) {
    canon(n + 1).parent == canon(n).hash
  }

  /** Blocks above n up to and including h. */
  function Window(canon: Canon, n: nat, h: nat): (w: seq<Block>)
    ensures |w| == if h > n then h - n else 0
    ensures forall i :: 0 <= i < |w| ==> w[i] == canon(n + 1 + i)
  {
    seq(if h > n then h - n else 0, i requires i >= 0 => canon(n + 1 + i))
  }

  predicate Placed(canon: Canon, it: Item) {
    it.blockHash == canon(it.blockNumber).hash
  }

  /** By-number reads up to h all come from the chain. */
  ghost predicate ReadsChain(canon: Canon, h: nat, c: Connector, v: FrozenView) {
    && (forall k: nat, n: nat :: n <= h ==> c(k, n) == Found(canon(n)))
    && (forall n :: n in v.blocks ==> v.blocks[n] == canon(n))
    && (v.lowestNil == 0 || v.lowestNil > h)
  }

  /** The pending events by key, the highest block seen, the events confirmed so far in
      the order of their callbacks, and the last event notified. */
  datatype Manager = Manager(
    pending: map<string, Item>,
    highest: nat,
    confirmed: seq<Item>,
    latest: Option<Item>)

  datatype Action =
    | NextBlock(order: seq<string>)
    | NewEvent(key: string, event: Item, c: Connector, view: FrozenView)

  /** What processing a block leaves of each pending item. */
  ghost function Seen(canon: Canon, required: nat, m: Manager, key: string): Item
    requires key in m.pending
  {
    SawBlock(required, m.pending[key], canon(m.highest + 1)).item
  }

  /** The keys of the items a block confirms, in some order sort.Sort may leave them in. */
  ghost predicate DispatchOrder(canon: Canon, required: nat, m: Manager, order: seq<string>) {
    && (forall i, j :: 0 <= i < j < |order| ==> order[i] != order[j])
    && (forall i :: 0 <= i < |order| ==> order[i] in m.pending && Seen(canon, required, m, order[i]).confirmed)
    && (forall k :: k in m.pending && Seen(canon, required, m, k).confirmed ==> k in order)
    && (forall i, j :: 0 <= i < j < |order| ==> !Before(m.pending[order[j]], m.pending[order[i]]))
  }

  ghost predicate Enabled(canon: Canon, required: nat, m: Manager, a: Action) {
    match a
    case NextBlock(order) => DispatchOrder(canon, required, m, order)
    case NewEvent(key, e, c, v) =>
      && NewItem(e) && Placed(canon, e) && ReadsChain(canon, m.highest, c, v)
      && (m.latest.Some? ==> !Before(e, m.latest.value))
  }

  /** The pending items of these keys. */
  function ItemsOf(m: Manager, order: seq<string>): (items: seq<Item>)
    requires forall i :: 0 <= i < |order| ==> order[i] in m.pending
    ensures |items| == |order| && forall i :: 0 <= i < |order| ==> items[i] == m.pending[order[i]]
  {
    seq(|order|, i requires 0 <= i < |order| => m.pending[order[i]])
  }

  ghost function Step(canon: Canon, required: nat, m: Manager, a: Action): Manager
    requires Enabled(canon, required, m, a)
  {
    match a
    case NextBlock(order) =>
      Manager(
        map k | k in m.pending && !Seen(canon, required, m, k).confirmed :: Seen(canon, required, m, k),
        m.highest + 1,
        m.confirmed + ItemsOf(m, order),
        m.latest)
    case NewEvent(key, e, c, v) =>
      var it := AfterWalk(required, Walked(c, required, m.highest, v, e)).item;
      if it.confirmed then m.(pending := m.pending - {key}, confirmed := m.confirmed + [e], latest := Some(e))
      else m.(pending := m.pending[key := it], latest := Some(e))
  }

  ghost predicate Legal(canon: Canon, required: nat, m: Manager, actions: seq<Action>)
    decreases |actions|
  {
    actions == [] ||
    (Enabled(canon, required, m, actions[0]) &&
     Legal(canon, required, Step(canon, required, m, actions[0]), actions[1..]))
  }

  ghost function Exec(canon: Canon, required: nat, m: Manager, actions: seq<Action>): Manager
    requires Legal(canon, required, m, actions)
    decreases |actions|
  {
    if actions == [] then m
    else Exec(canon, required, Step(canon, required, m, actions[0]), actions[1..])
  }

  // ----- The invariant -----

  predicate Level(canon: Canon, required: nat, h: nat, it: Item) {
    && required > 0 && Placed(canon, it) && !it.confirmed
    && it.confirmations == Window(canon, it.blockNumber, h)
    && h < it.blockNumber + required
  }

  ghost predicate AllLevel(canon: Canon, required: nat, m: Manager) {
    m.highest > 0 && forall k :: k in m.pending ==> Level(canon, required, m.highest, m.pending[k])
  }

  predicate LogInv(required: nat, m: Manager) {
    && Sorted(m.confirmed)
    && (required > 0 ==> forall i :: 0 <= i < |m.confirmed| ==> m.confirmed[i].blockNumber + required <= m.highest)
  }

  /** No event known so far comes after the latest one notified. */
  predicate LatestInv(m: Manager) {
    match m.latest
    case None => m.pending == map[] && m.confirmed == []
    case Some(e) =>
      && (forall k :: k in m.pending ==> !Before(e, m.pending[k]))
      && (forall i :: 0 <= i < |m.confirmed| ==> !Before(e, m.confirmed[i]))
  }

  ghost predicate Inv(canon: Canon, required: nat, m: Manager) {
    AllLevel(canon, required, m) && LogInv(required, m) && LatestInv(m)
  }

  lemma LookupReadsChain(canon: Canon, h: nat, c: Connector, v: FrozenView, n: nat)
    requires ReadsChain(canon, h, c, v) && n <= h
    ensures Lookup(c, v, n).reply == Found(canon(n)) && ReadsChain(canon, h, c, Lookup(c, v, n).view)
  {
  }

  /** The block above an item's confirmations continues them. */
  lemma WindowContinues(canon: Canon, it: Item)
    requires LinearChain(canon) && Placed(canon, it)
    requires it.confirmations == Window(canon, it.blockNumber, it.blockNumber + |it.confirmations|)
    ensures var n := it.blockNumber + 1 + |it.confirmations|;
      && canon(n).parent == ParentAt(it, |it.confirmations|)
      && it.confirmations + [canon(n)] == Window(canon, it.blockNumber, n)
  {
    var n := it.blockNumber + 1 + |it.confirmations|;
    assert ChildOfPrevious(canon, n - 1);
  }

  /** The walk takes the blocks the item still needs, or all there are up to the head. */
  predicate ReadsUpTo(canon: Canon, required: nat, h: nat, it: Item, w: Walk) {
    && (w.stop.Enough? <==> it.blockNumber + required <= h)
    && (w.stop.Enough? || w.stop.HeadReached?)
    && w.item == it.(confirmed := w.stop.Enough?,
         confirmations := Window(canon, it.blockNumber, if w.stop.Enough? then it.blockNumber + required else h))
  }

  lemma {:induction false} WalkReadsWindow(
      canon: Canon, required: nat, h: nat, c: Connector, v: FrozenView, it: Item)
    requires LinearChain(canon) && ReadsChain(canon, h, c, v) && Placed(canon, it) && h > 0
    requires |it.confirmations| < required && !it.confirmed
    requires it.confirmations == Window(canon, it.blockNumber, it.blockNumber + |it.confirmations|)
    requires it.blockNumber + |it.confirmations| <= h || it.confirmations == []
    ensures ReadsUpTo(canon, required, h, it, WalkOn(c, required, h, v, it))
    decreases required - |it.confirmations|
  {
    var n := it.blockNumber + 1 + |it.confirmations|;
    if n <= h {
      LookupReadsChain(canon, h, c, v, n);
      WindowContinues(canon, it);
      WalkTakes(c, required, h, v, it, canon(n));
      var next := it.(confirmations := it.confirmations + [canon(n)]);
      if |next.confirmations| < required {
        WalkReadsWindow(canon, required, h, c, Lookup(c, v, n).view, next);
        ReadsOn(canon, required, h, it, next, WalkOn(c, required, h, v, it));
      }
    } else {
      WalkStopsAbove(c, required, h, v, it);
      WindowEnds(canon, it, h);
    }
  }

  lemma ReadsOn(canon: Canon, required: nat, h: nat, it: Item, next: Item, w: Walk)
    requires ReadsUpTo(canon, required, h, next, w) && next == it.(confirmations := next.confirmations)
    ensures ReadsUpTo(canon, required, h, it, w)
  {
  }

  /** Nothing more between the last confirmation and the head. */
  lemma WindowEnds(canon: Canon, it: Item, h: nat)
    requires it.confirmations == Window(canon, it.blockNumber, it.blockNumber + |it.confirmations|)
    requires it.blockNumber + 1 + |it.confirmations| > h
    requires it.blockNumber + |it.confirmations| <= h || it.confirmations == []
    ensures it.confirmations == Window(canon, it.blockNumber, h)
  {
  }

  /** Incremental processing equals the walk: re-walking a level item finds what it holds. */
  lemma WalkFindsTheSame(canon: Canon, required: nat, h: nat, c: Connector, v: FrozenView, it: Item)
    requires LinearChain(canon) && ReadsChain(canon, h, c, v) && h > 0
    requires Level(canon, required, h, it)
    ensures Walked(c, required, h, v, it).item == it
  {
    assert Window(canon, it.blockNumber, it.blockNumber) == [];
    WalkReadsWindow(canon, required, h, c, v, it.(confirmations := []));
  }

  predicate SamePlace(a: Item, b: Item) {
    a.blockNumber == b.blockNumber && a.blockHash == b.blockHash
    && a.transactionIndex == b.transactionIndex && a.logIndex == b.logIndex
  }

  /** The item s is what it was, one block higher, and confirmed if that was the last needed. */
  predicate LevelOneHigher(canon: Canon, required: nat, h: nat, it: Item, s: Item) {
    && s.confirmations == Window(canon, it.blockNumber, h + 1)
    && (s.confirmed <==> it.blockNumber + required == h + 1)
    && (!s.confirmed ==> Level(canon, required, h + 1, s))
    && SamePlace(s, it)
  }

  /** The next block extends a level item by exactly itself, and confirms it exactly when
      that is the last one it needed. */
  lemma NextBlockExtends(canon: Canon, required: nat, h: nat, it: Item)
    requires LinearChain(canon) && Level(canon, required, h, it)
    ensures LevelOneHigher(canon, required, h, it, SawBlock(required, it, canon(h + 1)).item)
  {
    var b := canon(h + 1);
    assert b.number == h + 1;
    assert Known(it);
    var m := Absorbed(it, b);
    if it.blockNumber <= h {
      assert ChildOfPrevious(canon, h);
      assert Absorbs(it, b);
      assert m.confirmations == it.confirmations + [b];
    }
    assert m.confirmations == Window(canon, it.blockNumber, h + 1);
  }

  lemma SeenExtends(canon: Canon, required: nat, m: Manager, key: string)
    requires LinearChain(canon) && key in m.pending && Level(canon, required, m.highest, m.pending[key])
    ensures LevelOneHigher(canon, required, m.highest, m.pending[key], Seen(canon, required, m, key))
  {
    NextBlockExtends(canon, required, m.highest, m.pending[key]);
  }

  lemma BlockKeepsLevel(canon: Canon, required: nat, m: Manager, order: seq<string>)
    requires LinearChain(canon) && AllLevel(canon, required, m) && DispatchOrder(canon, required, m, order)
    ensures AllLevel(canon, required, Step(canon, required, m, NextBlock(order)))
  {
    var n := Step(canon, required, m, NextBlock(order));
    forall k | k in n.pending ensures Level(canon, required, n.highest, n.pending[k]) {
      SeenExtends(canon, required, m, k);
    }
  }

  /** What one more block confirms is deeper in the chain than all confirmed before. */
  lemma LogGrows(required: nat, m: Manager, batch: seq<Item>)
    requires LogInv(required, m) && Sorted(batch) && (batch != [] ==> required > 0)
    requires forall i :: 0 <= i < |batch| ==> batch[i].blockNumber + required == m.highest + 1
    ensures LogInv(required, m.(highest := m.highest + 1, confirmed := m.confirmed + batch))
  {
  }

  lemma BlockKeepsLog(canon: Canon, required: nat, m: Manager, order: seq<string>)
    requires LinearChain(canon) && AllLevel(canon, required, m) && LogInv(required, m)
    requires DispatchOrder(canon, required, m, order)
    ensures LogInv(required, Step(canon, required, m, NextBlock(order)))
  {
    var batch := ItemsOf(m, order);
    if order != [] { assert Level(canon, required, m.highest, m.pending[order[0]]); }
    forall i | 0 <= i < |batch| ensures batch[i].blockNumber + required == m.highest + 1 {
      SeenExtends(canon, required, m, order[i]);
    }
    assert Sorted(batch);
    LogGrows(required, m, batch);
  }

  lemma SawBlockStays(required: nat, it: Item, b: Block)
    ensures SamePlace(SawBlock(required, it, b).item, it)
  {
  }

  lemma BlockKeepsLatest(canon: Canon, required: nat, m: Manager, order: seq<string>)
    requires LatestInv(m) && DispatchOrder(canon, required, m, order)
    ensures LatestInv(Step(canon, required, m, NextBlock(order)))
  {
    var n := Step(canon, required, m, NextBlock(order));
    if m.latest.None? {
      KeysOfSome(m.pending, order);
      assert n.pending == map[];
    } else {
      forall k | k in n.pending ensures !Before(m.latest.value, n.pending[k]) {
        SeenStays(canon, required, m, k, m.latest.value);
      }
      MoreConfirmed(m, order, m.latest.value);
    }
  }

  lemma KeysOfSome(pending: map<string, Item>, order: seq<string>)
    requires forall i :: 0 <= i < |order| ==> order[i] in pending
    ensures order != [] ==> pending != map[]
  {
    if order != [] { assert order[0] in pending; }
  }

  lemma SeenStays(canon: Canon, required: nat, m: Manager, key: string, e: Item)
    requires key in m.pending && !Before(e, m.pending[key])
    ensures !Before(e, Seen(canon, required, m, key))
  {
    SawBlockStays(required, m.pending[key], canon(m.highest + 1));
  }

  lemma MoreConfirmed(m: Manager, order: seq<string>, e: Item)
    requires forall i :: 0 <= i < |order| ==> order[i] in m.pending
    requires forall k :: k in m.pending ==> !Before(e, m.pending[k])
    requires forall i :: 0 <= i < |m.confirmed| ==> !Before(e, m.confirmed[i])
    ensures var all := m.confirmed + ItemsOf(m, order);
      forall i :: 0 <= i < |all| ==> !Before(e, all[i])
  {
  }

  lemma BlockKeepsInv(canon: Canon, required: nat, m: Manager, order: seq<string>)
    requires LinearChain(canon) && Inv(canon, required, m) && DispatchOrder(canon, required, m, order)
    ensures Inv(canon, required, Step(canon, required, m, NextBlock(order)))
  {
    BlockKeepsLevel(canon, required, m, order);
    BlockKeepsLog(canon, required, m, order);
    BlockKeepsLatest(canon, required, m, order);
  }

  /** A new event is level at once, or confirmed at once because it is deep enough. */
  lemma EventWalked(canon: Canon, required: nat, h: nat, e: Item, c: Connector, v: FrozenView)
    requires LinearChain(canon) && NewItem(e) && Placed(canon, e) && ReadsChain(canon, h, c, v) && h > 0
    ensures var it := AfterWalk(required, Walked(c, required, h, v, e)).item;
      && SamePlace(it, e)
      && (it.confirmed <==> required == 0 || e.blockNumber + required <= h)
      && (!it.confirmed ==> Level(canon, required, h, it))
  {
    if required > 0 {
      assert Window(canon, e.blockNumber, e.blockNumber) == [];
      WalkReadsWindow(canon, required, h, c, v, e);
    }
  }

  lemma EventKeepsInv(canon: Canon, required: nat, m: Manager, a: Action)
    requires LinearChain(canon) && Inv(canon, required, m) && a.NewEvent? && Enabled(canon, required, m, a)
    ensures Inv(canon, required, Step(canon, required, m, a))
  {
    EventWalked(canon, required, m.highest, a.event, a.c, a.view);
  }

  lemma {:induction false} ExecKeepsInv(canon: Canon, required: nat, m: Manager, actions: seq<Action>)
    requires LinearChain(canon) && Inv(canon, required, m) && Legal(canon, required, m, actions)
    ensures Inv(canon, required, Exec(canon, required, m, actions))
    decreases |actions|
  {
    if actions != [] {
      match actions[0] {
        case NextBlock(order) => BlockKeepsInv(canon, required, m, order);
        case NewEvent(_, _, _, _) => EventKeepsInv(canon, required, m, actions[0]);
      }
      ExecKeepsInv(canon, required, Step(canon, required, m, actions[0]), actions[1..]);
    }
  }

  /** Whole-run order: after any mix of steps every pending event at block n holds exactly
      the blocks n+1 up to the highest seen, fewer than required, which is what a walk would
      find; every confirmed one is that deep; and the Confirmed callbacks of the whole run came
      out in chain order. */
  lemma WholeRunOrder(canon: Canon, required: nat, highest: nat, actions: seq<Action>)
    requires LinearChain(canon) && highest > 0
    requires Legal(canon, required, Manager(map[], highest, [], None), actions)
    ensures var m := Exec(canon, required, Manager(map[], highest, [], None), actions);
      && (forall k :: k in m.pending ==>
            && m.pending[k].confirmations == Window(canon, m.pending[k].blockNumber, m.highest)
            && m.highest < m.pending[k].blockNumber + required)
      && (forall i :: 0 <= i < |m.confirmed| ==> required == 0 || m.confirmed[i].blockNumber + required <= m.highest)
      && (forall i, j :: 0 <= i < j < |m.confirmed| ==>
            var a, b := m.confirmed[i], m.confirmed[j];
            && a.blockNumber <= b.blockNumber
            && (a.blockNumber == b.blockNumber ==> a.transactionIndex <= b.transactionIndex)
            && (a.blockNumber == b.blockNumber && a.transactionIndex == b.transactionIndex ==>
                  a.logIndex <= b.logIndex))
      && (forall k, c, v :: k in m.pending && ReadsChain(canon, m.highest, c, v) ==>
            Walked(c, required, m.highest, v, m.pending[k]).item == m.pending[k])
  {
    var m0 := Manager(map[], highest, [], None);
    ExecKeepsInv(canon, required, m0, actions);
    var m := Exec(canon, required, m0, actions);
    forall k, c, v | k in m.pending && ReadsChain(canon, m.highest, c, v)
      ensures Walked(c, required, m.highest, v, m.pending[k]).item == m.pending[k]
    {
      WalkFindsTheSame(canon, required, m.highest, c, v, m.pending[k]);
    }
  }
}
