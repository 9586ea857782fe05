/** How one pending item gathers confirmations in full chain-tracking mode: block by
    block as they are notified, or by re-walking the chain through a frozen view; and
    what its receiver is told. */
module ItemConfirmations {
  import opened Wrappers
  import opened Chain

  datatype Item = Item(
    blockNumber: nat,
    blockHash: string,
    transactionIndex: nat,
    logIndex: nat,
    confirmations: seq<Block>,
    notified: seq<Block>,
    confirmed: bool,
    appliedGeneration: nat)

  /** A transaction without a receipt has no block yet. */
  predicate Known(it: Item) {
    it.blockHash != ""
  }

  datatype Notification = Notification(
    confirmed: bool,
    newFork: bool,
    current: nat,
    target: nat,
    confirmations: seq<Block>)

  // ----- A notified block -----

  /** The hash the confirmation in slot i must name as its parent. */
  function ParentAt(it: Item, i: nat): string
    requires i <= |it.confirmations|
  {
    if i == 0 then it.blockHash else it.confirmations[i - 1].hash
  }

  /** The block has a place in the run of confirmations; its number says which. */
  predicate Absorbs(it: Item, b: Block) {
    var slot := b.number - it.blockNumber - 1;
    0 <= slot <= |it.confirmations| && b.parent == ParentAt(it, slot)
  }

  /** A block that has a place takes it and drops whatever stood from there on. */
  function Absorbed(it: Item, b: Block): Item {
    if Absorbs(it, b)
    then it.(confirmations := it.confirmations[..b.number - it.blockNumber - 1] + [b])
    else it
  }

  function Marked(required: nat, it: Item): Item {
    it.(confirmed := it.confirmed || |it.confirmations| >= required)
  }

  // ----- What the receiver is told -----

  /** The receiver's list is not a prefix-compatible start of the current one, or is empty. */
  predicate Forked(it: Item) {
    it.notified == [] ||
    exists i :: 0 <= i < |it.notified| && i < |it.confirmations|
      && it.confirmations[i].hash != it.notified[i].hash
  }

  function Delta(it: Item): seq<Block> {
    if Forked(it) then it.confirmations
    else if |it.confirmations| > |it.notified| then it.confirmations[|it.notified|..]
    else []
  }

  function Notice(required: nat, it: Item): Option<Notification> {
    if Delta(it) == [] && !it.confirmed then None
    else Some(Notification(it.confirmed, Forked(it),
      if |it.confirmations| > required then required else |it.confirmations|, required, Delta(it)))
  }

  /** What a receiver holds after a notification: replaced on a new fork, else extended. */
  function Replay(list: seq<Block>, n: Option<Notification>): seq<Block> {
    match n
    case None => list
    case Some(m) => if m.newFork then m.confirmations else list + m.confirmations
  }

  function Dispatched(required: nat, it: Item): Item {
    it.(notified := Replay(it.notified, Notice(required, it)))
  }

  datatype Outcome = Outcome(item: Item, notice: Option<Notification>)

  function Announced(required: nat, it: Item): Outcome {
    Outcome(Dispatched(required, it), Notice(required, it))
  }

  /** What a notified block makes of an item before anyone is told. */
  function Counted(required: nat, it: Item, b: Block): Item {
    if Known(it) then Marked(required, Absorbed(it, b)) else it
  }

  predicate Notifies(required: nat, it: Item, b: Block) {
    Known(it) && required > 0 && (Counted(required, it, b).confirmed || Absorbs(it, b))
  }

  /** One notified block, seen by one item. */
  function SawBlock(required: nat, it: Item, b: Block): Outcome {
    if Notifies(required, it, b) then Announced(required, Counted(required, it, b))
    else Outcome(Counted(required, it, b), None)
  }

  // ----- The frozen view of the chain within one cycle -----

  datatype Reply = Found(block: Block) | Missing | Failed

  /** The connector's answer to the k-th query of a cycle, for block number n: it may
      answer the same number differently each time it is asked. */
  type Connector = (nat, nat) -> Reply

  datatype FrozenView = FrozenView(blocks: map<nat, Block>, lowestNil: nat, queries: nat)

  datatype Looked = Looked(reply: Reply, view: FrozenView)

  function Lookup(c: Connector, v: FrozenView, n: nat): Looked {
    if v.lowestNil > 0 && n >= v.lowestNil then Looked(Missing, v)
    else if n in v.blocks then Looked(Found(v.blocks[n]), v)
    else
      var asked := v.(queries := v.queries + 1);
      match c(v.queries, n)
      case Failed => Looked(Failed, asked)
      case Missing => Looked(Missing, asked.(lowestNil := n))
      case Found(b) => Looked(Found(b), asked.(blocks := v.blocks[n := b]))
  }

  /** Every answer of a cycle that looks up these numbers in turn. */
  function Answers(c: Connector, v: FrozenView, ns: seq<nat>): (rs: seq<Reply>)
    ensures |rs| == |ns|
    decreases |ns|
  {
    if ns == [] then []
    else
      var l := Lookup(c, v, ns[0]);
      [l.reply] + Answers(c, l.view, ns[1..])
  }

  // ----- Walking the chain for one item -----

  /** Why a walk ended. */
  datatype Stop = Unplaced | Enough | HeadReached | OffFork | Errored

  datatype Walk = Walk(item: Item, view: FrozenView, stop: Stop)

  function WalkOn(c: Connector, required: nat, highest: nat, v: FrozenView, it: Item): (w: Walk)
    requires |it.confirmations| < required
    ensures !w.stop.Unplaced?
    decreases required - |it.confirmations|
  {
    var n := it.blockNumber + 1 + |it.confirmations|;
    if highest > 0 && n > highest then Walk(it, v, HeadReached)
    else
      var Looked(reply, w) := Lookup(c, v, n);
      match reply
      case Failed => Walk(it, w, Errored)
      case Missing => Walk(it, w, HeadReached)
      case Found(b) =>
        if b.parent != ParentAt(it, |it.confirmations|) then Walk(it, w, OffFork)
        else
          var next := it.(confirmations := it.confirmations + [b]);
          if |next.confirmations| >= required then Walk(next.(confirmed := true), w, Enough)
          else WalkOn(c, required, highest, w, next)
  }

  /** One turn of the walk that finds the next block. */
  lemma WalkTakes(c: Connector, required: nat, highest: nat, v: FrozenView, it: Item, b: Block)
    requires |it.confirmations| < required
    requires var n := it.blockNumber + 1 + |it.confirmations|;
      !(highest > 0 && n > highest) && Lookup(c, v, n).reply == Found(b) && b.parent == ParentAt(it, |it.confirmations|)
    ensures var w := Lookup(c, v, it.blockNumber + 1 + |it.confirmations|).view;
      var next := it.(confirmations := it.confirmations + [b]);
      WalkOn(c, required, highest, v, it) ==
        if |next.confirmations| >= required then Walk(next.(confirmed := true), w, Enough)
        else WalkOn(c, required, highest, w, next)
  {
  }

  /** The walk does not look above the highest block seen. */
  lemma WalkStopsAbove(c: Connector, required: nat, highest: nat, v: FrozenView, it: Item)
    requires |it.confirmations| < required && highest > 0 && it.blockNumber + 1 + |it.confirmations| > highest
    ensures WalkOn(c, required, highest, v, it) == Walk(it, v, HeadReached)
  {
  }

  /** A turn of the walk that does not find the next block. */
  lemma WalkStops(c: Connector, required: nat, highest: nat, v: FrozenView, it: Item)
    requires |it.confirmations| < required
    requires var n := it.blockNumber + 1 + |it.confirmations|;
      !(highest > 0 && n > highest)
      && !(Lookup(c, v, n).reply.Found? && Lookup(c, v, n).reply.block.parent == ParentAt(it, |it.confirmations|))
    ensures var w := WalkOn(c, required, highest, v, it);
      var l := Lookup(c, v, it.blockNumber + 1 + |it.confirmations|);
      && w.item == it && w.view == l.view && !w.stop.Enough?
      && (w.stop.HeadReached? <==> l.reply.Missing?)
  {
  }

  function Walked(c: Connector, required: nat, highest: nat, v: FrozenView, it: Item): Walk {
    if !Known(it) then Walk(it, v, Unplaced)
    else if required == 0 then Walk(it.(confirmations := [], confirmed := true), v, Enough)
    else WalkOn(c, required, highest, v, it.(confirmations := []))
  }

  /** What is announced at the end of a walk. */
  function AfterWalk(required: nat, w: Walk): Outcome {
    if w.stop.Unplaced? || w.stop.Errored? || !(w.item.confirmed || |w.item.confirmations| > 0)
    then Outcome(w.item, None)
    else Announced(required, w.item)
  }

  /** A receipt moves the item to its block, unless a later generation already did. */
  predicate Stale(it: Item, generation: nat) {
    0 < generation <= it.appliedGeneration
  }

  function Moved(it: Item, number: nat, hash: string, generation: nat): Item {
    it.(blockNumber := number, blockHash := hash,
        appliedGeneration := if generation > 0 then generation else it.appliedGeneration)
  }

  // ----- The frozen view keeps one pass in order -----

  /** A lookup never forgets: a block stays the block it was, a miss stays a miss. */
  predicate Refines(v: FrozenView, w: FrozenView) {
    && (forall n :: n in v.blocks ==> n in w.blocks && w.blocks[n] == v.blocks[n])
    && (v.lowestNil > 0 ==> 0 < w.lowestNil <= v.lowestNil)
  }

  lemma {:induction false} AnswersAgree(c: Connector, v: FrozenView, ns: seq<nat>, w: FrozenView, j: nat)
    requires Refines(w, v) && j < |ns| && forall i :: 0 <= i < |ns| ==> ns[i] > 0
    ensures var r := Answers(c, v, ns)[j];
      && (w.lowestNil > 0 && ns[j] >= w.lowestNil ==> r.Missing?)
      && (ns[j] in w.blocks && r.Found? ==> r.block == w.blocks[ns[j]])
    decreases |ns|
  {
    if j > 0 {
      var l := Lookup(c, v, ns[0]);
      assert Refines(w, l.view);
      AnswersAgree(c, l.view, ns[1..], w, j - 1);
    }
  }

  /** The frozen view: after a miss at n every later answer at or above n is a miss, and
      two blocks answered for one number are the same block, however the connector
      changes its mind in between. */
  lemma {:induction false} FrozenAnswers(c: Connector, v: FrozenView, ns: seq<nat>, i: nat, j: nat)
    requires i < j < |ns| && forall k :: 0 <= k < |ns| ==> ns[k] > 0
    ensures var rs := Answers(c, v, ns);
      && (rs[i].Missing? && ns[j] >= ns[i] ==> rs[j].Missing?)
      && (rs[i].Found? && rs[j].Found? && ns[i] == ns[j] ==> rs[i].block == rs[j].block)
    decreases |ns|
  {
    var l := Lookup(c, v, ns[0]);
    if i > 0 {
      FrozenAnswers(c, l.view, ns[1..], i - 1, j - 1);
    } else {
      AnswersAgree(c, l.view, ns[1..], l.view, j - 1);
    }
  }

  /** Nothing at or above k can be found any more in this pass. */
  predicate Barrier(highest: nat, v: FrozenView, k: nat) {
    0 < v.lowestNil <= k || 0 < highest < k
  }

  lemma LookupRefines(c: Connector, v: FrozenView, n: nat)
    requires n > 0
    ensures var l := Lookup(c, v, n);
      && Refines(v, l.view)
      && (l.reply.Missing? ==> 0 < l.view.lowestNil <= n)
      && (0 < v.lowestNil <= n ==> l.reply.Missing?)
  {
  }

  /** What a walk from here does to the view, to a barrier and to the item. */
  ghost predicate MeetsHead(highest: nat, v: FrozenView, it: Item, k: nat, w: Walk) {
    && Refines(v, w.view)
    && (w.stop.HeadReached? ==> Barrier(highest, w.view, k))
    && (Barrier(highest, v, k) ==> !w.stop.Enough?)
    && (!w.stop.Enough? ==> w.item.confirmed == it.confirmed)
  }

  lemma RefinesOn(u: FrozenView, v: FrozenView, w: FrozenView)
    requires Refines(u, v) && Refines(v, w)
    ensures Refines(u, w)
  {
  }

  lemma BarrierStays(highest: nat, v: FrozenView, w: FrozenView, k: nat)
    requires Refines(v, w) && Barrier(highest, v, k)
    ensures Barrier(highest, w, k)
  {
  }

  lemma MeetsHeadOn(highest: nat, u: FrozenView, v: FrozenView, it: Item, next: Item, k: nat, w: Walk)
    requires Refines(u, v) && MeetsHead(highest, v, next, k, w) && next.confirmed == it.confirmed
    ensures MeetsHead(highest, u, it, k, w)
  {
    RefinesOn(u, v, w.view);
    if Barrier(highest, u, k) { BarrierStays(highest, u, v, k); }
  }

  lemma {:induction false} WalkMeetsHead(c: Connector, required: nat, highest: nat, v: FrozenView, it: Item)
    requires |it.confirmations| < required
    ensures MeetsHead(highest, v, it, it.blockNumber + required, WalkOn(c, required, highest, v, it))
    decreases required - |it.confirmations|
  {
    var n := it.blockNumber + 1 + |it.confirmations|;
    var k := it.blockNumber + required;
    if highest > 0 && n > highest {
      WalkStopsAbove(c, required, highest, v, it);
    } else {
      LookupRefines(c, v, n);
      var l := Lookup(c, v, n);
      if l.reply.Found? && l.reply.block.parent == ParentAt(it, |it.confirmations|) {
        var next := it.(confirmations := it.confirmations + [l.reply.block]);
        WalkTakes(c, required, highest, v, it, l.reply.block);
        if |next.confirmations| < required {
          WalkMeetsHead(c, required, highest, l.view, next);
          MeetsHeadOn(highest, v, l.view, it, next, k, WalkOn(c, required, highest, v, it));
        }
      } else {
        WalkStops(c, required, highest, v, it);
      }
    }
  }

  predicate Before(a: Item, b: Item) {
    a.blockNumber < b.blockNumber ||
    (a.blockNumber == b.blockNumber &&
     (a.transactionIndex < b.transactionIndex ||
      (a.transactionIndex == b.transactionIndex && a.logIndex < b.logIndex)))
  }

  /** In the order sort.Sort leaves: no later item comes strictly before an earlier one. */
  predicate Sorted(items: seq<Item>) {
    forall i, j :: 0 <= i < j < |items| ==> !Before(items[j], items[i])
  }

  /** One pass over the pending items; a connector failure ends it. */
  function WalkPass(c: Connector, required: nat, highest: nat, v: FrozenView, items: seq<Item>): (ws: seq<Walk>)
    ensures |ws| <= |items|
    decreases |items|
  {
    if items == [] then []
    else
      var w := Walked(c, required, highest, v, items[0]);
      if w.stop.Errored? then [w]
      else [w] + WalkPass(c, required, highest, w.view, items[1..])
  }

  lemma {:induction false} BarrierHolds(
      c: Connector, required: nat, highest: nat, v: FrozenView, items: seq<Item>, k: nat, j: nat)
    requires Barrier(highest, v, k)
    requires j < |WalkPass(c, required, highest, v, items)|
    requires required > 0 && items[j].blockNumber + required >= k
    ensures !items[j].confirmed ==> !WalkPass(c, required, highest, v, items)[j].item.confirmed
    ensures !WalkPass(c, required, highest, v, items)[j].stop.Enough?
    decreases |items|
  {
    var first := items[0];
    if Known(first) { WalkMeetsHead(c, required, highest, v, first.(confirmations := [])); }
    if j > 0 {
      BarrierHolds(c, required, highest, Walked(c, required, highest, v, first).view, items[1..], k, j - 1);
    }
  }

  /** Frozen-view ordering: once an item of a pass stopped at the head of the chain, no
      later-sorted item of that pass is confirmed. */
  lemma {:induction false} FrozenOrder(
      c: Connector, required: nat, highest: nat, v: FrozenView, items: seq<Item>, i: nat, j: nat)
    requires Sorted(items) && i < j < |WalkPass(c, required, highest, v, items)|
    requires WalkPass(c, required, highest, v, items)[i].stop.HeadReached?
    ensures !items[j].confirmed ==> !WalkPass(c, required, highest, v, items)[j].item.confirmed
    ensures !WalkPass(c, required, highest, v, items)[j].stop.Enough?
    decreases |items|
  {
    var w := Walked(c, required, highest, v, items[0]);
    if i == 0 {
      WalkMeetsHead(c, required, highest, v, items[0].(confirmations := []));
      assert !Before(items[j], items[0]);
      BarrierHolds(c, required, highest, w.view, items[1..], items[0].blockNumber + required, j - 1);
    } else {
      FrozenOrder(c, required, highest, w.view, items[1..], i - 1, j - 1);
    }
  }

  // ----- One item's whole life, and its receiver's -----

  /** By-number reads return the number asked for. */
  ghost predicate ReadsByNumber(c: Connector, v: FrozenView) {
    && (forall k, n :: c(k, n).Found? ==> c(k, n).block.number == n)
    && (forall n :: n in v.blocks ==> v.blocks[n].number == n)
  }

  /** What can happen to an item, in any order. */
  datatype Event =
    | BlockNotified(block: Block)
    | ChainWalked(c: Connector, highest: nat, view: FrozenView)
    | ReceiptArrived(number: nat, hash: string, generation: nat, c: Connector, highest: nat, view: FrozenView)

  ghost predicate Allowed(e: Event) {
    match e
    case BlockNotified(_) => true
    case ChainWalked(c, _, v) => ReadsByNumber(c, v)
    case ReceiptArrived(_, _, _, c, _, v) => ReadsByNumber(c, v)
  }

  ghost function Happened(required: nat, it: Item, e: Event): Outcome {
    match e
    case BlockNotified(b) => SawBlock(required, it, b)
    case ChainWalked(c, highest, v) => AfterWalk(required, Walked(c, required, highest, v, it))
    case ReceiptArrived(number, hash, generation, c, highest, v) =>
      if Stale(it, generation) then Outcome(it, None)
      else AfterWalk(required, Walked(c, required, highest, v, Moved(it, number, hash, generation)))
  }

  /** The item and the list its receiver has put together; done once Confirmed was raised. */
  datatype Tracked = Tracked(item: Item, list: seq<Block>, done: bool)

  ghost function Track(required: nat, t: Tracked, e: Event): Tracked {
    var o := Happened(required, t.item, e);
    Tracked(o.item, Replay(t.list, o.notice), t.done || (o.notice.Some? && o.notice.value.confirmed))
  }

  ghost function TrackAll(required: nat, t: Tracked, es: seq<Event>): Tracked
    decreases |es|
  {
    if es == [] then t else TrackAll(required, Track(required, t, es[0]), es[1..])
  }

  /** A parent-linked run of consecutive blocks starting right after the item's own. */
  ghost predicate Rooted(it: Item) {
    && Linked(it.confirmations)
    && (it.confirmations != [] ==>
          it.confirmations[0].parent == it.blockHash && it.confirmations[0].number == it.blockNumber + 1)
  }

  predicate SameHashes(a: seq<Block>, b: seq<Block>) {
    |a| == |b| && forall i :: 0 <= i < |a| ==> a[i].hash == b[i].hash
  }

  /** Until Confirmed is raised. */
  ghost predicate Gathering(required: nat, it: Item) {
    && !it.confirmed
    && (|it.notified| < required || it.notified == [])
    && (Known(it) ==> Rooted(it) && |it.confirmations| < required)
  }

  ghost predicate TrackInv(required: nat, t: Tracked) {
    t.list == t.item.notified && (!t.done ==> Gathering(required, t.item))
  }

  /** New items: an event is walked as it is added, a transaction waits for its receipt. */
  ghost predicate NewItem(it: Item) {
    it.confirmations == it.notified == [] && !it.confirmed && it.appliedGeneration == 0
  }

  ghost predicate Added(required: nat, it: Item, t: Tracked) {
    && NewItem(it)
    && (if Known(it)
        then (exists c, highest, v :: ReadsByNumber(c, v) &&
                t == Track(required, Tracked(it, [], false), ChainWalked(c, highest, v)))
        else t == Tracked(it, [], false))
  }

  lemma RootedAppend(it: Item, b: Block)
    requires Rooted(it) && b.number == it.blockNumber + 1 + |it.confirmations|
    requires b.parent == ParentAt(it, |it.confirmations|)
    ensures Rooted(it.(confirmations := it.confirmations + [b]))
  {
    if it.confirmations != [] { LinkedNumbers(it.confirmations, |it.confirmations| - 1); }
    LinkedAppend(it.confirmations, b);
  }

  lemma RootedCut(it: Item, n: nat)
    requires Rooted(it) && n <= |it.confirmations|
    ensures Rooted(it.(confirmations := it.confirmations[..n]))
  {
    LinkedSlice(it.confirmations, 0, n);
  }

  lemma AbsorbedStaysRooted(it: Item, b: Block)
    requires Rooted(it)
    ensures Rooted(Absorbed(it, b)) && |Absorbed(it, b).confirmations| <= |it.confirmations| + 1
  {
    if Absorbs(it, b) {
      var slot := b.number - it.blockNumber - 1;
      RootedCut(it, slot);
      var cut := it.(confirmations := it.confirmations[..slot]);
      RootedAppend(cut, b);
    }
  }

  /** A walk from here leaves a rooted run, shorter than required unless that is why it
      stopped. */
  ghost predicate EndsRooted(required: nat, it: Item, w: Walk) {
    && Rooted(w.item)
    && w.item.(confirmations := it.confirmations, confirmed := false) == it
    && (w.item.confirmed <==> w.stop.Enough?)
    && (if w.stop.Enough? then |w.item.confirmations| == required else |w.item.confirmations| < required)
  }

  lemma {:induction false} WalkStaysRooted(c: Connector, required: nat, highest: nat, v: FrozenView, it: Item)
    requires ReadsByNumber(c, v) && Rooted(it) && |it.confirmations| < required && !it.confirmed
    ensures EndsRooted(required, it, WalkOn(c, required, highest, v, it))
    decreases required - |it.confirmations|
  {
    var n := it.blockNumber + 1 + |it.confirmations|;
    if highest > 0 && n > highest {
      WalkStopsAbove(c, required, highest, v, it);
    } else {
      var l := Lookup(c, v, n);
      if l.reply.Found? && l.reply.block.parent == ParentAt(it, |it.confirmations|) {
        var next := it.(confirmations := it.confirmations + [l.reply.block]);
        LookupReadsByNumber(c, v, n);
        RootedAppend(it, l.reply.block);
        WalkTakes(c, required, highest, v, it, l.reply.block);
        if |next.confirmations| < required {
          WalkStaysRooted(c, required, highest, l.view, next);
        }
      } else {
        WalkStops(c, required, highest, v, it);
      }
    }
  }

  lemma LookupReadsByNumber(c: Connector, v: FrozenView, n: nat)
    requires ReadsByNumber(c, v)
    ensures var l := Lookup(c, v, n);
      ReadsByNumber(c, l.view) && (l.reply.Found? ==> l.reply.block.number == n)
  {
  }

  /** A notification brings the receiver's list level with the item, as long as the list
      was not already longer than a confirmed run. */
  lemma NoticeLevels(required: nat, it: Item)
    requires it.confirmed ==> |it.notified| <= |it.confirmations|
    requires Notice(required, it).Some?
    ensures SameHashes(Dispatched(required, it).notified, it.confirmations)
  {
    var d := Dispatched(required, it);
    if !Forked(it) { assert d.notified == it.notified + Delta(it); }
  }

  /** Everything an outcome promises while its item is still gathering. */
  ghost predicate Sound(required: nat, o: Outcome) {
    && (match o.notice
        case None => Gathering(required, o.item)
        case Some(n) =>
          && SameHashes(o.item.notified, o.item.confirmations)
          && Rooted(o.item)
          && n.target == required && n.current == |o.item.confirmations|
          && (if n.confirmed then |o.item.confirmations| == required else Gathering(required, o.item)))
  }

  lemma AnnouncedIsSound(required: nat, it: Item)
    requires Known(it) && Rooted(it) && (|it.notified| < required || it.notified == [])
    requires if it.confirmed then |it.confirmations| == required else |it.confirmations| < required
    ensures Sound(required, Announced(required, it))
  {
    if Notice(required, it).Some? { NoticeLevels(required, it); }
  }

  lemma WalkIsSound(required: nat, it: Item, c: Connector, highest: nat, v: FrozenView)
    requires ReadsByNumber(c, v) && !it.confirmed && (|it.notified| < required || it.notified == [])
    requires Known(it)
    ensures Sound(required, AfterWalk(required, Walked(c, required, highest, v, it)))
  {
    var start := it.(confirmations := []);
    if required > 0 { WalkStaysRooted(c, required, highest, v, start); }
    var w := Walked(c, required, highest, v, it);
    AnnouncedIsSound(required, w.item);
  }

  lemma HappenedIsSound(required: nat, it: Item, e: Event)
    requires Gathering(required, it) && Allowed(e)
    ensures Sound(required, Happened(required, it, e))
  {
    match e
    case BlockNotified(b) =>
      if Known(it) {
        AbsorbedStaysRooted(it, b);
        AnnouncedIsSound(required, Marked(required, Absorbed(it, b)));
      }
    case ChainWalked(c, highest, v) =>
      if Known(it) { WalkIsSound(required, it, c, highest, v); }
    case ReceiptArrived(number, hash, generation, c, highest, v) =>
      if !Stale(it, generation) && hash != "" {
        WalkIsSound(required, Moved(it, number, hash, generation), c, highest, v);
      }
  }

  lemma ReplayMirrors(required: nat, it: Item, e: Event)
    ensures var o := Happened(required, it, e);
      o.item.notified == Replay(it.notified, o.notice)
  {
    match e
    case BlockNotified(_) =>
    case ChainWalked(c, highest, v) =>
      if required > 0 && Known(it) { WalkKeepsNotified(c, required, highest, v, it.(confirmations := [])); }
    case ReceiptArrived(number, hash, generation, c, highest, v) =>
      var m := Moved(it, number, hash, generation);
      if required > 0 && Known(m) { WalkKeepsNotified(c, required, highest, v, m.(confirmations := [])); }
  }

  lemma {:induction false} WalkKeepsNotified(c: Connector, required: nat, highest: nat, v: FrozenView, it: Item)
    requires |it.confirmations| < required
    ensures WalkOn(c, required, highest, v, it).item.notified == it.notified
    decreases required - |it.confirmations|
  {
    var n := it.blockNumber + 1 + |it.confirmations|;
    if !(highest > 0 && n > highest) {
      var l := Lookup(c, v, n);
      if l.reply.Found? && l.reply.block.parent == ParentAt(it, |it.confirmations|) {
        var next := it.(confirmations := it.confirmations + [l.reply.block]);
        if |next.confirmations| < required { WalkKeepsNotified(c, required, highest, l.view, next); }
      }
    }
  }

  lemma TrackKeepsInv(required: nat, t: Tracked, e: Event)
    requires TrackInv(required, t) && Allowed(e)
    ensures TrackInv(required, Track(required, t, e))
  {
    ReplayMirrors(required, t.item, e);
    if !t.done { HappenedIsSound(required, t.item, e); }
  }

  lemma AddedIsTracked(required: nat, it: Item, t: Tracked)
    requires Added(required, it, t)
    ensures TrackInv(required, t)
    ensures t.done ==> |t.item.confirmations| == required
    ensures t.done || t.list != [] ==> SameHashes(t.list, t.item.confirmations)
  {
    if Known(it) {
      var c, highest, v :| ReadsByNumber(c, v) &&
        t == Track(required, Tracked(it, [], false), ChainWalked(c, highest, v));
      ReplayMirrors(required, it, ChainWalked(c, highest, v));
      WalkIsSound(required, it, c, highest, v);
    }
  }

  lemma {:induction false} TrackAllKeepsInv(required: nat, t: Tracked, es: seq<Event>)
    requires TrackInv(required, t) && forall i :: 0 <= i < |es| ==> Allowed(es[i])
    ensures TrackInv(required, TrackAll(required, t, es))
    decreases |es|
  {
    if es != [] {
      TrackKeepsInv(required, t, es[0]);
      TrackAllKeepsInv(required, Track(required, t, es[0]), es[1..]);
    }
  }

  /** Linkage and threshold: whatever has happened to an item, as long as Confirmed has
      not been raised it holds fewer than the required confirmations, one linked run
      rooted at its own block. */
  lemma LinkageAndThreshold(required: nat, it: Item, t: Tracked, es: seq<Event>)
    requires Added(required, it, t) && forall i :: 0 <= i < |es| ==> Allowed(es[i])
    ensures var u := TrackAll(required, t, es);
      !u.done && Known(u.item) ==>
        Rooted(u.item) && |u.item.confirmations| < required && !u.item.confirmed
  {
    AddedIsTracked(required, it, t);
    TrackAllKeepsInv(required, t, es);
  }

  /** Delta replay: after each notification up to and including the first Confirmed one,
      the list a receiver has put together is the item's current run, hash for hash; and
      the first Confirmed comes with exactly the required number. */
  lemma DeltaReplay(required: nat, it: Item, t: Tracked, es: seq<Event>, e: Event)
    requires Added(required, it, t) && Allowed(e) && forall i :: 0 <= i < |es| ==> Allowed(es[i])
    ensures var u := TrackAll(required, t, es);
      var o := Happened(required, u.item, e);
      !u.done && o.notice.Some? ==>
        && SameHashes(Replay(u.list, o.notice), o.item.confirmations)
        && o.notice.value.current == |o.item.confirmations|
        && (o.notice.value.confirmed ==> |o.item.confirmations| == required)
  {
    AddedIsTracked(required, it, t);
    TrackAllKeepsInv(required, t, es);
    var u := TrackAll(required, t, es);
    ReplayMirrors(required, u.item, e);
    if !u.done { HappenedIsSound(required, u.item, e); }
  }
}
