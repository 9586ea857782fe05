/** What each happening does to a pending item and to what its receiver is told, case by
    case, and how a new branch of the chain takes the place of an abandoned one. */
module ItemForks {
  import opened Wrappers
  import opened Chain
  import opened ItemConfirmations

  // ----- One notified block -----

  /** The block is the child of the item's own block, for k = 0, or of its k-th confirmation. */
  predicate FitsAt(it: Item, b: Block, k: nat) {
    && k <= |it.confirmations| && b.number == it.blockNumber + 1 + k
    && b.parent == if k == 0 then it.blockHash else it.confirmations[k - 1].hash
  }

  /** A block whose number and parent put it in place k of the run takes that place, drops all
      that stood from there on, and confirms the item when the run is long enough. */
  lemma BlockTakesItsPlace(required: nat, it: Item, b: Block, k: nat)
    requires Known(it) && FitsAt(it, b, k)
    ensures var s := SawBlock(required, it, b).item;
      && s.confirmations == it.confirmations[..k] + [b]
      && (s.confirmed <==> it.confirmed || k + 1 >= required)
      && s == it.(confirmations := s.confirmations, confirmed := s.confirmed, notified := s.notified)
  {
    assert ParentAt(it, k) == b.parent;
  }

  /** Any other block leaves the run alone. */
  lemma OthersLeaveTheRun(required: nat, it: Item, b: Block)
    requires forall k: nat :: !FitsAt(it, b, k)
    ensures var o := SawBlock(required, it, b);
      && o.item.confirmations == it.confirmations
      && (o.item.confirmed <==> it.confirmed || (Known(it) && |it.confirmations| >= required))
      && o.item == it.(confirmed := o.item.confirmed, notified := o.item.notified)
      && (!o.item.confirmed ==> o.notice.None?)
  {
    var k := b.number - it.blockNumber - 1;
    if k >= 0 { assert !FitsAt(it, b, k); }
  }

  /** A transaction without a receipt does not look at blocks. */
  lemma UnplacedSeesNothing(required: nat, it: Item, b: Block)
    requires it.blockHash == ""
    ensures SawBlock(required, it, b) == Outcome(it, None)
  {
  }

  // ----- What the receiver is told -----

  /** The run goes no further than the list, and nowhere differs from it. */
  predicate StartsList(run: seq<Block>, list: seq<Block>) {
    |run| <= |list| && forall i :: 0 <= i < |run| ==> run[i].hash == list[i].hash
  }

  /** The receiver is told of anything it has not got: a notification is left out exactly when
      the item is unconfirmed and its run is the start of the receiver's list. It replaces the
      list when there is none yet or the two differ, and else has only what is missing. */
  lemma NoticeTells(required: nat, it: Item)
    ensures Notice(required, it).None? <==> !it.confirmed && StartsList(it.confirmations, it.notified)
    ensures Notice(required, it).Some? ==>
      var n := Notice(required, it).value;
      && n.confirmed == it.confirmed && n.target == required
      && n.current <= required && n.current <= |it.confirmations|
      && (n.current == required || n.current == |it.confirmations|)
      && (n.newFork <==>
            || it.notified == []
            || exists i :: 0 <= i < |it.confirmations| && i < |it.notified|
                 && it.confirmations[i].hash != it.notified[i].hash)
      && (n.newFork ==> n.confirmations == it.confirmations)
      && (!n.newFork && |it.confirmations| >= |it.notified| ==>
            n.confirmations == it.confirmations[|it.notified|..])
      && (!n.newFork && |it.confirmations| < |it.notified| ==> n.confirmations == [])
  {
    if !it.confirmed && !StartsList(it.confirmations, it.notified) {
      if |it.confirmations| <= |it.notified| {
        var i :| 0 <= i < |it.confirmations| && it.confirmations[i].hash != it.notified[i].hash;
        assert Forked(it);
      }
    }
  }

  /** The block took a place in the run. */
  ghost predicate Fits(it: Item, b: Block) {
    exists k: nat :: FitsAt(it, b, k)
  }

  lemma FitsExactlyWhenAbsorbed(it: Item, b: Block)
    ensures Fits(it, b) <==> Absorbs(it, b)
  {
    var k := b.number - it.blockNumber - 1;
    if Absorbs(it, b) { assert FitsAt(it, b, k); }
  }

  /** A notification is raised exactly when there is one to raise and there is cause to look. */
  lemma AnnouncedTells(required: nat, it: Item)
    ensures var o := Announced(required, it);
      && (o.notice.Some? <==> it.confirmed || !StartsList(it.confirmations, it.notified))
      && o.item == it.(notified := o.item.notified) && o.notice == Notice(required, it)
  {
    NoticeTells(required, it);
  }

  /** A notified block raises a notification exactly when there is one to raise and the block
      took a place or the item is confirmed; with no confirmations required, never. */
  lemma BlockTells(required: nat, it: Item, b: Block)
    requires Known(it)
    ensures var o := SawBlock(required, it, b);
      && (o.notice.Some? <==>
            && required > 0
            && (o.item.confirmed || (Fits(it, b) && !StartsList(o.item.confirmations, it.notified))))
      && (o.notice.Some? ==>
            o.notice == Notice(required, it.(confirmations := o.item.confirmations, confirmed := o.item.confirmed)))
  {
    AnnouncedTells(required, Counted(required, it, b));
    FitsExactlyWhenAbsorbed(it, b);
  }

  /** The end of a walk raises one when it found something or confirmed the item, unless the
      connector failed. */
  lemma WalkTells(required: nat, w: Walk)
    ensures var o := AfterWalk(required, w);
      && (o.notice.Some? <==>
            && !w.stop.Unplaced? && !w.stop.Errored?
            && (w.item.confirmed || (w.item.confirmations != [] && !StartsList(w.item.confirmations, w.item.notified))))
      && o.item == w.item.(notified := o.item.notified)
      && (o.notice.Some? ==> o.notice == Notice(required, w.item))
  {
    AnnouncedTells(required, w.item);
  }

  // ----- Receipts and lookups -----

  lemma {:induction false} WalkKeepsPlace(c: Connector, required: nat, highest: nat, v: FrozenView, it: Item)
    requires |it.confirmations| < required
    ensures var w := WalkOn(c, required, highest, v, it).item;
      w == it.(confirmations := w.confirmations, confirmed := w.confirmed)
    decreases required - |it.confirmations|
  {
    var n := it.blockNumber + 1 + |it.confirmations|;
    if highest > 0 && n > highest {
      WalkStopsAbove(c, required, highest, v, it);
    } else {
      var l := Lookup(c, v, n);
      if l.reply.Found? && l.reply.block.parent == ParentAt(it, |it.confirmations|) {
        var next := it.(confirmations := it.confirmations + [l.reply.block]);
        WalkTakes(c, required, highest, v, it, l.reply.block);
        if |next.confirmations| < required { WalkKeepsPlace(c, required, highest, l.view, next); }
      } else {
        WalkStops(c, required, highest, v, it);
      }
    }
  }

  /** A receipt of a generation already reached changes nothing; any other puts the item in its
      block, and one with a generation is remembered. */
  lemma ReceiptMoves(required: nat, it: Item, e: Event)
    requires e.ReceiptArrived?
    ensures var o := Happened(required, it, e);
      if 0 < e.generation <= it.appliedGeneration then o == Outcome(it, None)
      else
        && o.item.blockNumber == e.number && o.item.blockHash == e.hash
        && o.item.transactionIndex == it.transactionIndex && o.item.logIndex == it.logIndex
        && o.item.appliedGeneration == (if e.generation > 0 then e.generation else it.appliedGeneration)
  {
    var m := Moved(it, e.number, e.hash, e.generation);
    if required > 0 && Known(m) { WalkKeepsPlace(e.c, required, e.highest, e.view, m.(confirmations := [])); }
  }

  /** Within a cycle a number is asked for until it is answered with a block or a miss, at it or
      below it; that answer then stands, and nothing else in the view changes. */
  lemma LookupAsks(c: Connector, v: FrozenView, n: nat)
    ensures var l := Lookup(c, v, n);
      if 0 < v.lowestNil <= n then l == Looked(Missing, v)
      else if n in v.blocks then l == Looked(Found(v.blocks[n]), v)
      else
        && l.reply == c(v.queries, n) && l.view.queries == v.queries + 1
        && l.view.lowestNil == (if l.reply.Missing? then n else v.lowestNil)
        && l.view.blocks == (if l.reply.Found? then v.blocks[n := l.reply.block] else v.blocks)
  {
  }

  // ----- A new branch -----

  function BlockEvents(bs: seq<Block>): (es: seq<Event>)
    ensures |es| == |bs| && forall i :: 0 <= i < |bs| ==> es[i] == BlockNotified(bs[i])
  {
    seq(|bs|, i requires 0 <= i < |bs| => BlockNotified(bs[i]))
  }

  /** The branch in order, with blocks in between that build on none of these hashes. */
  predicate Woven(blocks: seq<Block>, branch: seq<Block>, hashes: set<string>)
    decreases |blocks|
  {
    if blocks == [] then branch == []
    else
      || (branch != [] && blocks[0] == branch[0] && Woven(blocks[1..], branch[1..], hashes))
      || (blocks[0].parent !in hashes && Woven(blocks[1..], branch, hashes))
  }

  function HashesOf(it: Item, run: seq<Block>): set<string> {
    {it.blockHash} + set b | b in run :: b.hash
  }

  /** The item holds the first m blocks of the run, as many as its receiver knows of. */
  ghost predicate Follows(required: nat, t: Tracked, run: seq<Block>, m: nat) {
    && Known(t.item) && Rooted(t.item.(confirmations := run)) && 0 < m <= |run| <= required
    && t.item.confirmations == run[..m] && t.list == t.item.notified
    && StartsList(run[..m], t.list) && |t.list| <= required
    && (t.item.confirmed <==> m == required) && (t.done <==> m == required)
  }

  lemma NoticeKeepsStart(required: nat, it: Item)
    ensures var d := Dispatched(required, it);
      && StartsList(it.confirmations, d.notified)
      && (|it.confirmations| <= required && |it.notified| <= required ==> |d.notified| <= required)
  {
    NoticeTells(required, it);
  }

  /** The item has taken its place and its receiver is told. */
  lemma ToldFollows(required: nat, t: Tracked, run: seq<Block>, m: nat, b: Block)
    requires 0 < m <= |run| <= required && Rooted(t.item.(confirmations := run))
    requires Known(t.item) && t.list == t.item.notified && |t.list| <= required && !t.done
    requires var c := Counted(required, t.item, b);
      && c == t.item.(confirmations := run[..m], confirmed := m == required) && Notifies(required, t.item, b)
    ensures Follows(required, Track(required, t, BlockNotified(b)), run, m)
  {
    NoticeKeepsStart(required, Counted(required, t.item, b));
  }

  /** The next block of the run comes in. */
  lemma TakesNext(required: nat, t: Tracked, run: seq<Block>, m: nat)
    requires Follows(required, t, run, m) && m < |run|
    ensures Follows(required, Track(required, t, BlockNotified(run[m])), run, m + 1)
  {
    NextInRun(t.item, run, m);
    BlockTakesItsPlace(required, t.item, run[m], m);
    assert run[..m] + [run[m]] == run[..m + 1];
    ToldFollows(required, t, run, m + 1, run[m]);
  }

  lemma NextInRun(it: Item, run: seq<Block>, m: nat)
    requires Rooted(it.(confirmations := run)) && 0 < m < |run| && it.confirmations == run[..m]
    ensures FitsAt(it, run[m], m)
  {
    assert Extends(run[m - 1], run[m]);
    LinkedNumbers(run, m);
  }

  /** A block that builds on nothing the item holds. */
  lemma PassesBy(required: nat, t: Tracked, run: seq<Block>, m: nat, b: Block)
    requires Follows(required, t, run, m) && b.parent !in HashesOf(t.item, run)
    ensures Follows(required, Track(required, t, BlockNotified(b)), run, m)
  {
    forall k: nat ensures !FitsAt(t.item, b, k) {
      if 0 < k <= m { assert run[..m][k - 1] == run[k - 1] && run[k - 1] in run; }
    }
    OthersLeaveTheRun(required, t.item, b);
    NoticeKeepsStart(required, Counted(required, t.item, b));
  }

  lemma TrackKeepsBlock(required: nat, t: Tracked, b: Block)
    ensures var u := Track(required, t, BlockNotified(b)).item;
      u.blockHash == t.item.blockHash && u.blockNumber == t.item.blockNumber
  {
  }

  lemma {:induction false} BranchGoesOn(required: nat, t: Tracked, run: seq<Block>, m: nat, blocks: seq<Block>)
    requires Follows(required, t, run, m) && Woven(blocks, run[m..], HashesOf(t.item, run))
    ensures Follows(required, TrackAll(required, t, BlockEvents(blocks)), run, |run|)
    decreases |blocks|
  {
    if blocks != [] {
      var es := BlockEvents(blocks);
      assert es[1..] == BlockEvents(blocks[1..]);
      TrackKeepsBlock(required, t, blocks[0]);
      var u := Track(required, t, es[0]);
      if blocks[0].parent !in HashesOf(t.item, run) && Woven(blocks[1..], run[m..], HashesOf(t.item, run)) {
        PassesBy(required, t, run, m, blocks[0]);
        BranchGoesOn(required, u, run, m, blocks[1..]);
      } else {
        assert run[m..][1..] == run[m + 1..];
        TakesNext(required, t, run, m);
        BranchGoesOn(required, u, run, m + 1, blocks[1..]);
      }
    } else {
      assert m == |run|;
    }
  }

  /** The first block of the branch drops the rest of the old one. */
  lemma BranchBegins(required: nat, t: Tracked, k: nat, branch: seq<Block>)
    requires TrackInv(required, t) && !t.done && Known(t.item) && branch != [] && Linked(branch)
    requires k + |branch| <= required && FitsAt(t.item, branch[0], k)
    ensures Follows(required, Track(required, t, BlockNotified(branch[0])), t.item.confirmations[..k] + branch, k + 1)
  {
    var run := t.item.confirmations[..k] + branch;
    RootedCut(t.item, k);
    BranchIsRooted(t.item.(confirmations := t.item.confirmations[..k]), branch);
    BlockTakesItsPlace(required, t.item, branch[0], k);
    assert run[..k + 1] == t.item.confirmations[..k] + [branch[0]];
    ToldFollows(required, t, run, k + 1, branch[0]);
  }

  lemma BranchIsRooted(it: Item, branch: seq<Block>)
    requires Rooted(it) && Linked(branch) && branch != []
    requires branch[0].number == it.blockNumber + 1 + |it.confirmations|
    requires branch[0].parent == ParentAt(it, |it.confirmations|)
    ensures Rooted(it.(confirmations := it.confirmations + branch))
  {
    var cs := it.confirmations;
    var run := cs + branch;
    if cs != [] { LinkedNumbers(cs, |cs| - 1); }
    forall i, j | 0 <= i && j == i + 1 && j < |run| ensures Extends(run[i], run[j]) {
      if j < |cs| {
        assert Extends(cs[i], cs[j]);
      } else if i >= |cs| {
        assert Extends(branch[i - |cs|], branch[j - |cs|]);
      }
    }
  }

  lemma FirstEvent(required: nat, t: Tracked, b: Block, bs: seq<Block>)
    ensures TrackAll(required, t, BlockEvents([b] + bs)) ==
      TrackAll(required, Track(required, t, BlockNotified(b)), BlockEvents(bs))
  {
    var events := BlockEvents([b] + bs);
    assert events[0] == BlockNotified(b) && events[1..] == BlockEvents(bs);
  }

  /** The whole branch, from any state a run can be in. */
  lemma BranchIsHeld(required: nat, t: Tracked, k: nat, branch: seq<Block>, between: seq<Block>)
    requires TrackInv(required, t) && !t.done && Known(t.item) && branch != [] && Linked(branch)
    requires k + |branch| <= required && FitsAt(t.item, branch[0], k)
    requires Woven(between, branch[1..], HashesOf(t.item, t.item.confirmations[..k] + branch))
    ensures var run := t.item.confirmations[..k] + branch;
      Follows(required, TrackAll(required, t, BlockEvents([branch[0]] + between)), run, |run|)
  {
    var run := t.item.confirmations[..k] + branch;
    BranchBegins(required, t, k, branch);
    FirstEvent(required, t, branch[0], between);
    var s := Track(required, t, BlockNotified(branch[0]));
    TrackKeepsBlock(required, t, branch[0]);
    assert run[k + 1..] == branch[1..];
    BranchGoesOn(required, s, run, k + 1, between);
  }

  lemma FollowedToTheEnd(required: nat, u: Tracked, run: seq<Block>)
    requires Follows(required, u, run, |run|)
    ensures u.item.confirmations == run && StartsList(u.item.confirmations, u.list)
    ensures (u.done <==> |run| == required) && (u.item.confirmed <==> |run| == required)
    ensures u.done ==> SameHashes(u.list, u.item.confirmations)
  {
    assert run[..|run|] == run;
  }

  /** A fork is followed: whatever has happened to an item, when the blocks of a branch that
      leaves its run at place k come in order, with any blocks in between that build on
      nothing of it, the item ends up holding exactly that branch after its first k
      confirmations, its receiver knows it, and Confirmed is raised exactly when the branch
      makes up the required number. */
  lemma ForkIsFollowed(
      required: nat, it: Item, t0: Tracked, es: seq<Event>, k: nat, branch: seq<Block>, between: seq<Block>)
    requires Added(required, it, t0) && forall i :: 0 <= i < |es| ==> Allowed(es[i])
    requires var t := TrackAll(required, t0, es);
      && !t.done && Known(t.item) && branch != [] && Linked(branch)
      && k + |branch| <= required && FitsAt(t.item, branch[0], k)
      && Woven(between, branch[1..], HashesOf(t.item, t.item.confirmations[..k] + branch))
    ensures var t := TrackAll(required, t0, es);
      var u := TrackAll(required, t, BlockEvents([branch[0]] + between));
      && u.item.confirmations == t.item.confirmations[..k] + branch
      && StartsList(u.item.confirmations, u.list)
      && (u.done <==> k + |branch| == required) && (u.item.confirmed <==> k + |branch| == required)
      && (u.done ==> SameHashes(u.list, u.item.confirmations))
  {
    AddedIsTracked(required, it, t0);
    TrackAllKeepsInv(required, t0, es);
    var t := TrackAll(required, t0, es);
    BranchIsHeld(required, t, k, branch, between);
    FollowedToTheEnd(
      required, TrackAll(required, t, BlockEvents([branch[0]] + between)), t.item.confirmations[..k] + branch);
  }
}
