/** What a notification does to the confirmed block listener's view, case by case, and what
    becomes of the blocks a re-org replaces. */
module ConfirmedBlockReorgs {
  import opened Wrappers
  import opened Chain
  import opened ConfirmedBlocks

  /** The block gets past the tests every notification starts with: it is not too old and the
      dispatcher has not fallen behind. */
  predicate Considered(l: Listener, b: Block) {
    && !l.waiting && b.number >= l.fromBlock
    && (l.checkpoint.Some? ==> b.number > l.checkpoint.value)
    && |l.newHead| < 10
  }

  /** A number in a linked run occurs once, and its block cannot extend the run's end. */
  lemma HeldOnce(run: seq<Block>, i: nat, j: nat)
    requires Linked(run) && i < |run| && j < |run|
    ensures run[j].number == run[i].number + (j - i)
  {
    LinkedNumbers(run, i);
    LinkedNumbers(run, j);
  }

  /** A block of a held number replaces what is held from there on: it takes that place when
      it is the first or attaches to the block before, and is itself dropped otherwise. */
  lemma ConflictCutsBack(world: iset<Block>, l: Listener, b: Block, i: nat)
    requires ViewInv(world, l) && Considered(l, b) && i < |l.held| && l.held[i].number == b.number
    ensures Notified(l, b) == l.(
      newHead := [],
      held := if i == 0 || b.parent == l.held[i - 1].hash then l.held[..i] + [b] else l.held[..i])
  {
    var all := Ahead(l);
    assert all[i] == l.held[i];
    HeldOnce(all, i, |all| - 1);
    forall j | 0 <= j < i ensures l.held[j].number != b.number {
      assert all[j] == l.held[j];
      HeldOnce(all, i, j);
    }
    FirstSlot(l.held, b.number, i);
  }

  /** A considered block of a number that is not held joins the new heads if it is the child of
      the last block ahead, or if nothing is ahead and no checkpoint puts it out of turn; any
      other changes nothing. */
  lemma OthersJoinOrNothing(l: Listener, b: Block)
    requires Considered(l, b) && forall i :: 0 <= i < |l.held| ==> l.held[i].number != b.number
    ensures var all := l.held + l.newHead;
      var joins :=
        if all != [] then b.number == all[|all| - 1].number + 1 && b.parent == all[|all| - 1].hash
        else l.checkpoint.None? || b.number == l.checkpoint.value + 1;
      Notified(l, b) == if joins then l.(newHead := l.newHead + [b]) else l
  {
    var all := l.held + l.newHead;
    if all != [] { assert Head(l) == Some(all[|all| - 1]); }
  }

  /** An old block, or one that comes while ten are lined up, changes nothing. */
  lemma NotConsidered(l: Listener, b: Block)
    requires !l.waiting && !Considered(l, b)
    ensures Notified(l, b) == l
  {
  }

  /** A listener waiting for its first block starts from it. */
  lemma LatestStartsHere(b: Block)
    ensures Started(Latest, None).Some?
    ensures Notified(Started(Latest, None).value, b) == Listener(b.number, false, None, [], [b])
  {
  }

  /** The first block dispatched by a listener that was given a checkpoint is the one after it,
      or, when a higher number was asked for, that number. */
  lemma DispatchStartsAt(
      world: iset<Block>, required: nat, from: FromBlock, checkpoint: nat, l: Listener, actions: seq<Action>)
    requires Coherent(world) && Started(from, Some(checkpoint)) == Some(l)
    requires Legal(world, required, System(l, Parked, []), actions)
    ensures var out := Exec(world, required, System(l, Parked, []), actions).out;
      out != [] ==>
        out[0].block.number == if from.At? && from.number > checkpoint then from.number else checkpoint + 1
  {
    assert Initial(System(l, Parked, []));
    NoGapNoRepeat(world, required, System(l, Parked, []), actions);
  }

  /** Dispatching leaves exactly the required number held, or fewer if there were fewer; the
      others go out in order, each with all that was held after it, and the checkpoint is the
      last of them. */
  lemma DispatchLeavesRequired(required: nat, l: Listener)
    ensures var n := Ripe(required, l);
      var m, out := AdvancedBy(l, n), Emitted(l, n);
      && n == (if |l.held| > required then |l.held| - required else 0) && |out| == n
      && (forall i :: 0 <= i < n ==> out[i] == Dispatch(l.held[i], l.held[i + 1..]))
      && m == l.(held := l.held[n..], checkpoint := if n == 0 then l.checkpoint else Some(l.held[n - 1].number))
  {
  }

  // ----- A replaced block is gone until it is read again -----

  /** The block is neither ahead nor among what was emitted from the n-th dispatch on. */
  ghost predicate Gone(s: System, n: nat, x: Block) {
    && x !in Ahead(s.l)
    && forall k :: n <= k < |s.out| ==> s.out[k].block != x && x !in s.out[k].successors
  }

  /** What a step leaves ahead was ahead before, or came with the step. */
  lemma ReorgedAddsOnly(l: Listener, b: Block, x: Block)
    requires x in Ahead(Reorged(l, b))
    ensures x in Ahead(l) || x == b
  {
    var m := Reorged(l, b);
    var i :| 0 <= i < |Ahead(m)| && Ahead(m)[i] == x;
    if m == l || i < SlotOf(l.held, b.number) { assert x == Ahead(l)[i]; }
  }

  lemma NotifiedAddsOnly(l: Listener, b: Block, x: Block)
    requires x in Ahead(Notified(l, b))
    ensures x in Ahead(l) || x == b
  {
    var m := Notified(l, b);
    var was := if l.waiting then l.(fromBlock := b.number, waiting := false) else l;
    if m.newHead == l.newHead + [b] {
      assert Ahead(m) == Ahead(l) + [b];
    } else if Ahead(m) != Ahead(l) {
      assert m == Reorged(was, b);
      ReorgedAddsOnly(was, b, x);
    }
  }

  lemma AttachedAddsOnly(l: Listener, b: Block, x: Block)
    requires x in Ahead(Attached(l, b))
    ensures x in Ahead(l) || x == b
  {
    var m := Attached(l, b);
    var i :| 0 <= i < |Ahead(m)| && Ahead(m)[i] == x;
    if l.newHead != [] {
      assert Ahead(m) == Ahead(l);
    } else if i < |l.held| {
      assert x == Ahead(l)[i];
    }
  }

  lemma DispatchKeepsGone(world: iset<Block>, required: nat, s: System, n: nat, x: Block)
    requires Enabled(world, s, DispatchNext) && Gone(s, n, x)
    ensures Gone(Step(world, required, s, DispatchNext), n, x)
  {
    var t := Step(world, required, s, DispatchNext);
    if |s.l.held| > required {
      assert Ahead(t.l) == Ahead(s.l)[1..];
      forall y | y in s.l.held ensures y in Ahead(s.l) {
      }
      assert s.l.held[0] in s.l.held;
      forall y | y in s.l.held[1..] ensures y in s.l.held {
      }
    }
  }

  lemma StepKeepsGone(world: iset<Block>, required: nat, s: System, a: Action, n: nat, x: Block)
    requires Enabled(world, s, a) && Gone(s, n, x) && a != Notify(x) && a != FetchHit(x)
    ensures Gone(Step(world, required, s, a), n, x)
  {
    var t := Step(world, required, s, a);
    match a
    case Notify(b) => if x in Ahead(t.l) { NotifiedAddsOnly(s.l, b, x); }
    case FetchHit(b) => if x in Ahead(t.l) { AttachedAddsOnly(s.l, b, x); }
    case TryPop => if s.l.newHead != [] { assert Ahead(Popped(s.l)) == Ahead(s.l); }
    case DispatchNext => DispatchKeepsGone(world, required, s, n, x);
    case _ =>
  }

  lemma {:induction false} ExecKeepsGone(
      world: iset<Block>, required: nat, s: System, actions: seq<Action>, n: nat, x: Block)
    requires Legal(world, required, s, actions) && Gone(s, n, x) && Notify(x) !in actions && FetchHit(x) !in actions
    ensures Gone(Exec(world, required, s, actions), n, x)
    decreases |actions|
  {
    if actions != [] {
      StepKeepsGone(world, required, s, actions[0], n, x);
      ExecKeepsGone(world, required, Step(world, required, s, actions[0]), actions[1..], n, x);
    }
  }

  /** Right after the conflicting notification. */
  lemma ConflictDrops(world: iset<Block>, l: Listener, b: Block, i: nat, j: nat)
    requires ViewInv(world, l) && Considered(l, b) && i < |l.held| && l.held[i].number == b.number
    requires i <= j < |l.held + l.newHead| && (l.held + l.newHead)[j] != b
    ensures (l.held + l.newHead)[j] !in Ahead(Notified(l, b))
  {
    var all, m := Ahead(l), Notified(l, b);
    ConflictCutsBack(world, l, b, i);
    forall k | 0 <= k < |Ahead(m)| && k < i ensures Ahead(m)[k] != all[j] {
      assert Ahead(m)[k] == all[k];
      HeldOnce(all, k, j);
    }
  }

  /** Re-org: in every run, once a block of a held number is notified, no other block that was
      held or lined up from that number on is dispatched, or counted as a confirmation of a
      dispatched one, unless it is notified or read again. */
  lemma ReplacedIsNotDispatched(
      world: iset<Block>, required: nat, s0: System, before: seq<Action>, b: Block, i: nat, j: nat,
      after: seq<Action>)
    requires Coherent(world) && Initial(s0) && Legal(world, required, s0, before) && b in world
    requires var l := Exec(world, required, s0, before).l;
      && Considered(l, b) && i < |l.held| && l.held[i].number == b.number
      && i <= j < |l.held + l.newHead| && (l.held + l.newHead)[j] != b
    requires var s := Exec(world, required, s0, before);
      var x := (s.l.held + s.l.newHead)[j];
      Legal(world, required, Step(world, required, s, Notify(b)), after) && Notify(x) !in after && FetchHit(x) !in after
    ensures var s := Exec(world, required, s0, before);
      var x := (s.l.held + s.l.newHead)[j];
      var out := Exec(world, required, Step(world, required, s, Notify(b)), after).out;
      forall k :: |s.out| <= k < |out| ==> out[k].block != x && x !in out[k].successors
  {
    var s := Exec(world, required, s0, before);
    InitialInv(world, required, s0);
    ExecKeepsInv(world, required, s0, before);
    ConflictDrops(world, s.l, b, i, j);
    ExecKeepsGone(world, required, Step(world, required, s, Notify(b)), after, |s.out|, (s.l.held + s.l.newHead)[j]);
  }

  // ----- The new branch takes the old one's place -----

  function NotifiedAll(l: Listener, bs: seq<Block>): Listener {
    if bs == [] then l else Notified(NotifiedAll(l, bs[..|bs| - 1]), bs[|bs| - 1])
  }

  /** Notifying a branch in order that forks off in the held run leaves exactly that branch
      after the fork, as far as eleven blocks: the first slotted in, the rest lined up. */
  lemma {:induction false} BranchTakesOver(world: iset<Block>, l: Listener, i: nat, branch: seq<Block>)
    requires ViewInv(world, l) && branch != [] && |branch| <= 11 && Linked(branch)
    requires Considered(l, branch[0]) && i < |l.held| && l.held[i].number == branch[0].number
    requires i > 0 ==> branch[0].parent == l.held[i - 1].hash
    ensures NotifiedAll(l, branch) == l.(held := l.held[..i] + branch[..1], newHead := branch[1..])
    decreases |branch|
  {
    var k := |branch| - 1;
    if k == 0 {
      ConflictCutsBack(world, l, branch[0], i);
      assert branch[..k] == [] && branch[..1] == [branch[0]];
    } else {
      LinkedSlice(branch, 0, k);
      BranchTakesOver(world, l, i, branch[..k]);
      var m := NotifiedAll(l, branch[..k]);
      assert branch[..k][..1] == branch[..1] && branch[..k][1..] == branch[1..k];
      JoinsBranch(l, m, i, branch);
    }
  }

  /** The next block of the branch is the child of the last one ahead. */
  lemma JoinsBranch(l: Listener, m: Listener, i: nat, branch: seq<Block>)
    requires 1 < |branch| <= 11 && Linked(branch) && i < |l.held| && Considered(l, branch[0])
    requires m == l.(held := l.held[..i] + branch[..1], newHead := branch[1..|branch| - 1])
    ensures Notified(m, branch[|branch| - 1]) == m.(newHead := branch[1..])
  {
    var k := |branch| - 1;
    var b, all := branch[k], m.held + m.newHead;
    LinkedNumbers(branch, k);
    assert Extends(branch[k - 1], b);
    assert all[|all| - 1] == branch[k - 1];
    assert Head(m) == Some(branch[k - 1]);
    assert branch[1..k] + [b] == branch[1..];
  }
}
