/** The confirmed block listener: a notifier and a dispatcher share one lock-protected
    view of the head of the chain. The pure functions say what each locked region does
    to that view; the class performs them in place; the step machine interleaves them. */
module ConfirmedBlocks {
  import opened Wrappers
  import opened Chain

  const MAX_NEW_HEAD := 10

  datatype FromBlock = Latest | Earliest | At(number: nat) | Malformed

  datatype Listener = Listener(
    fromBlock: nat,
    waiting: bool,
    checkpoint: Option<nat>,
    held: seq<Block>,
    newHead: seq<Block>)

  // ----- What each locked region does to the view -----

  /** The view a listener starts with; None when the start is refused. */
  function Started(from: FromBlock, checkpoint: Option<nat>): Option<Listener> {
    match from
    case Malformed => None
    case Earliest => Some(Listener(0, false, checkpoint, [], []))
    case At(n) => Some(Listener(n, false, checkpoint, [], []))
    case Latest =>
      match checkpoint
      case Some(c) => Some(Listener(c, false, checkpoint, [], []))
      case None => Some(Listener(0, true, None, [], []))
  }

  /** The block the next one must build on, if there is one. */
  function Head(l: Listener): Option<Block> {
    if l.newHead != [] then Some(l.newHead[|l.newHead| - 1])
    else if l.held != [] then Some(l.held[|l.held| - 1])
    else None
  }

  /** Where in a run a block of this number first sits; |run| when nowhere. */
  function SlotOf(run: seq<Block>, number: nat): (slot: nat)
    ensures slot <= |run|
    ensures slot < |run| ==> run[slot].number == number
    ensures forall i :: 0 <= i < slot ==> run[i].number != number
  {
    if run == [] || run[0].number == number then 0 else 1 + SlotOf(run[1..], number)
  }

  /** A block that does not extend the head cuts the view back to where it conflicts. */
  function Reorged(l: Listener, b: Block): Listener {
    var slot := SlotOf(l.held, b.number);
    if slot == |l.held| then l
    else if slot == 0 || b.parent == l.held[slot - 1].hash
    then l.(held := l.held[..slot] + [b], newHead := [])
    else l.(held := l.held[..slot], newHead := [])
  }

  function Notified(l: Listener, b: Block): Listener {
    if !l.waiting && b.number < l.fromBlock then l
    else
      var m := if l.waiting then l.(fromBlock := b.number, waiting := false) else l;
      if m.checkpoint.Some? && b.number <= m.checkpoint.value then m
      else if |m.newHead| >= MAX_NEW_HEAD then m
      else match Head(m)
        case Some(head) =>
          if Extends(head, b) then m.(newHead := m.newHead + [b]) else Reorged(m, b)
        case None =>
          if m.checkpoint.None? || b.number == m.checkpoint.value + 1
          then m.(newHead := m.newHead + [b]) else m
  }

  /** The number the listener resumes from when it holds nothing. */
  function Resume(l: Listener): nat {
    if l.checkpoint.Some? && l.checkpoint.value >= l.fromBlock
    then l.checkpoint.value + 1 else l.fromBlock
  }

  function NextNumber(l: Listener): nat {
    if l.held != [] then l.held[|l.held| - 1].number + 1 else Resume(l)
  }

  function Popped(l: Listener): Listener
    requires l.newHead != []
  {
    l.(held := l.held + [l.newHead[0]], newHead := l.newHead[1..])
  }

  /** What re-validating a fetched block under the lock leaves behind. */
  function Attached(l: Listener, b: Block): Listener {
    if l.newHead != [] then Popped(l)
    else if l.held != [] && l.held[|l.held| - 1].hash != b.parent
    then l.(held := l.held[..|l.held| - 1])
    else l.(held := l.held + [b])
  }

  /** The first held block leaves and becomes the checkpoint. */
  function Advanced(l: Listener): Listener
    requires l.held != []
  {
    l.(held := l.held[1..], checkpoint := Some(l.held[0].number))
  }

  // ----- The two goroutines, interleaved one locked region at a time -----

  /** Where the dispatcher goroutine is between locked regions. */
  datatype Phase =
    | Parked
    | Reading(fromNotification: bool)
    | Fetching(number: nat)
    | Dispatching(fromNotification: bool)

  /** One emitted block, with the blocks held on top of it at that moment. */
  datatype Dispatch = Dispatch(block: Block, successors: seq<Block>)

  datatype System = System(l: Listener, phase: Phase, out: seq<Dispatch>)

  datatype Action =
    | Notify(block: Block)
    | Wake
    | TryPop
    | FetchMiss
    | FetchFail
    | FetchHit(block: Block)
    | DispatchNext

  ghost predicate Enabled(world: iset<Block>, s: System, a: Action) {
    match a
    case Notify(b) => b in world
    case Wake => s.phase.Parked? && !s.l.waiting
    case TryPop => s.phase.Reading?
    case FetchMiss => s.phase.Fetching?
    case FetchFail => s.phase.Fetching?
    case FetchHit(b) => s.phase.Fetching? && b in world && b.number == s.phase.number
    case DispatchNext => s.phase.Dispatching?
  }

  ghost function Step(world: iset<Block>, required: nat, s: System, a: Action): System
    requires Enabled(world, s, a)
  {
    match a
    case Notify(b) => s.(l := Notified(s.l, b))
    case Wake => s.(phase := Reading(false))
    case TryPop =>
      if s.l.newHead != [] then s.(l := Popped(s.l), phase := Dispatching(true))
      else if s.phase.fromNotification then s.(phase := Parked)
      else s.(phase := Fetching(NextNumber(s.l)))
    case FetchMiss => s.(phase := Parked)
    case FetchFail => s.(phase := Reading(false))
    case FetchHit(b) =>
      s.(l := Attached(s.l, b), phase := Dispatching(s.l.newHead != []))
    case DispatchNext =>
      if |s.l.held| > required
      then s.(l := Advanced(s.l), out := s.out + [Dispatch(s.l.held[0], s.l.held[1..])])
      else s.(phase := Reading(s.phase.fromNotification))
  }

  ghost predicate Legal(world: iset<Block>, required: nat, s: System, actions: seq<Action>)
    decreases |actions|
  {
    actions == [] ||
    (Enabled(world, s, actions[0]) &&
     Legal(world, required, Step(world, required, s, actions[0]), actions[1..]))
  }

  ghost function Exec(world: iset<Block>, required: nat, s: System, actions: seq<Action>): System
    requires Legal(world, required, s, actions)
    decreases |actions|
  {
    if actions == [] then s
    else Exec(world, required, Step(world, required, s, actions[0]), actions[1..])
  }

  ghost predicate Initial(s: System) {
    (exists from, cp :: Started(from, cp) == Some(s.l)) && s.phase == Parked && s.out == []
  }

  // ----- The inductive invariant -----

  /** Everything ahead of the checkpoint, in order. */
  function Ahead(l: Listener): seq<Block> {
    l.held + l.newHead
  }

  ghost predicate ViewInv(world: iset<Block>, l: Listener) {
    && Linked(Ahead(l))
    && (forall i :: 0 <= i < |Ahead(l)| ==> Ahead(l)[i] in world)
    && |l.newHead| <= MAX_NEW_HEAD
    && (Ahead(l) != [] && l.checkpoint.Some? ==> Ahead(l)[0].number == Resume(l))
    && (Ahead(l) != [] ==> Ahead(l)[0].number >= l.fromBlock)
    && (l.waiting ==> Ahead(l) == [] && l.checkpoint.None?)
  }

  predicate PhaseInv(required: nat, l: Listener, phase: Phase) {
    && |l.held| <= (if phase.Dispatching? then required + 1 else required)
    && (phase.Fetching? ==> l.held == [] ==> phase.number == Resume(l))
    && (!phase.Parked? ==> !l.waiting)
  }

  /** Dispatched numbers are consecutive and each block had its successors held. */
  ghost predicate OutShape(required: nat, out: seq<Dispatch>) {
    && (forall i, j :: 0 <= i && j == i + 1 && j < |out| ==>
          out[j].block.number == out[i].block.number + 1)
    && (forall i :: 0 <= i < |out| ==>
          |out[i].successors| >= required && Linked([out[i].block] + out[i].successors))
  }

  predicate TipInv(l: Listener, out: seq<Dispatch>) {
    out != [] ==>
      l.checkpoint == Some(out[|out| - 1].block.number) && l.checkpoint.value >= l.fromBlock
  }

  ghost predicate Inv(world: iset<Block>, required: nat, s: System) {
    ViewInv(world, s.l) && PhaseInv(required, s.l, s.phase)
    && OutShape(required, s.out) && TipInv(s.l, s.out)
  }

  /** A conflicting block keeps the view one linked run, never grows what is held, and
      never empties a non-empty hold. */
  lemma ReorgedKeepsChain(world: iset<Block>, l: Listener, b: Block)
    requires ViewInv(world, l) && b in world && !l.waiting && b.number >= l.fromBlock
    requires l.checkpoint.Some? ==> b.number > l.checkpoint.value
    ensures var m := Reorged(l, b);
      && ViewInv(world, m)
      && |m.held| <= |l.held|
      && (m.held == [] <==> l.held == [])
      && m.(held := l.held, newHead := l.newHead) == l
  {
    var slot := SlotOf(l.held, b.number);
    if slot < |l.held| {
      if slot > 0 { CutKeepsChain(world, l, slot); }
      if slot == 0 || b.parent == l.held[slot - 1].hash { SlottedKeepsChain(world, l, slot, b); }
    }
  }

  /** The view cut back to its first blocks. */
  lemma CutKeepsChain(world: iset<Block>, l: Listener, slot: nat)
    requires ViewInv(world, l) && 0 < slot <= |l.held|
    ensures ViewInv(world, l.(held := l.held[..slot], newHead := []))
  {
    var m := l.(held := l.held[..slot], newHead := []);
    assert Ahead(m) == Ahead(l)[..slot];
    LinkedSlice(Ahead(l), 0, slot);
    forall i | 0 <= i < |Ahead(m)| ensures Ahead(m)[i] in world {
      assert Ahead(m)[i] == Ahead(l)[i];
    }
  }

  /** The view cut back to where the block goes, and the block. */
  lemma SlottedKeepsChain(world: iset<Block>, l: Listener, slot: nat, b: Block)
    requires ViewInv(world, l) && slot < |l.held| && l.held[slot].number == b.number
    requires b in world && !l.waiting && b.number >= l.fromBlock
    requires slot > 0 ==> b.parent == l.held[slot - 1].hash
    ensures ViewInv(world, l.(held := l.held[..slot] + [b], newHead := []))
  {
    var m := l.(held := l.held[..slot] + [b], newHead := []);
    var cut := Ahead(l)[..slot];
    assert Ahead(l)[slot] == l.held[slot];
    assert Ahead(m) == cut + [b];
    LinkedSlice(Ahead(l), 0, slot);
    if slot > 0 { assert Extends(Ahead(l)[slot - 1], Ahead(l)[slot]); }
    LinkedAppend(cut, b);
    forall i | 0 <= i < |cut| ensures cut[i] in world {
      assert cut[i] == Ahead(l)[i];
    }
  }

  lemma GrownKeepsChain(world: iset<Block>, l: Listener, b: Block)
    requires ViewInv(world, l) && b in world && |l.newHead| < MAX_NEW_HEAD && !l.waiting && b.number >= l.fromBlock
    requires if Ahead(l) != [] then Extends(Ahead(l)[|Ahead(l)| - 1], b)
             else l.checkpoint.Some? ==> b.number == Resume(l)
    ensures ViewInv(world, l.(newHead := l.newHead + [b]))
  {
    var grown := l.(newHead := l.newHead + [b]);
    assert Ahead(grown) == Ahead(l) + [b];
    LinkedAppend(Ahead(l), b);
  }

  lemma NotifiedKeepsChain(world: iset<Block>, l: Listener, b: Block)
    requires ViewInv(world, l) && b in world
    ensures var m := Notified(l, b);
      && ViewInv(world, m)
      && |m.held| <= |l.held|
      && (m.held == [] <==> l.held == [])
      && m.checkpoint == l.checkpoint
      && (!l.waiting ==> !m.waiting && m.fromBlock == l.fromBlock)
  {
    if l.waiting || b.number >= l.fromBlock {
      var m := if l.waiting then l.(fromBlock := b.number, waiting := false) else l;
      assert Ahead(m) == Ahead(l);
      if !(m.checkpoint.Some? && b.number <= m.checkpoint.value) && |m.newHead| < MAX_NEW_HEAD {
        match Head(m)
        case Some(head) =>
          assert head == Ahead(m)[|Ahead(m)| - 1];
          if Extends(head, b) { GrownKeepsChain(world, m, b); } else { ReorgedKeepsChain(world, m, b); }
        case None =>
          if m.checkpoint.None? || b.number == m.checkpoint.value + 1 { GrownKeepsChain(world, m, b); }
      }
    }
  }

  lemma PoppedKeepsChain(world: iset<Block>, l: Listener)
    requires ViewInv(world, l) && l.newHead != []
    ensures ViewInv(world, Popped(l)) && Ahead(Popped(l)) == Ahead(l)
  {
    assert Ahead(Popped(l)) == Ahead(l);
  }

  lemma AttachedKeepsChain(world: iset<Block>, l: Listener, b: Block)
    requires Coherent(world) && ViewInv(world, l) && b in world && !l.waiting
    requires l.held == [] ==> b.number == Resume(l)
    ensures ViewInv(world, Attached(l, b)) && |Attached(l, b).held| <= |l.held| + 1
  {
    var m := Attached(l, b);
    if l.newHead != [] {
      PoppedKeepsChain(world, l);
    } else {
      assert Ahead(l) == l.held && Ahead(m) == m.held;
      if m.held == l.held + [b] {
        if l.held != [] { assert Agree(l.held[|l.held| - 1], b); }
        LinkedAppend(l.held, b);
      } else {
        LinkedSlice(l.held, 0, |l.held| - 1);
      }
    }
  }

  lemma AdvancedKeepsChain(world: iset<Block>, required: nat, l: Listener, out: seq<Dispatch>)
    requires ViewInv(world, l) && OutShape(required, out) && TipInv(l, out) && |l.held| > required
    ensures ViewInv(world, Advanced(l))
    ensures var grown := out + [Dispatch(l.held[0], l.held[1..])];
      OutShape(required, grown) && TipInv(Advanced(l), grown)
  {
    var m := Advanced(l);
    assert Ahead(m) == Ahead(l)[1..];
    LinkedSlice(Ahead(l), 1, |Ahead(l)|);
    assert l.held[0] == Ahead(l)[0];
    if |Ahead(l)| > 1 { assert Extends(Ahead(l)[0], Ahead(l)[1]); }
    assert [l.held[0]] + l.held[1..] == Ahead(l)[0..|l.held|];
    LinkedSlice(Ahead(l), 0, |l.held|);
  }

  lemma NotifyKeepsInv(world: iset<Block>, required: nat, s: System, b: Block)
    requires Inv(world, required, s) && b in world
    ensures Inv(world, required, Step(world, required, s, Notify(b)))
  {
    NotifiedKeepsChain(world, s.l, b);
  }

  lemma FetchHitKeepsInv(world: iset<Block>, required: nat, s: System, b: Block)
    requires Coherent(world) && Inv(world, required, s) && Enabled(world, s, FetchHit(b))
    ensures Inv(world, required, Step(world, required, s, FetchHit(b)))
  {
    AttachedKeepsChain(world, s.l, b);
    AttachedKeepsPosition(s.l, b);
  }

  lemma AttachedKeepsPosition(l: Listener, b: Block)
    ensures var m := Attached(l, b);
      m.checkpoint == l.checkpoint && m.fromBlock == l.fromBlock && m.waiting == l.waiting
  {
  }

  lemma TryPopKeepsInv(world: iset<Block>, required: nat, s: System)
    requires Inv(world, required, s) && s.phase.Reading?
    ensures Inv(world, required, Step(world, required, s, TryPop))
  {
    if s.l.newHead != [] { PoppedKeepsChain(world, s.l); }
  }

  lemma DispatchKeepsInv(world: iset<Block>, required: nat, s: System)
    requires Inv(world, required, s) && s.phase.Dispatching?
    ensures Inv(world, required, Step(world, required, s, DispatchNext))
  {
    if |s.l.held| > required { AdvancedKeepsChain(world, required, s.l, s.out); }
  }

  lemma StepKeepsInv(world: iset<Block>, required: nat, s: System, a: Action)
    requires Coherent(world) && Inv(world, required, s) && Enabled(world, s, a)
    ensures Inv(world, required, Step(world, required, s, a))
  {
    match a
    case Notify(b) => NotifyKeepsInv(world, required, s, b);
    case TryPop => TryPopKeepsInv(world, required, s);
    case FetchHit(b) => FetchHitKeepsInv(world, required, s, b);
    case DispatchNext => DispatchKeepsInv(world, required, s);
    case Wake =>
    case FetchMiss =>
    case FetchFail =>
  }

  // ----- Theorems over every run -----

  lemma {:induction false} ExecKeepsInv(world: iset<Block>, required: nat, s: System, actions: seq<Action>)
    requires Coherent(world) && Inv(world, required, s) && Legal(world, required, s, actions)
    ensures Inv(world, required, Exec(world, required, s, actions))
    decreases |actions|
  {
    if actions != [] {
      StepKeepsInv(world, required, s, actions[0]);
      ExecKeepsInv(world, required, Step(world, required, s, actions[0]), actions[1..]);
    }
  }

  lemma InitialInv(world: iset<Block>, required: nat, s: System)
    requires Initial(s)
    ensures Inv(world, required, s) && Anchored(s.l, s)
  {
  }

  /** One chain: whatever the interleaving and the re-orgs, everything ahead of the
      checkpoint is one parent-linked run of bounded length, and every block was
      dispatched under at least the required number of linked successors. */
  lemma OneChain(world: iset<Block>, required: nat, s0: System, actions: seq<Action>)
    requires Coherent(world) && Initial(s0) && Legal(world, required, s0, actions)
    ensures var s := Exec(world, required, s0, actions);
      && Linked(s.l.held + s.l.newHead)
      && |s.l.newHead| <= 10
      && |s.l.held| <= required + 1
      && (!s.phase.Dispatching? ==> |s.l.held| <= required)
      && (forall i :: 0 <= i < |s.out| ==>
            |s.out[i].successors| >= required && Linked([s.out[i].block] + s.out[i].successors))
  {
    InitialInv(world, required, s0);
    ExecKeepsInv(world, required, s0, actions);
  }

  /** What a run keeps of the position it started from. */
  ghost predicate Anchored(l0: Listener, s: System) {
    l0.checkpoint.Some? ==>
      && s.l.fromBlock == l0.fromBlock
      && !s.l.waiting
      && (s.out == [] ==> s.l.checkpoint == l0.checkpoint)
      && (s.out != [] ==> s.out[0].block.number == Resume(l0))
  }

  lemma StepKeepsAnchor(world: iset<Block>, required: nat, l0: Listener, s: System, a: Action)
    requires Inv(world, required, s) && Enabled(world, s, a) && Anchored(l0, s)
    ensures Anchored(l0, Step(world, required, s, a))
  {
    match a
    case Notify(b) => NotifiedKeepsChain(world, s.l, b);
    case DispatchNext =>
      if |s.l.held| > required { assert Ahead(s.l)[0] == s.l.held[0]; }
    case _ =>
  }

  lemma {:induction false} ExecKeepsAnchor(
      world: iset<Block>, required: nat, l0: Listener, s: System, actions: seq<Action>)
    requires Coherent(world) && Inv(world, required, s) && Anchored(l0, s)
    requires Legal(world, required, s, actions)
    ensures Anchored(l0, Exec(world, required, s, actions))
    decreases |actions|
  {
    if actions != [] {
      StepKeepsInv(world, required, s, actions[0]);
      StepKeepsAnchor(world, required, l0, s, actions[0]);
      ExecKeepsAnchor(world, required, l0, Step(world, required, s, actions[0]), actions[1..]);
    }
  }

  /** No gap and no repeat: in every run the dispatched numbers count up by one, the last
      of them is the rolling checkpoint, and with a checkpoint set both the first block
      dispatched and the first block held are the next one wanted. */
  lemma NoGapNoRepeat(world: iset<Block>, required: nat, s0: System, actions: seq<Action>)
    requires Coherent(world) && Initial(s0) && Legal(world, required, s0, actions)
    ensures var s := Exec(world, required, s0, actions);
      && (forall i :: 0 <= i < |s.out| ==> s.out[i].block.number == s.out[0].block.number + i)
      && (s.out != [] ==> s.l.checkpoint == Some(s.out[|s.out| - 1].block.number))
      && (s.l.checkpoint.Some? && s.l.held != [] ==>
            s.l.held[0].number == Later(s.l.fromBlock, s.l.checkpoint.value + 1))
      && (s0.l.checkpoint.Some? && s.out != [] ==>
            s.out[0].block.number == Later(s0.l.fromBlock, s0.l.checkpoint.value + 1))
  {
    RunInOrder(world, required, s0, actions);
  }

  /** What NoGapNoRepeat says of a state reached from l0. */
  ghost predicate InOrderSince(l0: Listener, s: System) {
    && (forall i :: 0 <= i < |s.out| ==> s.out[i].block.number == s.out[0].block.number + i)
    && (s.out != [] ==> s.l.checkpoint == Some(s.out[|s.out| - 1].block.number))
    && (s.l.checkpoint.Some? && s.l.held != [] ==>
          s.l.held[0].number == Later(s.l.fromBlock, s.l.checkpoint.value + 1))
    && (l0.checkpoint.Some? && s.out != [] ==>
          s.out[0].block.number == Later(l0.fromBlock, l0.checkpoint.value + 1))
  }

  lemma RunInOrder(world: iset<Block>, required: nat, s0: System, actions: seq<Action>)
    requires Coherent(world) && Initial(s0) && Legal(world, required, s0, actions)
    ensures InOrderSince(s0.l, Exec(world, required, s0, actions))
  {
    InitialInv(world, required, s0);
    ExecKeepsInv(world, required, s0, actions);
    ExecKeepsAnchor(world, required, s0.l, s0, actions);
    InvGivesOrder(world, required, s0.l, Exec(world, required, s0, actions));
  }

  lemma InvGivesOrder(world: iset<Block>, required: nat, l0: Listener, s: System)
    requires Inv(world, required, s) && Anchored(l0, s)
    ensures InOrderSince(l0, s)
  {
    FirstHeld(world, s.l);
    FirstOut(l0, s);
    forall i | 0 <= i < |s.out| ensures s.out[i].block.number == s.out[0].block.number + i {
      OutNumbers(required, s.out, i);
    }
  }

  function Later(a: nat, b: nat): (n: nat)
    ensures n >= a && n >= b && (n == a || n == b)
  {
    if a > b then a else b
  }

  lemma FirstHeld(world: iset<Block>, l: Listener)
    requires ViewInv(world, l)
    ensures l.checkpoint.Some? && l.held != [] ==> l.held[0].number == Later(l.fromBlock, l.checkpoint.value + 1)
  {
    if l.held != [] { assert Ahead(l)[0] == l.held[0]; }
  }

  lemma FirstOut(l0: Listener, s: System)
    requires Anchored(l0, s)
    ensures l0.checkpoint.Some? && s.out != [] ==>
      s.out[0].block.number == Later(l0.fromBlock, l0.checkpoint.value + 1)
  {
  }

  lemma {:induction false} OutNumbers(required: nat, out: seq<Dispatch>, i: nat)
    requires OutShape(required, out) && i < |out|
    ensures out[i].block.number == out[0].block.number + i
  {
    if i > 0 { OutNumbers(required, out, i - 1); }
  }

  lemma {:induction false} ExecAppend(world: iset<Block>, required: nat, s: System, actions: seq<Action>, a: Action)
    requires Legal(world, required, s, actions) && Enabled(world, Exec(world, required, s, actions), a)
    ensures Legal(world, required, s, actions + [a])
    ensures Exec(world, required, s, actions + [a]) == Step(world, required, Exec(world, required, s, actions), a)
    decreases |actions|
  {
    if actions == [] {
      assert ([] + [a])[1..] == [];
    } else {
      ExecAppend(world, required, Step(world, required, s, actions[0]), actions[1..], a);
      assert (actions + [a])[1..] == actions[1..] + [a];
    }
  }

  /** A listener without a checkpoint that has taken in the first k blocks of a run. */
  function Gathered(from: nat, run: seq<Block>, k: nat): System
    requires k <= |run|
  {
    System(Listener(from, false, None, run[..k], []), Reading(k > 0), [])
  }

  /** The next block of the run is notified and popped. */
  lemma GathersOne(world: iset<Block>, required: nat, from: nat, run: seq<Block>, k: nat)
    requires Linked(run) && k < |run| && run[0].number >= from && run[k] in world
    ensures var s := Gathered(from, run, k);
      var t := Step(world, required, s, Notify(run[k]));
      && t.phase.Reading?
      && Step(world, required, t, TryPop)
         == System(Listener(from, false, None, run[..k + 1], []), Dispatching(true), [])
  {
    var s := Gathered(from, run, k);
    LinkedNumbers(run, k);
    if k > 0 {
      assert Extends(run[k - 1], run[k]);
      assert Head(s.l) == Some(run[k - 1]);
    }
    var t := Step(world, required, s, Notify(run[k]));
    assert t.l.newHead == [run[k]];
    assert run[..k] + [run[k]] == run[..k + 1];
  }

  lemma {:induction false} Gathers(world: iset<Block>, required: nat, from: nat, run: seq<Block>, k: nat)
    returns (actions: seq<Action>)
    requires Linked(run) && run != [] && run[0].number >= from && forall i :: 0 <= i < |run| ==> run[i] in world
    requires k <= required && k < |run|
    ensures var s0 := System(Listener(from, false, None, [], []), Parked, []);
      Legal(world, required, s0, actions) && Exec(world, required, s0, actions) == Gathered(from, run, k)
  {
    var s0 := System(Listener(from, false, None, [], []), Parked, []);
    if k == 0 {
      ExecAppend(world, required, s0, [], Wake);
      actions := [] + [Wake];
      assert run[..0] == [];
    } else {
      actions := Gathers(world, required, from, run, k - 1);
      GathersOne(world, required, from, run, k - 1);
      ExecAppend(world, required, s0, actions, Notify(run[k - 1]));
      actions := actions + [Notify(run[k - 1])];
      ExecAppend(world, required, s0, actions, TryPop);
      actions := actions + [TryPop];
      ExecAppend(world, required, s0, actions, DispatchNext);
      actions := actions + [DispatchNext];
    }
  }

  /** NoGapNoRepeat fixes the first block dispatched only when there is a checkpoint. Without
      one, any notified block at or above fromBlock can be it, however far above, as soon as
      the required number of linked blocks has been notified after it. */
  lemma FirstBlockIsFree(world: iset<Block>, required: nat, from: nat, run: seq<Block>) returns (actions: seq<Action>)
    requires Linked(run) && |run| == required + 1 && run[0].number >= from
    requires forall i :: 0 <= i < |run| ==> run[i] in world
    ensures var s0 := System(Listener(from, false, None, [], []), Parked, []);
      && Initial(s0) && Legal(world, required, s0, actions)
      && Exec(world, required, s0, actions).out == [Dispatch(run[0], run[1..])]
  {
    var s0 := System(Listener(from, false, None, [], []), Parked, []);
    assert Started(At(from), None) == Some(s0.l);
    actions := Gathers(world, required, from, run, required);
    GathersOne(world, required, from, run, required);
    ExecAppend(world, required, s0, actions, Notify(run[required]));
    actions := actions + [Notify(run[required])];
    ExecAppend(world, required, s0, actions, TryPop);
    actions := actions + [TryPop];
    assert run[..required + 1] == run;
    ExecAppend(world, required, s0, actions, DispatchNext);
    actions := actions + [DispatchNext];
  }

  // ----- Re-org healing -----

  predicate OnChain(chain: seq<Block>, b: Block) {
    b.number < |chain| && chain[b.number] == b
  }

  /** How many blocks at the tail of a run are not on the chain. */
  function Orphans(chain: seq<Block>, run: seq<Block>): (n: nat)
    ensures n <= |run|
  {
    if run == [] || OnChain(chain, run[|run| - 1]) then 0
    else 1 + Orphans(chain, run[..|run| - 1])
  }

  ghost predicate Settled(world: iset<Block>, chain: seq<Block>) {
    Coherent(world) && Canonical(chain) && forall i :: 0 <= i < |chain| ==> chain[i] in world
  }

  /** A run that ends on the chain is a stretch of the chain. */
  lemma {:induction false} EndsOnChain(world: iset<Block>, chain: seq<Block>, run: seq<Block>)
    requires Settled(world, chain) && Linked(run) && run != []
    requires forall i :: 0 <= i < |run| ==> run[i] in world
    requires OnChain(chain, run[|run| - 1])
    ensures run[0].number + |run| <= |chain|
    ensures run == chain[run[0].number..run[0].number + |run|]
  {
    var k := |run| - 1;
    if k > 0 {
      assert Extends(run[k - 1], run[k]);
      assert Extends(chain[run[k].number - 1], chain[run[k].number]);
      assert Agree(run[k - 1], chain[run[k].number - 1]);
      LinkedSlice(run, 0, k);
      EndsOnChain(world, chain, run[..k]);
      assert run == run[..k] + [run[k]];
    }
  }

  /** The next canonical block names the last held one as its parent exactly when that one
      is itself canonical. */
  lemma LastAttaches(world: iset<Block>, chain: seq<Block>, l: Listener, last: Block)
    requires Settled(world, chain) && ViewInv(world, l)
    requires l.held != [] && last == l.held[|l.held| - 1] && last.number + 1 < |chain|
    ensures chain[last.number + 1].parent == last.hash <==> OnChain(chain, last)
  {
    assert last == Ahead(l)[|l.held| - 1] && last in world;
    assert Extends(chain[last.number], chain[last.number + 1]);
    assert Agree(last, chain[last.number]);
  }

  lemma OrphanTrimmed(chain: seq<Block>, l: Listener, b: Block)
    requires l.newHead == [] && l.held != [] && !OnChain(chain, l.held[|l.held| - 1])
    requires b.parent != l.held[|l.held| - 1].hash
    ensures Attached(l, b) == l.(held := l.held[..|l.held| - 1])
    ensures Orphans(chain, Attached(l, b).held) == Orphans(chain, l.held) - 1
  {
  }

  lemma CanonicalAppended(chain: seq<Block>, l: Listener, b: Block)
    requires l.newHead == [] && OnChain(chain, b) && b.number == NextNumber(l)
    requires l.held != [] ==> b.parent == l.held[|l.held| - 1].hash
    ensures Attached(l, b) == l.(held := l.held + [b])
    ensures Orphans(chain, l.held + [b]) == 0
    ensures NextNumber(Attached(l, b)) == NextNumber(l) + 1
  {
    assert (l.held + [b])[|l.held|] == b;
  }

  /** One by-number read from a settled chain drops exactly one orphaned tail block, or,
      once there is none, appends the next canonical block. */
  lemma HealingRead(world: iset<Block>, chain: seq<Block>, l: Listener)
    requires Settled(world, chain) && ViewInv(world, l) && l.newHead == []
    requires NextNumber(l) < |chain|
    ensures var m := Attached(l, chain[NextNumber(l)]);
      if Orphans(chain, l.held) > 0
      then m == l.(held := l.held[..|l.held| - 1])
           && Orphans(chain, m.held) == Orphans(chain, l.held) - 1
      else m == l.(held := l.held + [chain[NextNumber(l)]])
           && Orphans(chain, m.held) == 0
           && NextNumber(m) == NextNumber(l) + 1
  {
    var b := chain[NextNumber(l)];
    if l.held != [] { LastAttaches(world, chain, l, l.held[|l.held| - 1]); }
    if Orphans(chain, l.held) > 0 { OrphanTrimmed(chain, l, b); } else { CanonicalAppended(chain, l, b); }
  }

  /** Without a longer chain an orphaned tail cannot heal: the read has nothing to return. */
  predicate CanHeal(chain: seq<Block>, l: Listener) {
    Orphans(chain, l.held) > 0 ==> NextNumber(l) < |chain|
  }

  /** Where the canonical part of what is held begins, once healed. */
  function HealedFrom(chain: seq<Block>, l: Listener): nat {
    if l.held != [] && Orphans(chain, l.held) < |l.held| then l.held[0].number else Resume(l)
  }

  function Blocks(out: seq<Dispatch>): (bs: seq<Block>)
    ensures |bs| == |out| && forall i :: 0 <= i < |out| ==> bs[i] == out[i].block
  {
    seq(|out|, i requires 0 <= i < |out| => out[i].block)
  }

  /** What dispatching the first n held blocks leaves, and what it emits. */
  function AdvancedBy(l: Listener, n: nat): Listener
    requires n <= |l.held|
  {
    l.(held := l.held[n..], checkpoint := if n == 0 then l.checkpoint else Some(l.held[n - 1].number))
  }

  function Emitted(l: Listener, n: nat): (out: seq<Dispatch>)
    requires n <= |l.held|
    ensures |out| == n
  {
    seq(n, i requires 0 <= i < n => Dispatch(l.held[i], l.held[i + 1..]))
  }

  /** How many held blocks have enough successors to leave. */
  function Ripe(required: nat, l: Listener): (n: nat)
    ensures n <= |l.held|
  {
    if |l.held| > required then |l.held| - required else 0
  }

  lemma AdvancedByKeepsChain(world: iset<Block>, l: Listener, n: nat)
    requires ViewInv(world, l) && n <= |l.held| && !l.waiting
    ensures ViewInv(world, AdvancedBy(l, n))
    ensures NextNumber(AdvancedBy(l, n)) == NextNumber(l)
  {
    if n == 0 {
      assert AdvancedBy(l, 0) == l;
    } else {
      AdvancedStaysLinked(world, l, n);
      AdvancedFromNext(world, l, n);
    }
  }

  lemma AdvancedStaysLinked(world: iset<Block>, l: Listener, n: nat)
    requires ViewInv(world, l) && n <= |l.held|
    ensures Linked(Ahead(AdvancedBy(l, n))) && forall b :: b in Ahead(AdvancedBy(l, n)) ==> b in world
  {
    assert Ahead(AdvancedBy(l, n)) == Ahead(l)[n..];
    LinkedSlice(Ahead(l), n, |Ahead(l)|);
    forall b | b in Ahead(l)[n..] ensures b in world {
      var i :| 0 <= i < |Ahead(l)[n..]| && Ahead(l)[n..][i] == b;
      assert Ahead(l)[n + i] == b;
    }
  }

  /** What is left begins just after the new checkpoint. */
  lemma AdvancedFromNext(world: iset<Block>, l: Listener, n: nat)
    requires ViewInv(world, l) && 0 < n <= |l.held| && !l.waiting
    ensures var m := AdvancedBy(l, n);
      && l.held[n - 1].number >= l.fromBlock
      && (Ahead(m) != [] ==> Ahead(m)[0].number == l.held[n - 1].number + 1)
      && NextNumber(m) == NextNumber(l)
  {
    assert Ahead(AdvancedBy(l, n)) == Ahead(l)[n..] && Ahead(l)[n - 1] == l.held[n - 1];
    RestOfRun(Ahead(l), n);
    NextStays(l, n);
  }

  lemma RestOfRun(run: seq<Block>, n: nat)
    requires Linked(run) && 0 < n <= |run|
    ensures run[n - 1].number >= run[0].number
    ensures run[n..] != [] ==> run[n..][0].number == run[n - 1].number + 1
  {
    LinkedNumbers(run, n - 1);
    if n < |run| { assert Extends(run[n - 1], run[n]); }
  }

  lemma NextStays(l: Listener, n: nat)
    requires 0 < n <= |l.held| && l.held[n - 1].number >= l.fromBlock
    ensures NextNumber(AdvancedBy(l, n)) == NextNumber(l)
  {
    if n < |l.held| { LastOfRest(l.held, n); }
  }

  lemma LastOfRest(run: seq<Block>, n: nat)
    requires n < |run|
    ensures run[n..] != [] && run[n..][|run[n..]| - 1] == run[|run| - 1]
  {
  }

  /** The invariant of draining a settled chain from l0: while orphans remain nothing is
      dispatched and only the tail shrinks; after that, what was dispatched and what is
      held are one stretch of the chain. */
  ghost predicate Healing(world: iset<Block>, chain: seq<Block>, l0: Listener, l: Listener, out: seq<Dispatch>) {
    Healthy(world, chain, l) && Traced(chain, l0, l, out)
  }

  ghost predicate Healthy(world: iset<Block>, chain: seq<Block>, l: Listener) {
    ViewInv(world, l) && l.newHead == [] && !l.waiting && CanHeal(chain, l)
  }

  predicate Traced(chain: seq<Block>, l0: Listener, l: Listener, out: seq<Dispatch>) {
    if Orphans(chain, l.held) > 0
    then out == [] && l == l0.(held := l.held) && HealedFrom(chain, l) == HealedFrom(chain, l0)
    else HealedFrom(chain, l0) <= NextNumber(l) <= |chain|
         && Blocks(out) + l.held == chain[HealedFrom(chain, l0)..NextNumber(l)]
  }

  /** A stretch of the chain, from the number of its first block to that of its last. */
  predicate Stretch(chain: seq<Block>, run: seq<Block>)
    requires run != []
  {
    && run[0].number <= run[|run| - 1].number + 1 <= |chain|
    && run == chain[run[0].number..run[|run| - 1].number + 1]
  }

  lemma HeldIsStretch(world: iset<Block>, chain: seq<Block>, l: Listener)
    requires Settled(world, chain) && ViewInv(world, l) && l.newHead == []
    requires l.held != [] && OnChain(chain, l.held[|l.held| - 1])
    ensures Stretch(chain, l.held)
  {
    assert Ahead(l) == l.held;
    EndsOnChain(world, chain, l.held);
    LinkedNumbers(l.held, |l.held| - 1);
  }

  /** A hold with no orphans is the stretch of the chain up to the next block wanted. */
  lemma HeldOnChain(world: iset<Block>, chain: seq<Block>, l: Listener)
    requires Settled(world, chain) && ViewInv(world, l) && l.newHead == []
    requires Orphans(chain, l.held) == 0 && HealedFrom(chain, l) <= |chain|
    ensures HealedFrom(chain, l) <= NextNumber(l) <= |chain|
    ensures l.held == chain[HealedFrom(chain, l)..NextNumber(l)]
  {
    if l.held != [] { HeldIsStretch(world, chain, l); }
    StretchUpToNext(chain, l);
  }

  lemma StretchUpToNext(chain: seq<Block>, l: Listener)
    requires Orphans(chain, l.held) == 0 && HealedFrom(chain, l) <= |chain|
    requires l.held != [] ==> Stretch(chain, l.held)
    ensures HealedFrom(chain, l) <= NextNumber(l) <= |chain|
    ensures l.held == chain[HealedFrom(chain, l)..NextNumber(l)]
  {
    if l.held != [] { HealedHold(chain, l); }
  }

  lemma HealedHold(chain: seq<Block>, l: Listener)
    requires l.held != [] && Orphans(chain, l.held) == 0
    ensures HealedFrom(chain, l) == l.held[0].number && NextNumber(l) == l.held[|l.held| - 1].number + 1
  {
  }

  lemma TrimmedTrace(chain: seq<Block>, l0: Listener, l: Listener, m: Listener)
    requires Traced(chain, l0, l, []) && Orphans(chain, l.held) > 0
    requires m == l.(held := l.held[..|l.held| - 1])
    requires Orphans(chain, m.held) == 0 ==>
      HealedFrom(chain, m) <= NextNumber(m) <= |chain| && m.held == chain[HealedFrom(chain, m)..NextNumber(m)]
    ensures Traced(chain, l0, m, [])
  {
    TrimmedHealsFromSame(chain, l);
    assert Blocks([]) + m.held == m.held;
  }

  lemma TrimmedHealsFromSame(chain: seq<Block>, l: Listener)
    requires Orphans(chain, l.held) > 0
    ensures HealedFrom(chain, l.(held := l.held[..|l.held| - 1])) == HealedFrom(chain, l)
  {
  }

  /** Without its last block a hold is as good as before. */
  lemma TrimmedKeepsChain(world: iset<Block>, l: Listener)
    requires ViewInv(world, l) && l.newHead == [] && l.held != []
    ensures ViewInv(world, l.(held := l.held[..|l.held| - 1]))
    ensures NextNumber(l.(held := l.held[..|l.held| - 1])) <= NextNumber(l)
  {
    var m := l.(held := l.held[..|l.held| - 1]);
    assert Ahead(l) == l.held && Ahead(m) == m.held;
    LinkedSlice(l.held, 0, |m.held|);
    if |m.held| > 0 { assert Extends(l.held[|m.held| - 1], l.held[|m.held|]); }
  }

  lemma HealingTrims(world: iset<Block>, chain: seq<Block>, l0: Listener, l: Listener)
    requires Settled(world, chain) && Healing(world, chain, l0, l, [])
    requires Orphans(chain, l.held) > 0 && HealedFrom(chain, l0) <= |chain|
    ensures Healing(world, chain, l0, l.(held := l.held[..|l.held| - 1]), [])
  {
    var m := l.(held := l.held[..|l.held| - 1]);
    TrimmedKeepsChain(world, l);
    TrimmedHealsFromSame(chain, l);
    if Orphans(chain, m.held) == 0 { HeldOnChain(world, chain, m); }
    TrimmedTrace(chain, l0, l, m);
  }

  lemma HealingAppends(world: iset<Block>, chain: seq<Block>, l0: Listener, l: Listener, out: seq<Dispatch>)
    requires Settled(world, chain) && Healing(world, chain, l0, l, out)
    requires Orphans(chain, l.held) == 0 && NextNumber(l) < |chain|
    ensures var m := Attached(l, chain[NextNumber(l)]);
      Healing(world, chain, l0, m, out) && NextNumber(m) == NextNumber(l) + 1
  {
    HealingRead(world, chain, l);
    AttachedKeepsChain(world, l, chain[NextNumber(l)]);
    TraceGrows(chain, l0, l, Attached(l, chain[NextNumber(l)]), out);
  }

  lemma TraceGrows(chain: seq<Block>, l0: Listener, l: Listener, m: Listener, out: seq<Dispatch>)
    requires Traced(chain, l0, l, out) && Orphans(chain, l.held) == 0 && NextNumber(l) < |chain|
    requires m == l.(held := l.held + [chain[NextNumber(l)]]) && Orphans(chain, m.held) == 0
    requires NextNumber(m) == NextNumber(l) + 1
    ensures Traced(chain, l0, m, out)
  {
    StretchGrows(chain, HealedFrom(chain, l0), NextNumber(l), Blocks(out), l.held);
  }

  lemma StretchGrows(chain: seq<Block>, from: nat, to: nat, out: seq<Block>, held: seq<Block>)
    requires from <= to < |chain| && out + held == chain[from..to]
    ensures out + (held + [chain[to]]) == chain[from..to + 1]
  {
    assert out + (held + [chain[to]]) == (out + held) + [chain[to]];
  }

  lemma HealingDispatches(
      world: iset<Block>, chain: seq<Block>, l0: Listener, l: Listener, out: seq<Dispatch>, n: nat)
    requires Healing(world, chain, l0, l, out) && Orphans(chain, l.held) == 0 && n <= |l.held|
    ensures Healing(world, chain, l0, AdvancedBy(l, n), out + Emitted(l, n))
    ensures Orphans(chain, AdvancedBy(l, n).held) == 0
  {
    AdvancedByKeepsChain(world, l, n);
    var m, more := AdvancedBy(l, n), Emitted(l, n);
    assert m.held != [] ==> m.held[|m.held| - 1] == l.held[|l.held| - 1];
    assert Blocks(out + more) + m.held == Blocks(out) + l.held;
  }

  /** A read and the dispatches it allows. */
  function Round(required: nat, chain: seq<Block>, l: Listener): Listener
    requires NextNumber(l) < |chain|
  {
    var m := Attached(l, chain[NextNumber(l)]);
    AdvancedBy(m, Ripe(required, m))
  }

  /** Each round makes progress: the orphaned tail is a termination measure, and after
      it the distance to the head of the chain is. */
  lemma HealingRound(
      world: iset<Block>, chain: seq<Block>, required: nat, l0: Listener, l: Listener, out: seq<Dispatch>)
    requires Settled(world, chain) && Healing(world, chain, l0, l, out)
    requires NextNumber(l) < |chain| && HealedFrom(chain, l0) <= |chain|
    requires |l.held| <= required && (out != [] ==> |l.held| == required)
    ensures var m := Attached(l, chain[NextNumber(l)]);
      var r, more := Round(required, chain, l), Emitted(m, Ripe(required, m));
      && Healing(world, chain, l0, r, out + more)
      && |r.held| <= required && (out + more != [] ==> |r.held| == required)
      && (if Orphans(chain, l.held) > 0
          then more == [] && Orphans(chain, r.held) == Orphans(chain, l.held) - 1
          else Orphans(chain, r.held) == 0 && NextNumber(r) == NextNumber(l) + 1)
  {
    HealingRead(world, chain, l);
    var m := Attached(l, chain[NextNumber(l)]);
    if Orphans(chain, l.held) > 0 {
      HealingTrims(world, chain, l0, l);
      assert Ripe(required, m) == 0 && AdvancedBy(m, 0) == m && out + Emitted(m, 0) == out;
    } else {
      HealingAppends(world, chain, l0, l, out);
      HealingDispatches(world, chain, l0, m, out, Ripe(required, m));
      AdvancedByKeepsChain(world, m, Ripe(required, m));
    }
  }

  // ----- The listener object -----

  class ConfirmedBlockListener {
    const requiredConfirmations: nat
    var fromBlock: nat
    var waitingForFromBlock: bool
    var rollingCheckpoint: Option<nat>
    var blocksSinceCheckpoint: seq<Block>
    var newHeadToAdd: seq<Block>

    ghost function View(): Listener
      reads this
    {
      Listener(fromBlock, waitingForFromBlock, rollingCheckpoint, blocksSinceCheckpoint, newHeadToAdd)
    }

    constructor (required: nat, from: nat, waiting: bool, checkpoint: Option<nat>)
      ensures requiredConfirmations == required
      ensures View() == Listener(from, waiting, checkpoint, [], [])
    {
      requiredConfirmations := required;
      fromBlock, waitingForFromBlock, rollingCheckpoint := from, waiting, checkpoint;
      blocksSinceCheckpoint, newHeadToAdd := [], [];
    }

    /** Refused in light mode, for a malformed fromBlock and for an ID already started. */
    static method StartConfirmedBlockListener(
        required: nat, lightMode: bool, started: set<string>, id: string, from: FromBlock, checkpoint: Option<nat>)
      returns (cbl: ConfirmedBlockListener?)
      ensures cbl == null <==> lightMode || from.Malformed? || id in started
      ensures cbl != null ==> fresh(cbl) && cbl.requiredConfirmations == required
      ensures cbl != null ==> Started(from, checkpoint) == Some(cbl.View())
      ensures cbl != null && from.Earliest? ==> cbl.View() == Listener(0, false, checkpoint, [], [])
      ensures cbl != null && from.At? ==> cbl.View() == Listener(from.number, false, checkpoint, [], [])
      ensures cbl != null && from.Latest? && checkpoint.Some? ==>
        cbl.View() == Listener(checkpoint.value, false, checkpoint, [], [])
      ensures cbl != null && from.Latest? && checkpoint.None? ==> cbl.View() == Listener(0, true, None, [], [])
    {
      if lightMode {
        return null;
      }
      match from {
        case Latest =>
          if checkpoint.Some? {
            cbl := new ConfirmedBlockListener(required, checkpoint.value, false, checkpoint);
          } else {
            cbl := new ConfirmedBlockListener(required, 0, true, checkpoint);
          }
        case Earliest => cbl := new ConfirmedBlockListener(required, 0, false, checkpoint);
        case At(n) => cbl := new ConfirmedBlockListener(required, n, false, checkpoint);
        case Malformed => cbl := null;
      }
      if id in started {
        cbl := null;
      }
    }

    method ProcessBlockNotification(block: Block)
      modifies this
      ensures View() == Notified(old(View()), block)
    {
      if waitingForFromBlock {
        fromBlock := block.number;
        waitingForFromBlock := false;
      } else if block.number < fromBlock {
        return;
      }
      if rollingCheckpoint.Some? && block.number <= rollingCheckpoint.value {
        return;
      }
      var dispatchHead: Option<Block> := None;
      if |newHeadToAdd| > 0 {
        if |newHeadToAdd| >= MAX_NEW_HEAD {
          return;
        }
        dispatchHead := Some(newHeadToAdd[|newHeadToAdd| - 1]);
      }
      if dispatchHead.None? && |blocksSinceCheckpoint| > 0 {
        dispatchHead := Some(blocksSinceCheckpoint[|blocksSinceCheckpoint| - 1]);
      }
      if dispatchHead.Some? && block.number == dispatchHead.value.number + 1
         && block.parent == dispatchHead.value.hash {
        newHeadToAdd := newHeadToAdd + [block];
      } else if dispatchHead.None? && (rollingCheckpoint.None? || block.number == rollingCheckpoint.value + 1) {
        newHeadToAdd := newHeadToAdd + [block];
      } else {
        DiscardConflicting(block);
      }
    }

    method DiscardConflicting(block: Block)
      modifies this
      ensures View() == Reorged(old(View()), block)
    {
      var existing := blocksSinceCheckpoint;
      for idx := 0 to |existing|
        invariant View() == old(View()) && existing == blocksSinceCheckpoint
        invariant forall i :: 0 <= i < idx ==> existing[i].number != block.number
      {
        if existing[idx].number == block.number {
          FirstSlot(existing, block.number, idx);
          blocksSinceCheckpoint := existing[..idx];
          newHeadToAdd := [];
          if idx == 0 || block.parent == blocksSinceCheckpoint[idx - 1].hash {
            blocksSinceCheckpoint := blocksSinceCheckpoint + [block];
          }
          return;
        }
      }
    }

    /** Either the notifier lined up a block, or this is the number to fetch. */
    method PopDispatchedIfAvailable() returns (blockNumberToFetch: nat, found: bool)
      modifies this
      ensures found == (old(newHeadToAdd) != [])
      ensures View() == if found then Popped(old(View())) else old(View())
      ensures found ==>
        && blocksSinceCheckpoint == old(blocksSinceCheckpoint) + [old(newHeadToAdd)[0]]
        && newHeadToAdd == old(newHeadToAdd)[1..]
      ensures !found ==> blockNumberToFetch == NextNumber(View())
      ensures !found && blocksSinceCheckpoint != [] ==>
        blockNumberToFetch == blocksSinceCheckpoint[|blocksSinceCheckpoint| - 1].number + 1
      ensures !found && blocksSinceCheckpoint == [] ==>
        blockNumberToFetch ==
          if rollingCheckpoint.Some? then Later(fromBlock, rollingCheckpoint.value + 1) else fromBlock
    {
      if |newHeadToAdd| > 0 {
        var nextBlock := newHeadToAdd[0];
        newHeadToAdd := newHeadToAdd[1..];
        blocksSinceCheckpoint := blocksSinceCheckpoint + [nextBlock];
        return 0, true;
      }
      blockNumberToFetch := fromBlock;
      if rollingCheckpoint.Some? && rollingCheckpoint.value >= fromBlock {
        blockNumberToFetch := rollingCheckpoint.value + 1;
      }
      if |blocksSinceCheckpoint| > 0 {
        blockNumberToFetch := blocksSinceCheckpoint[|blocksSinceCheckpoint| - 1].number + 1;
      }
      return blockNumberToFetch, false;
    }

    /** The second locked region of a read: the fetched block is re-validated. */
    method AttachFetched(nextBlock: Block)
      modifies this
      ensures View() == Attached(old(View()), nextBlock)
      ensures old(newHeadToAdd) != [] ==>
        && blocksSinceCheckpoint == old(blocksSinceCheckpoint) + [old(newHeadToAdd)[0]]
        && newHeadToAdd == old(newHeadToAdd)[1..]
      ensures old(newHeadToAdd) == [] ==>
        var was := old(blocksSinceCheckpoint);
        var fits := was == [] || was[|was| - 1].hash == nextBlock.parent;
        newHeadToAdd == [] && blocksSinceCheckpoint == if fits then was + [nextBlock] else was[..|was| - 1]
    {
      var _, dispatchedPopped := PopDispatchedIfAvailable();
      if !dispatchedPopped {
        if |blocksSinceCheckpoint| > 0
           && blocksSinceCheckpoint[|blocksSinceCheckpoint| - 1].hash != nextBlock.parent {
          blocksSinceCheckpoint := blocksSinceCheckpoint[..|blocksSinceCheckpoint| - 1];
          return;
        }
        blocksSinceCheckpoint := blocksSinceCheckpoint + [nextBlock];
      }
    }

    /** One read served from a fixed chain, with nothing interleaved. */
    method ReadNextBlock(chain: seq<Block>) returns (found: bool)
      modifies this
      ensures found == (old(newHeadToAdd) != [] || old(NextNumber(View())) < |chain|)
      ensures View() ==
        if old(newHeadToAdd) != [] then Popped(old(View()))
        else if found then Attached(old(View()), chain[old(NextNumber(View()))])
        else old(View())
    {
      var blockNumberToFetch, dispatchedPopped := PopDispatchedIfAvailable();
      if dispatchedPopped {
        return true;
      }
      if blockNumberToFetch >= |chain| {
        return false;
      }
      AttachFetched(chain[blockNumberToFetch]);
      return true;
    }

    method DispatchAllConfirmed() returns (out: seq<Dispatch>)
      modifies this
      ensures var n := Ripe(requiredConfirmations, old(View()));
        View() == AdvancedBy(old(View()), n) && out == Emitted(old(View()), n)
    {
      ghost var l := View();
      out := [];
      while |blocksSinceCheckpoint| > requiredConfirmations
        invariant |out| <= |l.held| && View() == AdvancedBy(l, |out|) && out == Emitted(l, |out|)
        invariant |out| <= Ripe(requiredConfirmations, l)
        decreases |blocksSinceCheckpoint|
      {
        var block := blocksSinceCheckpoint[0];
        out := out + [Dispatch(block, blocksSinceCheckpoint[1..])];
        blocksSinceCheckpoint := blocksSinceCheckpoint[1..];
        rollingCheckpoint := Some(block.number);
      }
    }

    /** One turn of the dispatcher's inner loop, served from a settled chain. */
    method DispatcherTurn(
        ghost world: iset<Block>, chain: seq<Block>, ghost l0: Listener, before: seq<Dispatch>)
      returns (found: bool, out: seq<Dispatch>)
      requires Settled(world, chain) && Healing(world, chain, l0, View(), before)
      requires HealedFrom(chain, l0) <= |chain|
      requires |blocksSinceCheckpoint| <= requiredConfirmations
      requires before != [] ==> |blocksSinceCheckpoint| == requiredConfirmations
      modifies this
      ensures found == (old(NextNumber(View())) < |chain|)
      ensures !found ==> View() == old(View()) && out == before
      ensures Healing(world, chain, l0, View(), out)
      ensures |blocksSinceCheckpoint| <= requiredConfirmations
      ensures out != [] ==> |blocksSinceCheckpoint| == requiredConfirmations
      ensures found ==>
        if old(Orphans(chain, blocksSinceCheckpoint)) > 0
        then Orphans(chain, blocksSinceCheckpoint) == old(Orphans(chain, blocksSinceCheckpoint)) - 1
        else Orphans(chain, blocksSinceCheckpoint) == 0 && NextNumber(View()) == old(NextNumber(View())) + 1
    {
      if NextNumber(View()) < |chain| {
        HealingRound(world, chain, requiredConfirmations, l0, View(), before);
      }
      found := ReadNextBlock(chain);
      out := before;
      if found {
        var more := DispatchAllConfirmed();
        out := out + more;
      }
    }

    /** The dispatcher's inner loop once the chain has settled and notifications have
        stopped: it ends, every orphan is dropped undispatched, and what leaves followed
        by what stays is exactly the chain from where the healed view begins. */
    method DrainSettledChain(ghost world: iset<Block>, chain: seq<Block>) returns (out: seq<Dispatch>)
      requires Settled(world, chain) && ViewInv(world, View())
      requires newHeadToAdd == [] && !waitingForFromBlock
      requires |blocksSinceCheckpoint| <= requiredConfirmations
      requires CanHeal(chain, View()) && HealedFrom(chain, View()) <= |chain|
      modifies this
      ensures Blocks(out) + blocksSinceCheckpoint == chain[old(HealedFrom(chain, View()))..]
      ensures |blocksSinceCheckpoint| <= requiredConfirmations
      ensures out != [] ==> |blocksSinceCheckpoint| == requiredConfirmations
    {
      ghost var l0 := View();
      HealingStarts(world, chain, l0);
      out := [];
      var found := true;
      while found
        invariant Healing(world, chain, l0, View(), out)
        invariant |blocksSinceCheckpoint| <= requiredConfirmations
        invariant out != [] ==> |blocksSinceCheckpoint| == requiredConfirmations
        invariant !found ==> NextNumber(View()) >= |chain|
        decreases found, Orphans(chain, blocksSinceCheckpoint), |chain| - NextNumber(View())
      {
        found, out := DispatcherTurn(world, chain, l0, out);
      }
    }
  }

  lemma HealingStarts(world: iset<Block>, chain: seq<Block>, l: Listener)
    requires Settled(world, chain) && ViewInv(world, l) && l.newHead == [] && !l.waiting
    requires CanHeal(chain, l) && HealedFrom(chain, l) <= |chain|
    ensures Healing(world, chain, l, l, [])
  {
    if Orphans(chain, l.held) == 0 {
      HeldOnChain(world, chain, l);
      assert Blocks([]) + l.held == l.held;
    }
  }

  lemma {:induction false} FirstSlot(run: seq<Block>, number: nat, idx: nat)
    requires idx < |run| && run[idx].number == number
    requires forall i :: 0 <= i < idx ==> run[i].number != number
    ensures SlotOf(run, number) == idx
  {
  }
}
