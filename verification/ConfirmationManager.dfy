/** The confirmation manager's objects: pending items and the frozen block view are
    updated in place by the loops below, each proved to do what the functions of
    ItemConfirmations say. */
module ConfirmationManager {
  import opened Wrappers
  import opened Chain
  import opened ItemConfirmations

  class PendingItem {
    const key: string
    var blockNumber: nat
    var blockHash: string
    var transactionIndex: nat
    var logIndex: nat
    var confirmations: seq<Block>
    var notifiedConfirmations: seq<Block>
    var confirmed: bool
    var appliedReceiptGeneration: nat

    function View(): Item
      reads this
    {
      Item(blockNumber, blockHash, transactionIndex, logIndex, confirmations, notifiedConfirmations, confirmed,
           appliedReceiptGeneration)
    }

    constructor (key: string, number: nat, hash: string, txIndex: nat, logIndex: nat)
      ensures this.key == key
      ensures View() == Item(number, hash, txIndex, logIndex, [], [], false, 0)
    {
      this.key := key;
      blockNumber, blockHash, transactionIndex, this.logIndex := number, hash, txIndex, logIndex;
      confirmations, notifiedConfirmations, confirmed, appliedReceiptGeneration := [], [], false, 0;
    }

    /** One item's turn in processBlock: the block may fit anywhere in the run. */
    method AbsorbBlock(block: Block, required: nat) returns (newConfirmations: bool)
      modifies this
      ensures newConfirmations == Absorbs(old(View()), block)
      ensures View() == Marked(required, Absorbed(old(View()), block))
    {
      newConfirmations := false;
      var expectedParentHash, expectedBlockNumber := blockHash, blockNumber + 1;
      var i := 0;
      while i < |confirmations| + 1
        invariant i <= |confirmations| + 1 && View() == old(View()) && !newConfirmations
        invariant expectedBlockNumber == blockNumber + 1 + i
        invariant i <= |confirmations| ==> expectedParentHash == ParentAt(View(), i)
        invariant forall j :: 0 <= j < i ==>
          !(block.number == blockNumber + 1 + j && block.parent == ParentAt(View(), j))
      {
        if block.parent == expectedParentHash && block.number == expectedBlockNumber {
          confirmations := confirmations[..i] + [block];
          newConfirmations := true;
          break;
        }
        if i < |confirmations| {
          expectedParentHash := confirmations[i].hash;
        }
        expectedBlockNumber := expectedBlockNumber + 1;
        i := i + 1;
      }
      if |confirmations| >= required {
        confirmed := true;
      }
    }

    /** One item's whole turn: whether its receiver has to be told. */
    method CountBlock(block: Block, required: nat) returns (notify: bool)
      modifies this
      ensures notify == Notifies(required, old(View()), block)
      ensures View() == Counted(required, old(View()), block)
    {
      notify := false;
      if blockHash != "" {
        var newConfirmations := AbsorbBlock(block, required);
        notify := required > 0 && (confirmed || newConfirmations);
      }
    }

    /** Works out delta or replacement against what was last notified. */
    method DispatchConfirmations(required: nat) returns (notification: Option<Notification>)
      modifies this
      ensures notification == Notice(required, old(View()))
      ensures View() == Dispatched(required, old(View()))
    {
      var newFork := |notifiedConfirmations| == 0;
      var additional := [];
      var i := 0;
      while i < |confirmations|
        invariant i <= |confirmations|
        invariant newFork <==> notifiedConfirmations == []
        invariant !newFork ==> forall j :: 0 <= j < i && j < |notifiedConfirmations| ==>
          confirmations[j].hash == notifiedConfirmations[j].hash
        invariant additional ==
          if newFork then confirmations[..i]
          else if i > |notifiedConfirmations| then confirmations[|notifiedConfirmations|..i] else []
        invariant View() == old(View())
      {
        if !newFork && i < |notifiedConfirmations| {
          newFork := confirmations[i].hash != notifiedConfirmations[i].hash;
          if newFork {
            additional := confirmations;
            break;
          }
        } else {
          additional := additional + [confirmations[i]];
        }
        i := i + 1;
      }
      assert newFork == Forked(old(View())) && additional == Delta(old(View()));
      var count := |confirmations|;
      if count > required {
        count := required;
      }
      if |additional| > 0 || confirmed {
        notification := Some(Notification(confirmed, newFork, count, required, additional));
        if newFork {
          notifiedConfirmations := additional;
        } else {
          notifiedConfirmations := notifiedConfirmations + additional;
        }
      } else {
        notification := None;
      }
    }

    method WalkChain(required: nat, highestBlockSeen: nat, blocks: BlockState)
      returns (stop: Stop, notification: Option<Notification>)
      modifies this, blocks
      ensures var w := Walked(blocks.connector, required, highestBlockSeen, old(blocks.View()), old(View()));
        && stop == w.stop && blocks.View() == w.view
        && View() == AfterWalk(required, w).item && notification == AfterWalk(required, w).notice
    {
      notification := None;
      if blockHash == "" {
        return Unplaced, None;
      }
      ghost var w := Walked(blocks.connector, required, highestBlockSeen, blocks.View(), View());
      ghost var it := View().(confirmations := []);
      confirmations := [];
      assert View() == it;
      if required == 0 {
        confirmed := true;
        stop := Enough;
      } else {
        stop := WalkOn(required, highestBlockSeen, blocks);
      }
      assert Walk(View(), blocks.View(), stop) == w;
      if stop.Errored? {
        return;
      }
      if confirmed || |confirmations| > 0 {
        notification := DispatchConfirmations(required);
      }
    }

    method WalkOn(required: nat, highestBlockSeen: nat, blocks: BlockState) returns (stop: Stop)
      requires required > 0 && confirmations == []
      modifies this, blocks
      ensures Walk(View(), blocks.View(), stop) ==
        ItemConfirmations.WalkOn(blocks.connector, required, highestBlockSeen, old(blocks.View()), old(View()))
    {
      ghost var end := ItemConfirmations.WalkOn(
        blocks.connector, required, highestBlockSeen, blocks.View(), View());
      var number, expectedParentHash := blockNumber + 1, blockHash;
      while true
        invariant |confirmations| < required
        invariant number == blockNumber + 1 + |confirmations|
        invariant expectedParentHash == ParentAt(View(), |confirmations|)
        invariant end == ItemConfirmations.WalkOn(
          blocks.connector, required, highestBlockSeen, blocks.View(), View())
        decreases required - |confirmations|
      {
        if highestBlockSeen > 0 && number > highestBlockSeen {
          return HeadReached;
        }
        var reply := blocks.GetByNumber(number);
        if reply.Failed? {
          return Errored;
        }
        if reply.Missing? {
          return HeadReached;
        }
        if reply.block.parent != expectedParentHash {
          return OffFork;
        }
        confirmations := confirmations + [reply.block];
        if |confirmations| >= required {
          confirmed := true;
          return Enough;
        }
        number, expectedParentHash := number + 1, reply.block.hash;
      }
    }

    /** A receipt moves the item and starts a new walk; an outdated one is ignored. */
    method DispatchReceipt(
        number: nat, hash: string, generation: nat, required: nat, highestBlockSeen: nat, blocks: BlockState)
      returns (notification: Option<Notification>)
      modifies this, blocks
      ensures Outcome(View(), notification) ==
        Happened(required, old(View()),
          ReceiptArrived(number, hash, generation, blocks.connector, highestBlockSeen, old(blocks.View())))
    {
      if generation > 0 && generation <= appliedReceiptGeneration {
        return None;
      }
      if generation > 0 {
        appliedReceiptGeneration := generation;
      }
      blockNumber, blockHash := number, hash;
      var _, n := WalkChain(required, highestBlockSeen, blocks);
      notification := n;
    }
  }

  /** One cycle's view of the chain. */
  class BlockState {
    const connector: Connector
    var blocks: map<nat, Block>
    var lowestNil: nat
    var asked: nat

    ghost function View(): FrozenView
      reads this
    {
      FrozenView(blocks, lowestNil, asked)
    }

    constructor (connector: Connector)
      ensures this.connector == connector && View() == FrozenView(map[], 0, 0)
    {
      this.connector := connector;
      blocks, lowestNil, asked := map[], 0, 0;
    }

    method GetByNumber(blockNumber: nat) returns (reply: Reply)
      modifies this
      ensures Looked(reply, View()) == Lookup(connector, old(View()), blockNumber)
    {
      if lowestNil > 0 && blockNumber >= lowestNil {
        return Missing;
      }
      if blockNumber in blocks {
        return Found(blocks[blockNumber]);
      }
      reply := connector(asked, blockNumber);
      asked := asked + 1;
      if reply.Missing? {
        if lowestNil == 0 || blockNumber <= lowestNil {
          lowestNil := blockNumber;
        }
      } else if reply.Found? {
        blocks := blocks[blockNumber := reply.block];
      }
    }
  }

  /** The manager's map of pending items. Items are held by value here: the per-item work
      on the shared objects is PendingItem's. */
  class BlockConfirmationManager {
    const requiredConfirmations: nat
    var pending: map<string, Item>

    constructor (required: nat)
      ensures requiredConfirmations == required && pending == map[]
    {
      requiredConfirmations := required;
      pending := map[];
    }

    /** Adds a block to every pending item with a place for it; says who must be told. */
    method CountAll(block: Block) returns (notifications: seq<string>)
      modifies this
      ensures pending == map k | k in old(pending) :: Counted(requiredConfirmations, old(pending)[k], block)
      ensures Distinct(notifications)
      ensures forall k :: k in notifications <==>
        k in old(pending) && Notifies(requiredConfirmations, old(pending)[k], block)
    {
      var was := pending;
      var keys := pending.Keys;
      notifications := [];
      while keys != {}
        invariant keys <= was.Keys && pending.Keys == was.Keys
        invariant forall k :: k in was ==>
          pending[k] == (if k in keys then was[k] else Counted(requiredConfirmations, was[k], block))
        invariant Distinct(notifications)
        invariant forall k :: k in notifications <==>
          k in was && k !in keys && Notifies(requiredConfirmations, was[k], block)
        decreases |keys|
      {
        var key :| key in keys;
        keys := keys - {key};
        if Notifies(requiredConfirmations, was[key], block) {
          notifications := notifications + [key];
        }
        pending := pending[key := Counted(requiredConfirmations, was[key], block)];
      }
    }

    /** Puts the notifications into chain order. */
    method SortKeys(keys: seq<string>) returns (order: seq<string>)
      requires Distinct(keys) && forall k :: k in keys ==> k in pending
      ensures Distinct(order) && (forall k :: k in order <==> k in keys)
      ensures InOrder(pending, order)
      ensures forall i, j :: 0 <= i < j < |order| ==>
        var a, b := pending[order[i]], pending[order[j]];
        && a.blockNumber <= b.blockNumber
        && (a.blockNumber == b.blockNumber ==> a.transactionIndex <= b.transactionIndex)
        && (a.blockNumber == b.blockNumber && a.transactionIndex == b.transactionIndex ==> a.logIndex <= b.logIndex)
    {
      order := [];
      for n := 0 to |keys|
        invariant Distinct(order) && (forall k :: k in order <==> k in keys[..n])
        invariant InOrder(pending, order)
      {
        order := Insert(order, keys[n]);
      }
      InOrderMeans(pending, order);
    }

    method Insert(order: seq<string>, key: string) returns (longer: seq<string>)
      requires key in pending && InOrder(pending, order) && Distinct(order) && key !in order
      ensures InOrder(pending, longer) && Distinct(longer)
      ensures forall k :: k in longer <==> k == key || k in order
    {
      var at := 0;
      while at < |order| && !Before(pending[key], pending[order[at]])
        invariant at <= |order|
        invariant forall i :: 0 <= i < at ==> !Before(pending[key], pending[order[i]])
      {
        at := at + 1;
      }
      longer := order[..at] + [key] + order[at..];
    }

    /** Tells each receiver in turn and drops the confirmed items. */
    method DispatchAll(order: seq<string>) returns (notices: seq<Option<Notification>>)
      requires Distinct(order) && forall i :: 0 <= i < |order| ==> order[i] in pending
      modifies this
      ensures |notices| == |order|
      ensures forall i :: 0 <= i < |order| ==>
        notices[i] == Notice(requiredConfirmations, old(pending)[order[i]])
      ensures pending == Told(requiredConfirmations, old(pending), order)
    {
      var was := pending;
      notices := [];
      for n := 0 to |order|
        invariant |notices| == n
        invariant forall i :: 0 <= i < n ==> notices[i] == Notice(requiredConfirmations, was[order[i]])
        invariant pending == Told(requiredConfirmations, was, order[..n])
      {
        var key := order[n];
        assert order[..n + 1] == order[..n] + [key] && key !in order[..n];
        ToldOneMore(requiredConfirmations, was, order[..n], key);
        notices := notices + [Notice(requiredConfirmations, was[key])];
        pending := if was[key].confirmed then pending - {key}
          else pending[key := Dispatched(requiredConfirmations, was[key])];
      }
      assert order[..|order|] == order;
    }

    /** A notified block: every item sees it, the receivers concerned are told in chain
        order, and what is confirmed leaves. */
    method ProcessBlock(block: Block) returns (order: seq<string>, notices: seq<Option<Notification>>)
      modifies this
      ensures Distinct(order) && (forall k :: k in order <==>
        k in old(pending) && Notifies(requiredConfirmations, old(pending)[k], block))
      ensures InOrder(old(pending), order)
      ensures |notices| == |order| && forall i :: 0 <= i < |order| ==>
        notices[i] == SawBlock(requiredConfirmations, old(pending)[order[i]], block).notice
      ensures pending == map k | k in old(pending) &&
          !(k in order && SawBlock(requiredConfirmations, old(pending)[k], block).item.confirmed) ::
        SawBlock(requiredConfirmations, old(pending)[k], block).item
    {
      var notifications := CountAll(block);
      order := SortKeys(notifications);
      notices := DispatchAll(order);
    }
  }

  /** The pending items once the receivers of some have been told. */
  function Told(required: nat, was: map<string, Item>, keys: seq<string>): map<string, Item> {
    map k | k in was && !(k in keys && was[k].confirmed) :: if k in keys then Dispatched(required, was[k]) else was[k]
  }

  lemma ToldOneMore(required: nat, was: map<string, Item>, keys: seq<string>, key: string)
    requires key in was && key !in keys
    ensures Told(required, was, keys + [key]) ==
      if was[key].confirmed then Told(required, was, keys) - {key}
      else Told(required, was, keys)[key := Dispatched(required, was[key])]
  {
    var before, after := Told(required, was, keys), Told(required, was, keys + [key]);
    forall k | k != key ensures k in before <==> k in after {
      assert k in keys + [key] <==> k in keys;
    }
  }

  predicate Distinct(keys: seq<string>) {
    forall i, j :: 0 <= i < j < |keys| ==> keys[i] != keys[j]
  }

  predicate InOrder(pending: map<string, Item>, keys: seq<string>) {
    && (forall i :: 0 <= i < |keys| ==> keys[i] in pending)
    && (forall i, j :: 0 <= i < j < |keys| ==> !Before(pending[keys[j]], pending[keys[i]]))
  }

  /** Ordered by block, within a block by transaction, and within a transaction by log. */
  lemma InOrderMeans(pending: map<string, Item>, keys: seq<string>)
    requires InOrder(pending, keys)
    ensures forall i, j :: 0 <= i < j < |keys| ==>
      var a, b := pending[keys[i]], pending[keys[j]];
      && a.blockNumber <= b.blockNumber
      && (a.blockNumber == b.blockNumber ==> a.transactionIndex <= b.transactionIndex)
      && (a.blockNumber == b.blockNumber && a.transactionIndex == b.transactionIndex ==> a.logIndex <= b.logIndex)
  {
  }
}
