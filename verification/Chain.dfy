/** Blocks as the connector reports them, and the parent-linked runs the
    confirmation code builds out of them. */
module Chain {
  datatype Block = Block(number: nat, hash: string, parent: string)

  /** b is the direct child of a. */
  predicate Extends(a: Block, b: Block) {
    b.parent == a.hash && b.number == a.number + 1
  }

  ghost predicate Linked(run: seq<Block>) {
    forall i, j {:trigger Extends(run[i], run[j])} :: 0 <= i && j == i + 1 && j < |run| ==> Extends(run[i], run[j])
  }

  /** What is assumed of every block a connector ever reports: the hash determines
      the block, and a block naming another as its parent is one higher. */
  ghost predicate Coherent(world: iset<Block>) {
    forall a, b {:trigger Agree(a, b)} :: a in world && b in world ==> Agree(a, b)
  }

  predicate Agree(a: Block, b: Block) {
    && (a.hash == b.hash ==> a == b)
    && (b.parent == a.hash ==> b.number == a.number + 1)
  }

  /** One fork-free chain from genesis: block i sits at index i. */
  ghost predicate Canonical(chain: seq<Block>) {
    Linked(chain) && forall i :: 0 <= i < |chain| ==> chain[i].number == i
  }

  lemma {:induction false} LinkedNumbers(run: seq<Block>, i: nat)
    requires Linked(run) && i < |run|
    ensures run[i].number == run[0].number + i
  {
    if i > 0 {
      LinkedNumbers(run, i - 1);
      assert Extends(run[i - 1], run[i]);
    }
  }

  lemma LinkedSlice(run: seq<Block>, lo: nat, hi: nat)
    requires Linked(run) && lo <= hi <= |run|
    ensures Linked(run[lo..hi])
  {
    forall i, j | 0 <= i && j == i + 1 && j < hi - lo ensures Extends(run[lo..hi][i], run[lo..hi][j]) {
      assert Extends(run[lo + i], run[lo + j]);
    }
  }

  lemma LinkedAppend(run: seq<Block>, b: Block)
    requires Linked(run)
    requires run != [] ==> Extends(run[|run| - 1], b)
    ensures Linked(run + [b])
  {
    forall i, j | 0 <= i && j == i + 1 && j <= |run| ensures Extends((run + [b])[i], (run + [b])[j]) {
      if j < |run| { assert Extends(run[i], run[j]); }
    }
  }
}
