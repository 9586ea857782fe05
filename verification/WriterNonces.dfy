/** Nonce allocation in the Postgres transaction writer: per signer a cached next nonce that
    may be missing, expired or evicted, batches that may roll back, and a node that may
    answer anything. */
module WriterNonces {
  import opened Wrappers

  /** A queued insert without a pre-assigned nonce. conflict: it turned out to be a duplicate
      and gets no nonce; node: what the node would answer for it, None for an error. */
  datatype Insert = Insert(conflict: bool, node: Option<nat>)

  datatype Allocation = Allocated(nonces: seq<nat>, next: Option<nat>) | Refused

  function Larger(a: nat, b: nat): (n: nat)
    ensures n >= a && n >= b && (n == a || n == b)
  {
    if a > b then a else b
  }

  /** The nonces one signer's inserts of a batch get, in queue order. stored: one above the
      highest nonce in the database, 0 when there is none. */
  function Allocate(cached: Option<nat>, expired: bool, stored: nat, ops: seq<Insert>): Allocation
    decreases |ops|
  {
    if ops == [] then Allocated([], cached)
    else if ops[0].conflict then Allocate(cached, expired, stored, ops[1..])
    else if cached.Some? && !expired
    then With(cached.value, Allocate(Some(cached.value + 1), expired, stored, ops[1..]))
    else
      match ops[0].node
      case None => Refused
      case Some(answer) =>
        var nonce := Larger(answer, if cached.Some? then cached.value else stored);
        With(nonce, Allocate(Some(nonce + 1), expired, stored, ops[1..]))
  }

  function With(nonce: nat, rest: Allocation): Allocation {
    match rest
    case Refused => Refused
    case Allocated(nonces, next) => Allocated([nonce] + nonces, next)
  }

  predicate Increasing(ns: seq<nat>) {
    forall i, j :: 0 <= i < j < |ns| ==> ns[i] < ns[j]
  }

  predicate AtLeast(ns: seq<nat>, n: nat) {
    forall i :: 0 <= i < |ns| ==> ns[i] >= n
  }

  predicate AllBelow(ns: set<nat>, n: nat) {
    forall k :: k in ns ==> k < n
  }

  /** Nonces go up from a base, and the cache ends one above the last. */
  predicate GoesUp(a: Allocation, base: nat, cached: Option<nat>) {
    a.Allocated? ==>
      && Increasing(a.nonces)
      && AtLeast(a.nonces, base)
      && (if a.nonces == [] then a.next == cached else a.next == Some(a.nonces[|a.nonces| - 1] + 1))
  }

  lemma WithGoesUp(nonce: nat, rest: Allocation, base: nat, cached: Option<nat>)
    requires base <= nonce && GoesUp(rest, nonce + 1, Some(nonce + 1))
    ensures GoesUp(With(nonce, rest), base, cached)
  {
  }

  /** One signer's nonces go up in queue order from where the cache, or else the database,
      left off. */
  lemma {:induction false} AllocateGoesUp(cached: Option<nat>, expired: bool, stored: nat, ops: seq<Insert>)
    ensures GoesUp(Allocate(cached, expired, stored, ops), if cached.Some? then cached.value else stored, cached)
    decreases |ops|
  {
    if ops != [] {
      var base := if cached.Some? then cached.value else stored;
      if ops[0].conflict {
        AllocateGoesUp(cached, expired, stored, ops[1..]);
      } else if (cached.Some? && !expired) || ops[0].node.Some? {
        var nonce := if cached.Some? && !expired then base else Larger(ops[0].node.value, base);
        AllocateGoesUp(Some(nonce + 1), expired, stored, ops[1..]);
        WithGoesUp(nonce, Allocate(Some(nonce + 1), expired, stored, ops[1..]), base, cached);
      }
    }
  }

  // ----- Exactly which nonces -----

  /** The inserts that get a nonce. */
  function Wanting(ops: seq<Insert>): seq<Insert> {
    if ops == [] then [] else (if ops[0].conflict then [] else [ops[0]]) + Wanting(ops[1..])
  }

  function CountUp(from: nat, n: nat): (ns: seq<nat>)
    ensures |ns| == n && forall i :: 0 <= i < n ==> ns[i] == from + i
  {
    seq(n, i requires i >= 0 => from + i)
  }

  lemma CountUpFrom(from: nat, n: nat)
    ensures CountUp(from, n + 1) == [from] + CountUp(from + 1, n)
  {
  }

  /** With a cached next nonce that has not expired, the inserts get it and the ones after it,
      without a gap and without asking the node. */
  lemma {:induction false} WarmCountsUp(next: nat, stored: nat, ops: seq<Insert>)
    ensures var n := |Wanting(ops)|;
      Allocate(Some(next), false, stored, ops) == Allocated(CountUp(next, n), Some(next + n))
    decreases |ops|
  {
    if ops != [] {
      if ops[0].conflict {
        WarmCountsUp(next, stored, ops[1..]);
        assert Wanting(ops) == Wanting(ops[1..]);
      } else {
        var n := |Wanting(ops[1..])|;
        WarmCountsUp(next + 1, stored, ops[1..]);
        CountUpFrom(next, n);
        assert |Wanting(ops)| == n + 1;
      }
    }
  }

  /** Once the first insert has its nonce. */
  lemma WarmAfter(first: nat, stored: nat, ops: seq<Insert>)
    requires ops != [] && !ops[0].conflict
    ensures var n := |Wanting(ops)|;
      With(first, Allocate(Some(first + 1), false, stored, ops[1..])) == Allocated(CountUp(first, n), Some(first + n))
  {
    var n := |Wanting(ops[1..])|;
    WarmCountsUp(first + 1, stored, ops[1..]);
    CountUpFrom(first, n);
    assert |Wanting(ops)| == n + 1;
  }

  /** With nothing cached the node is asked once, for the first insert: the larger of its answer
      and where the database left off is the first nonce, and the others follow without a gap. */
  lemma {:induction false} ColdAsksOnce(stored: nat, ops: seq<Insert>)
    ensures var w := Wanting(ops);
      Allocate(None, false, stored, ops) ==
        if w == [] then Allocated([], None)
        else if w[0].node.None? then Refused
        else
          var first := Larger(w[0].node.value, stored);
          Allocated(CountUp(first, |w|), Some(first + |w|))
    decreases |ops|
  {
    if ops != [] {
      if ops[0].conflict {
        ColdAsksOnce(stored, ops[1..]);
        assert Wanting(ops) == Wanting(ops[1..]);
      } else if ops[0].node.Some? {
        WarmAfter(Larger(ops[0].node.value, stored), stored, ops);
      }
    }
  }

  /** Each nonce is the larger of its insert's node answer and where the one before left off. */
  predicate EachAsked(w: seq<Insert>, from: nat, nonces: seq<nat>) {
    && |nonces| == |w|
    && forall i :: 0 <= i < |w| ==>
         w[i].node.Some? && nonces[i] == Larger(w[i].node.value, if i == 0 then from else nonces[i - 1] + 1)
  }

  /** With an expired entry the node is asked for every insert of the batch, which is refused
      exactly when one of them gets no answer. */
  lemma {:induction false} ExpiredAsksEach(next: nat, stored: nat, ops: seq<Insert>)
    ensures var w := Wanting(ops);
      var a := Allocate(Some(next), true, stored, ops);
      && (a.Refused? <==> exists i :: 0 <= i < |w| && w[i].node.None?)
      && (a.Allocated? ==> EachAsked(w, next, a.nonces))
    decreases |ops|
  {
    if ops != [] {
      var w, rest := Wanting(ops), Wanting(ops[1..]);
      if ops[0].conflict {
        ExpiredAsksEach(next, stored, ops[1..]);
        assert w == rest;
      } else if ops[0].node.None? {
        assert w[0].node.None?;
      } else {
        var nonce := Larger(ops[0].node.value, next);
        ExpiredAsksEach(nonce + 1, stored, ops[1..]);
        var a, b := Allocate(Some(next), true, stored, ops), Allocate(Some(nonce + 1), true, stored, ops[1..]);
        assert a == With(nonce, b) && w[1..] == rest;
        if b.Refused? {
          var i :| 0 <= i < |rest| && rest[i].node.None?;
          assert w[i + 1].node.None?;
        } else {
          OneMoreAsked(w, nonce, next, b.nonces);
        }
      }
    }
  }

  lemma OneMoreAsked(w: seq<Insert>, nonce: nat, from: nat, rest: seq<nat>)
    requires w != [] && w[0].node.Some? && nonce == Larger(w[0].node.value, from)
    requires EachAsked(w[1..], nonce + 1, rest)
    ensures EachAsked(w, from, [nonce] + rest)
  {
    var all := [nonce] + rest;
    forall i | 0 <= i < |w|
      ensures w[i].node.Some? && all[i] == Larger(w[i].node.value, if i == 0 then from else all[i - 1] + 1)
    {
      if i > 0 {
        var j := i - 1;
        assert w[i] == w[1..][j] && all[i] == rest[j];
        assert w[1..][j].node.Some?
          && rest[j] == Larger(w[1..][j].node.value, if j == 0 then nonce + 1 else rest[j - 1] + 1);
        assert all[i - 1] == if j == 0 then nonce else rest[j - 1];
      }
    }
  }

  /** As many nonces as inserts that want one. */
  lemma OnePerInsert(cached: Option<nat>, expired: bool, stored: nat, ops: seq<Insert>)
    requires expired ==> cached.Some?
    ensures var a := Allocate(cached, expired, stored, ops);
      a.Allocated? ==> |a.nonces| == |Wanting(ops)|
  {
    if cached.None? {
      ColdAsksOnce(stored, ops);
    } else if expired {
      ExpiredAsksEach(cached.value, stored, ops);
    } else {
      WarmCountsUp(cached.value, stored, ops);
    }
  }

  // ----- The allocator object -----

  class NonceAllocator {
    var nextNonceCache: map<string, nat>

    constructor ()
      ensures nextNonceCache == map[]
    {
      nextNonceCache := map[];
    }

    /** One signer's share of assignNonces. An error leaves the cache to be cleared. */
    method AssignNonces(signer: string, tooOld: bool, stored: nat, ops: seq<Insert>) returns (a: Allocation)
      modifies this
      ensures a == Allocate(InCache(old(nextNonceCache), signer), tooOld && signer in old(nextNonceCache), stored, ops)
      ensures a.Allocated? ==> |a.nonces| == |Wanting(ops)|
      ensures a.Allocated? ==>
        nextNonceCache == CachedAs(old(nextNonceCache), signer, a.next)
      ensures nextNonceCache - {signer} == old(nextNonceCache) - {signer}
    {
      var cacheEntry: Option<nat> := InCache(nextNonceCache, signer);
      var expired := false;
      if cacheEntry.Some? && tooOld {
        expired := true;
      }
      OnePerInsert(cacheEntry, expired, stored, ops);
      ghost var end := Allocate(cacheEntry, expired, stored, ops);
      var nonces: seq<nat> := [];
      for n := 0 to |ops|
        invariant end == WithAll(nonces, Allocate(cacheEntry, expired, stored, ops[n..]))
        invariant nextNonceCache == CachedAs(old(nextNonceCache), signer, cacheEntry)
      {
        assert ops[n..][1..] == ops[n + 1..];
        if !ops[n].conflict {
          var next: nat;
          if cacheEntry.None? || expired {
            if ops[n].node.None? {
              WithAllRefused(nonces);
              return Refused;
            }
            next := ops[n].node.value;
            var internal: nat := if cacheEntry.Some? then cacheEntry.value else stored;
            if internal > next {
              next := internal;
            }
          } else {
            next := cacheEntry.value;
          }
          WithAllAppend(nonces, next, Allocate(Some(next + 1), expired, stored, ops[n + 1..]));
          nonces := nonces + [next];
          cacheEntry := Some(next + 1);
          nextNonceCache := nextNonceCache[signer := next + 1];
        }
      }
      WithAllDone(nonces, cacheEntry);
      a := Allocated(nonces, cacheEntry);
    }

    /** assignNonces over all signers of a batch, in the order the map yields them; None when
        the node fails for one, which leaves the batch to be rolled back. */
    method AssignAllNonces(w: Writer, e: Event) returns (given: Option<map<string, Allocation>>)
      requires e.RunBatch? && nextNonceCache == w.cache && Possible(w, e)
      modifies this
      ensures given.Some? <==> forall s :: s in e.inserts ==> AllocatedTo(w, e, s).Allocated?
      ensures given.Some? ==> given.value.Keys == e.inserts.Keys && AssignedSoFar(w, e, nextNonceCache, given.value)
      ensures forall s :: s !in e.inserts ==> InCache(nextNonceCache, s) == InCache(w.cache, s)
    {
      var left := e.inserts.Keys;
      var done: map<string, Allocation> := map[];
      while left != {}
        invariant left <= e.inserts.Keys && done.Keys == e.inserts.Keys - left
        invariant AssignedSoFar(w, e, nextNonceCache, done)
        decreases |left|
      {
        var signer :| signer in left;
        ghost var before := nextNonceCache;
        assert InCache(before, signer) == InCache(w.cache, signer);
        var a := AssignNonces(signer, signer in e.expired, e.highest[signer], e.inserts[signer]);
        OnlySigner(before, nextNonceCache, signer);
        if a.Refused? {
          assert AllocatedTo(w, e, signer).Refused?;
          return None;
        }
        AssignedOneMore(w, e, before, done, signer, nextNonceCache, a);
        done := done[signer := a];
        left := left - {signer};
      }
      given := Some(done);
    }

    method ClearCachedNonces(signers: set<string>)
      modifies this
      ensures nextNonceCache == old(nextNonceCache) - signers
    {
      var left := signers;
      while left != {}
        invariant left <= signers && nextNonceCache == old(nextNonceCache) - (signers - left)
        decreases |left|
      {
        var signer :| signer in left;
        left := left - {signer};
        nextNonceCache := nextNonceCache - {signer};
      }
    }
  }

  function InCache(cache: map<string, nat>, signer: string): Option<nat> {
    if signer in cache then Some(cache[signer]) else None
  }

  /** The signers dealt with have what the batch gives them, in the cache too; the others'
      entries are as they were. */
  ghost predicate AssignedSoFar(w: Writer, e: Event, cache: map<string, nat>, done: map<string, Allocation>)
    requires e.RunBatch? && Possible(w, e)
  {
    && done.Keys <= e.inserts.Keys
    && (forall s :: s in done ==> done[s] == AllocatedTo(w, e, s) && done[s].Allocated?)
    && (forall s :: InCache(cache, s) == if s in done then done[s].next else InCache(w.cache, s))
  }

  lemma AssignedOneMore(
      w: Writer, e: Event, before: map<string, nat>, done: map<string, Allocation>, signer: string,
      after: map<string, nat>, a: Allocation)
    requires e.RunBatch? && Possible(w, e) && AssignedSoFar(w, e, before, done)
    requires signer in e.inserts && signer !in done
    requires a == AllocatedTo(w, e, signer) && a.Allocated? && after == CachedAs(before, signer, a.next)
    ensures AssignedSoFar(w, e, after, done[signer := a])
  {
    assert InCache(before, signer) == InCache(w.cache, signer);
    AllocateGoesUp(InCache(w.cache, signer), Expired(w, e, signer), e.highest[signer], e.inserts[signer]);
  }

  lemma OnlySigner(before: map<string, nat>, after: map<string, nat>, signer: string)
    requires after - {signer} == before - {signer}
    ensures forall s :: s != signer ==> InCache(after, s) == InCache(before, s)
  {
    forall s | s != signer ensures InCache(after, s) == InCache(before, s) {
      assert s in after <==> s in after - {signer};
      assert s in before <==> s in before - {signer};
      if s in after { assert (after - {signer})[s] == (before - {signer})[s]; }
    }
  }

  function CachedAs(cache: map<string, nat>, signer: string, next: Option<nat>): map<string, nat> {
    match next
    case None => cache
    case Some(n) => cache[signer := n]
  }

  ghost function WithAll(nonces: seq<nat>, rest: Allocation): Allocation {
    if nonces == [] then rest else With(nonces[0], WithAll(nonces[1..], rest))
  }

  lemma {:induction false} WithAllAppend(nonces: seq<nat>, n: nat, rest: Allocation)
    ensures WithAll(nonces, With(n, rest)) == WithAll(nonces + [n], rest)
  {
    if nonces != [] {
      WithAllAppend(nonces[1..], n, rest);
      assert (nonces + [n])[1..] == nonces[1..] + [n];
    }
  }

  lemma {:induction false} WithAllRefused(nonces: seq<nat>)
    ensures WithAll(nonces, Refused) == Refused
  {
    if nonces != [] { WithAllRefused(nonces[1..]); }
  }

  lemma {:induction false} WithAllDone(nonces: seq<nat>, next: Option<nat>)
    ensures WithAll(nonces, Allocated([], next)) == Allocated(nonces, next)
  {
    if nonces != [] { WithAllDone(nonces[1..], next); }
  }

  // ----- Any sequence of batches -----

  /** The cache and, per signer, the nonces of the stored transactions. */
  datatype Writer = Writer(cache: map<string, nat>, stored: map<string, set<nat>>)

  function StoredFor(w: Writer, signer: string): set<nat> {
    if signer in w.stored then w.stored[signer] else {}
  }

  /** commits: no other statement of the batch fails. highest: the database's answer for each
      signer, one above its highest stored nonce. */
  datatype Event =
    | RunBatch(inserts: map<string, seq<Insert>>, expired: set<string>, highest: map<string, nat>, commits: bool)
    | Evict(signer: string)
    | Delete(signer: string, nonce: nat)

  ghost predicate Possible(w: Writer, e: Event) {
    e.RunBatch? ==> forall s :: s in e.inserts ==> s in e.highest && AllBelow(StoredFor(w, s), e.highest[s])
  }

  function AllocatedTo(w: Writer, e: Event, signer: string): Allocation
    requires e.RunBatch? && signer in e.inserts && signer in e.highest
  {
    Allocate(InCache(w.cache, signer), Expired(w, e, signer), e.highest[signer], e.inserts[signer])
  }

  /** Only what is cached can expire. */
  predicate Expired(w: Writer, e: Event, signer: string)
    requires e.RunBatch?
  {
    signer in e.expired && signer in w.cache
  }

  ghost predicate Commits(w: Writer, e: Event)
    requires Possible(w, e)
  {
    e.RunBatch? && e.commits && forall s :: s in e.inserts ==> AllocatedTo(w, e, s).Allocated?
  }

  ghost function After(w: Writer, e: Event): Writer
    requires Possible(w, e)
  {
    match e
    case Evict(s) => w.(cache := w.cache - {s})
    case Delete(s, n) => w.(stored := w.stored[s := StoredFor(w, s) - {n}])
    case RunBatch(inserts, _, _, _) =>
      if Commits(w, e) then
        Writer(
          map s | s in w.cache.Keys + inserts.Keys
              && (s in inserts ==> AllocatedTo(w, e, s).next.Some?) ::
            if s in inserts then AllocatedTo(w, e, s).next.value else w.cache[s],
          map s | s in w.stored.Keys + inserts.Keys ::
            if s in inserts then StoredFor(w, s) + set n | n in AllocatedTo(w, e, s).nonces else w.stored[s])
      else w.(cache := w.cache - inserts.Keys)
  }

  ghost predicate Feasible(w: Writer, es: seq<Event>)
    decreases |es|
  {
    es == [] || (Possible(w, es[0]) && Feasible(After(w, es[0]), es[1..]))
  }

  ghost function AfterAll(w: Writer, es: seq<Event>): Writer
    requires Feasible(w, es)
    decreases |es|
  {
    if es == [] then w else AfterAll(After(w, es[0]), es[1..])
  }

  /** A cached next nonce is ahead of everything stored. */
  ghost predicate Ahead(w: Writer) {
    forall s :: s in w.cache ==> AllBelow(StoredFor(w, s), w.cache[s])
  }

  /** What a committed batch gives a signer is ahead of what is stored for it. */
  lemma CommittedAhead(w: Writer, e: Event, signer: string)
    requires Ahead(w) && Possible(w, e) && Commits(w, e) && signer in e.inserts
    ensures var a := AllocatedTo(w, e, signer);
      && Increasing(a.nonces)
      && (forall i :: 0 <= i < |a.nonces| ==> AllBelow(StoredFor(w, signer), a.nonces[i]))
      && (a.next.Some? ==>
            AllBelow(StoredFor(w, signer), a.next.value)
            && forall i :: 0 <= i < |a.nonces| ==> a.nonces[i] < a.next.value)
  {
    var cached := InCache(w.cache, signer);
    var a := AllocatedTo(w, e, signer);
    AllocateGoesUp(cached, Expired(w, e, signer), e.highest[signer], e.inserts[signer]);
    var base := if cached.Some? then cached.value else e.highest[signer];
    assert AllBelow(StoredFor(w, signer), base);
    if a.nonces != [] { assert a.nonces[|a.nonces| - 1] >= base; }
  }

  lemma AfterKeepsAhead(w: Writer, e: Event)
    requires Ahead(w) && Possible(w, e)
    ensures Ahead(After(w, e))
  {
    if Commits(w, e) {
      forall s | s in e.inserts
        ensures AllocatedTo(w, e, s).next.Some? ==>
          AllBelow(StoredFor(After(w, e), s), AllocatedTo(w, e, s).next.value)
      {
        CommittedAhead(w, e, s);
      }
    }
  }

  lemma {:induction false} AfterAllKeepsAhead(w: Writer, es: seq<Event>)
    requires Ahead(w) && Feasible(w, es)
    ensures Ahead(AfterAll(w, es))
    decreases |es|
  {
    if es != [] {
      AfterKeepsAhead(w, es[0]);
      AfterAllKeepsAhead(After(w, es[0]), es[1..]);
    }
  }

  /** After any batches, evictions, expiries, rollbacks and deletes, every nonce a committing
      batch assigns exceeds every nonce then stored for its signer, and one signer's nonces
      go up in queue order. */
  lemma NoncesNeverReused(es: seq<Event>, e: Event, signer: string)
    requires Feasible(Writer(map[], map[]), es)
    requires var w := AfterAll(Writer(map[], map[]), es);
      Possible(w, e) && Commits(w, e) && signer in e.inserts
    ensures var w := AfterAll(Writer(map[], map[]), es);
      var nonces := AllocatedTo(w, e, signer).nonces;
      && (forall i, n :: 0 <= i < |nonces| && n in StoredFor(w, signer) ==> n < nonces[i])
      && (forall i, j :: 0 <= i < j < |nonces| ==> nonces[i] < nonces[j])
  {
    AfterAllKeepsAhead(Writer(map[], map[]), es);
    CommittedAhead(AfterAll(Writer(map[], map[]), es), e, signer);
  }

  /** In every run, exactly which nonces a batch gives a signer: in number, the inserts that want
      one; from the node's answer and the database when nothing is cached, and then counting up;
      counting up from a cached entry; and, when that has expired, each from its node answer. */
  lemma AssignedExactly(w: Writer, e: Event, signer: string)
    requires Possible(w, e) && Commits(w, e) && signer in e.inserts
    ensures var nonces, wanting := AllocatedTo(w, e, signer).nonces, Wanting(e.inserts[signer]);
      && |nonces| == |wanting|
      && (signer !in w.cache && wanting != [] ==>
            && wanting[0].node.Some?
            && nonces == CountUp(Larger(wanting[0].node.value, e.highest[signer]), |wanting|))
      && (signer in w.cache && signer !in e.expired ==> nonces == CountUp(w.cache[signer], |wanting|))
      && (signer in w.cache && signer in e.expired ==> EachAsked(wanting, w.cache[signer], nonces))
  {
    ColdAsksOnce(e.highest[signer], e.inserts[signer]);
    if signer in w.cache {
      WarmCountsUp(w.cache[signer], e.highest[signer], e.inserts[signer]);
      ExpiredAsksEach(w.cache[signer], e.highest[signer], e.inserts[signer]);
    }
  }

  /** A committed batch stores what it assigned and remembers the nonce after the last; one that
      fails stores nothing and forgets its signers. Nobody else is affected. */
  lemma CommitRemembers(w: Writer, e: Event, signer: string)
    requires Possible(w, e) && e.RunBatch?
    ensures var v := After(w, e);
      if signer !in e.inserts then
        StoredFor(v, signer) == StoredFor(w, signer) && InCache(v.cache, signer) == InCache(w.cache, signer)
      else if Commits(w, e) then
        var nonces := AllocatedTo(w, e, signer).nonces;
        && (forall n :: n in StoredFor(v, signer) <==> n in StoredFor(w, signer) || n in nonces)
        && InCache(v.cache, signer) ==
             if nonces == [] then InCache(w.cache, signer) else Some(nonces[|nonces| - 1] + 1)
      else StoredFor(v, signer) == StoredFor(w, signer) && signer !in v.cache
  {
    if signer in e.inserts {
      AllocateGoesUp(InCache(w.cache, signer), Expired(w, e, signer), e.highest[signer], e.inserts[signer]);
    }
  }

  /** The event neither evicts the signer's entry nor inserts for it. */
  predicate Leaves(e: Event, signer: string) {
    && (e.Evict? ==> e.signer != signer)
    && (e.RunBatch? ==> signer !in e.inserts)
  }

  lemma {:induction false} CacheStays(w: Writer, es: seq<Event>, signer: string)
    requires Feasible(w, es) && forall i :: 0 <= i < |es| ==> Leaves(es[i], signer)
    ensures InCache(AfterAll(w, es).cache, signer) == InCache(w.cache, signer)
    decreases |es|
  {
    if es != [] {
      var e := es[0];
      assert Leaves(e, signer);
      if e.RunBatch? { CommitRemembers(w, e, signer); }
      CacheStays(After(w, e), es[1..], signer);
    }
  }

  /** No gap between batches: as long as a signer's entry stays cached and does not expire, its
      next batch goes on right after the last nonce of the one before, whatever happens to
      other signers, and whatever is deleted, in between. */
  lemma NoGapWhileCached(w: Writer, e: Event, between: seq<Event>, f: Event, signer: string)
    requires Possible(w, e) && Commits(w, e) && signer in e.inserts && AllocatedTo(w, e, signer).nonces != []
    requires Feasible(After(w, e), between) && forall i :: 0 <= i < |between| ==> Leaves(between[i], signer)
    requires var v := AfterAll(After(w, e), between);
      Possible(v, f) && Commits(v, f) && signer in f.inserts && signer !in f.expired
    ensures var first := AllocatedTo(w, e, signer).nonces;
      var second := AllocatedTo(AfterAll(After(w, e), between), f, signer).nonces;
      second == CountUp(first[|first| - 1] + 1, |Wanting(f.inserts[signer])|)
  {
    CommitRemembers(w, e, signer);
    CacheStays(After(w, e), between, signer);
    AssignedExactly(AfterAll(After(w, e), between), f, signer);
  }
}
