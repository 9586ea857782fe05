/** What acks and high water marks do to a listener's checkpoint: that they move it, where
    to, and which re-detections are then discarded. */
module EventStreamAcks {
  import opened Wrappers
  import opened EventStreams

  // ----- What a batch keeps -----

  /** Nothing the receiver acked tells against this event. */
  predicate Unacked(ls: map<string, Listener>, e: Event) {
    && e.listener in ls
    && (ls[e.listener].source.HighWaterMark? || ls[e.listener].checkpoint.None?
        || ls[e.listener].checkpoint.value < e.position)
  }

  /** A batch holds each arrival of a known listener that is not behind an acked position as
      often as it arrived, and nothing else. */
  lemma {:induction false} KeepsExactlyTheUnacked(ls: map<string, Listener>, arrivals: seq<Event>, e: Event)
    ensures multiset(Kept(ls, arrivals).events)[e] == if Unacked(ls, e) then multiset(arrivals)[e] else 0
  {
    if arrivals != [] {
      var k := |arrivals| - 1;
      KeepsExactlyTheUnacked(ls, arrivals[..k], e);
      assert arrivals == arrivals[..k] + [arrivals[k]];
    }
  }

  // ----- Acks and marks move the checkpoint -----

  /** Finishing a batch writes the position of its last event, as acked; with no batch it writes
      what there is. */
  lemma FinishWritesLast(r: Run)
    requires Enabled(r, FinishBatch)
    ensures var s := Step(r, FinishBatch);
      && s == r.(l := s.l, batch := [], generated := s.generated)
      && (r.batch != [] ==>
            && s.l == Listener(Some(r.batch[|r.batch| - 1]), Acked)
            && s.generated == r.generated + [r.batch[|r.batch| - 1]])
      && (r.batch == [] ==>
            && s.l == r.l
            && s.generated == r.generated + if r.l.checkpoint.Some? then [r.l.checkpoint.value] else [])
  {
  }

  /** A whole high-water-mark query in a quiet moment. */
  function Query(inFlight: bool): seq<Action> {
    [Ask, ReadScan, ReadDetected, Apply(inFlight)]
  }

  /** A query moves the checkpoint to the scan position exactly when all the connector has
      detected is committed, or it has detected nothing and nothing is in flight. */
  lemma QueryMovesToScan(r: Run, inFlight: bool)
    requires r.query.NotAsking? && r.batch == []
    ensures Legal(r, Query(inFlight))
    ensures var s := Exec(r, Query(inFlight));
      var committed :=
        if r.detected.Some? then r.l.checkpoint.Some? && r.l.checkpoint.value >= r.detected.value else !inFlight;
      && s.l == (if committed then Listener(Some(r.scan), HighWaterMark) else r.l)
      && s == r.(l := s.l, generated := s.generated)
      && (committed ==> s.generated == r.generated + [r.scan])
  {
    ExecOneMore(r, [], Ask);
    assert [] + [Ask] == [Ask];
    ExecOneMore(r, [Ask], ReadScan);
    assert [Ask] + [ReadScan] == [Ask, ReadScan];
    ExecOneMore(r, [Ask, ReadScan], ReadDetected);
    assert [Ask, ReadScan] + [ReadDetected] == [Ask, ReadScan, ReadDetected];
    ExecOneMore(r, [Ask, ReadScan, ReadDetected], Apply(inFlight));
    assert [Ask, ReadScan, ReadDetected] + [Apply(inFlight)] == Query(inFlight);
  }

  /** The whole of what waits arrives and is acked. */
  function Delivery(r: Run): seq<Action> {
    Arrivals(|r.waiting|) + [FinishBatch]
  }

  lemma {:induction false} AllDelivered(l: Listener, ps: seq<Position>)
    requires forall i :: 0 <= i < |ps| ==> !Discards(l, ps[i])
    ensures EventStreams.Delivered(l, ps) == ps
  {
    if ps != [] {
      var k := |ps| - 1;
      AllDelivered(l, ps[..k]);
      assert ps == ps[..k] + [ps[k]];
    }
  }

  lemma DeliveryFrom(r: Run)
    requires r.query.NotAsking? && forall i :: 0 <= i < |r.waiting| ==> !Discards(r.l, r.waiting[i])
    ensures Legal(r, Delivery(r))
    ensures Exec(r, Delivery(r)) == Step(r.(batch := r.batch + r.waiting, waiting := []), FinishBatch)
  {
    AllDelivered(r.l, r.waiting);
    assert r.waiting == r.waiting + [];
    ArrivalsCollect(r, r.waiting, []);
    ExecOneMore(r, Arrivals(|r.waiting|), FinishBatch);
  }

  /** Everything outstanding was acked, at the position of the last and highest of it. */
  predicate CaughtUp(r: Run, s: Run) {
    var all := r.batch + r.waiting;
    && s == r.(l := s.l, batch := [], waiting := [], generated := s.generated)
    && (if all == [] then s.l == r.l else s.l == Listener(Some(all[|all| - 1]), Acked))
    && (forall i :: 0 <= i < |all| ==> all[i] <= all[|all| - 1])
  }

  lemma HighestOutstanding(r: Run)
    requires EventStreams.Inv(r)
    ensures CaughtUp(r, Step(r.(batch := r.batch + r.waiting, waiting := [], query := NotAsking), FinishBatch)
              .(query := r.query))
    ensures forall i :: 0 <= i < |r.waiting| ==> !Discards(r.l, r.waiting[i])
  {
    var all := Outstanding(r);
    assert Ascending(all);
    FinishWritesLast(r.(batch := all, waiting := [], query := NotAsking));
    forall i | 0 <= i < |r.waiting| ensures !Discards(r.l, r.waiting[i]) {
      assert r.waiting[i] == all[|r.batch| + i];
    }
  }

  /** Catching up: in every run, once the batch loop is not asking, letting everything
      outstanding arrive and acking it moves the checkpoint to the highest outstanding
      position, and nothing is outstanding any more. */
  lemma DeliveryCatchesUp(r0: Run, actions: seq<Action>)
    requires Fresh(r0) && Legal(r0, actions) && Exec(r0, actions).query.NotAsking?
    ensures var r := Exec(r0, actions);
      Legal(r, Delivery(r)) && CaughtUp(r, Exec(r, Delivery(r)))
  {
    var r := Exec(r0, actions);
    ExecKeepsInv(r0, actions);
    HighestOutstanding(r);
    DeliveryFrom(r);
  }

  // ----- Completed events are discarded when they come again -----

  const START: Intake := Intake(Listener(None, Acked), {}, [], {}, [])

  /** Every completed position would be discarded if it arrived now. */
  ghost predicate Shielded(s: Intake) {
    forall p :: p in s.done ==> Discards(s.l, p)
  }

  lemma {:induction false} AfterAppend(s: Intake, moves: seq<Move>, m: Move)
    requires Feasible(s, moves) && Possible(After(s, moves), m)
    ensures Feasible(s, moves + [m]) && After(s, moves + [m]) == Moved(After(s, moves), m)
    decreases |moves|
  {
    if moves == [] {
      assert ([] + [m])[1..] == [];
    } else {
      AfterAppend(Moved(s, moves[0]), moves[1..], m);
      assert (moves + [m])[1..] == moves[1..] + [m];
    }
  }

  /** Whatever came before, re-detections and marks included: completing a batch shields all
      that is then completed if and only if the batch ends with the highest position that has
      arrived so far. */
  lemma ShieldsExactlyWhenLastIsHighest(moves: seq<Move>)
    requires Feasible(START, moves) && After(START, moves).batch != []
    ensures var s := After(START, moves);
      Shielded(Moved(s, Completed)) <==> forall p :: p in s.seen ==> p <= s.batch[|s.batch| - 1]
  {
    AfterKeepsInv(START, moves);
    var s := After(START, moves);
    var t := Moved(s, Completed);
    if Shielded(t) {
      forall p | p in s.seen ensures p <= s.batch[|s.batch| - 1] {
        assert p in t.done;
      }
    }
  }

  /** No mark is applied and nothing arrives again while it is in the batch under way. */
  predicate Plain(s: Intake, m: Move) {
    match m
    case Arrival(p) => p !in s.batch
    case Marked(mark, inFlight) => !SafeToApply(s.l, mark, inFlight)
    case Completed => true
  }

  predicate AllPlain(s: Intake, moves: seq<Move>)
    decreases |moves|
  {
    moves == [] || (Plain(s, moves[0]) && AllPlain(Moved(s, moves[0]), moves[1..]))
  }

  ghost predicate PlainInv(s: Intake) {
    && IntakeInv(s) && Shielded(s)
    && (forall p, i :: p in s.done && 0 <= i < |s.batch| ==> p < s.batch[i])
    && (forall i, j :: 0 <= i < j < |s.batch| ==> s.batch[i] < s.batch[j])
  }

  lemma PlainMoveKeepsInv(s: Intake, m: Move)
    requires PlainInv(s) && Possible(s, m) && Plain(s, m)
    ensures PlainInv(Moved(s, m))
  {
    MoveKeepsInv(s, m);
    var t := Moved(s, m);
    if m.Arrival? && t.batch != s.batch {
      assert m.p !in s.done;
      forall i | 0 <= i < |s.batch| ensures s.batch[i] < m.p {
        assert s.batch[i] in s.batch;
      }
    } else if m.Completed? && s.batch != [] {
      var last := s.batch[|s.batch| - 1];
      assert last in s.batch;
      forall p | p in t.done ensures p <= last {
      }
    }
  }

  lemma {:induction false} PlainMovesKeepInv(s: Intake, moves: seq<Move>)
    requires PlainInv(s) && Feasible(s, moves) && AllPlain(s, moves)
    ensures PlainInv(After(s, moves))
    decreases |moves|
  {
    if moves != [] {
      PlainMoveKeepsInv(s, moves[0]);
      PlainMovesKeepInv(Moved(s, moves[0]), moves[1..]);
    }
  }

  /** Discard completeness: until a mark is applied, and with nothing re-detected while its
      batch is under way, an event of any completed batch that arrives again is discarded, and
      one that has not arrived before is delivered. */
  lemma CompletedIsDiscarded(moves: seq<Move>, p: Position)
    requires Feasible(START, moves) && AllPlain(START, moves)
    requires Possible(After(START, moves), Arrival(p))
    ensures var s := After(START, moves);
      var t := Moved(s, Arrival(p));
      && (p in s.done ==> t.dropped == s.dropped + [(p, s.done)] && t.batch == s.batch)
      && (p !in s.seen ==> t.batch == s.batch + [p] && t.dropped == s.dropped)
  {
    PlainMovesKeepInv(START, moves);
  }

  /** An event re-detected while its batch is under way moves the checkpoint back: 5, 6 and 5
      again complete at 5, and 6 is then delivered a second time. */
  lemma RedetectedInBatchIsRedelivered()
    ensures var moves := [Arrival(5), Arrival(6), Arrival(5), Completed];
      && Feasible(START, moves)
      && 6 in After(START, moves).done
      && Moved(After(START, moves), Arrival(6)).batch == [6]
  {
    var a := Moved(START, Arrival(5));
    var b := Moved(a, Arrival(6));
    var c := Moved(b, Arrival(5));
    assert b.batch == [5, 6] && c.batch == [5, 6, 5] && c.batch[1] == 6;
    FourMoves(START, Arrival(5), Arrival(6), Arrival(5), Completed);
  }

  lemma FourMoves(s: Intake, a: Move, b: Move, c: Move, d: Move)
    requires Possible(s, a) && Possible(Moved(s, a), b) && Possible(Moved(Moved(s, a), b), c)
    requires Possible(Moved(Moved(Moved(s, a), b), c), d)
    ensures Feasible(s, [a, b, c, d]) && After(s, [a, b, c, d]) == Moved(Moved(Moved(Moved(s, a), b), c), d)
  {
    AfterAppend(s, [], a);
    assert [] + [a] == [a];
    AfterAppend(s, [a], b);
    assert [a] + [b] == [a, b];
    AfterAppend(s, [a, b], c);
    assert [a, b] + [c] == [a, b, c];
    AfterAppend(s, [a, b, c], d);
    assert [a, b, c] + [d] == [a, b, c, d];
  }
}
