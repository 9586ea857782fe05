/** BufferChannel: block events are always taken from the connector, whether or not the
    target can keep up; what cannot be passed on is discarded and the gap is marked. */
module BlockBuffer {
  import opened Wrappers

  datatype Event = Event(headBlockNumber: nat, blockHashes: seq<string>, gapPotential: bool)

  /** Arrive: the connector sends an event, and the target has room for one or not.
      Room: the target takes an event while the loop is blocked. */
  datatype Turn = Arrive(event: Event, ready: bool) | Room

  /** index: which of the received events this is; at: how many had been received by the time
      it was passed on. */
  datatype Delivery = Delivery(index: nat, event: Event, at: nat)

  datatype Held = Held(index: nat, event: Event)

  datatype Buffer = Buffer(received: seq<Event>, blocked: Option<Held>, delivered: seq<Delivery>)

  const FRESH: Buffer := Buffer([], None, [])

  function Step(b: Buffer, t: Turn): Buffer {
    match t
    case Arrive(e, ready) =>
      var n := |b.received|;
      var got := b.(received := b.received + [e]);
      if b.blocked.Some? then
        got.(blocked := Some(b.blocked.value.(event := b.blocked.value.event.(gapPotential := true))))
      else if ready then got.(delivered := b.delivered + [Delivery(n, e, n + 1)])
      else got.(blocked := Some(Held(n, e)))
    case Room =>
      if b.blocked.None? then b
      else
        b.(blocked := None,
           delivered := b.delivered + [Delivery(b.blocked.value.index, b.blocked.value.event, |b.received|)])
  }

  function Exec(b: Buffer, turns: seq<Turn>): Buffer
    decreases |turns|
  {
    if turns == [] then b else Exec(Step(b, turns[0]), turns[1..])
  }

  lemma {:induction false} ExecAppend(b: Buffer, turns: seq<Turn>, t: Turn)
    ensures Exec(b, turns + [t]) == Step(Exec(b, turns), t)
    decreases |turns|
  {
    if turns == [] {
      assert ([] + [t])[1..] == [];
    } else {
      ExecAppend(Step(b, turns[0]), turns[1..], t);
      assert (turns + [t])[1..] == turns[1..] + [t];
    }
  }

  // ----- The loop over event objects -----

  class BlockHashEvent {
    var headBlockNumber: nat
    var blockHashes: seq<string>
    var gapPotential: bool

    constructor (e: Event)
      ensures Value() == e
    {
      headBlockNumber, blockHashes, gapPotential := e.headBlockNumber, e.blockHashes, e.gapPotential;
    }

    function Value(): Event
      reads this
    {
      Event(headBlockNumber, blockHashes, gapPotential)
    }
  }

  /** A turn as the loop sees it, with the connector's own event object. */
  datatype Select = Receive(update: BlockHashEvent, ready: bool) | TargetReady

  ghost function AsTurn(s: Select): Turn
    reads if s.Receive? then {s.update} else {}
  {
    match s
    case Receive(update, ready) => Arrive(update.Value(), ready)
    case TargetReady => Room
  }

  ghost function AsTurns(selects: seq<Select>): seq<Turn>
    reads set s | s in selects && s.Receive? :: s.update
  {
    if selects == [] then [] else AsTurns(selects[..|selects| - 1]) + [AsTurn(selects[|selects| - 1])]
  }

  ghost predicate Shows(delivered: seq<BlockHashEvent>, ds: seq<Delivery>)
    reads delivered
  {
    |delivered| == |ds| && forall i :: 0 <= i < |ds| ==> delivered[i].Value() == ds[i].event
  }

  /** The two-mode select loop up to cancellation. It modifies nothing that existed before, so
      the caller's events, which other streams share, stay as they are. */
  method BufferChannel(selects: seq<Select>) returns (delivered: seq<BlockHashEvent>)
    ensures Shows(delivered, Exec(FRESH, AsTurns(selects)).delivered)
    ensures forall i :: 0 <= i < |delivered| ==>
      fresh(delivered[i]) || exists s :: s in selects && s.Receive? && s.update == delivered[i]
  {
    delivered := [];
    var blockedUpdate: BlockHashEvent? := null;
    ghost var now := FRESH;
    for n := 0 to |selects|
      invariant now == Exec(FRESH, AsTurns(selects[..n]))
      invariant Shows(delivered, now.delivered)
      invariant blockedUpdate != null <==> now.blocked.Some?
      invariant blockedUpdate != null ==>
        fresh(blockedUpdate) && blockedUpdate !in delivered && blockedUpdate.Value() == now.blocked.value.event
      invariant forall i :: 0 <= i < |delivered| ==>
        fresh(delivered[i]) || exists s :: s in selects && s.Receive? && s.update == delivered[i]
    {
      assert selects[..n + 1][..n] == selects[..n];
      ghost var turn := AsTurn(selects[n]);
      ExecAppend(FRESH, AsTurns(selects[..n]), turn);
      match selects[n] {
        case Receive(update, ready) =>
          if blockedUpdate != null {
            blockedUpdate.gapPotential := true;
          } else if ready {
            delivered := delivered + [update];
          } else {
            blockedUpdate := new BlockHashEvent(update.Value());
          }
        case TargetReady =>
          if blockedUpdate != null {
            delivered := delivered + [blockedUpdate];
            blockedUpdate := null;
          }
      }
      now := Step(now, turn);
    }
    assert selects[..|selects|] == selects;
  }

  // ----- What every interleaving keeps -----

  /** The delivery is the received event, its flag raised exactly when events behind it were
      discarded before it got through. */
  predicate Faithful(received: seq<Event>, d: Delivery) {
    && d.index < d.at <= |received|
    && d.event == received[d.index].(gapPotential := received[d.index].gapPotential || d.at > d.index + 1)
  }

  /** Where the next delivery or the held event starts: nothing is dropped outside a gap. */
  function Reached(ds: seq<Delivery>): nat {
    if ds == [] then 0 else ds[|ds| - 1].at
  }

  ghost predicate Contiguous(ds: seq<Delivery>) {
    forall i, j :: 0 <= i && j == i + 1 && j < |ds| ==> ds[j].index == ds[i].at
  }

  ghost predicate Inv(b: Buffer) {
    && (forall i :: 0 <= i < |b.delivered| ==> Faithful(b.received, b.delivered[i]))
    && Contiguous(b.delivered)
    && (b.delivered != [] ==> b.delivered[0].index == 0)
    && match b.blocked
       case None => Reached(b.delivered) == |b.received|
       case Some(h) => Reached(b.delivered) == h.index && Faithful(b.received, Delivery(h.index, h.event, |b.received|))
  }

  lemma StepKeepsInv(b: Buffer, t: Turn)
    requires Inv(b)
    ensures Inv(Step(b, t))
  {
    var c := Step(b, t);
    forall i | 0 <= i < |c.delivered| ensures Faithful(c.received, c.delivered[i]) {
      if i < |b.delivered| { assert Faithful(b.received, b.delivered[i]); }
    }
  }

  lemma {:induction false} ExecKeepsInv(b: Buffer, turns: seq<Turn>)
    requires Inv(b)
    ensures Inv(Exec(b, turns))
    decreases |turns|
  {
    if turns != [] {
      StepKeepsInv(b, turns[0]);
      ExecKeepsInv(Step(b, turns[0]), turns[1..]);
    }
  }

  lemma {:induction false} IndexesGoUp(b: Buffer, i: nat, j: nat)
    requires Inv(b) && i < j < |b.delivered|
    ensures b.delivered[i].at <= b.delivered[j].index
    decreases j
  {
    if i < j - 1 {
      IndexesGoUp(b, i, j - 1);
      assert Faithful(b.received, b.delivered[j - 1]);
    }
    assert b.delivered[j].index == b.delivered[j - 1].at;
  }

  /** For every interleaving of arrivals and target readiness: the deliveries are a
      subsequence of what was received, unaltered but for the flag; an event went out with
      GapPotential raised exactly when something was discarded behind it, and everything
      discarded between two deliveries was discarded before the earlier went out. */
  lemma NoSilentGap(turns: seq<Turn>, i: nat, j: nat)
    requires i < j < |Exec(FRESH, turns).delivered|
    ensures var b := Exec(FRESH, turns);
      var d, e := b.delivered[i], b.delivered[j];
      && d.index < e.index < |b.received|
      && d.event == b.received[d.index].(gapPotential := d.event.gapPotential)
      && e.event == b.received[e.index].(gapPotential := e.event.gapPotential)
      && (j == i + 1 ==>
            && d.at == e.index
            && (d.event.gapPotential <==> b.received[d.index].gapPotential || e.index > d.index + 1))
  {
    ExecKeepsInv(FRESH, turns);
    var b := Exec(FRESH, turns);
    assert Faithful(b.received, b.delivered[i]) && Faithful(b.received, b.delivered[j]);
    IndexesGoUp(b, i, j);
  }

  /** Every received event is delivered, held, or was discarded behind one that tells. */
  lemma NothingLostUnmarked(turns: seq<Turn>, k: nat)
    requires k < |Exec(FRESH, turns).received|
    ensures var b := Exec(FRESH, turns);
      || (exists i :: 0 <= i < |b.delivered| && b.delivered[i].index == k)
      || (exists i :: 0 <= i < |b.delivered|
            && b.delivered[i].index < k < b.delivered[i].at && b.delivered[i].event.gapPotential)
      || (b.blocked.Some? && b.blocked.value.index == k)
      || (b.blocked.Some? && b.blocked.value.index < k && b.blocked.value.event.gapPotential)
  {
    ExecKeepsInv(FRESH, turns);
    var b := Exec(FRESH, turns);
    if Reached(b.delivered) <= k {
      assert b.blocked.Some?;
    } else {
      var i := Covering(b, k, |b.delivered| - 1);
      assert Faithful(b.received, b.delivered[i]);
    }
  }

  /** The delivery whose span of received events takes in k. */
  lemma {:induction false} Covering(b: Buffer, k: nat, last: nat) returns (i: nat)
    requires Inv(b) && last < |b.delivered| && k < b.delivered[last].at
    ensures i <= last && b.delivered[i].index <= k < b.delivered[i].at
    decreases last
  {
    if b.delivered[last].index <= k {
      i := last;
    } else {
      assert last > 0 && b.delivered[last].index == b.delivered[last - 1].at;
      i := Covering(b, k, last - 1);
    }
  }

  /** A target with room gets the held event, after which nothing is held. */
  lemma RoomDeliversHeld(b: Buffer)
    requires b.blocked.Some?
    ensures var c := Step(b, Room);
      && c.blocked.None? && c.received == b.received
      && c.delivered == b.delivered + [Delivery(b.blocked.value.index, b.blocked.value.event, |b.received|)]
  {
  }

  /** So after any turns a target with room is left with nothing held, and every received event
      was delivered or discarded behind a delivered one that tells. */
  lemma RoomLeavesNothingHeld(turns: seq<Turn>, k: nat)
    requires k < |Exec(FRESH, turns).received|
    ensures var c := Exec(FRESH, turns + [Room]);
      && c.blocked.None? && c.received == Exec(FRESH, turns).received
      && exists i :: 0 <= i < |c.delivered| && c.delivered[i].index <= k
           && (c.delivered[i].index == k || (k < c.delivered[i].at && c.delivered[i].event.gapPotential))
  {
    ExecAppend(FRESH, turns, Room);
    NothingLostUnmarked(turns + [Room], k);
  }

  function AllReady(events: seq<Event>): seq<Turn> {
    seq(|events|, i requires 0 <= i < |events| => Arrive(events[i], true))
  }

  /** A target that always has room gets every event, as it was, at once. */
  lemma {:induction false} ReadyTargetGetsAll(events: seq<Event>)
    ensures var b := Exec(FRESH, AllReady(events));
      && b.blocked.None? && b.received == events && |b.delivered| == |events|
      && forall i :: 0 <= i < |events| ==> b.delivered[i] == Delivery(i, events[i], i + 1)
  {
    if events != [] {
      var k := |events| - 1;
      ReadyTargetGetsAll(events[..k]);
      assert AllReady(events) == AllReady(events[..k]) + [Arrive(events[k], true)];
      ExecAppend(FRESH, AllReady(events[..k]), Arrive(events[k], true));
      assert events == events[..k] + [events[k]];
    }
  }

  /** An event that finds the target busy is held, and those after it are dropped until there is
      room: the flag then tells of them. */
  lemma {:induction false} BusyTargetDrops(b: Buffer, e: Event, dropped: seq<Turn>)
    requires b.blocked.None? && forall i :: 0 <= i < |dropped| ==> dropped[i].Arrive?
    ensures var c := Exec(b, [Arrive(e, false)] + dropped);
      && c.delivered == b.delivered
      && c.blocked == Some(Held(|b.received|, e.(gapPotential := e.gapPotential || dropped != [])))
  {
    if dropped == [] {
      ExecAppend(b, [], Arrive(e, false));
      assert [Arrive(e, false)] + dropped == [] + [Arrive(e, false)];
    } else {
      var k := |dropped| - 1;
      BusyTargetDrops(b, e, dropped[..k]);
      assert [Arrive(e, false)] + dropped == ([Arrive(e, false)] + dropped[..k]) + [dropped[k]];
      ExecAppend(b, [Arrive(e, false)] + dropped[..k], dropped[k]);
    }
  }
}
