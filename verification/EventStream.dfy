/** Event stream checkpointing: positions acked by the receiver and scan positions reported
    by the connector (high water marks) share one checkpoint per listener. */
module EventStreams {
  import opened Wrappers

  /** A position in a listener's stream, ordered as the connector's LessThan orders it. */
  type Position = nat

  datatype Source = Acked | HighWaterMark

  datatype Listener = Listener(checkpoint: Option<Position>, source: Source)

  datatype Event = Event(listener: string, position: Position)

  /** The connector's answer about one listener. */
  datatype Mark = Mark(scanned: Position, lastDetected: Option<Position>)

  datatype Batch = Batch(events: seq<Event>, checkpoints: map<string, Position>)

  // ----- Decisions about one listener -----

  /** Behind a position the receiver acked: a re-detection. Behind a mere scan position
      nothing is known, so the event is delivered. */
  predicate Discards(l: Listener, p: Position) {
    l.checkpoint.Some? && l.checkpoint.value >= p && l.source.Acked?
  }

  /** Everything the connector has detected was acked, or it detected nothing and nothing is
      in flight. */
  predicate SafeToApply(l: Listener, m: Mark, inFlight: bool) {
    match m.lastDetected
    case Some(d) => l.checkpoint.Some? && l.checkpoint.value >= d
    case None => !inFlight
  }

  function MarkApplied(l: Listener, m: Mark, inFlight: bool): Listener {
    if SafeToApply(l, m, inFlight) then Listener(Some(m.scanned), HighWaterMark) else l
  }

  /** A completed batch moves each of its listeners to its last position there. */
  function AllAcked(ls: map<string, Listener>, batch: Batch): map<string, Listener> {
    map id | id in ls :: if id in batch.checkpoints then Listener(Some(batch.checkpoints[id]), Acked) else ls[id]
  }

  // ----- The stream object -----

  /** The events a batch keeps out of a run of arrivals, and the last position per listener. */
  function Kept(ls: map<string, Listener>, arrivals: seq<Event>): Batch {
    if arrivals == [] then Batch([], map[])
    else
      var k := |arrivals| - 1;
      var b, e := Kept(ls, arrivals[..k]), arrivals[k];
      if e.listener in ls && !Discards(ls[e.listener], e.position)
      then Batch(b.events + [e], b.checkpoints[e.listener := e.position])
      else b
  }

  /** The position a batch records for a listener is that of its last event there. */
  lemma {:induction false} LastEventWins(ls: map<string, Listener>, arrivals: seq<Event>, id: string)
    ensures var b := Kept(ls, arrivals);
      && (id in b.checkpoints <==> exists i :: 0 <= i < |b.events| && b.events[i].listener == id)
      && (id in b.checkpoints ==>
            exists i :: 0 <= i < |b.events| && b.events[i] == Event(id, b.checkpoints[id])
              && forall j :: i < j < |b.events| ==> b.events[j].listener != id)
  {
    if arrivals != [] {
      var k := |arrivals| - 1;
      LastEventWins(ls, arrivals[..k], id);
      var b0, b, e := Kept(ls, arrivals[..k]), Kept(ls, arrivals), arrivals[k];
      if b != b0 {
        assert b.events[|b0.events|] == e;
        if e.listener != id && id in b.checkpoints {
          var i :| 0 <= i < |b0.events| && b0.events[i] == Event(id, b0.checkpoints[id])
            && forall j :: i < j < |b0.events| ==> b0.events[j].listener != id;
          assert b.events[i] == Event(id, b.checkpoints[id]);
          assert forall j :: i < j < |b.events| ==> b.events[j].listener != id;
        }
      }
    }
  }

  predicate NoneOf(events: seq<Event>, id: string) {
    forall i :: 0 <= i < |events| ==> events[i].listener != id
  }

  /** If this is the batch's last event for its listener, the recorded position is its own. */
  predicate LastIsRecorded(b: Batch, i: nat)
    requires i < |b.events|
  {
    (forall j :: i < j < |b.events| ==> b.events[j].listener != b.events[i].listener) ==>
      b.events[i].listener in b.checkpoints && b.checkpoints[b.events[i].listener] == b.events[i].position
  }

  /** Only events of known listeners are kept. */
  lemma {:induction false} KeptIsKnown(ls: map<string, Listener>, arrivals: seq<Event>, i: nat)
    requires i < |Kept(ls, arrivals).events|
    ensures Kept(ls, arrivals).events[i].listener in ls
  {
    var k := |arrivals| - 1;
    if i < |Kept(ls, arrivals[..k]).events| { KeptIsKnown(ls, arrivals[..k], i); }
  }

  class EventStream {
    var listeners: map<string, Listener>

    constructor (ids: set<string>)
      ensures listeners == map id | id in ids :: Listener(None, Acked)
    {
      listeners := map id | id in ids :: Listener(None, Acked);
    }

    method CheckConfirmedEventForBatch(e: Event) returns (deliver: bool)
      ensures deliver <==> e.listener in listeners && !Discards(listeners[e.listener], e.position)
      ensures deliver <==>
        && e.listener in listeners
        && (listeners[e.listener].checkpoint.None?
            || listeners[e.listener].checkpoint.value < e.position
            || listeners[e.listener].source.HighWaterMark?)
    {
      if e.listener !in listeners {
        return false;
      }
      var l := listeners[e.listener];
      if l.checkpoint.Some? && l.checkpoint.value >= e.position {
        if l.source.HighWaterMark? {
          return true;
        }
        return false;
      }
      return true;
    }

    /** Assembles a batch from what arrives until it is full or the timer fires. */
    method BatchPoll(arrivals: seq<Event>, maxSize: nat) returns (batch: Batch, taken: nat)
      requires maxSize > 0
      ensures taken <= |arrivals| && batch == Kept(listeners, arrivals[..taken])
      ensures |batch.events| <= maxSize
      ensures taken < |arrivals| ==> |batch.events| == maxSize
    {
      batch, taken := Batch([], map[]), 0;
      while taken < |arrivals| && |batch.events| < maxSize
        invariant taken <= |arrivals| && batch == Kept(listeners, arrivals[..taken])
        invariant |batch.events| <= maxSize
      {
        var e := arrivals[taken];
        assert arrivals[..taken + 1][..taken] == arrivals[..taken];
        var deliver := CheckConfirmedEventForBatch(e);
        if deliver {
          batch := Batch(batch.events + [e], batch.checkpoints[e.listener := e.position]);
        }
        taken := taken + 1;
      }
    }

    method AckBatch(batch: Batch)
      modifies this
      ensures listeners == AllAcked(old(listeners), batch)
      ensures listeners.Keys == old(listeners).Keys
      ensures forall id :: id in listeners && id in batch.checkpoints ==>
        listeners[id] == Listener(Some(batch.checkpoints[id]), Acked)
      ensures forall id :: id in listeners && id !in batch.checkpoints ==> listeners[id] == old(listeners)[id]
    {
      var was := listeners;
      var ids := batch.checkpoints.Keys;
      while ids != {}
        invariant ids <= batch.checkpoints.Keys
        invariant listeners == map id | id in was ::
          if id in batch.checkpoints && id !in ids then Listener(Some(batch.checkpoints[id]), Acked) else was[id]
        decreases |ids|
      {
        var id :| id in ids;
        ids := ids - {id};
        if id in listeners {
          listeners := listeners[id := Listener(Some(batch.checkpoints[id]), Acked)];
        }
      }
    }

    /** One turn of the batch loop: each listener with an event in the batch ends up acked at the
        last of them, and the others stay where they were. */
    method BatchLoopTurn(arrivals: seq<Event>, maxSize: nat) returns (batch: Batch, taken: nat)
      requires maxSize > 0
      modifies this
      ensures taken <= |arrivals| && batch == Kept(old(listeners), arrivals[..taken])
      ensures |batch.events| <= maxSize && (taken < |arrivals| ==> |batch.events| == maxSize)
      ensures listeners.Keys == old(listeners).Keys
      ensures forall i :: 0 <= i < |batch.events| ==>
        var e := batch.events[i];
        (forall j :: i < j < |batch.events| ==> batch.events[j].listener != e.listener) ==>
          e.listener in listeners && listeners[e.listener] == Listener(Some(e.position), Acked)
      ensures forall id :: id in listeners && NoneOf(batch.events, id) ==> listeners[id] == old(listeners)[id]
    {
      batch, taken := BatchPoll(arrivals, maxSize);
      AckBatch(batch);
      forall i | 0 <= i < |batch.events| ensures LastIsRecorded(batch, i) && batch.events[i].listener in listeners {
        LastEventWins(old(listeners), arrivals[..taken], batch.events[i].listener);
        KeptIsKnown(old(listeners), arrivals[..taken], i);
      }
      forall id | id in batch.checkpoints
        ensures exists i :: 0 <= i < |batch.events| && batch.events[i].listener == id
      {
        LastEventWins(old(listeners), arrivals[..taken], id);
      }
    }

    /** Applies the connector's mark if the listener has not moved since it was asked for. */
    method CheckUpdateHWMCheckpoint(id: string, before: Option<Position>, mark: Mark, inFlight: bool)
      returns (checkpoint: Option<Position>)
      requires id in listeners
      modifies this
      ensures listeners.Keys == old(listeners).Keys
      ensures forall k :: k in listeners && k != id ==> listeners[k] == old(listeners)[k]
      ensures listeners[id] ==
        if old(listeners)[id].checkpoint == before then MarkApplied(old(listeners)[id], mark, inFlight)
        else old(listeners)[id]
      ensures old(listeners)[id].checkpoint == before ==> checkpoint == listeners[id].checkpoint
      ensures var committed := old(listeners)[id].checkpoint;
        var safe :=
          if mark.lastDetected.Some? then committed.Some? && committed.value >= mark.lastDetected.value else !inFlight;
        if committed == before && safe
        then checkpoint == Some(mark.scanned) && listeners[id] == Listener(Some(mark.scanned), HighWaterMark)
        else checkpoint == before && listeners[id] == old(listeners)[id]
    {
      checkpoint := before;
      var l := listeners[id];
      if mark.lastDetected.Some? {
        if l.checkpoint.None? || l.checkpoint.value < mark.lastDetected.value {
          return;
        }
      } else if inFlight {
        return;
      }
      if l.checkpoint == before {
        checkpoint := Some(mark.scanned);
        listeners := listeners[id := Listener(checkpoint, HighWaterMark)];
      }
    }
  }

  // ----- Checkpoint safety: one listener of a fresh stream, step by step -----

  /** Where the batch loop is in asking the connector for its mark. */
  datatype Query = NotAsking | Asked | Scanned(scan: Position) | Answered(mark: Mark)

  /** batch and waiting hold what was pushed, not removed, and not yet acked or skipped;
      generated holds every checkpoint written so far. */
  datatype Run = Run(
    l: Listener,
    batch: seq<Position>,
    waiting: seq<Position>,
    query: Query,
    generated: seq<Position>,
    pushed: seq<Position>,
    detected: Option<Position>,
    scan: Position)

  datatype Action =
    | Push(p: Position)
    | NoteDetected
    | AdvanceScan(to: Position)
    | Retract(index: nat)
    | Arrive
    | FinishBatch
    | Ask
    | ReadScan
    | ReadDetected
    | Apply(inFlight: bool)

  function Outstanding(r: Run): seq<Position> {
    r.batch + r.waiting
  }

  /** The connector's side of the contract: events are pushed in increasing order beyond
      what it has scanned, and it notes an event as detected before its scan passes it. */
  predicate Enabled(r: Run, a: Action) {
    match a
    case Push(p) => p > r.scan && forall i :: 0 <= i < |r.pushed| ==> r.pushed[i] < p
    case NoteDetected => r.pushed != []
    case AdvanceScan(to) => to >= r.scan && Accounted(r.pushed, to, r.detected)
    case Retract(i) => i < |r.waiting|
    case Arrive => r.waiting != [] && r.query.NotAsking?
    case FinishBatch => r.query.NotAsking?
    case Ask => r.query.NotAsking? && r.batch == []
    case ReadScan => r.query.Asked?
    case ReadDetected => r.query.Scanned?
    case Apply(_) => r.query.Answered?
  }

  function Generated(r: Run): seq<Position> {
    match r.l.checkpoint
    case None => r.generated
    case Some(c) => r.generated + [c]
  }

  function Step(r: Run, a: Action): Run
    requires Enabled(r, a)
  {
    match a
    case Push(p) => r.(waiting := r.waiting + [p], pushed := r.pushed + [p])
    case NoteDetected => r.(detected := Some(r.pushed[|r.pushed| - 1]))
    case AdvanceScan(to) => r.(scan := to)
    case Retract(i) => r.(waiting := r.waiting[..i] + r.waiting[i + 1..])
    case Arrive =>
      var p := r.waiting[0];
      var rest := r.(waiting := r.waiting[1..]);
      if Discards(r.l, p) then rest else rest.(batch := r.batch + [p])
    case FinishBatch =>
      if r.batch == [] then r.(generated := Generated(r))
      else
        var moved := r.(l := Listener(Some(r.batch[|r.batch| - 1]), Acked), batch := []);
        moved.(generated := Generated(moved))
    case Ask => r.(query := Asked)
    case ReadScan => r.(query := Scanned(r.scan))
    case ReadDetected => r.(query := Answered(Mark(r.query.scan, r.detected)))
    case Apply(inFlight) =>
      var moved := r.(l := MarkApplied(r.l, r.query.mark, inFlight), query := NotAsking);
      moved.(generated := Generated(moved))
  }

  predicate Legal(r: Run, actions: seq<Action>)
    decreases |actions|
  {
    actions == [] || (Enabled(r, actions[0]) && Legal(Step(r, actions[0]), actions[1..]))
  }

  function Exec(r: Run, actions: seq<Action>): Run
    requires Legal(r, actions)
    decreases |actions|
  {
    if actions == [] then r else Exec(Step(r, actions[0]), actions[1..])
  }

  predicate Fresh(r: Run) {
    r == Run(Listener(None, Acked), [], [], NotAsking, [], [], None, r.scan)
  }

  predicate Above(ps: seq<Position>, p: Position) {
    forall i :: 0 <= i < |ps| ==> ps[i] > p
  }

  /** Pushed positions the connector has scanned past are ones it reports as detected. */
  predicate Accounted(pushed: seq<Position>, scan: Position, detected: Option<Position>) {
    forall i :: 0 <= i < |pushed| && pushed[i] <= scan ==> detected.Some? && pushed[i] <= detected.value
  }

  predicate Ascending(ps: seq<Position>) {
    forall i, j :: 0 <= i < j < |ps| ==> ps[i] < ps[j]
  }

  /** A position that no future push can fall behind. */
  predicate Passed(r: Run, p: Position) {
    p <= r.scan || (r.pushed != [] && p <= r.pushed[|r.pushed| - 1])
  }

  predicate Behind(r: Run, p: Position) {
    Above(Outstanding(r), p) && Passed(r, p)
  }

  predicate ConnectorInv(r: Run) {
    && Ascending(r.pushed) && Pending(r.pushed, Outstanding(r))
    && Accounted(r.pushed, r.scan, r.detected)
  }

  predicate CheckpointInv(r: Run) {
    && (r.l.checkpoint.Some? ==> Behind(r, r.l.checkpoint.value))
    && (forall g :: 0 <= g < |r.generated| ==> Behind(r, r.generated[g]))
  }

  predicate QueryInv(r: Run) {
    match r.query
    case NotAsking => true
    case Asked => r.batch == []
    case Scanned(s) => r.batch == [] && s <= r.scan
    case Answered(m) => r.batch == [] && m.scanned <= r.scan && Accounted(r.pushed, m.scanned, m.lastDetected)
  }

  predicate Inv(r: Run) {
    ConnectorInv(r) && CheckpointInv(r) && QueryInv(r)
  }

  /** The outstanding events after a step are some of those before it, in the same order,
      and perhaps a pushed one at the end. */
  ghost predicate Thinned(was: seq<Position>, now: seq<Position>, more: seq<Position>) {
    exists lo, hi :: 0 <= lo <= hi <= |was| && now == was[..lo] + was[hi..] + more
  }

  function PushedBy(a: Action): seq<Position> {
    if a.Push? then [a.p] else []
  }

  lemma ThinnedBy(was: seq<Position>, lo: nat, hi: nat, now: seq<Position>, more: seq<Position>)
    requires lo <= hi <= |was| && now == was[..lo] + was[hi..] + more
    ensures Thinned(was, now, more)
  {
  }

  lemma NotThinned(was: seq<Position>, now: seq<Position>, more: seq<Position>)
    requires now == was + more
    ensures Thinned(was, now, more)
  {
    assert was[..0] + was[0..] == was;
    ThinnedBy(was, 0, 0, now, more);
  }

  lemma RetractThins(batch: seq<Position>, waiting: seq<Position>, i: nat)
    requires i < |waiting|
    ensures Thinned(batch + waiting, batch + (waiting[..i] + waiting[i + 1..]), [])
  {
    var was, n := batch + waiting, |batch|;
    var now := batch + (waiting[..i] + waiting[i + 1..]);
    assert was[..n + i] == batch + waiting[..i];
    assert was[n + i + 1..] == waiting[i + 1..];
    assert now == was[..n + i] + was[n + i + 1..] + [];
    ThinnedBy(was, n + i, n + i + 1, now, []);
  }

  lemma FinishThins(batch: seq<Position>, waiting: seq<Position>)
    ensures Thinned(batch + waiting, [] + waiting, [])
  {
    var was := batch + waiting;
    assert was[|batch|..] == waiting;
    assert [] + waiting == was[..0] + was[|batch|..] + [];
    ThinnedBy(was, 0, |batch|, [] + waiting, []);
  }

  lemma ArriveThins(batch: seq<Position>, waiting: seq<Position>)
    requires waiting != []
    ensures Thinned(batch + waiting, (batch + [waiting[0]]) + waiting[1..], [])
  {
    assert (batch + [waiting[0]]) + waiting[1..] == batch + waiting + [];
    NotThinned(batch + waiting, (batch + [waiting[0]]) + waiting[1..], []);
  }

  lemma OutstandingThinned(r: Run, a: Action)
    requires Enabled(r, a) && (a.Arrive? ==> !Discards(r.l, r.waiting[0]))
    ensures Thinned(Outstanding(r), Outstanding(Step(r, a)), PushedBy(a))
  {
    if a.Push? {
      assert r.batch + (r.waiting + [a.p]) == Outstanding(r) + [a.p];
      NotThinned(Outstanding(r), Outstanding(Step(r, a)), [a.p]);
    } else if a.Retract? {
      RetractThins(r.batch, r.waiting, a.index);
    } else if a.Arrive? {
      ArriveThins(r.batch, r.waiting);
    } else if a.FinishBatch? {
      FinishedThins(r);
    } else {
      assert Outstanding(Step(r, a)) == Outstanding(r) + [];
      NotThinned(Outstanding(r), Outstanding(Step(r, a)), []);
    }
  }

  lemma FinishedThins(r: Run)
    requires Enabled(r, FinishBatch)
    ensures Thinned(Outstanding(r), Outstanding(Step(r, FinishBatch)), [])
  {
    if r.batch == [] {
      assert Outstanding(Step(r, FinishBatch)) == Outstanding(r) + [];
      NotThinned(Outstanding(r), Outstanding(Step(r, FinishBatch)), []);
    } else {
      FinishThins(r.batch, r.waiting);
    }
  }

  lemma NothingDiscarded(r: Run)
    requires Inv(r) && r.waiting != []
    ensures !Discards(r.l, r.waiting[0])
  {
    assert r.waiting[0] == Outstanding(r)[|r.batch|];
  }

  lemma ThinnedStaysAbove(was: seq<Position>, now: seq<Position>, more: seq<Position>, q: Position)
    requires Thinned(was, now, more) && Above(was, q) && Above(more, q)
    ensures Above(now, q)
  {
    var lo, hi :| 0 <= lo <= hi <= |was| && now == was[..lo] + was[hi..] + more;
    assert Above(was[..lo], q) && Above(was[hi..], q);
  }

  /** What keeps the outstanding events in order among all those pushed. */
  predicate Pending(pushed: seq<Position>, outstanding: seq<Position>) {
    Ascending(outstanding) && forall i :: 0 <= i < |outstanding| ==> outstanding[i] in pushed
  }

  /** Leaving some out keeps the order. */
  lemma KeptStaysPending(pushed: seq<Position>, was: seq<Position>, lo: nat, hi: nat)
    requires Pending(pushed, was) && lo <= hi <= |was|
    ensures Pending(pushed, was[..lo] + was[hi..])
  {
    var kept := was[..lo] + was[hi..];
    forall i | 0 <= i < |kept| ensures kept[i] == was[if i < lo then i else i - lo + hi] {
    }
    forall i, j | 0 <= i < j < |kept| ensures kept[i] < kept[j] {
      assert kept[i] == was[if i < lo then i else i - lo + hi] && kept[j] == was[if j < lo then j else j - lo + hi];
    }
  }

  /** What is pushed comes after all that was. */
  lemma MoreStaysPending(pushed: seq<Position>, kept: seq<Position>, more: seq<Position>)
    requires Pending(pushed, kept) && Ascending(pushed + more)
    ensures Pending(pushed + more, kept + more)
  {
    var all, now := pushed + more, kept + more;
    forall i | 0 <= i < |now| ensures now[i] in all {
      if i < |kept| {
        assert kept[i] in pushed;
      } else {
        assert now[i] == all[|pushed| + (i - |kept|)];
      }
    }
    forall i, j | 0 <= i < j < |now| ensures now[i] < now[j] {
      if i >= |kept| {
        assert all[|pushed| + (i - |kept|)] < all[|pushed| + (j - |kept|)];
      } else if j >= |kept| {
        assert kept[i] in pushed;
        var k :| 0 <= k < |pushed| && pushed[k] == kept[i];
        assert all[k] < all[|pushed| + (j - |kept|)];
      }
    }
  }

  lemma ThinnedStaysPending(pushed: seq<Position>, was: seq<Position>, now: seq<Position>, more: seq<Position>)
    requires Pending(pushed, was) && Thinned(was, now, more) && Ascending(pushed + more)
    ensures Pending(pushed + more, now)
  {
    var lo, hi :| 0 <= lo <= hi <= |was| && now == was[..lo] + was[hi..] + more;
    KeptStaysPending(pushed, was, lo, hi);
    MoreStaysPending(pushed, was[..lo] + was[hi..], more);
  }

  lemma StepKeepsPushed(r: Run, a: Action)
    requires ConnectorInv(r) && Enabled(r, a)
    ensures Step(r, a).pushed == r.pushed + PushedBy(a) && Ascending(r.pushed + PushedBy(a))
    ensures Accounted(Step(r, a).pushed, Step(r, a).scan, Step(r, a).detected)
  {
  }

  lemma StepKeepsQueryInv(r: Run, a: Action)
    requires Inv(r) && Enabled(r, a)
    ensures QueryInv(Step(r, a))
  {
  }

  lemma StepKeepsConnectorInv(r: Run, a: Action)
    requires Inv(r) && Enabled(r, a)
    ensures ConnectorInv(Step(r, a))
  {
    if a.Arrive? { NothingDiscarded(r); }
    OutstandingThinned(r, a);
    StepKeepsPushed(r, a);
    ThinnedStaysPending(r.pushed, Outstanding(r), Outstanding(Step(r, a)), PushedBy(a));
  }

  /** A mark that is safe to apply is behind everything outstanding. */
  lemma SafeMarkIsBehind(r: Run, inFlight: bool)
    requires Inv(r) && r.query.Answered? && SafeToApply(r.l, r.query.mark, inFlight)
    ensures Behind(r, r.query.mark.scanned)
  {
    var m := r.query.mark;
    forall i | 0 <= i < |Outstanding(r)| ensures Outstanding(r)[i] > m.scanned {
      assert Outstanding(r)[i] in r.pushed;
      var k :| 0 <= k < |r.pushed| && r.pushed[k] == Outstanding(r)[i];
      assert !(r.pushed[k] <= m.scanned);
    }
  }

  /** The LastDetected contract is exactly what is needed: a mark that passes the checks is
      ahead of nothing outstanding if and only if the connector reports as detected every
      outstanding event its scan has passed. */
  lemma SafeExactlyWhenAccounted(r: Run, m: Mark, inFlight: bool)
    requires CheckpointInv(r) && SafeToApply(r.l, m, inFlight)
    ensures Above(Outstanding(r), m.scanned) <==> Accounted(Outstanding(r), m.scanned, m.lastDetected)
  {
    if Accounted(Outstanding(r), m.scanned, m.lastDetected) && m.lastDetected.Some? {
      assert Behind(r, r.l.checkpoint.value);
    }
  }

  lemma PassedStaysPassed(r: Run, a: Action, q: Position)
    requires ConnectorInv(r) && Enabled(r, a) && Passed(r, q)
    ensures Passed(Step(r, a), q) && Above(PushedBy(a), q)
  {
  }

  /** What is behind everything outstanding stays so. */
  lemma StepKeepsBehind(r: Run, a: Action, q: Position)
    requires Inv(r) && Enabled(r, a) && Behind(r, q)
    ensures Behind(Step(r, a), q)
  {
    if a.Arrive? { NothingDiscarded(r); }
    OutstandingThinned(r, a);
    PassedStaysPassed(r, a, q);
    ThinnedStaysAbove(Outstanding(r), Outstanding(Step(r, a)), PushedBy(a), q);
  }

  /** A completed batch leaves its last event behind all that is still outstanding. */
  lemma AckedIsBehind(r: Run)
    requires Inv(r) && r.batch != []
    ensures Behind(Step(r, FinishBatch), r.batch[|r.batch| - 1])
  {
    var s, n := Step(r, FinishBatch), |r.batch|;
    assert Outstanding(s) == Outstanding(r)[n..];
    assert r.batch[n - 1] == Outstanding(r)[n - 1] && Outstanding(r)[n - 1] in r.pushed;
    var k :| 0 <= k < |r.pushed| && r.pushed[k] == Outstanding(r)[n - 1];
  }

  lemma CheckpointStaysBehind(r: Run, a: Action)
    requires Inv(r) && Enabled(r, a)
    ensures var s := Step(r, a); s.l.checkpoint.Some? ==> Behind(s, s.l.checkpoint.value)
  {
    if a.FinishBatch? && r.batch != [] {
      AckedIsBehind(r);
    } else if a.Apply? && SafeToApply(r.l, r.query.mark, a.inFlight) {
      SafeMarkIsBehind(r, a.inFlight);
      StepKeepsBehind(r, a, r.query.mark.scanned);
    } else if r.l.checkpoint.Some? {
      StepKeepsBehind(r, a, r.l.checkpoint.value);
    }
  }

  lemma StepKeepsCheckpointInv(r: Run, a: Action)
    requires Inv(r) && Enabled(r, a)
    ensures CheckpointInv(Step(r, a))
  {
    var s := Step(r, a);
    CheckpointStaysBehind(r, a);
    forall g | 0 <= g < |s.generated| ensures Behind(s, s.generated[g]) {
      if g < |r.generated| { StepKeepsBehind(r, a, r.generated[g]); }
    }
  }

  lemma StepKeepsInv(r: Run, a: Action)
    requires Inv(r) && Enabled(r, a)
    ensures Inv(Step(r, a))
  {
    StepKeepsConnectorInv(r, a);
    StepKeepsQueryInv(r, a);
    StepKeepsCheckpointInv(r, a);
  }

  lemma {:induction false} ExecKeepsInv(r: Run, actions: seq<Action>)
    requires Inv(r) && Legal(r, actions)
    ensures Inv(Exec(r, actions))
    decreases |actions|
  {
    if actions != [] {
      StepKeepsInv(r, actions[0]);
      ExecKeepsInv(Step(r, actions[0]), actions[1..]);
    }
  }

  /** Checkpoint safety: in every run no checkpoint ever generated, from an ack or from a
      high water mark, reaches an event that was pushed and is neither removed nor acked
      nor skipped; and the next arrival is never taken for a re-detection. */
  lemma CheckpointSafety(r0: Run, actions: seq<Action>)
    requires Fresh(r0) && Legal(r0, actions)
    ensures var r := Exec(r0, actions);
      && (forall g, i :: 0 <= g < |r.generated| && 0 <= i < |r.batch| ==> r.generated[g] < r.batch[i])
      && (forall g, i :: 0 <= g < |r.generated| && 0 <= i < |r.waiting| ==> r.generated[g] < r.waiting[i])
      && (forall i :: 0 <= i < |r.waiting| ==> !Discards(r.l, r.waiting[i]))
  {
    ExecKeepsInv(r0, actions);
    var r := Exec(r0, actions);
    assert forall i :: 0 <= i < |r.batch| ==> r.batch[i] == Outstanding(r)[i];
    assert forall i :: 0 <= i < |r.waiting| ==> r.waiting[i] == Outstanding(r)[|r.batch| + i];
  }

  // ----- Each listener of a stream makes such a run -----

  /** One listener's positions among the events of many. */
  function Mine(events: seq<Event>, id: string): seq<Position> {
    if events == [] then []
    else
      var k := |events| - 1;
      if events[k].listener == id then Mine(events[..k], id) + [events[k].position] else Mine(events[..k], id)
  }

  function Delivered(l: Listener, ps: seq<Position>): seq<Position> {
    if ps == [] then []
    else
      var k := |ps| - 1;
      if Discards(l, ps[k]) then Delivered(l, ps[..k]) else Delivered(l, ps[..k]) + [ps[k]]
  }

  /** What a batch of many listeners holds for one of them is what that one would have kept of
      its own arrivals, and the position recorded for it is the last of those. */
  lemma {:induction false} BatchProjects(ls: map<string, Listener>, arrivals: seq<Event>, id: string)
    requires id in ls
    ensures var b := Kept(ls, arrivals);
      var ps := Delivered(ls[id], Mine(arrivals, id));
      && Mine(b.events, id) == ps
      && (id in b.checkpoints <==> ps != [])
      && (id in b.checkpoints ==> b.checkpoints[id] == ps[|ps| - 1])
  {
    if arrivals != [] {
      var k := |arrivals| - 1;
      BatchProjects(ls, arrivals[..k], id);
      var e := arrivals[k];
      var was, now := Kept(ls, arrivals[..k]), Kept(ls, arrivals);
      if now != was { assert now.events[..|was.events|] == was.events; }
      if e.listener == id {
        var ps := Mine(arrivals, id);
        assert ps[..|ps| - 1] == Mine(arrivals[..k], id);
      }
    }
  }

  function Arrivals(n: nat): seq<Action> {
    seq(n, _ => Arrive)
  }

  /** Arrivals one by one: what is not discarded joins the batch. */
  lemma {:induction false} ArrivalsCollect(r: Run, ps: seq<Position>, rest: seq<Position>)
    requires r.query.NotAsking? && r.waiting == ps + rest
    ensures Legal(r, Arrivals(|ps|))
    ensures Exec(r, Arrivals(|ps|)) == r.(batch := r.batch + Delivered(r.l, ps), waiting := rest)
    decreases |ps|
  {
    if ps == [] {
      assert ps + rest == rest && r.batch + [] == r.batch;
      assert Arrivals(0) == [];
    } else {
      var k := |ps| - 1;
      assert r.waiting == ps[..k] + ([ps[k]] + rest);
      ArrivalsCollect(r, ps[..k], [ps[k]] + rest);
      var t := Exec(r, Arrivals(k));
      ExecOneMore(r, Arrivals(k), Arrive);
      assert Arrivals(k) + [Arrive] == Arrivals(|ps|);
      assert ([ps[k]] + rest)[1..] == rest;
      assert (r.batch + Delivered(r.l, ps[..k])) + [ps[k]] == r.batch + (Delivered(r.l, ps[..k]) + [ps[k]]);
    }
  }

  lemma {:induction false} ExecOneMore(r: Run, actions: seq<Action>, a: Action)
    requires Legal(r, actions) && Enabled(Exec(r, actions), a)
    ensures Legal(r, actions + [a]) && Exec(r, actions + [a]) == Step(Exec(r, actions), a)
    decreases |actions|
  {
    if actions == [] {
      assert ([] + [a])[1..] == [];
    } else {
      ExecOneMore(Step(r, actions[0]), actions[1..], a);
      assert (actions + [a])[1..] == actions[1..] + [a];
    }
  }

  /** Polling and acking a batch of a stream of many listeners is, for each of them, its own
      events arriving one by one and its own batch finishing: the run CheckpointSafety is
      about. */
  lemma StreamIsRunOfEach(ls: map<string, Listener>, arrivals: seq<Event>, id: string, r: Run, rest: seq<Position>)
    requires id in ls && r.l == ls[id] && r.batch == [] && r.query.NotAsking? && r.waiting == Mine(arrivals, id) + rest
    ensures var actions := Arrivals(|Mine(arrivals, id)|) + [FinishBatch];
      && Legal(r, actions)
      && Exec(r, actions).l == AllAcked(ls, Kept(ls, arrivals))[id]
      && Exec(r, actions).waiting == rest && Exec(r, actions).batch == []
  {
    var ps := Mine(arrivals, id);
    ArrivalsCollect(r, ps, rest);
    assert [] + Delivered(r.l, ps) == Delivered(r.l, ps);
    BatchProjects(ls, arrivals, id);
    ExecOneMore(r, Arrivals(|ps|), FinishBatch);
  }

  // ----- Discard soundness: any connector, any re-detections -----

  /** seen: positions that have arrived; done: positions in completed batches; dropped: the
      arrivals discarded, each with what had been completed by then. */
  datatype Intake = Intake(
    l: Listener,
    seen: set<Position>,
    batch: seq<Position>,
    done: set<Position>,
    dropped: seq<(Position, set<Position>)>)

  datatype Move = Arrival(p: Position) | Completed | Marked(mark: Mark, inFlight: bool)

  /** Positions arrive for the first time in increasing order; a re-detection may arrive at
      any time, and the connector may answer anything. */
  predicate Possible(s: Intake, m: Move) {
    match m
    case Arrival(p) => p in s.seen || forall q :: q in s.seen ==> q < p
    case Completed => s.batch != []
    case Marked(_, _) => true
  }

  function Moved(s: Intake, m: Move): Intake {
    match m
    case Arrival(p) =>
      var t := s.(seen := s.seen + {p});
      if Discards(s.l, p) then t.(dropped := s.dropped + [(p, s.done)]) else t.(batch := s.batch + [p])
    case Completed =>
      if s.batch == [] then s
      else s.(l := Listener(Some(s.batch[|s.batch| - 1]), Acked), batch := [], done := s.done + set p | p in s.batch)
    case Marked(mark, inFlight) => s.(l := MarkApplied(s.l, mark, inFlight))
  }

  predicate Feasible(s: Intake, moves: seq<Move>)
    decreases |moves|
  {
    moves == [] || (Possible(s, moves[0]) && Feasible(Moved(s, moves[0]), moves[1..]))
  }

  function After(s: Intake, moves: seq<Move>): Intake
    decreases |moves|
  {
    if moves == [] then s else After(Moved(s, moves[0]), moves[1..])
  }

  ghost predicate IntakeInv(s: Intake) {
    && (forall p :: p in s.seen <==> p in s.done || p in s.batch)
    && (s.l.checkpoint.Some? && s.l.source.Acked? ==>
          && s.l.checkpoint.value in s.done
          && forall p :: p in s.seen && p <= s.l.checkpoint.value ==> p in s.done)
    && (forall i :: 0 <= i < |s.dropped| ==> s.dropped[i].0 in s.dropped[i].1)
  }

  lemma MoveKeepsInv(s: Intake, m: Move)
    requires IntakeInv(s) && Possible(s, m)
    ensures IntakeInv(Moved(s, m))
  {
  }

  lemma {:induction false} AfterKeepsInv(s: Intake, moves: seq<Move>)
    requires IntakeInv(s) && Feasible(s, moves)
    ensures IntakeInv(After(s, moves))
    decreases |moves|
  {
    if moves != [] {
      MoveKeepsInv(s, moves[0]);
      AfterKeepsInv(Moved(s, moves[0]), moves[1..]);
    }
  }

  /** Discard soundness: every discarded event was already in a completed batch when it was
      discarded, whatever marks the connector reported. */
  lemma DiscardSoundness(moves: seq<Move>)
    requires Feasible(Intake(Listener(None, Acked), {}, [], {}, []), moves)
    ensures var s := After(Intake(Listener(None, Acked), {}, [], {}, []), moves);
      forall i :: 0 <= i < |s.dropped| ==> s.dropped[i].0 in s.dropped[i].1
  {
    AfterKeepsInv(Intake(Listener(None, Acked), {}, [], {}, []), moves);
  }
}
