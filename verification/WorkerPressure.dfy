/** In-flight counters against the records really in flight, and the bound that back-pressure puts on them. */
module WorkerPressure {
  import opened Collections
  import opened OffsetManager
  import opened Worker
  import opened WorkerOrder
  import opened WorkerAccounting
  import Offsets

  /**
   A tidy step uses the partition state that the manager's map holds, and forgets a partition only when
   its drain returned nil, so nothing of it is in flight.
   */
  ghost predicate Tidy(w: Process, a: Action) {
    match a
    case TrackRecord(r, c) => IsLive(w, r.tp, c)
    case CloseInline(c) => w.current.Some? && IsLive(w, w.current.value.tp, c)
    case FinishJob(i, c) => i < |w.lanes| && w.lanes[i].running.Some? && IsLive(w, w.lanes[i].running.value.tp, c)
    case ForgetPartition(tp) =>
      tp in w.index && w.index[tp] < |w.cells| ==> w.cells[w.index[tp]].part.inFlight <= 0
    case _ => true
  }

  predicate IsLive(w: Process, tp: TopicPartition, c: nat) {
    tp in w.index && w.index[tp] == c
  }

  ghost predicate TidyStep(s: System, step: Step) {
    step.Do? && step.id in s.workers ==> Tidy(s.workers[step.id], step.action)
  }

  ghost predicate TidyRun(cfg: Config, s: System, steps: seq<Step>)
    requires ValidConfig(cfg)
  {
    steps == [] ||
    (TidyRun(cfg, s, DropLast(steps)) && TidyStep(After(cfg, s, DropLast(steps)), Last(steps)))
  }

  // ----- The counters -----

  ghost predicate CellInv(c: Cell) {
    c.part == Offsets.Run(Offsets.FRESH, c.ops)
  }

  /** The live state of a partition counts the records pending for it, offset by offset and in total. */
  ghost predicate LiveInv(w: Process, tp: TopicPartition) {
    if tp in w.index then
      && IsCellOf(w, w.index[tp], tp)
      && var c := w.cells[w.index[tp]];
      && CellInv(c)
      && Offsets.Honest(c.ops)
      && c.part.inFlight == Pending(OfPartition(tp), w)
      && forall o: nat :: Offsets.Outstanding(c.ops)[o] == Pending(AtOffset(tp, o), w)
    else
      && Pending(OfPartition(tp), w) == 0
      && forall o: nat :: Pending(AtOffset(tp, o), w) == 0
  }

  lemma ApplyToCell(c: Cell, op: Offsets.Op)
    requires CellInv(c) && Offsets.Honest(c.ops)
    requires op.OpComplete? ==> op.offset in Offsets.Outstanding(c.ops)
    ensures CellInv(ApplyTo(c, op)) && Offsets.Honest(ApplyTo(c, op).ops)
    ensures op.OpTrack? || op.OpComplete? ==> ApplyTo(c, op).ops == c.ops + [op]
    ensures forall o: nat :: Offsets.Outstanding(ApplyTo(c, op).ops)[o] ==
              Offsets.Outstanding(c.ops)[o] + OpEffect(op, (op.OpTrack? || op.OpComplete?) && op.offset == o)
    ensures ApplyTo(c, op).part.inFlight == c.part.inFlight + OpEffect(op, true)
  {
    Offsets.RunSnoc(Offsets.FRESH, c.ops, op);
    assert DropLast(c.ops + [op]) == c.ops && Last(c.ops + [op]) == op;
  }

  /** A record about to be completed is pending, so its offset is outstanding. */
  lemma ClosingIsPending(cfg: Config, s: System, w: Process, a: Action)
    requires ValidConfig(cfg) && Enabled(cfg, s, w, a) && Closes(w, a).Some?
    ensures Pending(AtOffset(Closes(w, a).value.tp, Closes(w, a).value.offset), w) > 0
  {
    PendingMoves(cfg, s, w, a, AtOffset(Closes(w, a).value.tp, Closes(w, a).value.offset));
  }

  /** The section an action runs on a partition state. */
  function OpOf(w: Process, a: Action): Option<(nat, Offsets.Op)> {
    match a
    case TrackRecord(r, c) => Some((c, Offsets.OpTrack(r.offset, 0)))
    case CloseInline(c) => if w.current.Some? then Some((c, Offsets.OpComplete(w.current.value.offset))) else None
    case FinishJob(i, c) =>
      if i < |w.lanes| && w.lanes[i].running.Some? then Some((c, Offsets.OpComplete(w.lanes[i].running.value.offset)))
      else None
    case FlushCell(c) => Some((c, Offsets.OpFlush))
    case DrainCell(c) => Some((c, Offsets.OpDrain))
    case ReceiveToken(c, ch) => Some((c, Offsets.OpReceive(ch)))
    case _ => None
  }

  lemma ActCells(cfg: Config, s: System, w: Process, a: Action, c: nat)
    requires ValidConfig(cfg) && Enabled(cfg, s, w, a) && c < |w.cells|
    ensures c < |Act(cfg, s, w, a).cells|
    ensures Act(cfg, s, w, a).cells[c] ==
            if OpOf(w, a).Some? && OpOf(w, a).value.0 == c then ApplyTo(w.cells[c], OpOf(w, a).value.1) else w.cells[c]
  {
  }

  lemma LiveStep(cfg: Config, s: System, w: Process, a: Action, tp: TopicPartition)
    requires ValidConfig(cfg) && Enabled(cfg, s, w, a) && Tidy(w, a)
    requires forall t :: LiveInv(w, t)
    ensures LiveInv(Act(cfg, s, w, a), tp)
  {
    assert LiveInv(w, tp);
    if a.ForgetPartition? {
      LiveForget(cfg, s, w, a, tp);
    } else if tp in w.index && OpOf(w, a).Some? && OpOf(w, a).value.0 == w.index[tp] {
      if a.TrackRecord? {
        assert LiveInv(w, a.record.tp);
      }
      if Closes(w, a).Some? {
        assert LiveInv(w, Closes(w, a).value.tp);
      }
      LiveTouched(cfg, s, w, a, tp);
    } else {
      OtherPartition(w, a, tp);
      SamePending(cfg, s, w, a, tp);
      if tp in w.index {
        ActCells(cfg, s, w, a, w.index[tp]);
      }
    }
  }

  lemma LiveForget(cfg: Config, s: System, w: Process, a: Action, tp: TopicPartition)
    requires ValidConfig(cfg) && Tidy(w, a) && a.ForgetPartition? && LiveInv(w, tp)
    ensures LiveInv(Act(cfg, s, w, a), tp)
  {
    if a.tp == tp {
      PendingAtMost(w, tp);
    }
    SamePending(cfg, s, w, a, tp);
  }

  lemma SamePending(cfg: Config, s: System, w: Process, a: Action, tp: TopicPartition)
    requires ValidConfig(cfg) && Enabled(cfg, s, w, a)
    requires a.TrackRecord? ==> a.record.tp != tp
    requires Closes(w, a).Some? ==> Closes(w, a).value.tp != tp
    ensures Pending(OfPartition(tp), Act(cfg, s, w, a)) == Pending(OfPartition(tp), w)
    ensures forall o: nat :: Pending(AtOffset(tp, o), Act(cfg, s, w, a)) == Pending(AtOffset(tp, o), w)
  {
    PendingMoves(cfg, s, w, a, OfPartition(tp));
    forall o: nat ensures Pending(AtOffset(tp, o), Act(cfg, s, w, a)) == Pending(AtOffset(tp, o), w) {
      PendingMoves(cfg, s, w, a, AtOffset(tp, o));
    }
  }

  /** What a section on the state of tp does to the records pending for tp. */
  lemma PendingOfOp(cfg: Config, s: System, w: Process, a: Action, tp: TopicPartition)
    requires ValidConfig(cfg) && Enabled(cfg, s, w, a) && OpOf(w, a).Some? && IsCellOf(w, OpOf(w, a).value.0, tp)
    ensures var v, op := Act(cfg, s, w, a), OpOf(w, a).value.1;
            && v.index == w.index
            && Pending(OfPartition(tp), v) == Pending(OfPartition(tp), w) + OpEffect(op, true)
            && (forall o: nat :: Pending(AtOffset(tp, o), v) ==
                  Pending(AtOffset(tp, o), w) + OpEffect(op, (op.OpTrack? || op.OpComplete?) && op.offset == o))
            && (op.OpComplete? ==> Pending(AtOffset(tp, op.offset), w) > 0)
  {
    PendingMoves(cfg, s, w, a, OfPartition(tp));
    forall o: nat { PendingMoves(cfg, s, w, a, AtOffset(tp, o)); }
    if Closes(w, a).Some? {
      ClosingIsPending(cfg, s, w, a);
    }
  }

  /** +1 for a Track, -1 for a Complete, of an offset that counts. */
  function OpEffect(op: Offsets.Op, counts: bool): int {
    if !counts then 0 else if op.OpTrack? then 1 else if op.OpComplete? then -1 else 0
  }

  lemma LiveTouched(cfg: Config, s: System, w: Process, a: Action, tp: TopicPartition)
    requires ValidConfig(cfg) && Enabled(cfg, s, w, a) && !a.ForgetPartition?
    requires tp in w.index && LiveInv(w, tp) && OpOf(w, a).Some? && OpOf(w, a).value.0 == w.index[tp]
    ensures LiveInv(Act(cfg, s, w, a), tp)
  {
    var c, op := w.index[tp], OpOf(w, a).value.1;
    PendingOfOp(cfg, s, w, a, tp);
    ActCells(cfg, s, w, a, c);
    ApplyToCell(w.cells[c], op);
  }

  /** A tidy step that works on another state works on another partition. */
  lemma OtherPartition(w: Process, a: Action, tp: TopicPartition)
    requires Tidy(w, a) && !(tp in w.index && OpOf(w, a).Some? && OpOf(w, a).value.0 == w.index[tp])
    ensures a.TrackRecord? ==> a.record.tp != tp
    ensures Closes(w, a).Some? ==> Closes(w, a).value.tp != tp
  {
  }

  lemma PendingAtMost(w: Process, tp: TopicPartition)
    ensures forall o: nat :: Pending(AtOffset(tp, o), w) <= Pending(OfPartition(tp), w)
  {
    forall o: nat ensures Pending(AtOffset(tp, o), w) <= Pending(OfPartition(tp), w) {
      LanesAtMost(AtOffset(tp, o), OfPartition(tp), w.lanes);
    }
  }

  lemma {:induction false} LanesAtMost(p: Query, q: Query, lanes: seq<Lane>)
    requires forall r :: Matches(p, r) ==> Matches(q, r)
    ensures CountLanes(p, lanes) <= CountLanes(q, lanes)
  {
    if lanes != [] {
      LanesAtMost(p, q, DropLast(lanes));
      CountAtMost(p, q, Last(lanes).queue);
    }
  }

  lemma {:induction false} CountAtMost(p: Query, q: Query, s: seq<Record>)
    requires forall r :: Matches(p, r) ==> Matches(q, r)
    ensures Count(p, s) <= Count(q, s)
  {
    if s != [] {
      CountAtMost(p, q, DropLast(s));
    }
  }

  ghost predicate AllLive(s: System) {
    forall id, tp :: id in s.workers ==> LiveInv(s.workers[id], tp)
  }

  /**
   In a run without premature Forget, `inFlight` of every partition is at any time the number of its records
   that are being dispatched, queued or running; so it is never negative.
   */
  lemma {:induction false} InFlightIsPending(cfg: Config, s: System, steps: seq<Step>)
    requires ValidConfig(cfg) && s.workers == map[] && TidyRun(cfg, s, steps)
    ensures AllLive(After(cfg, s, steps))
  {
    if steps != [] {
      InFlightIsPending(cfg, s, DropLast(steps));
      var t, step := After(cfg, s, DropLast(steps)), Last(steps);
      if Possible(cfg, t, step) {
        LiveNext(cfg, t, step);
      }
    }
  }

  lemma LiveNext(cfg: Config, s: System, step: Step)
    requires ValidConfig(cfg) && AllLive(s) && Possible(cfg, s, step) && TidyStep(s, step)
    ensures AllLive(Next(cfg, s, step))
  {
    match step
    case Do(id, a) =>
      forall tp ensures LiveInv(Act(cfg, s, s.workers[id], a), tp) {
        LiveStep(cfg, s, s.workers[id], a, tp);
      }
    case Boot(_) =>
      forall tp ensures LiveInv(NewProcess(cfg), tp) {
        NewProcessIdle(cfg, OfPartition(tp));
        forall o: nat { NewProcessIdle(cfg, AtOffset(tp, o)); }
      }
    case _ =>
  }

  // ----- The bound -----

  /** The lanes keep their capacities, and no queue outgrows its own. */
  ghost predicate WithinCapacity(cfg: Config, w: Process) {
    var built := BuildLanes(cfg.pools);
    && |w.lanes| == |built|
    && forall i :: 0 <= i < |built| ==> w.lanes[i].capacity == built[i].capacity && |w.lanes[i].queue| <= built[i].capacity
  }

  lemma {:induction false} CapacityAfter(cfg: Config, s: System, steps: seq<Step>)
    requires ValidConfig(cfg) && s.workers == map[]
    ensures forall id :: id in After(cfg, s, steps).workers ==> WithinCapacity(cfg, After(cfg, s, steps).workers[id])
  {
    if steps != [] {
      CapacityAfter(cfg, s, DropLast(steps));
      var t, step := After(cfg, s, DropLast(steps)), Last(steps);
      if Possible(cfg, t, step) {
        if step.Boot? {
          BuiltLanesIdle(cfg.pools);
        } else if step.Do? {
          CapacityStep(cfg, t, t.workers[step.id], step.action);
        }
      }
    }
  }

  lemma CapacityStep(cfg: Config, s: System, w: Process, a: Action)
    requires ValidConfig(cfg) && Enabled(cfg, s, w, a) && WithinCapacity(cfg, w)
    ensures WithinCapacity(cfg, Act(cfg, s, w, a))
  {
  }

  /** In every run, each lane of each pool holds at most what the pool's configuration lets a lane buffer. */
  lemma {:induction false} BuffersAsConfigured(cfg: Config, s: System, steps: seq<Step>, id: nat, i: nat, k: nat)
    requires ValidConfig(cfg) && s.workers == map[] && id in After(cfg, s, steps).workers
    requires i < |cfg.pools| && k < cfg.pools[i].lanes
    ensures var lanes, n := After(cfg, s, steps).workers[id].lanes, Base(cfg.pools, i) + k;
            n < |lanes| && lanes[n].capacity == cfg.pools[i].buffer && |lanes[n].queue| <= cfg.pools[i].buffer
  {
    CapacityAfter(cfg, s, steps);
    BuiltLane(cfg.pools, i, k);
  }

  lemma {:induction false} BuiltLane(pools: seq<PoolSpec>, i: nat, k: nat)
    requires i < |pools| && k < pools[i].lanes
    ensures var n := Base(pools, i) + k; n < |BuildLanes(pools)| && BuildLanes(pools)[n] == Lane(pools[i].buffer, [], None)
  {
    BuiltLanesIdle(DropLast(pools));
    BaseOfPrefix(pools, i);
    if i < |pools| - 1 {
      BuiltLane(DropLast(pools), i, k);
    }
  }

  /** Room for the queued and the running jobs of all lanes. */
  function Room(lanes: seq<Lane>): nat {
    if lanes == [] then 0 else Room(DropLast(lanes)) + Last(lanes).capacity + 1
  }

  lemma {:induction false} SameRoom(a: seq<Lane>, b: seq<Lane>)
    requires |a| == |b| && forall i :: 0 <= i < |a| ==> a[i].capacity == b[i].capacity
    ensures Room(a) == Room(b)
  {
    if a != [] {
      SameRoom(DropLast(a), DropLast(b));
    }
  }

  lemma {:induction false} CountWithinLength(q: Query, s: seq<Record>)
    ensures Count(q, s) <= |s|
  {
    if s != [] {
      CountWithinLength(q, DropLast(s));
    }
  }

  lemma {:induction false} CountWithinRoom(q: Query, lanes: seq<Lane>)
    requires forall i :: 0 <= i < |lanes| ==> |lanes[i].queue| <= lanes[i].capacity
    ensures CountLanes(q, lanes) <= Room(lanes)
  {
    if lanes != [] {
      CountWithinRoom(q, DropLast(lanes));
      CountWithinLength(q, Last(lanes).queue);
    }
  }

  /** The sum over pools of lanes * (buffer + 1). */
  function PoolRoom(pools: seq<PoolSpec>): nat {
    if pools == [] then 0 else PoolRoom(DropLast(pools)) + Last(pools).lanes * (Last(pools).buffer + 1)
  }

  lemma OneMore(n: nat, m: nat)
    requires n > 0
    ensures n * m == (n - 1) * m + m
  {
  }

  lemma {:induction false} RoomOfEqualLanes(lanes: seq<Lane>, more: nat, l: Lane)
    ensures Room(lanes + seq(more, _ => l)) == Room(lanes) + more * (l.capacity + 1)
  {
    var all := lanes + seq(more, _ => l);
    if more == 0 {
      assert all == lanes;
    } else {
      RoomOfEqualLanes(lanes, more - 1, l);
      assert DropLast(all) == lanes + seq(more - 1, _ => l);
      OneMore(more, l.capacity + 1);
    }
  }

  lemma {:induction false} RoomOfPools(pools: seq<PoolSpec>)
    ensures Room(BuildLanes(pools)) == PoolRoom(pools)
  {
    if pools != [] {
      RoomOfPools(DropLast(pools));
      RoomOfEqualLanes(BuildLanes(DropLast(pools)), Last(pools).lanes, Lane(Last(pools).buffer, [], None));
    }
  }

  /** The sum of the inFlight counters of some partitions. */
  function TotalInFlight(w: Process, tps: seq<TopicPartition>): int {
    if tps == [] then 0
    else TotalInFlight(w, DropLast(tps)) +
         if Last(tps) in w.index && w.index[Last(tps)] < |w.cells| then w.cells[w.index[Last(tps)]].part.inFlight else 0
  }

  lemma {:induction false} TotalIsCount(w: Process, tps: seq<TopicPartition>)
    requires forall tp :: LiveInv(w, tp)
    requires forall i, j :: 0 <= i < j < |tps| ==> tps[i] != tps[j]
    ensures TotalInFlight(w, tps) == Pending(OfAny((set tp | tp in tps)), w)
  {
    if tps == [] {
      assert (set tp | tp in tps) == {};
      EmptyCount(w.lanes);
    } else {
      var rest, tp := DropLast(tps), Last(tps);
      TotalIsCount(w, rest);
      assert LiveInv(w, tp);
      assert (set t | t in tps) == (set t | t in rest) + {tp};
      LanesOfMore((set t | t in rest), tp, w.lanes);
    }
  }

  lemma {:induction false} EmptyCount(lanes: seq<Lane>)
    ensures CountLanes(OfAny({}), lanes) == 0
  {
    if lanes != [] {
      EmptyCount(DropLast(lanes));
      CountNothing(Last(lanes).queue);
    }
  }

  lemma {:induction false} CountNothing(s: seq<Record>)
    ensures Count(OfAny({}), s) == 0
  {
    if s != [] {
      CountNothing(DropLast(s));
    }
  }

  lemma {:induction false} LanesOfMore(tps: set<TopicPartition>, tp: TopicPartition, lanes: seq<Lane>)
    requires tp !in tps
    ensures CountLanes(OfAny(tps + {tp}), lanes) == CountLanes(OfAny(tps), lanes) + CountLanes(OfPartition(tp), lanes)
  {
    if lanes != [] {
      LanesOfMore(tps, tp, DropLast(lanes));
      CountOfMore(tps, tp, Last(lanes).queue);
    }
  }

  lemma {:induction false} CountOfMore(tps: set<TopicPartition>, tp: TopicPartition, s: seq<Record>)
    requires tp !in tps
    ensures Count(OfAny(tps + {tp}), s) == Count(OfAny(tps), s) + Count(OfPartition(tp), s)
  {
    if s != [] {
      CountOfMore(tps, tp, DropLast(s));
    }
  }

  /**
   Back-pressure: whatever is polled, the in-flight counters of any distinct partitions together never
   exceed what the lanes hold and run, plus the one record that the poll loop is dispatching.
   */
  lemma {:induction false} BackPressure(cfg: Config, s: System, steps: seq<Step>, id: nat, tps: seq<TopicPartition>)
    requires ValidConfig(cfg) && s.workers == map[] && TidyRun(cfg, s, steps)
    requires id in After(cfg, s, steps).workers
    requires forall i, j :: 0 <= i < j < |tps| ==> tps[i] != tps[j]
    ensures TotalInFlight(After(cfg, s, steps).workers[id], tps) <= PoolRoom(cfg.pools) + 1
  {
    var w := After(cfg, s, steps).workers[id];
    InFlightIsPending(cfg, s, steps);
    CapacityAfter(cfg, s, steps);
    TotalIsCount(w, tps);
    CountWithinRoom(OfAny((set tp | tp in tps)), w.lanes);
    SameRoom(w.lanes, BuildLanes(cfg.pools));
    RoomOfPools(cfg.pools);
  }
}
