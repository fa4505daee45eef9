/** Clean hand-off: after a drain and a flush, or after shutdown, nothing that was polled is left uncommitted. */
module WorkerHandoff {
  import opened Collections
  import opened OffsetManager
  import opened Worker
  import opened WorkerAccounting
  import opened WorkerPressure
  import Offsets
  import Sessions

  /** Within a session, each record of a partition follows the one tracked before it without a gap. */
  ghost predicate Gapless(w: Process, a: Action) {
    a.TrackRecord? && a.cell < |w.cells| && w.cells[a.cell].ops != [] ==>
      a.record.offset == Offsets.NextToTrack(w.cells[a.cell].ops)
  }

  ghost predicate GaplessStep(s: System, step: Step) {
    TidyStep(s, step) && (step.Do? && step.id in s.workers ==> Gapless(s.workers[step.id], step.action))
  }

  ghost predicate GaplessRun(cfg: Config, s: System, steps: seq<Step>)
    requires ValidConfig(cfg)
  {
    steps == [] ||
    (GaplessRun(cfg, s, DropLast(steps)) && GaplessStep(After(cfg, s, DropLast(steps)), Last(steps)))
  }

  /** The offset of the last record of tp in s. */
  function LastOffset(s: seq<Record>, tp: TopicPartition): Option<nat> {
    if s == [] then None
    else if Last(s).tp == tp then Some(Last(s).offset)
    else LastOffset(DropLast(s), tp)
  }

  /**
   The live state of a partition has seen nothing yet, or is in a session whose last tracked offset is the
   last one polled; and all that it ever handed out is among the commits requested.
   */
  ghost predicate SessionInv(requested: set<(TopicPartition, nat)>, w: Process, tp: TopicPartition) {
    tp in w.index && w.index[tp] < |w.cells| ==>
      var ops := w.cells[w.index[tp]].ops;
      && (ops != [] ==>
            Offsets.IsSession(ops) && Offsets.Consecutive(ops)
            && LastOffset(w.polled, tp).Some? && LastOffset(w.polled, tp).value + 1 == Offsets.NextToTrack(ops))
      && forall o :: o in Offsets.Emitted(Offsets.FRESH, ops) ==> (tp, o) in requested
  }

  ghost predicate AllSessions(s: System) {
    forall id, tp :: id in s.workers ==> SessionInv(s.requested, s.workers[id], tp)
  }

  lemma {:induction false} HandoffInvariants(cfg: Config, s: System, steps: seq<Step>)
    requires ValidConfig(cfg) && s.workers == map[] && GaplessRun(cfg, s, steps)
    ensures AllLive(After(cfg, s, steps)) && AllSessions(After(cfg, s, steps))
  {
    if steps != [] {
      HandoffInvariants(cfg, s, DropLast(steps));
      var t, step := After(cfg, s, DropLast(steps)), Last(steps);
      if Possible(cfg, t, step) {
        LiveNext(cfg, t, step);
        SessionsNext(cfg, t, step);
      }
    }
  }

  lemma SessionsNext(cfg: Config, s: System, step: Step)
    requires ValidConfig(cfg) && AllLive(s) && AllSessions(s) && Possible(cfg, s, step) && GaplessStep(s, step)
    ensures AllSessions(Next(cfg, s, step))
  {
    var t := Next(cfg, s, step);
    match step
    case Do(id, a) =>
      forall i, tp | i in t.workers ensures SessionInv(t.requested, t.workers[i], tp) {
        assert SessionInv(s.requested, s.workers[i], tp);
        if i == id {
          SessionStep(cfg, s, s.workers[id], a, tp);
        }
      }
    case _ =>
  }

  /** The commits requested once a process has taken a step. */
  function RequestedAfter(s: System, w: Process, a: Action): set<(TopicPartition, nat)> {
    s.requested + if Requests(w, a).Some? then {Requests(w, a).value} else {}
  }

  lemma SessionStep(cfg: Config, s: System, w: Process, a: Action, tp: TopicPartition)
    requires ValidConfig(cfg) && Enabled(cfg, s, w, a) && Tidy(w, a) && Gapless(w, a)
    requires forall t :: LiveInv(w, t) && SessionInv(s.requested, w, t)
    ensures SessionInv(RequestedAfter(s, w, a), Act(cfg, s, w, a), tp)
  {
    assert LiveInv(w, tp) && SessionInv(s.requested, w, tp);
    PolledStep(cfg, s, w, a, tp);
    if tp in w.index && OpOf(w, a).Some? && OpOf(w, a).value.0 == w.index[tp] {
      if a.TrackRecord? {
        assert LiveInv(w, a.record.tp);
      }
      SessionTouched(cfg, s, w, a, tp);
    } else {
      OtherPartition(w, a, tp);
      if tp in w.index {
        ActCells(cfg, s, w, a, w.index[tp]);
      }
    }
  }

  lemma SessionTouched(cfg: Config, s: System, w: Process, a: Action, tp: TopicPartition)
    requires ValidConfig(cfg) && Enabled(cfg, s, w, a) && Gapless(w, a)
    requires tp in w.index && LiveInv(w, tp) && SessionInv(s.requested, w, tp)
    requires OpOf(w, a).Some? && OpOf(w, a).value.0 == w.index[tp]
    ensures SessionInv(RequestedAfter(s, w, a), Act(cfg, s, w, a), tp)
  {
    var c, op := w.index[tp], OpOf(w, a).value.1;
    ActCells(cfg, s, w, a, c);
    PolledStep(cfg, s, w, a, tp);
    PendingOfOp(cfg, s, w, a, tp);
    HistoryStep(w.cells[c], op);
  }

  lemma {:induction false} PolledStep(cfg: Config, s: System, w: Process, a: Action, tp: TopicPartition)
    requires ValidConfig(cfg) && Enabled(cfg, s, w, a)
    ensures LastOffset(Act(cfg, s, w, a).polled, tp) ==
            if a.TrackRecord? && a.record.tp == tp then Some(a.record.offset) else LastOffset(w.polled, tp)
  {
    if a.TrackRecord? {
      assert DropLast(w.polled + [a.record]) == w.polled;
    }
  }

  /** A section keeps a session a session, and a state that has seen nothing changes only by a Track. */
  lemma HistoryStep(c: Cell, op: Offsets.Op)
    requires CellInv(c) && Offsets.Honest(c.ops)
    requires c.ops != [] ==> Offsets.IsSession(c.ops) && Offsets.Consecutive(c.ops)
    requires op.OpComplete? ==> op.offset in Offsets.Outstanding(c.ops)
    requires op.OpTrack? && c.ops != [] ==> op.offset == Offsets.NextToTrack(c.ops)
    ensures var ops := ApplyTo(c, op).ops;
            && (ops != [] ==> Offsets.IsSession(ops) && Offsets.Consecutive(ops))
            && (ops != [] && op.OpTrack? ==> Offsets.NextToTrack(ops) == op.offset + 1)
            && (ops != [] && !op.OpTrack? ==> c.ops != [] && Offsets.NextToTrack(ops) == Offsets.NextToTrack(c.ops))
            && Offsets.Emitted(Offsets.FRESH, ops) == Offsets.Emitted(Offsets.FRESH, c.ops) +
                 if op.OpFlush? && Offsets.Flush(c.part).1.Some? then [Offsets.Flush(c.part).1.value.offset] else []
  {
    Offsets.RunSnoc(Offsets.FRESH, c.ops, op);
    assert DropLast(c.ops + [op]) == c.ops && Last(c.ops + [op]) == op;
  }

  // ----- The hand-off itself -----

  /** The last offset polled from tp is among the commits requested, and no later one of the session is. */
  ghost predicate HandedOver(s: System, w: Process, tp: TopicPartition) {
    tp in w.index && w.index[tp] < |w.cells| && w.cells[w.index[tp]].ops != [] ==>
      && LastOffset(w.polled, tp).Some?
      && (tp, LastOffset(w.polled, tp).value) in s.requested
      && forall o :: o in Offsets.Emitted(Offsets.FRESH, w.cells[w.index[tp]].ops) ==> o <= LastOffset(w.polled, tp).value
  }

  lemma FlushHandsOver(cfg: Config, s: System, id: nat, tp: TopicPartition)
    requires ValidConfig(cfg) && AllLive(s) && AllSessions(s) && id in s.workers && tp in s.workers[id].index
    requires var w := s.workers[id];
             w.index[tp] < |w.cells| && w.cells[w.index[tp]].part.inFlight <= 0
    ensures var t := Next(cfg, s, Do(id, FlushCell(s.workers[id].index[tp])));
            HandedOver(t, t.workers[id], tp)
  {
    var w := s.workers[id];
    assert LiveInv(w, tp) && SessionInv(s.requested, w, tp);
    if w.cells[w.index[tp]].ops != [] {
      FlushedSession(cfg, s, w, tp);
    } else {
      ActCells(cfg, s, w, FlushCell(w.index[tp]), w.index[tp]);
      assert Offsets.Flush(Offsets.FRESH).0 == Offsets.FRESH;
    }
  }

  lemma {:induction false} FlushedSession(cfg: Config, s: System, w: Process, tp: TopicPartition)
    requires ValidConfig(cfg) && tp in w.index && LiveInv(w, tp) && SessionInv(s.requested, w, tp)
    requires w.cells[w.index[tp]].part.inFlight <= 0 && w.cells[w.index[tp]].ops != []
    ensures var a := FlushCell(w.index[tp]);
            var v := Act(cfg, s, w, a);
            && v.index == w.index && v.polled == w.polled && w.index[tp] < |v.cells|
            && LastOffset(w.polled, tp).Some?
            && (tp, LastOffset(w.polled, tp).value) in RequestedAfter(s, w, a)
            && forall o :: o in Offsets.Emitted(Offsets.FRESH, v.cells[w.index[tp]].ops) ==> o <= LastOffset(w.polled, tp).value
  {
    var c := w.index[tp];
    SessionTouched(cfg, s, w, FlushCell(c), tp);
    ActCells(cfg, s, w, FlushCell(c), c);
    var ops := w.cells[c].ops;
    Sessions.CleanHandoff(ops);
    assert Last(Offsets.Emitted(Offsets.FRESH, ops + [Offsets.OpFlush])) in Offsets.Emitted(Offsets.FRESH, ops + [Offsets.OpFlush]);
  }

  /**
   Revocation: when the drain of a partition has returned nil, the flush that follows requests the commit of
   the last record polled from it; once that commit takes effect, nothing that was polled is redelivered.
   */
  lemma {:induction false} DrainThenFlushLeavesNothing(cfg: Config, s: System, steps: seq<Step>, id: nat, tp: TopicPartition)
    requires ValidConfig(cfg) && s.workers == map[] && GaplessRun(cfg, s, steps)
    requires var t := After(cfg, s, steps);
             && id in t.workers && tp in t.workers[id].index
             && t.workers[id].index[tp] < |t.workers[id].cells|
             && t.workers[id].cells[t.workers[id].index[tp]].part.inFlight <= 0
    ensures var t := After(cfg, s, steps + [Do(id, FlushCell(After(cfg, s, steps).workers[id].index[tp]))]);
            id in t.workers && HandedOver(t, t.workers[id], tp)
  {
    HandoffInvariants(cfg, s, steps);
    var t := After(cfg, s, steps);
    AfterSnoc(cfg, s, steps, Do(id, FlushCell(t.workers[id].index[tp])));
    FlushHandsOver(cfg, t, id, tp);
  }

  /** The sections that the process runs on partition state c along some steps. */
  function OpsOn(cfg: Config, s: System, steps: seq<Step>, id: nat, c: nat): seq<Offsets.Op>
    requires ValidConfig(cfg)
  {
    if steps == [] then []
    else
      var t, step, ops := After(cfg, s, DropLast(steps)), Last(steps), OpsOn(cfg, s, DropLast(steps), id, c);
      if Possible(cfg, t, step) && step.Do? && step.id == id && OnState(t.workers[id], step.action, c)
      then ops + [OpOf(t.workers[id], step.action).value.1] else ops
  }

  predicate OnState(w: Process, a: Action, c: nat) {
    OpOf(w, a).Some? && OpOf(w, a).value.0 == c
  }

  predicate NoCrash(steps: seq<Step>, id: nat) {
    forall i :: 0 <= i < |steps| ==> steps[i] != Crash(id)
  }

  lemma {:induction false} StateRuns(cfg: Config, s: System, steps: seq<Step>, id: nat, c: nat)
    requires ValidConfig(cfg) && id in s.workers && c < |s.workers[id].cells| && NoCrash(steps, id)
    ensures var t := After(cfg, s, steps);
            && id in t.workers && c < |t.workers[id].cells|
            && t.workers[id].cells[c].part == Offsets.Run(s.workers[id].cells[c].part, OpsOn(cfg, s, steps, id, c))
  {
    if steps != [] {
      StateRuns(cfg, s, DropLast(steps), id, c);
      var t, step := After(cfg, s, DropLast(steps)), Last(steps);
      if Possible(cfg, t, step) && step.Do? && step.id == id {
        ActCells(cfg, t, t.workers[id], step.action, c);
        if OnState(t.workers[id], step.action, c) {
          Offsets.RunSnoc(s.workers[id].cells[c].part, OpsOn(cfg, s, DropLast(steps), id, c), OpOf(t.workers[id], step.action).value.1);
        }
      }
    }
  }

  lemma {:induction false} GaplessPrefix(cfg: Config, s: System, a: seq<Step>, b: seq<Step>)
    requires ValidConfig(cfg) && GaplessRun(cfg, s, a + b)
    ensures GaplessRun(cfg, s, a)
  {
    if b == [] {
      assert a + b == a;
    } else {
      assert DropLast(a + b) == a + DropLast(b);
      GaplessPrefix(cfg, s, a, DropLast(b));
    }
  }

  /**
   Drain on the state has returned nil, at once or on its token, after the steps `during`, in which nothing was tracked
   on the state and no second drain of it began.
   */
  ghost predicate DrainReturned(cfg: Config, s: System, during: seq<Step>, id: nat, c: nat)
    requires ValidConfig(cfg)
  {
    && id in s.workers && c < |s.workers[id].cells| && NoCrash(during, id)
    && var p := s.workers[id].cells[c].part;
    && var ops := OpsOn(cfg, Next(cfg, s, Do(id, DrainCell(c))), during, id, c);
    && Sessions.NoTrackOrDrain(ops) && (p.inFlight <= 0 || Sessions.Woken(Offsets.Drain(p).0, ops, p.channels))
  }

  predicate LiveState(s: System, id: nat, tp: TopicPartition, c: nat) {
    id in s.workers && tp in s.workers[id].index && s.workers[id].index[tp] == c && c < |s.workers[id].cells|
  }

  /** Then the flush that follows leaves nothing behind. */
  lemma {:induction false} DrainReturnedThenFlushLeavesNothing(cfg: Config, s: System, before: seq<Step>, during: seq<Step>,
                                                               id: nat, tp: TopicPartition, c: nat)
    requires ValidConfig(cfg) && s.workers == map[] && GaplessRun(cfg, s, before + [Do(id, DrainCell(c))] + during)
    requires LiveState(After(cfg, s, before), id, tp, c) && DrainReturned(cfg, After(cfg, s, before), during, id, c)
    requires LiveState(After(cfg, s, before + [Do(id, DrainCell(c))] + during), id, tp, c)
    ensures var t := After(cfg, s, before + [Do(id, DrainCell(c))] + during + [Do(id, FlushCell(c))]);
            id in t.workers && HandedOver(t, t.workers[id], tp)
  {
    var drain := Do(id, DrainCell(c));
    Associative(before, [drain], during);
    GaplessPrefix(cfg, s, before, [drain] + during);
    HandoffInvariants(cfg, s, before);
    DrainedIsEmpty(cfg, After(cfg, s, before), during, id, tp, c);
    AfterSnoc(cfg, s, before, drain);
    AfterConcat(cfg, s, before + [drain], during);
    DrainThenFlushLeavesNothing(cfg, s, before + [drain] + during, id, tp);
  }

  lemma {:induction false} DrainedIsEmpty(cfg: Config, s: System, during: seq<Step>, id: nat, tp: TopicPartition, c: nat)
    requires ValidConfig(cfg) && AllLive(s) && LiveState(s, id, tp, c) && DrainReturned(cfg, s, during, id, c)
    ensures var u := After(cfg, Next(cfg, s, Do(id, DrainCell(c))), during);
            id in u.workers && c < |u.workers[id].cells| && u.workers[id].cells[c].part.inFlight <= 0
  {
    var t, cell := Next(cfg, s, Do(id, DrainCell(c))), s.workers[id].cells[c];
    var ops := OpsOn(cfg, t, during, id, c);
    assert LiveInv(s.workers[id], tp);
    Sessions.TokensAreOfOpenedChannels(cell.ops);
    StateRuns(cfg, t, during, id, c);
    if cell.part.inFlight > 0 {
      Sessions.NoLostWakeup(cell.part, ops);
    } else {
      Sessions.FewerInFlight(Offsets.Drain(cell.part).0, ops);
    }
  }

  /**
   Nothing is read twice after a clean hand-off: once the last commit that was requested takes effect, whoever is
   assigned the partition starts right behind the last record polled.
   */
  lemma {:induction false} HandoffResumesBehind(cfg: Config, s: System, id: nat, tp: TopicPartition, other: nat)
    requires ValidConfig(cfg) && id in s.workers && other in s.workers && HandedOver(s, s.workers[id], tp)
    requires var w := s.workers[id]; tp in w.index && w.index[tp] < |w.cells| && w.cells[w.index[tp]].ops != []
    ensures var last := LastOffset(s.workers[id].polled, tp).value;
            var t := After(cfg, s, [Deliver(tp, last), Do(other, Assign(tp))]);
            && PositionOf(t.committed, tp) == last + 1
            && other in t.workers && tp in t.workers[other].resume && t.workers[other].resume[tp] == last + 1
  {
    var last := LastOffset(s.workers[id].polled, tp).value;
    AfterSnoc(cfg, s, [], Deliver(tp, last));
    AfterSnoc(cfg, s, [Deliver(tp, last)], Do(other, Assign(tp)));
    assert [] + [Deliver(tp, last)] == [Deliver(tp, last)];
    assert [Deliver(tp, last)] + [Do(other, Assign(tp))] == [Deliver(tp, last), Do(other, Assign(tp))];
  }

  // ----- Shutdown -----

  /** FlushAll as the sequence of its per-partition sections. */
  function FlushCells(id: nat, cells: seq<nat>): seq<Step> {
    if cells == [] then [] else FlushCells(id, DropLast(cells)) + [Do(id, FlushCell(Last(cells)))]
  }

  /** Nothing is being dispatched, queued or run: every pool has stopped. */
  predicate AllStopped(w: Process) {
    w.current.None? && forall l :: l in w.lanes ==> l.queue == [] && l.running.None?
  }

  /** The partition states to flush are among the process's, and none in use is missing. */
  predicate Covers(w: Process, cells: seq<nat>) {
    && (forall i :: 0 <= i < |cells| ==> cells[i] < |w.cells|)
    && forall tp :: tp in w.index ==> w.index[tp] in cells
  }

  /** In any state with stopped pools, flushing every partition leaves nothing behind. */
  lemma {:induction false} StopThenFlushAllLeavesNothing(cfg: Config, s: System, steps: seq<Step>, id: nat, cells: seq<nat>)
    requires ValidConfig(cfg) && s.workers == map[] && GaplessRun(cfg, s, steps)
    requires id in After(cfg, s, steps).workers && AllStopped(After(cfg, s, steps).workers[id])
    requires Covers(After(cfg, s, steps).workers[id], cells)
    ensures var t := After(cfg, After(cfg, s, steps), FlushCells(id, cells));
            && id in t.workers
            && forall tp :: tp in t.workers[id].index ==> HandedOver(t, t.workers[id], tp)
  {
    HandoffInvariants(cfg, s, steps);
    FlushAllStopped(cfg, After(cfg, s, steps), id, cells);
  }

  // Stop closes the lanes once the poll loop is out of the way, and waits until each has run what it holds.

  function Load(l: Lane): nat {
    2 * |l.queue| + if l.running.Some? then 1 else 0
  }

  function Jobs(lanes: seq<Lane>): nat {
    if lanes == [] then 0 else Jobs(DropLast(lanes)) + Load(Last(lanes))
  }

  lemma {:induction false} JobsOfChangedLane(lanes: seq<Lane>, i: nat, l: Lane)
    requires i < |lanes|
    ensures Jobs(lanes[i := l]) == Jobs(lanes) - Load(lanes[i]) + Load(l)
  {
    if i == |lanes| - 1 {
      assert DropLast(lanes[i := l]) == DropLast(lanes);
    } else {
      assert DropLast(lanes[i := l]) == DropLast(lanes)[i := l];
      JobsOfChangedLane(DropLast(lanes), i, l);
    }
  }

  lemma {:induction false} NoJobs(lanes: seq<Lane>)
    ensures Jobs(lanes) == 0 <==> forall l :: l in lanes ==> l.queue == [] && l.running.None?
  {
    if lanes != [] {
      NoJobs(DropLast(lanes));
      assert forall l :: l in lanes <==> l in DropLast(lanes) || l == Last(lanes);
    }
  }

  predicate LaneStep(id: nat, step: Step) {
    step.Do? && step.id == id && (step.action.StartJob? || step.action.FinishJob?)
  }

  /** The lanes are closed and the poll loop has ended: it tracks, closes and submits nothing any more. */
  predicate DuringStop(id: nat, step: Step) {
    step != Crash(id) &&
    (step.Do? && step.id == id ==> !step.action.TrackRecord? && !step.action.CloseInline? && !step.action.Submit?)
  }

  predicate IsStopping(id: nat, stop: seq<Step>) {
    forall i :: 0 <= i < |stop| ==> DuringStop(id, stop[i])
  }

  /** Every lane step counts down, and nothing else touches the lanes. */
  lemma StopStep(cfg: Config, s: System, id: nat, step: Step)
    requires ValidConfig(cfg) && id in s.workers && s.workers[id].current.None?
    requires Possible(cfg, s, step) && DuringStop(id, step)
    ensures var t := Next(cfg, s, step);
            && id in t.workers && t.workers[id].current.None?
            && Jobs(s.workers[id].lanes) == Jobs(t.workers[id].lanes) + if LaneStep(id, step) then 1 else 0
  {
    if LaneStep(id, step) {
      var lanes, i := s.workers[id].lanes, step.action.lane;
      JobsOfChangedLane(lanes, i, Next(cfg, s, step).workers[id].lanes[i]);
    }
  }

  /** How many lane steps of the process some steps take. */
  function LaneSteps(cfg: Config, s: System, steps: seq<Step>, id: nat): nat
    requires ValidConfig(cfg)
  {
    if steps == [] then 0
    else
      LaneSteps(cfg, s, DropLast(steps), id) +
      if LaneStep(id, Last(steps)) && Possible(cfg, After(cfg, s, DropLast(steps)), Last(steps)) then 1 else 0
  }

  lemma {:induction false} LaneStepsCountDown(cfg: Config, s: System, stop: seq<Step>, id: nat)
    requires ValidConfig(cfg) && id in s.workers && s.workers[id].current.None? && IsStopping(id, stop)
    ensures var t := After(cfg, s, stop);
            && id in t.workers && t.workers[id].current.None?
            && LaneSteps(cfg, s, stop, id) + Jobs(t.workers[id].lanes) == Jobs(s.workers[id].lanes)
  {
    if stop != [] {
      LaneStepsCountDown(cfg, s, DropLast(stop), id);
      var t := After(cfg, s, DropLast(stop));
      if Possible(cfg, t, Last(stop)) {
        StopStep(cfg, t, id, Last(stop));
      }
    }
  }

  /** No further lane step fits the run. */
  ghost predicate LanesBlocked(cfg: Config, s: System, id: nat)
    requires ValidConfig(cfg)
  {
    forall step :: LaneStep(id, step) && Possible(cfg, s, step) ==> !GaplessStep(s, step)
  }

  /** While a lane has work, one of its steps can be taken. */
  lemma LanesGoOn(cfg: Config, s: System, id: nat, i: nat) returns (step: Step)
    requires ValidConfig(cfg) && AllLive(s) && id in s.workers && i < |s.workers[id].lanes|
    requires s.workers[id].lanes[i].queue != [] || s.workers[id].lanes[i].running.Some?
    ensures LaneStep(id, step) && Possible(cfg, s, step) && GaplessStep(s, step)
  {
    var w := s.workers[id];
    var l := w.lanes[i];
    if l.running.Some? {
      var tp := l.running.value.tp;
      assert LiveInv(w, tp);
      RunningIsPending(w, i);
      step := Do(id, FinishJob(i, w.index[tp]));
    } else {
      step := Do(id, StartJob(i));
    }
  }

  lemma {:induction false} RunningIsPending(w: Process, i: nat)
    requires i < |w.lanes| && w.lanes[i].running.Some?
    ensures Pending(OfPartition(w.lanes[i].running.value.tp), w) > 0
  {
    CountSetLane(OfPartition(w.lanes[i].running.value.tp), w.lanes, i, w.lanes[i].(running := None));
    assert w.lanes[i := w.lanes[i]] == w.lanes;
  }

  lemma {:induction false} BlockedIffStopped(cfg: Config, s: System, id: nat)
    requires ValidConfig(cfg) && AllLive(s) && id in s.workers && s.workers[id].current.None?
    ensures LanesBlocked(cfg, s, id) <==> AllStopped(s.workers[id])
  {
    var lanes := s.workers[id].lanes;
    if i :| 0 <= i < |lanes| && (lanes[i].queue != [] || lanes[i].running.Some?) {
      var step := LanesGoOn(cfg, s, id, i);
    }
  }

  /**
   Stop returns under every schedule: whatever runs meanwhile, the lanes take exactly as many steps as there was work
   for, and they are never stuck before all of it is done.
   */
  lemma {:induction false} StopReturns(cfg: Config, s: System, steps: seq<Step>, stop: seq<Step>, id: nat)
    requires ValidConfig(cfg) && s.workers == map[] && GaplessRun(cfg, s, steps + stop) && IsStopping(id, stop)
    requires id in After(cfg, s, steps).workers && After(cfg, s, steps).workers[id].current.None?
    ensures var before, t := After(cfg, s, steps), After(cfg, s, steps + stop);
            && id in t.workers
            && LaneSteps(cfg, before, stop, id) <= Jobs(before.workers[id].lanes)
            && (LaneSteps(cfg, before, stop, id) == Jobs(before.workers[id].lanes) <==> AllStopped(t.workers[id]))
            && (LanesBlocked(cfg, t, id) <==> AllStopped(t.workers[id]))
  {
    AfterConcat(cfg, s, steps, stop);
    LaneStepsCountDown(cfg, After(cfg, s, steps), stop, id);
    HandoffInvariants(cfg, s, steps + stop);
    var t := After(cfg, s, steps + stop);
    NoJobs(t.workers[id].lanes);
    BlockedIffStopped(cfg, t, id);
  }

  /**
   Shutdown: once the lanes have come to rest under any schedule of Stop, flushing every partition requests, for each
   of them, the commit of the last record polled.
   */
  lemma {:induction false} ShutdownLeavesNothing(cfg: Config, s: System, steps: seq<Step>, stop: seq<Step>, id: nat,
                                                 cells: seq<nat>)
    requires ValidConfig(cfg) && s.workers == map[] && GaplessRun(cfg, s, steps + stop) && IsStopping(id, stop)
    requires id in After(cfg, s, steps).workers && After(cfg, s, steps).workers[id].current.None?
    requires LanesBlocked(cfg, After(cfg, s, steps + stop), id)
    requires id in After(cfg, s, steps + stop).workers ==> Covers(After(cfg, s, steps + stop).workers[id], cells)
    ensures var t := After(cfg, s, steps + stop + FlushCells(id, cells));
            && id in t.workers
            && forall tp :: tp in t.workers[id].index ==> HandedOver(t, t.workers[id], tp)
  {
    StopReturns(cfg, s, steps, stop, id);
    StopThenFlushAllLeavesNothing(cfg, s, steps + stop, id, cells);
    AfterConcat(cfg, s, steps + stop, FlushCells(id, cells));
  }

  lemma {:induction false} FlushAllStopped(cfg: Config, s: System, id: nat, cells: seq<nat>)
    requires ValidConfig(cfg) && AllLive(s) && AllSessions(s) && id in s.workers && AllStopped(s.workers[id])
    requires forall i :: 0 <= i < |cells| ==> cells[i] < |s.workers[id].cells|
    ensures var t := After(cfg, s, FlushCells(id, cells));
            && AllLive(t) && AllSessions(t) && id in t.workers && AllStopped(t.workers[id])
            && |t.workers[id].cells| == |s.workers[id].cells| && t.workers[id].index == s.workers[id].index
            && forall tp :: tp in t.workers[id].index && t.workers[id].index[tp] in cells ==>
                 HandedOver(t, t.workers[id], tp)
  {
    if cells != [] {
      var rest, c := DropLast(cells), Last(cells);
      FlushAllStopped(cfg, s, id, rest);
      var t := After(cfg, s, FlushCells(id, rest));
      AfterSnoc(cfg, s, FlushCells(id, rest), Do(id, FlushCell(c)));
      var u := Next(cfg, t, Do(id, FlushCell(c)));
      LiveNext(cfg, t, Do(id, FlushCell(c)));
      SessionsNext(cfg, t, Do(id, FlushCell(c)));
      forall tp | tp in u.workers[id].index && u.workers[id].index[tp] in cells ensures HandedOver(u, u.workers[id], tp) {
        FlushOneHandsOver(cfg, t, id, c, tp, u.workers[id].index[tp] in rest);
      }
    }
  }

  lemma FlushOneHandsOver(cfg: Config, s: System, id: nat, c: nat, tp: TopicPartition, already: bool)
    requires ValidConfig(cfg) && AllLive(s) && AllSessions(s) && id in s.workers && AllStopped(s.workers[id])
    requires c < |s.workers[id].cells| && tp in s.workers[id].index
    requires if already then HandedOver(s, s.workers[id], tp) else s.workers[id].index[tp] == c
    ensures var t := Next(cfg, s, Do(id, FlushCell(c))); HandedOver(t, t.workers[id], tp)
  {
    var w := s.workers[id];
    assert LiveInv(w, tp);
    IdleLanes(OfPartition(tp), w.lanes);
    if w.index[tp] == c {
      FlushHandsOver(cfg, s, id, tp);
    }
  }
}
