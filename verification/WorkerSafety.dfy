/** At-least-once handling: nothing below a committed position is unhandled, in any run. */
module WorkerSafety {
  import opened Collections
  import opened OffsetManager
  import opened Worker
  import opened WorkerOrder
  import Offsets

  /** Every record of the partition below position n has had its path reach Complete. */
  ghost predicate Covered(world: World, tp: TopicPartition, n: nat) {
    n <= PositionOf(world.end, tp) &&
    forall r :: r in world.log && r.tp == tp && r.offset < n ==> (tp, r.offset) in world.handled
  }

  /** What at-least-once handling promises. */
  ghost predicate Safe(s: System) {
    forall r :: r in s.world.log && r.offset < PositionOf(s.committed, r.tp) ==> (r.tp, r.offset) in s.world.handled
  }

  /** A log holds one record at an offset, below its end. */
  ghost predicate ValidLog(world: World) {
    && (forall r :: r in world.log ==> r.offset < PositionOf(world.end, r.tp))
    && (forall q, r :: q in world.log && r in world.log && q.tp == r.tp && q.offset == r.offset ==> q == r)
  }

  // ----- Where the cursor of a partition state may stand -----

  /** The records of a lane in the order in which they finish. */
  function Line(l: Lane): seq<Record> {
    OptionSeq(l.running) + l.queue
  }

  /** u is in the line, ahead of every copy of r. */
  predicate Ahead(line: seq<Record>, u: Record, r: Record) {
    line != [] && line[0] != r && (line[0] == u || Ahead(line[1..], u, r))
  }

  ghost predicate Unhandled(world: World, r: Record, u: Record) {
    u in world.log && u.tp == r.tp && u.offset < r.offset && (u.tp, u.offset) !in world.handled
  }

  /** Every unhandled record below r is in the lane of r, ahead of every copy of r. */
  ghost predicate InOrder(cfg: Config, world: World, w: Process, r: Record)
    requires ValidConfig(cfg)
  {
    LaneOf(cfg, r).Some? &&
    var i := LaneOf(cfg, r).value;
    i < |w.lanes| && forall u :: Unhandled(world, r, u) ==> Ahead(Line(w.lanes[i]), u, r)
  }

  /**
   The cursor stands above handled records only; or at a record that is not completed, and cannot be before all
   below it are handled, since its lane runs them first.
   */
  ghost predicate CursorSafe(cfg: Config, world: World, w: Process, c: Cell)
    requires ValidConfig(cfg)
  {
    || Covered(world, c.tp, c.part.nextCommit)
    || (c.part.initialized && c.part.nextCommit !in c.part.completed &&
        exists r :: r in world.log && r.tp == c.tp && r.offset == c.part.nextCommit && InOrder(cfg, world, w, r))
  }

  /** What was committed last and what is completed has been handled. */
  ghost predicate DoneSafe(world: World, c: Cell) {
    && -1 <= c.part.lastCommitted
    && Covered(world, c.tp, c.part.lastCommitted + 1)
    && forall o :: o in c.part.completed ==> (c.tp, o) in world.handled && o < PositionOf(world.end, c.tp)
  }

  ghost predicate LaneSafe(cfg: Config, world: World, l: Lane, i: nat)
    requires ValidConfig(cfg)
  {
    && l.capacity > 0
    && LaneRecords(cfg, l, i)
    && (forall r :: r in Line(l) ==> r in world.log)
  }

  ghost predicate CellsSafe(cfg: Config, world: World, w: Process)
    requires ValidConfig(cfg)
  {
    forall i :: 0 <= i < |w.cells| ==> DoneSafe(world, w.cells[i]) && CursorSafe(cfg, world, w, w.cells[i])
  }

  ghost predicate LanesSafe(cfg: Config, world: World, w: Process)
    requires ValidConfig(cfg)
  {
    && |w.lanes| == Base(cfg.pools, |cfg.pools|)
    && (w.current.Some? ==> w.current.value in world.log)
    && (forall i :: 0 <= i < |w.lanes| ==> LaneSafe(cfg, world, w.lanes[i], i))
  }

  ghost predicate ProcessSafe(cfg: Config, world: World, w: Process)
    requires ValidConfig(cfg)
  {
    && CellsSafe(cfg, world, w)
    && LanesSafe(cfg, world, w)
    && (forall tp :: tp in w.resume ==> Covered(world, tp, w.resume[tp]))
  }

  ghost predicate CommitsSafe(s: System) {
    && (forall tp :: Covered(s.world, tp, PositionOf(s.committed, tp)))
    && (forall tp, o :: (tp, o) in s.requested ==> Covered(s.world, tp, o + 1))
  }

  ghost predicate Inv(cfg: Config, s: System)
    requires ValidConfig(cfg)
  {
    && ValidLog(s.world)
    && CommitsSafe(s)
    && (forall id :: id in s.workers ==> ProcessSafe(cfg, s.world, s.workers[id]))
  }

  /** No process runs, and what was committed before is handled. */
  ghost predicate Init(s: System) {
    && s.workers == map[] && s.requested == {}
    && ValidLog(s.world)
    && (forall tp :: Covered(s.world, tp, PositionOf(s.committed, tp)))
  }

  // ----- What the first Track of a session must meet -----

  ghost predicate OpensSession(cfg: Config, s: System, step: Step)
    requires ValidConfig(cfg)
  {
    Possible(cfg, s, step) && step.Do? && step.action.TrackRecord? &&
    !s.workers[step.id].cells[step.action.cell].part.initialized
  }

  /**
   The first Track on a partition state starts where the assignment reads from: no record of the log lies
   between that position and the record tracked.
   */
  ghost predicate CleanStart(cfg: Config, s: System, step: Step)
    requires ValidConfig(cfg)
  {
    OpensSession(cfg, s, step) ==>
      var w, r := s.workers[step.id], step.action.record;
      r.tp in w.resume &&
      forall q :: q in s.world.log && q.tp == r.tp ==> q.offset < w.resume[r.tp] || r.offset <= q.offset
  }

  /**
   The weaker condition: all below the record is handled, or will be before the record completes.  A completion
   of the record that the state has already seen rules the second out.
   */
  ghost predicate SafeStart(cfg: Config, s: System, step: Step)
    requires ValidConfig(cfg)
  {
    OpensSession(cfg, s, step) ==>
      var w, r := s.workers[step.id], step.action.record;
      || Covered(s.world, r.tp, r.offset)
      || (r.offset !in w.cells[step.action.cell].part.completed && InOrder(cfg, s.world, w, r))
  }

  ghost predicate CleanRun(cfg: Config, s: System, steps: seq<Step>)
    requires ValidConfig(cfg)
  {
    steps == [] ||
    (CleanRun(cfg, s, DropLast(steps)) && CleanStart(cfg, After(cfg, s, DropLast(steps)), Last(steps)))
  }

  ghost predicate SafeRun(cfg: Config, s: System, steps: seq<Step>)
    requires ValidConfig(cfg)
  {
    steps == [] ||
    (SafeRun(cfg, s, DropLast(steps)) && SafeStart(cfg, After(cfg, s, DropLast(steps)), Last(steps)))
  }

  /**
   At-least-once handling: whatever the interleaving of polling, dispatch, lanes, out-of-order completion,
   flushes, late or repeated commits, rebalances and crashes, every record below a committed position has
   been handled.
   */
  lemma {:induction false} AtLeastOnce(cfg: Config, s: System, steps: seq<Step>)
    requires ValidConfig(cfg) && Init(s) && CleanRun(cfg, s, steps)
    ensures Safe(After(cfg, s, steps)) && SafeRun(cfg, s, steps) && Inv(cfg, After(cfg, s, steps))
  {
    if steps != [] {
      AtLeastOnce(cfg, s, DropLast(steps));
      CleanIsSafe(cfg, After(cfg, s, DropLast(steps)), Last(steps));
    }
    InvAfter(cfg, s, steps);
    InvIsSafe(cfg, After(cfg, s, steps));
  }

  /** The same for every run whose first Tracks meet the weaker condition, from any state on the way. */
  lemma {:induction false} InvAfter(cfg: Config, s: System, steps: seq<Step>)
    requires ValidConfig(cfg) && Inv(cfg, s) && SafeRun(cfg, s, steps)
    ensures Inv(cfg, After(cfg, s, steps)) && Safe(After(cfg, s, steps))
  {
    if steps != [] {
      InvAfter(cfg, s, DropLast(steps));
      var t := After(cfg, s, DropLast(steps));
      if Possible(cfg, t, Last(steps)) {
        InvStep(cfg, t, Last(steps));
      }
    }
    InvIsSafe(cfg, After(cfg, s, steps));
  }

  /** Where an assignment starts reading, everything below is handled. */
  lemma CleanIsSafe(cfg: Config, s: System, step: Step)
    requires ValidConfig(cfg) && Inv(cfg, s) && CleanStart(cfg, s, step)
    ensures SafeStart(cfg, s, step)
  {
    if OpensSession(cfg, s, step) {
      assert Covered(s.world, step.action.record.tp, s.workers[step.id].resume[step.action.record.tp]);
    }
  }

  lemma InvIsSafe(cfg: Config, s: System)
    requires ValidConfig(cfg) && Inv(cfg, s)
    ensures Safe(s)
  {
    forall r | r in s.world.log && r.offset < PositionOf(s.committed, r.tp) ensures (r.tp, r.offset) in s.world.handled {
      assert Covered(s.world, r.tp, PositionOf(s.committed, r.tp));
    }
  }

  // ----- The world grows -----

  /** The log, its ends and the handled records only grow; new records lie beyond the ends. */
  ghost predicate Grows(v: World, w: World) {
    && v.handled <= w.handled
    && (forall tp :: PositionOf(v.end, tp) <= PositionOf(w.end, tp))
    && v.log <= w.log
    && (forall r :: r in w.log && r !in v.log ==> r.offset >= PositionOf(v.end, r.tp))
  }

  lemma CoveredGrows(v: World, w: World, tp: TopicPartition, n: nat)
    requires Grows(v, w) && Covered(v, tp, n)
    ensures Covered(w, tp, n)
  {
  }

  lemma CursorGrows(cfg: Config, v: World, w: World, p: Process, c: Cell)
    requires ValidConfig(cfg) && ValidLog(v) && Grows(v, w) && CursorSafe(cfg, v, p, c)
    ensures CursorSafe(cfg, w, p, c)
  {
    if Covered(v, c.tp, c.part.nextCommit) {
      CoveredGrows(v, w, c.tp, c.part.nextCommit);
    } else {
      var r :| r in v.log && r.tp == c.tp && r.offset == c.part.nextCommit && InOrder(cfg, v, p, r);
      assert forall u :: Unhandled(w, r, u) ==> Unhandled(v, r, u);
      assert InOrder(cfg, w, p, r);
    }
  }

  lemma ProcessGrows(cfg: Config, v: World, w: World, p: Process)
    requires ValidConfig(cfg) && ValidLog(v) && Grows(v, w) && ProcessSafe(cfg, v, p)
    ensures ProcessSafe(cfg, w, p)
  {
    forall i | 0 <= i < |p.cells| ensures DoneSafe(w, p.cells[i]) && CursorSafe(cfg, w, p, p.cells[i]) {
      CursorGrows(cfg, v, w, p, p.cells[i]);
      CoveredGrows(v, w, p.cells[i].tp, p.cells[i].part.lastCommitted + 1);
    }
    forall tp | tp in p.resume ensures Covered(w, tp, p.resume[tp]) {
      CoveredGrows(v, w, tp, p.resume[tp]);
    }
    forall i | 0 <= i < |p.lanes| ensures LaneSafe(cfg, w, p.lanes[i], i) {
      assert LaneSafe(cfg, v, p.lanes[i], i);
    }
  }

  lemma InvGrows(cfg: Config, s: System, world: World)
    requires ValidConfig(cfg) && Inv(cfg, s) && Grows(s.world, world) && ValidLog(world)
    ensures Inv(cfg, s.(world := world))
  {
    forall tp ensures Covered(world, tp, PositionOf(s.committed, tp)) {
      CoveredGrows(s.world, world, tp, PositionOf(s.committed, tp));
    }
    forall tp, o | (tp, o) in s.requested ensures Covered(world, tp, o + 1) {
      CoveredGrows(s.world, world, tp, o + 1);
    }
    forall id | id in s.workers ensures ProcessSafe(cfg, world, s.workers[id]) {
      ProcessGrows(cfg, s.world, world, s.workers[id]);
    }
  }

  // ----- Sections on partition states -----

  /** A flush moves the cursor over handled records only, so what it hands out is covered. */
  lemma FlushSafe(cfg: Config, world: World, w: Process, c: Cell)
    requires ValidConfig(cfg) && DoneSafe(world, c) && CursorSafe(cfg, world, w, c)
    ensures DoneSafe(world, ApplyTo(c, Offsets.OpFlush)) && CursorSafe(cfg, world, w, ApplyTo(c, Offsets.OpFlush))
    ensures var commit := Offsets.Flush(c.part).1;
            commit.Some? ==> Covered(world, c.tp, commit.value.offset + 1)
  {
    var n := Offsets.LeastMissing(c.part.completed, c.part.nextCommit);
    if n > c.part.nextCommit {
      assert c.part.nextCommit in c.part.completed;
      assert n - 1 in c.part.completed;
      assert Covered(world, c.tp, n);
    } else {
      assert ApplyTo(c, Offsets.OpFlush).part == c.part;
    }
  }

  /** What a section needs: a completed record is handled, and all below it if its order protected the cursor. */
  ghost predicate OpSafe(cfg: Config, world: World, w: Process, c: Cell, op: Offsets.Op)
    requires ValidConfig(cfg)
  {
    match op
    case OpComplete(o) =>
      && (c.tp, o) in world.handled && o < PositionOf(world.end, c.tp)
      && (forall r :: r in world.log && r.tp == c.tp && r.offset == o && InOrder(cfg, world, w, r) ==> Covered(world, c.tp, o))
    case OpTrack(o, _) =>
      c.part.initialized || Covered(world, c.tp, o) ||
      (o !in c.part.completed && exists r :: r in world.log && r.tp == c.tp && r.offset == o && InOrder(cfg, world, w, r))
    case _ => true
  }

  lemma CellStaysSafe(cfg: Config, world: World, w: Process, c: Cell, op: Offsets.Op)
    requires ValidConfig(cfg) && DoneSafe(world, c) && CursorSafe(cfg, world, w, c) && OpSafe(cfg, world, w, c, op)
    ensures DoneSafe(world, ApplyTo(c, op)) && CursorSafe(cfg, world, w, ApplyTo(c, op))
  {
    if op.OpFlush? {
      FlushSafe(cfg, world, w, c);
    }
  }

  lemma OnCellSafe(cfg: Config, world: World, w: Process, c: nat, op: Offsets.Op)
    requires ValidConfig(cfg) && CellsSafe(cfg, world, w) && c < |w.cells| && OpSafe(cfg, world, w, w.cells[c], op)
    ensures CellsSafe(cfg, world, OnCell(w, c, op))
  {
    CellStaysSafe(cfg, world, w, w.cells[c], op);
    forall i | 0 <= i < |w.cells| ensures CursorSafe(cfg, world, OnCell(w, c, op), OnCell(w, c, op).cells[i]) {
      SameOrder(cfg, world, w, OnCell(w, c, op), OnCell(w, c, op).cells[i]);
    }
  }

  lemma SameOrder(cfg: Config, world: World, w: Process, v: Process, c: Cell)
    requires ValidConfig(cfg) && CursorSafe(cfg, world, w, c)
    requires forall r :: InOrder(cfg, world, w, r) ==> InOrder(cfg, world, v, r)
    ensures CursorSafe(cfg, world, v, c)
  {
  }

  /** The head of a line is no protected record unless all below it is handled. */
  lemma HeadIsCovered(cfg: Config, world: World, w: Process, i: nat, r: Record)
    requires ValidConfig(cfg) && ValidLog(world) && LanesSafe(cfg, world, w) && i < |w.lanes|
    requires w.lanes[i].running.Some? && w.lanes[i].running.value.tp == r.tp && w.lanes[i].running.value.offset == r.offset
    requires r in world.log && InOrder(cfg, world, w, r)
    ensures Covered(world, r.tp, r.offset)
  {
    var l := w.lanes[i];
    assert LaneSafe(cfg, world, l, i) && l.running.value in Line(l);
    assert l.running.value == r && LaneOf(cfg, r) == Some(i);
    assert Line(l)[0] == r;
    forall u | u in world.log && u.tp == r.tp && u.offset < r.offset ensures (r.tp, u.offset) in world.handled {
      assert !Ahead(Line(l), u, r);
      assert !Unhandled(world, r, u);
    }
  }

  // ----- Lanes -----

  lemma {:induction false} AheadAppend(line: seq<Record>, x: Record, u: Record, r: Record)
    requires Ahead(line, u, r)
    ensures Ahead(line + [x], u, r)
  {
    if line[0] != u {
      AheadAppend(line[1..], x, u, r);
      assert (line + [x])[1..] == line[1..] + [x];
    }
  }

  /** Lane i has become l, and no unhandled record has lost its place ahead of another. */
  lemma LaneKeepsOrder(cfg: Config, world: World, w: Process, v: Process, i: nat, l: Lane)
    requires ValidConfig(cfg) && i < |w.lanes| && v.lanes == w.lanes[i := l]
    requires forall u, r :: Unhandled(world, r, u) && Ahead(Line(w.lanes[i]), u, r) ==> Ahead(Line(l), u, r)
    ensures forall r :: InOrder(cfg, world, w, r) ==> InOrder(cfg, world, v, r)
  {
  }

  lemma CellsKeepOrder(cfg: Config, world: World, w: Process, v: Process)
    requires ValidConfig(cfg) && CellsSafe(cfg, world, w) && v.cells == w.cells
    requires forall r :: InOrder(cfg, world, w, r) ==> InOrder(cfg, world, v, r)
    ensures CellsSafe(cfg, world, v)
  {
    forall i | 0 <= i < |v.cells| ensures CursorSafe(cfg, world, v, v.cells[i]) {
      SameOrder(cfg, world, w, v, w.cells[i]);
    }
  }

  lemma SubmitSafe(cfg: Config, s: System, world: World, w: Process)
    requires ValidConfig(cfg) && Enabled(cfg, s, w, Submit) && ProcessSafe(cfg, world, w)
    ensures ProcessSafe(cfg, world, Act(cfg, s, w, Submit))
  {
    var v, i, x := Act(cfg, s, w, Submit), LaneOf(cfg, w.current.value).value, w.current.value;
    var l := w.lanes[i];
    assert LaneSafe(cfg, world, l, i);
    assert Line(v.lanes[i]) == Line(l) + [x];
    forall u, r | Ahead(Line(l), u, r) ensures Ahead(Line(v.lanes[i]), u, r) {
      AheadAppend(Line(l), x, u, r);
    }
    LaneKeepsOrder(cfg, world, w, v, i, v.lanes[i]);
    CellsKeepOrder(cfg, world, w, v);
    SetLaneSafe(cfg, world, w, v, i, v.lanes[i]);
  }

  lemma SetLaneSafe(cfg: Config, world: World, w: Process, v: Process, i: nat, l: Lane)
    requires ValidConfig(cfg) && LanesSafe(cfg, world, w) && i < |w.lanes| && LaneSafe(cfg, world, l, i)
    requires v.lanes == w.lanes[i := l] && (v.current == w.current || v.current == None)
    ensures LanesSafe(cfg, world, v)
  {
  }

  lemma StartSafe(cfg: Config, s: System, world: World, w: Process, i: nat)
    requires ValidConfig(cfg) && Enabled(cfg, s, w, StartJob(i)) && ProcessSafe(cfg, world, w)
    ensures ProcessSafe(cfg, world, Act(cfg, s, w, StartJob(i)))
  {
    var v, l := Act(cfg, s, w, StartJob(i)), w.lanes[i];
    assert LaneSafe(cfg, world, l, i);
    assert Line(v.lanes[i]) == Line(l);
    assert forall r :: r in v.lanes[i].queue ==> r in l.queue;
    LaneKeepsOrder(cfg, world, w, v, i, v.lanes[i]);
    CellsKeepOrder(cfg, world, w, v);
    SetLaneSafe(cfg, world, w, v, i, v.lanes[i]);
  }

  /** The completion of a finished job. */
  lemma FinishCell(cfg: Config, world: World, w: Process, i: nat, c: nat)
    requires ValidConfig(cfg) && i < |w.lanes| && w.lanes[i].running.Some? && IsCellOf(w, c, w.lanes[i].running.value.tp)
    requires ProcessSafe(cfg, world, w) && ValidLog(world)
    requires (w.lanes[i].running.value.tp, w.lanes[i].running.value.offset) in world.handled
    ensures ProcessSafe(cfg, world, OnCell(w, c, Offsets.OpComplete(w.lanes[i].running.value.offset)))
  {
    var l, q := w.lanes[i], w.lanes[i].running.value;
    assert LaneSafe(cfg, world, l, i) && q in Line(l);
    forall r | r in world.log && r.tp == q.tp && r.offset == q.offset && InOrder(cfg, world, w, r)
      ensures Covered(world, q.tp, q.offset)
    {
      HeadIsCovered(cfg, world, w, i, r);
    }
    OnCellSafe(cfg, world, w, c, Offsets.OpComplete(q.offset));
  }

  /** A handled record leaves the head of its line. */
  lemma {:induction false} HeadLeaves(world: World, line: seq<Record>)
    requires line != [] && (line[0].tp, line[0].offset) in world.handled
    ensures forall u, r :: Unhandled(world, r, u) && Ahead(line, u, r) ==> Ahead(line[1..], u, r)
  {
  }

  lemma FinishSafe(cfg: Config, s: System, world: World, w: Process, i: nat, c: nat)
    requires ValidConfig(cfg) && Enabled(cfg, s, w, FinishJob(i, c)) && ProcessSafe(cfg, world, w) && ValidLog(world)
    requires (w.lanes[i].running.value.tp, w.lanes[i].running.value.offset) in world.handled
    ensures ProcessSafe(cfg, world, Act(cfg, s, w, FinishJob(i, c)))
  {
    var v, l := Act(cfg, s, w, FinishJob(i, c)), w.lanes[i];
    var m := OnCell(w, c, Offsets.OpComplete(l.running.value.offset));
    FinishCell(cfg, world, w, i, c);
    assert Line(l)[1..] == Line(v.lanes[i]);
    HeadLeaves(world, Line(l));
    LaneKeepsOrder(cfg, world, m, v, i, v.lanes[i]);
    CellsKeepOrder(cfg, world, m, v);
    SetLaneSafe(cfg, world, m, v, i, v.lanes[i]);
  }

  // ----- The invariant is kept by every step -----

  lemma InvStep(cfg: Config, s: System, step: Step)
    requires ValidConfig(cfg) && Inv(cfg, s) && Possible(cfg, s, step) && SafeStart(cfg, s, step)
    ensures Inv(cfg, Next(cfg, s, step))
  {
    match step
    case Append(_) => InvGrows(cfg, s, Next(cfg, s, step).world);
    case Boot(_) => NewProcessSafe(cfg, s.world);
    case Crash(_) =>
    case Deliver(_, _) =>
      forall tp ensures Covered(s.world, tp, PositionOf(Next(cfg, s, step).committed, tp)) {
        assert Covered(s.world, tp, PositionOf(s.committed, tp));
      }
    case Do(id, a) => DoSafe(cfg, s, id, a);
  }

  lemma DoSafe(cfg: Config, s: System, id: nat, a: Action)
    requires ValidConfig(cfg) && Inv(cfg, s) && Possible(cfg, s, Do(id, a)) && SafeStart(cfg, s, Do(id, a))
    ensures Inv(cfg, Next(cfg, s, Do(id, a)))
  {
    var w := s.workers[id];
    ClosesFromLog(cfg, s, w, a);
    var world := Handle(s.world, Closes(w, a));
    InvGrows(cfg, s, world);
    if a.TrackRecord? {
      assert world == s.world;
    }
    ActSafe(cfg, s, world, w, a);
    if Requests(w, a).Some? {
      FlushSafe(cfg, world, w, w.cells[a.cell]);
    }
    PutProcess(cfg, s.(world := world), id, Act(cfg, s, w, a), Requests(w, a));
  }

  lemma ClosesFromLog(cfg: Config, s: System, w: Process, a: Action)
    requires ValidConfig(cfg) && ProcessSafe(cfg, s.world, w) && Enabled(cfg, s, w, a)
    ensures Closes(w, a).Some? ==> Closes(w, a).value in s.world.log
  {
    if a.FinishJob? {
      assert LaneSafe(cfg, s.world, w.lanes[a.lane], a.lane);
      assert w.lanes[a.lane].running.value in Line(w.lanes[a.lane]);
    }
  }

  lemma PutProcess(cfg: Config, s: System, id: nat, w: Process, commit: Option<(TopicPartition, nat)>)
    requires ValidConfig(cfg) && Inv(cfg, s) && ProcessSafe(cfg, s.world, w)
    requires commit.Some? ==> Covered(s.world, commit.value.0, commit.value.1 + 1)
    ensures Inv(cfg, s.(workers := s.workers[id := w], requested := s.requested + if commit.Some? then {commit.value} else {}))
  {
  }

  lemma NewProcessSafe(cfg: Config, world: World)
    requires ValidConfig(cfg)
    ensures ProcessSafe(cfg, world, NewProcess(cfg))
  {
    BuiltLanesIdle(cfg.pools);
    BuiltLanesHaveRoom(cfg.pools);
  }

  lemma {:induction false} BuiltLanesHaveRoom(pools: seq<PoolSpec>)
    requires forall i :: 0 <= i < |pools| ==> pools[i].buffer > 0
    ensures forall i :: 0 <= i < |BuildLanes(pools)| ==> BuildLanes(pools)[i].capacity > 0
  {
    if pools != [] {
      BuiltLanesHaveRoom(DropLast(pools));
    }
  }

  lemma ActSafe(cfg: Config, s: System, world: World, w: Process, a: Action)
    requires ValidConfig(cfg) && Enabled(cfg, s, w, a) && ProcessSafe(cfg, world, w) && ValidLog(world)
    requires s.world.log == world.log
    requires forall tp :: Covered(world, tp, PositionOf(s.committed, tp))
    requires Closes(w, a).Some? ==>
      (Closes(w, a).value.tp, Closes(w, a).value.offset) in world.handled && Closes(w, a).value in world.log
    requires a.TrackRecord? ==> OpSafe(cfg, world, w, w.cells[a.cell], Offsets.OpTrack(a.record.offset, 0))
    ensures ProcessSafe(cfg, world, Act(cfg, s, w, a))
  {
    match a
    case Submit => SubmitSafe(cfg, s, world, w);
    case StartJob(i) => StartSafe(cfg, s, world, w, i);
    case FinishJob(i, c) => FinishSafe(cfg, s, world, w, i, c);
    case TrackRecord(r, c) => TrackSafe(cfg, s, world, w, r, c);
    case CloseInline(c) => CloseSafe(cfg, s, world, w, c);
    case FlushCell(c) => SectionSafe(cfg, world, w, c, Offsets.OpFlush);
    case DrainCell(c) => SectionSafe(cfg, world, w, c, Offsets.OpDrain);
    case ReceiveToken(c, ch) => SectionSafe(cfg, world, w, c, Offsets.OpReceive(ch));
    case _ => OutsideSafe(cfg, s, world, w, a);
  }

  lemma SectionSafe(cfg: Config, world: World, w: Process, c: nat, op: Offsets.Op)
    requires ValidConfig(cfg) && ProcessSafe(cfg, world, w) && c < |w.cells| && !op.OpComplete? && !op.OpTrack?
    ensures ProcessSafe(cfg, world, OnCell(w, c, op))
  {
    OnCellSafe(cfg, world, w, c, op);
  }

  lemma TrackSafe(cfg: Config, s: System, world: World, w: Process, r: Record, c: nat)
    requires ValidConfig(cfg) && Enabled(cfg, s, w, TrackRecord(r, c)) && ProcessSafe(cfg, world, w) && r in world.log
    requires OpSafe(cfg, world, w, w.cells[c], Offsets.OpTrack(r.offset, 0))
    ensures ProcessSafe(cfg, world, Act(cfg, s, w, TrackRecord(r, c)))
  {
    var m, v := OnCell(w, c, Offsets.OpTrack(r.offset, 0)), Act(cfg, s, w, TrackRecord(r, c));
    OnCellSafe(cfg, world, w, c, Offsets.OpTrack(r.offset, 0));
    CellsKeepOrder(cfg, world, m, v);
  }

  lemma CloseSafe(cfg: Config, s: System, world: World, w: Process, c: nat)
    requires ValidConfig(cfg) && Enabled(cfg, s, w, CloseInline(c)) && ProcessSafe(cfg, world, w) && ValidLog(world)
    requires (w.current.value.tp, w.current.value.offset) in world.handled
    ensures ProcessSafe(cfg, world, Act(cfg, s, w, CloseInline(c)))
  {
    var op := Offsets.OpComplete(w.current.value.offset);
    var m, v := OnCell(w, c, op), Act(cfg, s, w, CloseInline(c));
    OnCellSafe(cfg, world, w, c, op);
    CellsKeepOrder(cfg, world, m, v);
  }

  lemma OutsideSafe(cfg: Config, s: System, world: World, w: Process, a: Action)
    requires ValidConfig(cfg) && ProcessSafe(cfg, world, w) && (a.Assign? || a.Lookup? || a.ForgetPartition?)
    requires forall tp :: Covered(world, tp, PositionOf(s.committed, tp))
    ensures ProcessSafe(cfg, world, Act(cfg, s, w, a))
  {
    var v := Act(cfg, s, w, a);
    forall i | 0 <= i < |v.cells| ensures DoneSafe(world, v.cells[i]) && CursorSafe(cfg, world, v, v.cells[i]) {
      if i < |w.cells| {
        SameOrder(cfg, world, w, v, w.cells[i]);
      }
    }
  }
}
