/** Exactly when the first Track of a session is safe, and a run in which it is not. */
module WorkerStarts {
  import opened Collections
  import opened OffsetManager
  import opened Worker
  import opened WorkerOrder
  import opened WorkerSafety
  import Offsets

  /** In every continuation whose own first Tracks are safe, nothing below a committed position is unhandled. */
  ghost predicate StaysSafe(cfg: Config, s: System)
    requires ValidConfig(cfg)
  {
    forall steps: seq<Step> :: SafeRun(cfg, s, steps) ==> Safe(After(cfg, s, steps))
  }

  /**
   A leftover record may open a session after Forget.  This is harmless in every continuation if, and only if,
   everything below the record is handled, or is ahead of every copy of it in its lane while no completion of it
   has been seen.
   */
  lemma FirstTrackSafeIff(cfg: Config, s: System, id: nat, r: Record, c: nat)
    requires ValidConfig(cfg) && Inv(cfg, s) && Possible(cfg, s, Do(id, TrackRecord(r, c)))
    requires !s.workers[id].cells[c].part.initialized
    ensures StaysSafe(cfg, Next(cfg, s, Do(id, TrackRecord(r, c)))) <==> SafeStart(cfg, s, Do(id, TrackRecord(r, c)))
  {
    var t := Next(cfg, s, Do(id, TrackRecord(r, c)));
    if SafeStart(cfg, s, Do(id, TrackRecord(r, c))) {
      InvStep(cfg, s, Do(id, TrackRecord(r, c)));
      forall steps: seq<Step> | SafeRun(cfg, t, steps) ensures Safe(After(cfg, t, steps)) {
        InvAfter(cfg, t, steps);
      }
    } else {
      UnsafeStartLoses(cfg, s, id, r, c);
    }
  }

  lemma UnsafeStartLoses(cfg: Config, s: System, id: nat, r: Record, c: nat)
    requires ValidConfig(cfg) && Inv(cfg, s) && Possible(cfg, s, Do(id, TrackRecord(r, c)))
    requires !s.workers[id].cells[c].part.initialized && !SafeStart(cfg, s, Do(id, TrackRecord(r, c)))
    ensures !StaysSafe(cfg, Next(cfg, s, Do(id, TrackRecord(r, c))))
  {
    var w, t := s.workers[id], Next(cfg, s, Do(id, TrackRecord(r, c)));
    assert ProcessSafe(cfg, s.world, w) && DoneSafe(s.world, w.cells[c]);
    SomeUnhandled(s.world, r);
    var u :| Unhandled(s.world, r, u);
    if r.offset in w.cells[c].part.completed {
      LossTail(cfg, t, id, c, r, u);
    } else if LaneOf(cfg, r).None? {
      LossInline(cfg, t, id, c, r, u);
    } else {
      var i := LaneOf(cfg, r).value;
      LaneExists(cfg, r);
      assert LaneSafe(cfg, s.world, w.lanes[i], i);
      var v :| Unhandled(s.world, r, v) && !Ahead(Line(w.lanes[i]), v, r);
      LossInLane(cfg, t, id, i, c, r, v);
    }
  }

  lemma SomeUnhandled(world: World, r: Record)
    requires ValidLog(world) && r in world.log && !Covered(world, r.tp, r.offset)
    ensures exists u :: Unhandled(world, r, u)
  {
    var u :| u in world.log && u.tp == r.tp && u.offset < r.offset && (u.tp, u.offset) !in world.handled;
    assert Unhandled(world, r, u);
  }

  lemma LaneExists(cfg: Config, r: Record)
    requires ValidConfig(cfg)
    ensures LaneOf(cfg, r).Some? ==> LaneOf(cfg, r).value < Base(cfg.pools, |cfg.pools|)
  {
    if LaneOf(cfg, r).Some? {
      BaseGrows(cfg.pools, RouteOf(cfg, r).pool + 1, |cfg.pools|);
    }
  }

  // ----- Losing a record -----

  /** The cursor of the state stands at r, and u below r has not been handled. */
  ghost predicate Exposed(s: System, id: nat, c: nat, r: Record, u: Record) {
    && id in s.workers && IsCellOf(s.workers[id], c, r.tp)
    && s.workers[id].cells[c].part.nextCommit == r.offset && s.workers[id].cells[c].part.lastCommitted < r.offset
    && Unhandled(s.world, r, u)
  }

  lemma LossInline(cfg: Config, s: System, id: nat, c: nat, r: Record, u: Record)
    requires ValidConfig(cfg) && Exposed(s, id, c, r, u)
    requires s.workers[id].current == Some(r) && RouteOf(cfg, r) == Inline
    ensures !StaysSafe(cfg, s)
  {
    LossTail(cfg, Next(cfg, s, Do(id, CloseInline(c))), id, c, r, u);
    LossBack(cfg, s, Do(id, CloseInline(c)));
  }

  /** The poll loop is about to send r to lane i, and u is not ahead of it there. */
  ghost predicate Overtakes(cfg: Config, s: System, id: nat, i: nat, c: nat, r: Record, u: Record)
    requires ValidConfig(cfg)
  {
    && Exposed(s, id, c, r, u) && ValidLog(s.world)
    && var w := s.workers[id];
    && w.current == Some(r) && LaneOf(cfg, r) == Some(i)
    && i < |w.lanes| && w.lanes[i].capacity > 0
    && !Ahead(Line(w.lanes[i]), u, r) && forall q :: q in Line(w.lanes[i]) ==> q in s.world.log
  }

  /** Run the lane until r has run. */
  lemma {:induction false} LossInLane(cfg: Config, s: System, id: nat, i: nat, c: nat, r: Record, u: Record)
    requires ValidConfig(cfg) && Overtakes(cfg, s, id, i, c, r, u)
    ensures !StaysSafe(cfg, s)
    decreases Jobs(s.workers[id].lanes[i])
  {
    var l := s.workers[id].lanes[i];
    if Line(l) == [] {
      LossIdleLane(cfg, s, id, i, c, r, u);
    } else if l.running == Some(r) {
      LossRunning(cfg, s, id, i, c, r, u);
    } else if l.running.None? {
      var t := StartNext(cfg, s, id, i, c, r, u);
      LossInLane(cfg, t, id, i, c, r, u);
    } else {
      var t := NewState(cfg, s, id, i, c, r, u);
      t := FinishOther(cfg, t, id, i, c, r, u, |t.workers[id].cells| - 1);
      LossInLane(cfg, t, id, i, c, r, u);
    }
  }

  function Jobs(l: Lane): nat {
    2 * |l.queue| + if l.running.Some? then 1 else 0
  }

  lemma StartNext(cfg: Config, s: System, id: nat, i: nat, c: nat, r: Record, u: Record) returns (t: System)
    requires ValidConfig(cfg) && Overtakes(cfg, s, id, i, c, r, u)
    requires s.workers[id].lanes[i].running.None? && s.workers[id].lanes[i].queue != []
    ensures Overtakes(cfg, t, id, i, c, r, u) && Jobs(t.workers[id].lanes[i]) < Jobs(s.workers[id].lanes[i])
    ensures StaysSafe(cfg, s) ==> StaysSafe(cfg, t)
  {
    t := Next(cfg, s, Do(id, StartJob(i)));
    assert Line(t.workers[id].lanes[i]) == Line(s.workers[id].lanes[i]);
    if !StaysSafe(cfg, t) {
      LossBack(cfg, s, Do(id, StartJob(i)));
    }
  }

  /** The partition of the running record gets a new state, so that completing it leaves the cursor of this one. */
  lemma NewState(cfg: Config, s: System, id: nat, i: nat, c: nat, r: Record, u: Record) returns (t: System)
    requires ValidConfig(cfg) && Overtakes(cfg, s, id, i, c, r, u) && s.workers[id].lanes[i].running.Some?
    ensures Overtakes(cfg, t, id, i, c, r, u) && t.workers[id].lanes == s.workers[id].lanes
    ensures var cells := t.workers[id].cells;
            c < |cells| - 1 && IsCellOf(t.workers[id], |cells| - 1, s.workers[id].lanes[i].running.value.tp)
    ensures StaysSafe(cfg, s) ==> StaysSafe(cfg, t)
  {
    var tp := s.workers[id].lanes[i].running.value.tp;
    var m := NewIndex(cfg, s, id, tp);
    t := NewCell(cfg, m, id, tp);
    assert t.workers[id].cells[c] == s.workers[id].cells[c];
  }

  lemma NewIndex(cfg: Config, s: System, id: nat, tp: TopicPartition) returns (t: System)
    requires ValidConfig(cfg) && id in s.workers
    ensures t.world == s.world && id in t.workers
    ensures t.workers[id] == s.workers[id].(index := t.workers[id].index, resume := t.workers[id].resume)
    ensures tp !in t.workers[id].index
    ensures StaysSafe(cfg, s) ==> StaysSafe(cfg, t)
  {
    t := Next(cfg, s, Do(id, ForgetPartition(tp)));
    assert t.world == s.world;
    if !StaysSafe(cfg, t) {
      LossBack(cfg, s, Do(id, ForgetPartition(tp)));
    }
  }

  lemma NewCell(cfg: Config, s: System, id: nat, tp: TopicPartition) returns (t: System)
    requires ValidConfig(cfg) && id in s.workers && tp !in s.workers[id].index
    ensures t.world == s.world && id in t.workers
    ensures var w, v := s.workers[id], t.workers[id];
            v == w.(index := v.index, cells := w.cells + [Cell(tp, Offsets.FRESH, [])])
    ensures StaysSafe(cfg, s) ==> StaysSafe(cfg, t)
  {
    t := Next(cfg, s, Do(id, Lookup(tp)));
    assert t.world == s.world;
    if !StaysSafe(cfg, t) {
      LossBack(cfg, s, Do(id, Lookup(tp)));
    }
  }

  /** Another record finishes, on another partition state. */
  lemma FinishOther(cfg: Config, s: System, id: nat, i: nat, c: nat, r: Record, u: Record, d: nat) returns (t: System)
    requires ValidConfig(cfg) && Overtakes(cfg, s, id, i, c, r, u) && d != c
    requires var l := s.workers[id].lanes[i]; l.running.Some? && l.running != Some(r) && IsCellOf(s.workers[id], d, l.running.value.tp)
    ensures Overtakes(cfg, t, id, i, c, r, u) && Jobs(t.workers[id].lanes[i]) < Jobs(s.workers[id].lanes[i])
    ensures StaysSafe(cfg, s) ==> StaysSafe(cfg, t)
  {
    var l := s.workers[id].lanes[i];
    t := Next(cfg, s, Do(id, FinishJob(i, d)));
    OtherIsBehind(s.world, l, r, u);
    assert t.workers[id].lanes[i] == l.(running := None);
    StillOvertakes(cfg, s, t, id, i, c, r, u);
    if !StaysSafe(cfg, t) {
      LossBack(cfg, s, Do(id, FinishJob(i, d)));
    }
  }

  lemma {:induction false} StillOvertakes(cfg: Config, s: System, t: System, id: nat, i: nat, c: nat, r: Record, u: Record)
    requires ValidConfig(cfg) && Overtakes(cfg, s, id, i, c, r, u) && id in t.workers
    requires t.world == s.world.(handled := t.world.handled) && (u.tp, u.offset) !in t.world.handled
    requires var w, v := s.workers[id], t.workers[id];
             && v.current == w.current && c < |v.cells| && v.cells[c] == w.cells[c]
             && i < |v.lanes| && v.lanes[i].capacity == w.lanes[i].capacity
             && !Ahead(Line(v.lanes[i]), u, r) && forall q :: q in Line(v.lanes[i]) ==> q in s.world.log
    ensures Overtakes(cfg, t, id, i, c, r, u)
  {
  }

  /** The record at the head of the line is neither r nor u, and u is not ahead of r in the rest. */
  lemma {:induction false} OtherIsBehind(world: World, l: Lane, r: Record, u: Record)
    requires ValidLog(world) && u in world.log && !Ahead(Line(l), u, r)
    requires l.running.Some? && l.running != Some(r) && forall q :: q in Line(l) ==> q in world.log
    ensures !Ahead(Line(l.(running := None)), u, r)
    ensures !(l.running.value.tp == u.tp && l.running.value.offset == u.offset)
    ensures forall q :: q in Line(l.(running := None)) ==> q in world.log
  {
    assert Line(l)[0] == l.running.value && l.running.value in Line(l);
    assert Line(l)[1..] == Line(l.(running := None));
  }

  lemma LossIdleLane(cfg: Config, s: System, id: nat, i: nat, c: nat, r: Record, u: Record)
    requires ValidConfig(cfg) && Overtakes(cfg, s, id, i, c, r, u) && Line(s.workers[id].lanes[i]) == []
    ensures !StaysSafe(cfg, s)
  {
    assert s.workers[id].lanes[i].running.None? && s.workers[id].lanes[i].queue == [];
    var m := Next(cfg, s, Do(id, Submit));
    assert m.workers[id].lanes[i].queue == [r];
    LossRunning(cfg, Next(cfg, m, Do(id, StartJob(i))), id, i, c, r, u);
    LossBack(cfg, m, Do(id, StartJob(i)));
    LossBack(cfg, s, Do(id, Submit));
  }

  lemma LossRunning(cfg: Config, s: System, id: nat, i: nat, c: nat, r: Record, u: Record)
    requires ValidConfig(cfg) && Exposed(s, id, c, r, u)
    requires i < |s.workers[id].lanes| && s.workers[id].lanes[i].running == Some(r)
    ensures !StaysSafe(cfg, s)
  {
    LossTail(cfg, Next(cfg, s, Do(id, FinishJob(i, c))), id, c, r, u);
    LossBack(cfg, s, Do(id, FinishJob(i, c)));
  }

  /** Once r is completed, a flush and its commit skip u. */
  lemma LossTail(cfg: Config, s: System, id: nat, c: nat, r: Record, u: Record)
    requires ValidConfig(cfg) && Exposed(s, id, c, r, u) && r.offset in s.workers[id].cells[c].part.completed
    ensures !StaysSafe(cfg, s)
  {
    var n := Offsets.LeastMissing(s.workers[id].cells[c].part.completed, r.offset);
    assert n > r.offset;
    var m := Next(cfg, s, Do(id, FlushCell(c)));
    assert (r.tp, (n - 1) as nat) in m.requested;
    var t := Next(cfg, m, Deliver(r.tp, n - 1));
    assert PositionOf(t.committed, u.tp) == n && !Safe(t);
    assert SafeRun(cfg, t, []) && After(cfg, t, []) == t;
    LossBack(cfg, m, Deliver(r.tp, n - 1));
    LossBack(cfg, s, Do(id, FlushCell(c)));
  }

  /** What is lost after a step is lost. */
  lemma LossBack(cfg: Config, s: System, step: Step)
    requires ValidConfig(cfg) && Possible(cfg, s, step) && (step.Do? ==> !step.action.TrackRecord?)
    requires !StaysSafe(cfg, Next(cfg, s, step))
    ensures !StaysSafe(cfg, s)
  {
    var t := Next(cfg, s, step);
    var steps: seq<Step> :| SafeRun(cfg, t, steps) && !Safe(After(cfg, t, steps));
    OneStep(cfg, s, step);
    SafeConcat(cfg, s, [step], steps);
    AfterConcat(cfg, s, [step], steps);
  }

  lemma {:induction false} OneStep(cfg: Config, s: System, step: Step)
    requires ValidConfig(cfg) && Possible(cfg, s, step) && SafeStart(cfg, s, step)
    ensures After(cfg, s, [step]) == Next(cfg, s, step) && SafeRun(cfg, s, [step])
  {
    assert DropLast([step]) == [];
  }

  lemma {:induction false} SafeConcat(cfg: Config, s: System, a: seq<Step>, b: seq<Step>)
    requires ValidConfig(cfg) && SafeRun(cfg, s, a) && SafeRun(cfg, After(cfg, s, a), b)
    ensures SafeRun(cfg, s, a + b)
  {
    if b == [] {
      assert a + b == a;
    } else {
      assert DropLast(a + b) == a + DropLast(b) && Last(a + b) == Last(b);
      SafeConcat(cfg, s, a, DropLast(b));
      AfterConcat(cfg, s, a, DropLast(b));
    }
  }

  // ----- Such a Track is reached -----

  /** u goes to a lane; the partition is forgotten with u in flight; r, fetched with it, is still to be tracked. */
  function LeftoverRun(u: Record, r: Record): seq<Step> {
    [Append(u), Append(r), Boot(0), Do(0, Assign(u.tp)), Do(0, Lookup(u.tp)), Do(0, TrackRecord(u, 0)), Do(0, Submit),
     Do(0, ForgetPartition(u.tp)), Do(0, Lookup(u.tp))]
  }

  /** It is tracked on a new state and completed by the poll loop; its commit takes effect; the process dies. */
  function LosingRun(r: Record): seq<Step> {
    [Do(0, TrackRecord(r, 1)), Do(0, CloseInline(1)), Do(0, FlushCell(1)), Deliver(r.tp, r.offset), Crash(0)]
  }

  ghost predicate Empty(s: System) {
    s == System(World({}, map[], {}), map[], {}, map[])
  }

  /**
   A leftover record loses another: every first Track before it is clean, it is tracked above a record that is
   still in a lane, and the commit that follows skips that record, which no process holds any more.
   */
  lemma {:induction false} LeftoverLosesRecord(cfg: Config, s: System, u: Record, r: Record)
    requires ValidConfig(cfg) && Empty(s)
    requires LaneOf(cfg, u).Some? && RouteOf(cfg, r) == Inline && u.tp == r.tp && u.offset < r.offset
    ensures Init(s) && CleanRun(cfg, s, LeftoverRun(u, r))
    ensures var t := After(cfg, After(cfg, s, LeftoverRun(u, r)), LosingRun(r));
            && u in t.world.log && u.offset < PositionOf(t.committed, u.tp) && (u.tp, u.offset) !in t.world.handled
            && t.workers == map[]
  {
    var run := InLaneForgotten(cfg, s, u, r);
    assert run == LeftoverRun(u, r);
    var t := After(cfg, s, LeftoverRun(u, r));
    var more := Completed(cfg, t, r);
    more := Committed(cfg, t, more, r);
    assert more == LosingRun(r);
  }

  /** The two records are in the log, unhandled, and one process runs. */
  function With(u: Record, r: Record, w: Process): System {
    System(World({u, r}, map[u.tp := r.offset + 1], {}), map[], {}, map[0 := w])
  }

  /** The steps are a clean run to the state. */
  ghost predicate Leads(cfg: Config, s: System, run: seq<Step>, t: System)
    requires ValidConfig(cfg)
  {
    CleanRun(cfg, s, run) && After(cfg, s, run) == t
  }

  /** The process acts, and completes and requests nothing. */
  lemma {:induction false} Acts(cfg: Config, s: System, run: seq<Step>, u: Record, r: Record, w: Process, a: Action)
    returns (more: seq<Step>, v: Process)
    requires ValidConfig(cfg) && Leads(cfg, s, run, With(u, r, w)) && Enabled(cfg, With(u, r, w), w, a)
    requires CleanStart(cfg, With(u, r, w), Do(0, a)) && Closes(w, a).None? && Requests(w, a).None?
    ensures more == run + [Do(0, a)] && v == Act(cfg, With(u, r, w), w, a) && Leads(cfg, s, more, With(u, r, v))
  {
    var t: System;
    more, t := CleanStep(cfg, s, run, Do(0, a));
    v := Act(cfg, With(u, r, w), w, a);
    assert t.world == With(u, r, w).world;
  }

  lemma {:induction false} Booted(cfg: Config, s: System, u: Record, r: Record) returns (run: seq<Step>)
    requires ValidConfig(cfg) && Empty(s) && u.tp == r.tp && u.offset < r.offset
    ensures run == [Append(u), Append(r), Boot(0)] && Leads(cfg, s, run, With(u, r, NewProcess(cfg)))
  {
    var t: System;
    run, t := CleanStep(cfg, s, [], Append(u));
    assert t.world.log == {u} && t.world.end == map[u.tp := u.offset + 1];
    run, t := CleanStep(cfg, s, run, Append(r));
    assert t.world.log == {u, r} && t.world.end == map[u.tp := r.offset + 1];
    run, t := CleanStep(cfg, s, run, Boot(0));
  }

  /** The partition is assigned, and u is tracked. */
  lemma {:induction false} TrackedFirst(cfg: Config, s: System, u: Record, r: Record) returns (run: seq<Step>, w: Process)
    requires ValidConfig(cfg) && Empty(s) && u.tp == r.tp && u.offset < r.offset
    ensures run == LeftoverRun(u, r)[..6] && Leads(cfg, s, run, With(u, r, w))
    ensures w.current == Some(u) && |w.cells| == 1 && w.lanes == NewProcess(cfg).lanes
  {
    run := Booted(cfg, s, u, r);
    w := NewProcess(cfg);
    run, w := Acts(cfg, s, run, u, r, w, Assign(u.tp));
    run, w := Acts(cfg, s, run, u, r, w, Lookup(u.tp));
    run, w := Acts(cfg, s, run, u, r, w, TrackRecord(u, 0));
  }

  /** It is sent to its lane. */
  lemma {:induction false} InLane(cfg: Config, s: System, u: Record, r: Record) returns (run: seq<Step>, w: Process)
    requires ValidConfig(cfg) && Empty(s) && u.tp == r.tp && u.offset < r.offset && LaneOf(cfg, u).Some?
    ensures run == LeftoverRun(u, r)[..7] && Leads(cfg, s, run, With(u, r, w))
    ensures w.current == None && |w.cells| == 1
  {
    run, w := TrackedFirst(cfg, s, u, r);
    RoomFor(cfg, u);
    run, w := Acts(cfg, s, run, u, r, w, Submit);
  }

  /** The partition is forgotten and looked up again. */
  lemma {:induction false} InLaneForgotten(cfg: Config, s: System, u: Record, r: Record) returns (run: seq<Step>)
    requires ValidConfig(cfg) && Empty(s) && u.tp == r.tp && u.offset < r.offset && LaneOf(cfg, u).Some?
    ensures run == LeftoverRun(u, r) && CleanRun(cfg, s, run) && Leftover(After(cfg, s, run), u, r)
  {
    var w: Process;
    run, w := InLane(cfg, s, u, r);
    run, w := Acts(cfg, s, run, u, r, w, ForgetPartition(u.tp));
    run, w := Acts(cfg, s, run, u, r, w, Lookup(u.tp));
  }

  /** The partition has a new state, and r can be tracked on it while u is unhandled. */
  ghost predicate Leftover(s: System, u: Record, r: Record) {
    && s.world == World({u, r}, map[u.tp := r.offset + 1], {}) && s.committed == map[] && s.requested == {}
    && s.workers.Keys == {0}
    && var w := s.workers[0];
    && w.current == None && |w.cells| == 2 && w.cells[1] == Cell(r.tp, Offsets.FRESH, [])
  }

  lemma {:induction false} Completed(cfg: Config, s: System, r: Record) returns (run: seq<Step>)
    requires ValidConfig(cfg) && RouteOf(cfg, r) == Inline && r in s.world.log && 0 in s.workers
    requires var w := s.workers[0]; w.current == None && |w.cells| == 2 && w.cells[1] == Cell(r.tp, Offsets.FRESH, [])
    ensures run == LosingRun(r)[..2]
    ensures var t := After(cfg, s, run);
            && t.world == s.world.(handled := s.world.handled + {(r.tp, r.offset)})
            && t.committed == s.committed && t.requested == s.requested && t.workers.Keys == s.workers.Keys
            && |t.workers[0].cells| == 2 && t.workers[0].cells[1].tp == r.tp
            && var p := t.workers[0].cells[1].part;
            && p.nextCommit == r.offset && p.completed == {r.offset} && p.lastCommitted == -1
  {
    var t: System;
    run, t := Go(cfg, s, [], Do(0, TrackRecord(r, 1)));
    run, t := Go(cfg, s, run, Do(0, CloseInline(1)));
  }

  lemma {:induction false} Committed(cfg: Config, s: System, run: seq<Step>, r: Record) returns (more: seq<Step>)
    requires ValidConfig(cfg) && After(cfg, s, run).workers.Keys == {0} && |After(cfg, s, run).workers[0].cells| == 2
    requires After(cfg, s, run).workers[0].cells[1].tp == r.tp
    requires var p := After(cfg, s, run).workers[0].cells[1].part;
             p.nextCommit == r.offset && p.completed == {r.offset} && p.lastCommitted == -1
    ensures more == run + [Do(0, FlushCell(1)), Deliver(r.tp, r.offset), Crash(0)]
    ensures var before, t := After(cfg, s, run), After(cfg, s, more);
            && t.world == before.world && PositionOf(t.committed, r.tp) == r.offset + 1 && t.workers == map[]
  {
    var t: System;
    FlushedToCommit(cfg, After(cfg, s, run), r);
    more, t := Go(cfg, s, run, Do(0, FlushCell(1)));
    more, t := Go(cfg, s, more, Deliver(r.tp, r.offset));
    more, t := Go(cfg, s, more, Crash(0));
  }

  lemma FlushedToCommit(cfg: Config, s: System, r: Record)
    requires ValidConfig(cfg) && 0 in s.workers && |s.workers[0].cells| == 2 && s.workers[0].cells[1].tp == r.tp
    requires var p := s.workers[0].cells[1].part;
             p.nextCommit == r.offset && p.completed == {r.offset} && p.lastCommitted == -1
    ensures var t := Next(cfg, s, Do(0, FlushCell(1)));
            && t.world == s.world && (r.tp, r.offset) in t.requested && t.committed == s.committed
            && t.workers.Keys == s.workers.Keys
  {
    Offsets.LeastMissingUnique({r.offset}, r.offset, r.offset + 1);
  }

  lemma RoomFor(cfg: Config, u: Record)
    requires ValidConfig(cfg) && LaneOf(cfg, u).Some?
    ensures var lanes, i := NewProcess(cfg).lanes, LaneOf(cfg, u).value;
            i < |lanes| && |lanes[i].queue| < lanes[i].capacity
  {
    LaneExists(cfg, u);
    BuiltLanesIdle(cfg.pools);
    BuiltLanesHaveRoom(cfg.pools);
  }

  lemma {:induction false} Go(cfg: Config, s: System, run: seq<Step>, step: Step) returns (more: seq<Step>, t: System)
    requires ValidConfig(cfg) && Possible(cfg, After(cfg, s, run), step)
    ensures more == run + [step] && t == Next(cfg, After(cfg, s, run), step) && After(cfg, s, more) == t
  {
    AfterSnoc(cfg, s, run, step);
    more := run + [step];
    t := After(cfg, s, more);
  }

  lemma {:induction false} CleanStep(cfg: Config, s: System, run: seq<Step>, step: Step) returns (more: seq<Step>, t: System)
    requires ValidConfig(cfg) && CleanRun(cfg, s, run)
    requires Possible(cfg, After(cfg, s, run), step) && CleanStart(cfg, After(cfg, s, run), step)
    ensures more == run + [step] && t == Next(cfg, After(cfg, s, run), step)
    ensures CleanRun(cfg, s, more) && After(cfg, s, more) == t
  {
    more, t := Go(cfg, s, run, step);
    assert DropLast(more) == run && Last(more) == step;
  }
}
