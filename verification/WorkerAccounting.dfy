/** Balanced accounting: one Complete for each Track, along every dispatch route. */
module WorkerAccounting {
  import opened Collections
  import opened OffsetManager
  import opened Worker
  import opened WorkerOrder

  /** Which records to count: one record, one offset, one partition, some partitions. */
  datatype Query =
    | TheRecord(record: Record)
    | AtOffset(tp: TopicPartition, offset: nat)
    | OfPartition(tp: TopicPartition)
    | OfAny(tps: set<TopicPartition>)

  predicate Matches(q: Query, r: Record) {
    match q
    case TheRecord(x) => r == x
    case AtOffset(tp, o) => r.tp == tp && r.offset == o
    case OfPartition(tp) => r.tp == tp
    case OfAny(tps) => r.tp in tps
  }

  function One(q: Query, r: Record): nat {
    if Matches(q, r) then 1 else 0
  }

  function Count(q: Query, s: seq<Record>): nat {
    if s == [] then 0 else Count(q, DropLast(s)) + One(q, Last(s))
  }

  function CountOption(q: Query, o: Option<Record>): nat {
    if o.Some? then One(q, o.value) else 0
  }

  function CountLanes(q: Query, lanes: seq<Lane>): nat {
    if lanes == [] then 0
    else CountLanes(q, DropLast(lanes)) + CountOption(q, Last(lanes).running) + Count(q, Last(lanes).queue)
  }

  /** Tracked and not completed: what the poll loop is dispatching, what waits in lanes and what runs. */
  function Pending(q: Query, w: Process): nat {
    CountOption(q, w.current) + CountLanes(q, w.lanes)
  }

  lemma {:induction false} CountSnoc(q: Query, s: seq<Record>, r: Record)
    ensures Count(q, s + [r]) == Count(q, s) + One(q, r)
  {
    assert DropLast(s + [r]) == s && Last(s + [r]) == r;
  }

  lemma {:induction false} CountHead(q: Query, s: seq<Record>)
    requires s != []
    ensures Count(q, s) == One(q, s[0]) + Count(q, s[1..])
  {
    if |s| > 1 {
      CountHead(q, DropLast(s));
      assert DropLast(s)[1..] == DropLast(s[1..]) && Last(s[1..]) == Last(s);
    } else {
      assert DropLast(s) == [] && s[1..] == [];
    }
  }

  lemma {:induction false} CountSetLane(q: Query, lanes: seq<Lane>, i: nat, l: Lane)
    requires i < |lanes|
    ensures CountLanes(q, lanes[i := l]) == CountLanes(q, lanes)
              - CountOption(q, lanes[i].running) - Count(q, lanes[i].queue)
              + CountOption(q, l.running) + Count(q, l.queue)
  {
    var changed := lanes[i := l];
    if i == |lanes| - 1 {
      assert DropLast(changed) == DropLast(lanes);
    } else {
      assert DropLast(changed) == DropLast(lanes)[i := l];
      CountSetLane(q, DropLast(lanes), i, l);
    }
  }

  /** Every record tracked by the process has been completed once or is pending, however one counts. */
  ghost predicate Balanced(w: Process) {
    forall q :: Count(q, w.polled) == Count(q, w.closed) + Pending(q, w)
  }

  /** A step adds the record it tracks to the pending ones and removes the one it completes. */
  lemma PendingMoves(cfg: Config, s: System, w: Process, a: Action, q: Query)
    requires ValidConfig(cfg) && Enabled(cfg, s, w, a)
    ensures Pending(q, Act(cfg, s, w, a)) ==
            Pending(q, w) + (if a.TrackRecord? then One(q, a.record) else 0) - CountOption(q, Closes(w, a))
  {
    var v := Act(cfg, s, w, a);
    match a
    case Submit =>
      var i := LaneOf(cfg, w.current.value).value;
      CountSetLane(q, w.lanes, i, v.lanes[i]);
      CountSnoc(q, w.lanes[i].queue, w.current.value);
    case StartJob(i) =>
      CountSetLane(q, w.lanes, i, v.lanes[i]);
      CountHead(q, w.lanes[i].queue);
    case FinishJob(i, _) =>
      CountSetLane(q, w.lanes, i, v.lanes[i]);
    case _ =>
  }

  lemma ActBalanced(cfg: Config, s: System, w: Process, a: Action)
    requires ValidConfig(cfg) && Enabled(cfg, s, w, a) && Balanced(w)
    ensures Balanced(Act(cfg, s, w, a))
  {
    var v := Act(cfg, s, w, a);
    forall q ensures Count(q, v.polled) == Count(q, v.closed) + Pending(q, v) {
      PendingMoves(cfg, s, w, a, q);
      if a.TrackRecord? {
        CountSnoc(q, w.polled, a.record);
      }
      if Closes(w, a).Some? {
        CountSnoc(q, w.closed, Closes(w, a).value);
      }
    }
  }

  lemma {:induction false} IdleLanes(q: Query, lanes: seq<Lane>)
    requires forall i :: 0 <= i < |lanes| ==> lanes[i].queue == [] && lanes[i].running == None
    ensures CountLanes(q, lanes) == 0
  {
    if lanes != [] {
      IdleLanes(q, DropLast(lanes));
    }
  }

  lemma NewProcessIdle(cfg: Config, q: Query)
    ensures Pending(q, NewProcess(cfg)) == 0
  {
    BuiltLanesIdle(cfg.pools);
    IdleLanes(q, BuildLanes(cfg.pools));
  }

  /**
   Balanced accounting: along every dispatch route and in every run, what a process has tracked is what it
   has completed, record for record, together with what it still holds.
   */
  lemma {:induction false} TracksEqualCompletesPlusPending(cfg: Config, s: System, steps: seq<Step>)
    requires ValidConfig(cfg) && s.workers == map[]
    ensures forall id :: id in After(cfg, s, steps).workers ==> Balanced(After(cfg, s, steps).workers[id])
  {
    if steps != [] {
      TracksEqualCompletesPlusPending(cfg, s, DropLast(steps));
      var t, step := After(cfg, s, DropLast(steps)), Last(steps);
      if Possible(cfg, t, step) {
        match step
        case Do(id, a) => ActBalanced(cfg, t, t.workers[id], a);
        case Boot(_) => forall q { NewProcessIdle(cfg, q); }
        case _ =>
      }
    }
  }

  // ----- Nothing is completed that was not run -----

  /** The records of s that a pool is to run, in order. */
  function ForPools(cfg: Config, s: seq<Record>): seq<Record> {
    if s == [] then []
    else ForPools(cfg, DropLast(s)) + if NeedsWorker(cfg, Last(s)) then [Last(s)] else []
  }

  ghost predicate LanesForPools(cfg: Config, lanes: seq<Lane>) {
    forall i :: 0 <= i < |lanes| ==>
      (forall r :: r in lanes[i].queue ==> NeedsWorker(cfg, r)) &&
      (lanes[i].running.Some? ==> NeedsWorker(cfg, lanes[i].running.value))
  }

  ghost predicate RanInv(cfg: Config, w: Process) {
    ForPools(cfg, w.closed) == w.finished && LanesForPools(cfg, w.lanes)
  }

  /**
   The records that a process completed and that need a worker are exactly those that its lanes have run to the end, in
   that order; the others it completed by itself, and no lane ever held them.
   */
  lemma {:induction false} CompletedWhenRun(cfg: Config, s: System, steps: seq<Step>)
    requires ValidConfig(cfg) && s.workers == map[]
    ensures forall id :: id in After(cfg, s, steps).workers ==> RanInv(cfg, After(cfg, s, steps).workers[id])
  {
    if steps != [] {
      CompletedWhenRun(cfg, s, DropLast(steps));
      var t, step := After(cfg, s, DropLast(steps)), Last(steps);
      if Possible(cfg, t, step) {
        match step
        case Do(id, a) => RanStep(cfg, t, t.workers[id], a);
        case Boot(_) => BuiltLanesIdle(cfg.pools);
        case _ =>
      }
    }
  }

  lemma {:induction false} RanStep(cfg: Config, s: System, w: Process, a: Action)
    requires ValidConfig(cfg) && Enabled(cfg, s, w, a) && RanInv(cfg, w)
    ensures RanInv(cfg, Act(cfg, s, w, a))
  {
    match a
    case CloseInline(_) =>
      RoutedIff(cfg, w.current.value);
      assert DropLast(w.closed + [w.current.value]) == w.closed;
    case Submit => RoutedIff(cfg, w.current.value);
    case FinishJob(i, _) => assert DropLast(w.closed + [w.lanes[i].running.value]) == w.closed;
    case _ =>
  }
}
