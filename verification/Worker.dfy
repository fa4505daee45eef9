/**
 The whole system as a transition system: the broker's logs and committed positions, and any number of
 worker processes, each with its offset manager, poll loop and worker pools
 (internal/consumer/consumer.go, internal/workerpool/pool.go, internal/offsetmanager/manager.go).

 A step is one critical section or one channel operation.  Partition states are objects: `cells` holds
 every one a process has made, `index` is the manager's map.  A goroutine may still use a cell that it
 looked up before Forget removed it from the map.
 */
module Worker {
  import opened Collections
  import opened Envelope
  import opened OffsetManager
  import Offsets

  datatype PoolSpec = PoolSpec(topic: string, lanes: nat, buffer: nat)

  /** `hash` is any fixed function of the affinity key. */
  datatype Config = Config(registry: set<(string, int)>, pools: seq<PoolSpec>, hash: string -> nat)

  ghost predicate ValidConfig(cfg: Config) {
    forall i :: 0 <= i < |cfg.pools| ==> cfg.pools[i].lanes > 0 && cfg.pools[i].buffer > 0
  }

  datatype Record = Record(tp: TopicPartition, offset: nat, body: Body)

  // ----- Routing -----

  datatype Route = Inline | ToPool(pool: nat, key: string)

  function IsRetryTopic(topic: string): bool {
    |topic| >= 6 && topic[|topic| - 6..] == ".retry"
  }

  lemma RetryTopicIsOne(topic: string)
    ensures IsRetryTopic(topic + ".retry") && topic + ".retry" != topic
  {
    assert (topic + ".retry")[|topic + ".retry"| - 6..] == ".retry";
  }

  /** The retry topics are the topics with the suffix, and no others. */
  lemma RetryTopicIff(topic: string)
    ensures IsRetryTopic(topic) <==> exists main: string :: topic == main + ".retry"
  {
    if IsRetryTopic(topic) {
      assert topic == topic[..|topic| - 6] + ".retry";
    }
    if main: string :| topic == main + ".retry" {
      RetryTopicIsOne(main);
    }
  }

  function FindPool(pools: seq<PoolSpec>, topic: string): (r: Option<nat>)
    ensures r.Some? ==> r.value < |pools|
  {
    if pools == [] then None
    else if Last(pools).topic == topic then Some(|pools| - 1)
    else FindPool(DropLast(pools), topic)
  }

  lemma {:induction false} FindPoolFinds(pools: seq<PoolSpec>, topic: string)
    ensures var r := FindPool(pools, topic);
            if r.Some? then pools[r.value].topic == topic else forall i :: 0 <= i < |pools| ==> pools[i].topic != topic
  {
    if pools != [] {
      FindPoolFinds(DropLast(pools), topic);
    }
  }

  /** Retry hand-off, parse failure, unknown type and missing pool are dealt with by the poll loop itself. */
  function RouteOf(cfg: Config, r: Record): (route: Route)
    ensures route.ToPool? ==> route.pool < |cfg.pools|
  {
    if IsRetryTopic(r.tp.topic) then Inline
    else
      match ParseAndValidate(r.tp.topic, r.tp.partition, r.offset, r.body)
      case Invalid(_) => Inline
      case Valid(e) =>
        if (e.eventType, e.version) !in cfg.registry then Inline
        else
          match FindPool(cfg.pools, r.tp.topic)
          case None => Inline
          case Some(i) => ToPool(i, AffinityKey(e))
  }

  /** A pool is to run the record: a complete event of a known type, in a topic that has a pool. */
  predicate NeedsWorker(cfg: Config, r: Record) {
    && !IsRetryTopic(r.tp.topic)
    && r.body.Json? && HasMandatory(r.body.fields)
    && (r.body.fields.eventType, r.body.fields.version) in cfg.registry
    && exists i :: 0 <= i < |cfg.pools| && cfg.pools[i].topic == r.tp.topic
  }

  lemma RoutedIff(cfg: Config, r: Record)
    ensures RouteOf(cfg, r).ToPool? <==> NeedsWorker(cfg, r)
    ensures RouteOf(cfg, r).ToPool? ==> cfg.pools[RouteOf(cfg, r).pool].topic == r.tp.topic
  {
    ParsedIff(r.tp.topic, r.tp.partition, r.offset, r.body);
    FindPoolFinds(cfg.pools, r.tp.topic);
  }

  /** The case that the fields name, or "". */
  function CaseOf(f: Fields): string {
    if f.data.Some? then CaseIn(f.data.value) else ""
  }

  /** Records of one topic, tenant and case, or of one topic and tenant without a case, share their lane. */
  lemma SameEntitySameLane(cfg: Config, a: Record, b: Record)
    requires ValidConfig(cfg) && NeedsWorker(cfg, a) && NeedsWorker(cfg, b) && a.tp.topic == b.tp.topic
    requires a.body.fields.tenantId == b.body.fields.tenantId && CaseOf(a.body.fields) == CaseOf(b.body.fields)
    ensures RouteOf(cfg, a).ToPool? && RouteOf(cfg, a) == RouteOf(cfg, b)
    ensures LaneOf(cfg, a).Some? && LaneOf(cfg, a) == LaneOf(cfg, b)
  {
    RoutedIff(cfg, a);
    RoutedIff(cfg, b);
    KeyIsCase(ParseAndValidate(a.tp.topic, a.tp.partition, a.offset, a.body).event,
              ParseAndValidate(b.tp.topic, b.tp.partition, b.offset, b.body).event);
  }

  /** The lanes of pool i are numbered from Base(pools, i) on. */
  function Base(pools: seq<PoolSpec>, i: nat): nat
    requires i <= |pools|
  {
    if i == 0 then 0 else Base(pools, i - 1) + pools[i - 1].lanes
  }

  function LaneOf(cfg: Config, r: Record): Option<nat>
    requires ValidConfig(cfg)
  {
    match RouteOf(cfg, r)
    case Inline => None
    case ToPool(i, key) => Some(Base(cfg.pools, i) + cfg.hash(key) % cfg.pools[i].lanes)
  }

  // ----- State -----

  datatype Lane = Lane(capacity: nat, queue: seq<Record>, running: Option<Record>)

  /** `ops` is the history of the critical sections that made `part` what it is. */
  datatype Cell = Cell(tp: TopicPartition, part: Offsets.Partition, ops: seq<Offsets.Op>)

  datatype Process = Process(
    cells: seq<Cell>,
    index: map<TopicPartition, nat>,
    resume: map<TopicPartition, nat>,   // where the current assignment of a partition starts reading
    current: Option<Record>,            // tracked by the poll loop, which is still dispatching it
    lanes: seq<Lane>,
    polled: seq<Record>,                // history: tracked, started, finished and completed records
    started: seq<Record>,
    finished: seq<Record>,
    closed: seq<Record>)

  /** The logs with their end positions, and the records whose path has reached Complete. */
  datatype World = World(
    log: set<Record>,
    end: map<TopicPartition, nat>,
    handled: set<(TopicPartition, nat)>)

  /** `requested` holds the commits handed to CommitRecords by anyone, ever. */
  datatype System = System(
    world: World,
    committed: map<TopicPartition, nat>,
    requested: set<(TopicPartition, nat)>,
    workers: map<nat, Process>)

  function BuildLanes(pools: seq<PoolSpec>): seq<Lane> {
    if pools == [] then []
    else BuildLanes(DropLast(pools)) + seq(Last(pools).lanes, _ => Lane(Last(pools).buffer, [], None))
  }

  function NewProcess(cfg: Config): Process {
    Process([], map[], map[], None, BuildLanes(cfg.pools), [], [], [], [])
  }

  function PositionOf(m: map<TopicPartition, nat>, tp: TopicPartition): nat {
    if tp in m then m[tp] else 0
  }

  // ----- Steps of one process -----

  datatype Action =
    | Assign(tp: TopicPartition)
    | Lookup(tp: TopicPartition)              // state(): find the cell or make one
    | TrackRecord(record: Record, cell: nat)  // poll loop: Track
    | CloseInline(cell: nat)                  // poll loop: Complete of a record that needs no worker
    | Submit                                  // poll loop: the send goes through
    | StartJob(lane: nat)
    | FinishJob(lane: nat, cell: nat)         // Execute returns: the deferred Complete
    | FlushCell(cell: nat)
    | DrainCell(cell: nat)
    | ReceiveToken(cell: nat, ch: nat)
    | ForgetPartition(tp: TopicPartition)

  predicate IsCellOf(w: Process, c: nat, tp: TopicPartition) {
    c < |w.cells| && w.cells[c].tp == tp
  }

  predicate Enabled(cfg: Config, s: System, w: Process, a: Action)
    requires ValidConfig(cfg)
  {
    match a
    case Assign(_) => true
    case Lookup(_) => true
    case TrackRecord(r, c) => w.current.None? && r in s.world.log && IsCellOf(w, c, r.tp)
    case CloseInline(c) =>
      w.current.Some? && RouteOf(cfg, w.current.value).Inline? && IsCellOf(w, c, w.current.value.tp)
    case Submit =>
      w.current.Some? && LaneOf(cfg, w.current.value).Some? &&
      var i := LaneOf(cfg, w.current.value).value;
      i < |w.lanes| && |w.lanes[i].queue| < w.lanes[i].capacity
    case StartJob(i) => i < |w.lanes| && w.lanes[i].running.None? && w.lanes[i].queue != []
    case FinishJob(i, c) => i < |w.lanes| && w.lanes[i].running.Some? && IsCellOf(w, c, w.lanes[i].running.value.tp)
    case FlushCell(c) => c < |w.cells|
    case DrainCell(c) => c < |w.cells|
    case ReceiveToken(c, ch) => c < |w.cells| && ch in w.cells[c].part.tokens
    case ForgetPartition(_) => true
  }

  /** Sections that change nothing are not recorded before the first one that does. */
  function ApplyTo(cell: Cell, op: Offsets.Op): Cell {
    var part := Offsets.Apply(cell.part, op);
    Cell(cell.tp, part, if cell.ops == [] && part == cell.part then [] else cell.ops + [op])
  }

  function OnCell(w: Process, c: nat, op: Offsets.Op): Process
    requires c < |w.cells|
  {
    w.(cells := w.cells[c := ApplyTo(w.cells[c], op)])
  }

  function Act(cfg: Config, s: System, w: Process, a: Action): Process
    requires ValidConfig(cfg) && Enabled(cfg, s, w, a)
  {
    match a
    case Assign(tp) => w.(resume := w.resume[tp := PositionOf(s.committed, tp)])
    case Lookup(tp) =>
      if tp in w.index then w
      else w.(cells := w.cells + [Cell(tp, Offsets.FRESH, [])], index := w.index[tp := |w.cells|])
    case TrackRecord(r, c) =>
      OnCell(w, c, Offsets.OpTrack(r.offset, 0)).(current := Some(r), polled := w.polled + [r])
    case CloseInline(c) =>
      OnCell(w, c, Offsets.OpComplete(w.current.value.offset))
      .(current := None, closed := w.closed + [w.current.value])
    case Submit =>
      var i := LaneOf(cfg, w.current.value).value;
      w.(current := None, lanes := w.lanes[i := w.lanes[i].(queue := w.lanes[i].queue + [w.current.value])])
    case StartJob(i) =>
      var l := w.lanes[i];
      w.(lanes := w.lanes[i := l.(queue := l.queue[1..], running := Some(l.queue[0]))],
         started := w.started + [l.queue[0]])
    case FinishJob(i, c) =>
      var l := w.lanes[i];
      OnCell(w, c, Offsets.OpComplete(l.running.value.offset))
      .(lanes := w.lanes[i := l.(running := None)],
        finished := w.finished + [l.running.value], closed := w.closed + [l.running.value])
    case FlushCell(c) => OnCell(w, c, Offsets.OpFlush)
    case DrainCell(c) => OnCell(w, c, Offsets.OpDrain)
    case ReceiveToken(c, ch) => OnCell(w, c, Offsets.OpReceive(ch))
    case ForgetPartition(tp) => w.(index := w.index - {tp}, resume := w.resume - {tp})
  }

  /** The record whose path reaches Complete in this step. */
  function Closes(w: Process, a: Action): Option<Record> {
    match a
    case CloseInline(_) => w.current
    case FinishJob(i, _) => if i < |w.lanes| then w.lanes[i].running else None
    case _ => None
  }

  /** The commit handed to CommitRecords in this step. */
  function Requests(w: Process, a: Action): Option<(TopicPartition, nat)> {
    if a.FlushCell? && a.cell < |w.cells| && Offsets.Flush(w.cells[a.cell].part).1.Some? then
      Some((w.cells[a.cell].tp, Offsets.Flush(w.cells[a.cell].part).1.value.offset))
    else None
  }

  // ----- Steps of the system -----

  datatype Step =
    | Append(record: Record)
    | Boot(id: nat)
    | Crash(id: nat)
    | Deliver(tp: TopicPartition, offset: nat)  // a commit takes effect: late, reordered, repeated or never
    | Do(id: nat, action: Action)

  predicate Possible(cfg: Config, s: System, step: Step)
    requires ValidConfig(cfg)
  {
    match step
    case Append(r) => r.offset >= PositionOf(s.world.end, r.tp)
    case Boot(id) => id !in s.workers
    case Crash(id) => id in s.workers
    case Deliver(tp, o) => (tp, o) in s.requested
    case Do(id, a) => id in s.workers && Enabled(cfg, s, s.workers[id], a)
  }

  function Handle(world: World, closed: Option<Record>): World {
    world.(handled := world.handled + if closed.Some? then {(closed.value.tp, closed.value.offset)} else {})
  }

  function Next(cfg: Config, s: System, step: Step): System
    requires ValidConfig(cfg) && Possible(cfg, s, step)
  {
    match step
    case Append(r) =>
      s.(world := s.world.(log := s.world.log + {r}, end := s.world.end[r.tp := r.offset + 1]))
    case Boot(id) => s.(workers := s.workers[id := NewProcess(cfg)])
    case Crash(id) => s.(workers := s.workers - {id})
    case Deliver(tp, o) => s.(committed := s.committed[tp := o + 1])
    case Do(id, a) =>
      var w := s.workers[id];
      var closed, commit := Closes(w, a), Requests(w, a);
      s.(workers := s.workers[id := Act(cfg, s, w, a)],
         world := Handle(s.world, closed),
         requested := s.requested + if commit.Some? then {commit.value} else {})
  }

  /** The state after a sequence of steps; a step that is not possible is skipped. */
  function After(cfg: Config, s: System, steps: seq<Step>): System
    requires ValidConfig(cfg)
  {
    if steps == [] then s
    else
      var t := After(cfg, s, DropLast(steps));
      if Possible(cfg, t, Last(steps)) then Next(cfg, t, Last(steps)) else t
  }

  lemma {:induction false} AfterSnoc(cfg: Config, s: System, steps: seq<Step>, step: Step)
    requires ValidConfig(cfg)
    ensures After(cfg, s, steps + [step]) ==
            var t := After(cfg, s, steps);
            if Possible(cfg, t, step) then Next(cfg, t, step) else t
  {
    assert DropLast(steps + [step]) == steps && Last(steps + [step]) == step;
  }

  lemma {:induction false} AfterConcat(cfg: Config, s: System, a: seq<Step>, b: seq<Step>)
    requires ValidConfig(cfg)
    ensures After(cfg, s, a + b) == After(cfg, After(cfg, s, a), b)
  {
    if b == [] {
      assert a + b == a;
    } else {
      assert DropLast(a + b) == a + DropLast(b) && Last(a + b) == Last(b);
      AfterConcat(cfg, s, a, DropLast(b));
    }
  }
}
