/**
 The key-affinity worker pool as an object (internal/workerpool/pool.go), and the sizing of its lanes
 (internal/consumer/consumer.go, New).  How lanes, poll loop and offset manager interleave is the subject of
 the Worker modules.
 */
module WorkerPool {
  import opened Collections
  import opened Worker
  import opened WorkerPressure
  import OffsetManager

  /** What a send on a lane's channel does. */
  datatype Sent = Enqueued | Blocks | PanicsClosed

  function TotalQueued<Job>(lanes: seq<seq<Job>>): nat {
    if lanes == [] then 0 else TotalQueued(DropLast(lanes)) + |Last(lanes)|
  }

  /** The total follows every change of one lane. */
  lemma {:induction false} TotalOfChangedLane<Job>(lanes: seq<seq<Job>>, i: nat, queue: seq<Job>)
    requires i < |lanes|
    ensures TotalQueued(lanes[i := queue]) == TotalQueued(lanes) - |lanes[i]| + |queue|
  {
    if i == |lanes| - 1 {
      assert DropLast(lanes[i := queue]) == DropLast(lanes);
    } else {
      assert DropLast(lanes[i := queue]) == DropLast(lanes)[i := queue];
      TotalOfChangedLane(DropLast(lanes), i, queue);
    }
  }

  lemma {:induction false} NothingQueued<Job>(lanes: seq<seq<Job>>)
    ensures TotalQueued(lanes) == 0 <==> forall i :: 0 <= i < |lanes| ==> lanes[i] == []
  {
    if lanes != [] {
      NothingQueued(DropLast(lanes));
      assert forall i :: 0 <= i < |lanes| - 1 ==> lanes[i] == DropLast(lanes)[i];
    }
  }

  class Pool<Job> {
    const lanes: array<seq<Job>>
    const capacity: nat
    const hash: string -> nat
    var closed: bool

    ghost predicate Valid()
      reads this, lanes
    {
      0 < lanes.Length && 0 < capacity && forall i :: 0 <= i < lanes.Length ==> |lanes[i]| <= capacity
    }

    /** Lane and buffer counts below one are raised to one. */
    constructor (laneCount: int, bufferPerLane: int, hash: string -> nat)
      ensures Valid() && fresh(lanes) && !closed && this.hash == hash
      ensures lanes.Length == Max(1, laneCount) && capacity == Max(1, bufferPerLane)
      ensures forall i :: 0 <= i < lanes.Length ==> lanes[i] == []
    {
      var n: nat := if laneCount < 1 then 1 else laneCount;
      lanes := new seq<Job>[n](_ => []);
      capacity := if bufferPerLane < 1 then 1 else bufferPerLane;
      this.hash := hash;
      closed := false;
    }

    /** Equal keys have equal lanes, for the life of the pool. */
    function LaneFor(key: string): (i: nat)
      requires 0 < lanes.Length
      ensures i < lanes.Length && hash(key) == lanes.Length * (hash(key) / lanes.Length) + i
    {
      hash(key) % lanes.Length
    }

    method Submit(key: string, job: Job) returns (r: Sent)
      requires Valid()
      modifies lanes
      ensures Valid()
      ensures r == if closed then PanicsClosed else if |old(lanes[LaneFor(key)])| < capacity then Enqueued else Blocks
      ensures lanes[..] == if r.Enqueued? then old(lanes[..])[LaneFor(key) := old(lanes[LaneFor(key)]) + [job]]
                           else old(lanes[..])
    {
      var i := LaneFor(key);
      if closed {
        return PanicsClosed;
      }
      if |lanes[i]| == capacity {
        return Blocks;
      }
      lanes[i] := lanes[i] + [job];
      return Enqueued;
    }

    method IsLaneFull(key: string) returns (full: bool)
      requires Valid()
      ensures full <==> |lanes[LaneFor(key)]| >= capacity
    {
      full := |lanes[LaneFor(key)]| >= capacity;
    }

    method QueueDepth() returns (total: nat)
      requires Valid()
      ensures total == TotalQueued(lanes[..])
      ensures total <= lanes.Length * capacity
    {
      total := 0;
      for i := 0 to lanes.Length
        invariant total == TotalQueued(lanes[..i])
        invariant total <= i * capacity
      {
        assert DropLast(lanes[..i + 1]) == lanes[..i];
        assert (i + 1) * capacity == i * capacity + capacity;
        total := total + |lanes[i]|;
      }
      assert lanes[..lanes.Length] == lanes[..];
    }

    /** The body of runLane after the channel is closed: every job left runs, in the order of submission. */
    method DrainLane(i: nat) returns (executed: seq<Job>)
      requires Valid() && i < lanes.Length
      modifies lanes
      ensures Valid() && executed == old(lanes[i]) && lanes[..] == old(lanes[..])[i := []]
    {
      executed := [];
      while lanes[i] != []
        invariant Valid() && executed + lanes[i] == old(lanes[i])
        invariant forall j :: 0 <= j < lanes.Length && j != i ==> lanes[j] == old(lanes[j])
        decreases |lanes[i]|
      {
        executed := executed + [lanes[i][0]];
        lanes[i] := lanes[i][1..];
      }
    }

    /** Stop closes the lanes and returns when each has run what it held. */
    method Stop() returns (executed: seq<seq<Job>>)
      requires Valid() && !closed
      modifies this`closed, lanes
      ensures Valid() && closed
      ensures executed == old(lanes[..])
      ensures forall i :: 0 <= i < lanes.Length ==> lanes[i] == []
    {
      closed := true;
      executed := [];
      for i := 0 to lanes.Length
        invariant Valid() && closed && |executed| == i
        invariant forall j :: 0 <= j < i ==> lanes[j] == [] && executed[j] == old(lanes[j])
        invariant forall j :: i <= j < lanes.Length ==> lanes[j] == old(lanes[j])
      {
        ghost var before := lanes[..];
        var ran := DrainLane(i);
        assert forall j :: 0 <= j < lanes.Length ==> lanes[j] == lanes[..][j] && (j != i ==> lanes[j] == before[j]);
        executed := executed + [ran];
      }
    }
  }

  // ----- Sizing -----

  function Max(a: int, b: int): int {
    if a < b then b else a
  }

  /** Go's integer division truncates toward zero. */
  function GoDiv(a: int, b: int): int
    requires b != 0
  {
    if (a >= 0) == (b > 0) then Abs(a) / Abs(b) else -(Abs(a) / Abs(b))
  }

  function Abs(a: int): nat {
    if a < 0 then -a else a
  }

  /** bufferPerLane: None when the division by zero panics. */
  function BufferPerLane(queueBufferSize: int, laneCount: int): Option<int> {
    if laneCount == 0 then None else Some(Max(50, GoDiv(queueBufferSize, laneCount)))
  }

  /** A pool as New makes it from the configured counts. */
  function SpecFor(topic: string, queueBufferSize: int, laneCount: int): PoolSpec
    requires laneCount != 0
  {
    PoolSpec(topic, Max(1, laneCount), Max(1, BufferPerLane(queueBufferSize, laneCount).value))
  }

  function NewPools(queueBufferSize: int, cases: int, payments: int, visits: int, notifications: int): seq<PoolSpec>
    requires cases != 0 && payments != 0 && visits != 0 && notifications != 0
  {
    [SpecFor("cases", queueBufferSize, cases), SpecFor("payments", queueBufferSize, payments),
     SpecFor("visits", queueBufferSize, visits), SpecFor("notifications", queueBufferSize, notifications)]
  }

  /** The four topics have pools, each with the lanes configured for it, and no other topic has one. */
  lemma {:induction false} PoolsAsConfigured(queueBufferSize: int, c: int, p: int, v: int, n: int, topic: string)
    requires c > 0 && p > 0 && v > 0 && n > 0
    ensures var pools := NewPools(queueBufferSize, c, p, v, n);
            var i := FindPool(pools, topic);
            && (i.Some? <==> topic in ["cases", "payments", "visits", "notifications"])
            && (i.Some? ==>
                  pools[i.value].lanes ==
                  (if topic == "cases" then c else if topic == "payments" then p else if topic == "visits" then v else n))
  {
    var pools := NewPools(queueBufferSize, c, p, v, n);
    FindPoolFinds(pools, topic);
    assert [pools[0].topic, pools[1].topic, pools[2].topic, pools[3].topic] == ["cases", "payments", "visits", "notifications"];
  }

  /**
   With a positive lane count, the lanes of a pool together never buffer more than the configured size or 50 a
   lane, whichever is more; and when the size allows 50 a lane, less than one lane's share of it is lost.
   */
  lemma PoolCapacity(topic: string, queueBufferSize: int, laneCount: int)
    requires laneCount > 0
    ensures var p := SpecFor(topic, queueBufferSize, laneCount);
            && p.lanes == laneCount && p.buffer >= 50
            && p.lanes * p.buffer <= Max(queueBufferSize, 50 * laneCount)
            && (queueBufferSize >= 50 * laneCount ==> queueBufferSize - laneCount < p.lanes * p.buffer)
  {
    var b := GoDiv(queueBufferSize, laneCount);
    if queueBufferSize < 0 {
      NegativeShare(queueBufferSize, laneCount);
    } else {
      DivBounds(queueBufferSize, laneCount);
      if b < 50 {
        SmallShare(queueBufferSize, laneCount, b);
      }
    }
  }

  lemma NegativeShare(a: int, n: nat)
    requires a < 0 && n > 0
    ensures GoDiv(a, n) <= 0
  {
  }

  lemma SmallShare(a: nat, n: nat, b: int)
    requires a < n * b + n && b < 50
    ensures a < 50 * n
  {
    Monotone(n, b + 1, 50);
    assert n * (b + 1) == n * b + n;
  }

  lemma DivBounds(a: nat, n: nat)
    requires n > 0
    ensures n * (a / n) <= a < n * (a / n) + n
    ensures GoDiv(a, n) == a / n
  {
  }

  lemma Monotone(n: nat, a: int, b: int)
    requires a <= b
    ensures n * a <= n * b
  {
  }

  /** The bound of back-pressure for the configuration that New builds. */
  lemma {:induction false} ConfiguredBackPressure(cfg: Config, queueBufferSize: int, c: int, p: int, v: int, n: int,
                               s: System, steps: seq<Step>, id: nat, tps: seq<OffsetManager.TopicPartition>)
    requires c > 0 && p > 0 && v > 0 && n > 0
    requires cfg.pools == NewPools(queueBufferSize, c, p, v, n) && ValidConfig(cfg)
    requires s.workers == map[] && TidyRun(cfg, s, steps) && id in After(cfg, s, steps).workers
    requires forall i, j :: 0 <= i < j < |tps| ==> tps[i] != tps[j]
    ensures TotalInFlight(After(cfg, s, steps).workers[id], tps) <=
            Max(queueBufferSize, 50 * c) + c + Max(queueBufferSize, 50 * p) + p +
            Max(queueBufferSize, 50 * v) + v + Max(queueBufferSize, 50 * n) + n + 1
  {
    BackPressure(cfg, s, steps, id, tps);
    ConfiguredRoom(queueBufferSize, c, p, v, n);
  }

  lemma ConfiguredRoom(queueBufferSize: int, c: int, p: int, v: int, n: int)
    requires c > 0 && p > 0 && v > 0 && n > 0
    ensures PoolRoom(NewPools(queueBufferSize, c, p, v, n)) <=
            Max(queueBufferSize, 50 * c) + c + Max(queueBufferSize, 50 * p) + p +
            Max(queueBufferSize, 50 * v) + v + Max(queueBufferSize, 50 * n) + n
  {
    var pools := NewPools(queueBufferSize, c, p, v, n);
    RoomOfOne(pools[..3], pools[3]);
    RoomOfOne(pools[..2], pools[2]);
    RoomOfOne(pools[..1], pools[1]);
    RoomOfOne(pools[..0], pools[0]);
    assert pools == pools[..3] + [pools[3]] && pools[..3] == pools[..2] + [pools[2]];
    assert pools[..2] == pools[..1] + [pools[1]] && pools[..1] == pools[..0] + [pools[0]];
    PoolCapacity("cases", queueBufferSize, c);
    PoolCapacity("payments", queueBufferSize, p);
    PoolCapacity("visits", queueBufferSize, v);
    PoolCapacity("notifications", queueBufferSize, n);
  }

  lemma {:induction false} RoomOfOne(pools: seq<PoolSpec>, p: PoolSpec)
    ensures PoolRoom(pools + [p]) == PoolRoom(pools) + p.lanes * p.buffer + p.lanes
  {
    assert DropLast(pools + [p]) == pools;
  }
}
