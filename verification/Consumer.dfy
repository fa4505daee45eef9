/**
 The consumer as an object: the way of one record through the offset manager, the pools, the retry scheduler and
 the publishers (internal/consumer/consumer.go).  What happens between these calls, on other goroutines, is the
 subject of the Worker and Flow modules.
 */
module Consumer {
  import opened Collections
  import opened Envelope
  import opened OffsetManager
  import opened Retry
  import opened Middleware
  import opened WorkerPool
  import Offsets
  import Scheduler
  import Worker

  datatype Job = Job(record: Worker.Record, event: Event)

  /** What dispatch did: the record is completed, or its job was sent to a lane. */
  datatype Dispatched = Closed | Sending(sent: Sent)

  /** The dispatch paths that end in the dead-letter queue. */
  predicate DeadLettered(cfg: Worker.Config, r: Worker.Record, faults: seq<Scheduler.Fault>) {
    if Worker.IsRetryTopic(r.tp.topic) then ParseRetryEnvelope(r.body).None? || Scheduler.NoFault !in faults
    else !Worker.NeedsWorker(cfg, r)
  }

  /** The manager's table once the record is tracked. */
  function Tracked(m: Table, r: Worker.Record, leaderEpoch: int): Table {
    m[r.tp := Offsets.Track(Get(m, r.tp), r.offset, leaderEpoch)]
  }

  /** The manager's table once the record is completed. */
  function Completed(m: Table, r: Worker.Record): Table {
    m[r.tp := Offsets.Complete(Get(m, r.tp), r.offset)]
  }

  /** The topic's pool is the one the configuration describes. */
  ghost predicate Implements(pool: Pool<Job>, spec: Worker.PoolSpec, hash: string -> nat)
    reads pool, pool.lanes
  {
    pool.Valid() && pool.lanes.Length == spec.lanes && pool.capacity == spec.buffer && pool.hash == hash
  }

  /** Tracking and completing a record are the Track and the Complete of its partition's session, and of no other. */
  lemma {:induction false} HandledInSession(m: Table, r: Worker.Record, leaderEpoch: int, ops: seq<Offsets.Op>, tp: TopicPartition)
    requires Get(m, tp) == Offsets.Run(Offsets.FRESH, ops)
    ensures Get(Tracked(m, r, leaderEpoch), tp) ==
            Offsets.Run(Offsets.FRESH, ops + if tp == r.tp then [Offsets.OpTrack(r.offset, leaderEpoch)] else [])
    ensures Get(Completed(m, r), tp) ==
            Offsets.Run(Offsets.FRESH, ops + if tp == r.tp then [Offsets.OpComplete(r.offset)] else [])
  {
    if tp == r.tp {
      Offsets.RunSnoc(Offsets.FRESH, ops, Offsets.OpTrack(r.offset, leaderEpoch));
      Offsets.RunSnoc(Offsets.FRESH, ops, Offsets.OpComplete(r.offset));
    } else {
      assert ops + [] == ops;
    }
  }

  class Consumer {
    const cfg: Worker.Config
    const offsets: Manager
    const pools: map<string, Pool<Job>>
    const scheduler: Scheduler.Scheduler
    const pipeline: Pipeline
    const retry: Publisher
    var dead: seq<Worker.Record>  // handed to the DLQ publisher, in order

    ghost predicate Valid()
      reads offsets`partitions, offsets`table, offsets`states, offsets.states, pools.Values, set p | p in pools.Values :: p.lanes
    {
      offsets.Valid() && Worker.ValidConfig(cfg) && PoolsMatch()
    }

    /** There is a pool for each configured topic, as configured. */
    ghost predicate PoolsMatch()
      reads pools.Values, set p | p in pools.Values :: p.lanes
    {
      && (forall topic :: topic in pools <==> Worker.FindPool(cfg.pools, topic).Some?)
      && (forall topic :: topic in pools ==>
            Implements(pools[topic], cfg.pools[Worker.FindPool(cfg.pools, topic).value], cfg.hash))
    }

    constructor (cfg: Worker.Config, offsets: Manager, pools: map<string, Pool<Job>>, scheduler: Scheduler.Scheduler,
                 pipeline: Pipeline, retry: Publisher)
      ensures this.cfg == cfg && this.offsets == offsets && this.pools == pools && this.scheduler == scheduler
      ensures this.pipeline == pipeline && this.retry == retry && dead == []
    {
      this.cfg, this.offsets, this.pools, this.scheduler := cfg, offsets, pools, scheduler;
      this.pipeline, this.retry := pipeline, retry;
      dead := [];
    }

    /** The lanes that a record of the topic may be sent to. */
    ghost function LanesOf(topic: string): set<array<seq<Job>>>
      reads pools.Values
    {
      if topic in pools then {pools[topic].lanes} else {}
    }

    ghost function QueuesOf(topic: string): seq<seq<Job>>
      reads pools.Values, LanesOf(topic)
    {
      if topic in pools then pools[topic].lanes[..] else []
    }

    /**
     Poll loop, for one record: track it, then dispatch it.  It is completed here exactly when its route needs no
     worker; otherwise its job goes to the end of the lane that the configuration gives its key.
     */
    method Handle(r: Worker.Record, leaderEpoch: int, faults: seq<Scheduler.Fault>) returns (d: Dispatched)
      requires Valid() && |faults| == 3
      modifies `dead, offsets`partitions, offsets`table, offsets`states, offsets.states, scheduler`store, LanesOf(r.tp.topic)
      ensures offsets.Valid() && fresh(offsets.states - old(offsets.states))
      ensures d.Closed? <==> !Worker.NeedsWorker(cfg, r)
      ensures var tracked := Tracked(old(offsets.table), r, leaderEpoch);
              offsets.table == if d.Closed? then Completed(tracked, r) else tracked
      ensures dead == old(dead) + if DeadLettered(cfg, r, faults) then [r] else []
      ensures scheduler.store == if Worker.IsRetryTopic(r.tp.topic)
                then Scheduler.HandedOff(old(scheduler.store), r.body, faults) else old(scheduler.store)
      ensures if d.Sending? then JobSent(r, d.sent, old(QueuesOf(r.tp.topic)))
              else QueuesOf(r.tp.topic) == old(QueuesOf(r.tp.topic))
    {
      offsets.Track(r.tp, r.offset, leaderEpoch);
      d := Dispatch(r, faults);
    }

    /** The job of r is the last in its lane, and nothing else moved; or the send could not go ahead. */
    ghost predicate JobSent(r: Worker.Record, sent: Sent, before: seq<seq<Job>>)
      requires Worker.ValidConfig(cfg)
      reads pools.Values, set p | p in pools.Values :: p.lanes
    {
      && r.tp.topic in pools && Worker.RouteOf(cfg, r).ToPool?
      && var pool, route := pools[r.tp.topic], Worker.RouteOf(cfg, r);
      && 0 < pool.lanes.Length == |before|
      && var i := pool.LaneFor(route.key);
      && Worker.LaneOf(cfg, r) == Some(Worker.Base(cfg.pools, route.pool) + i)
      && var parsed := ParseAndValidate(r.tp.topic, r.tp.partition, r.offset, r.body);
      && parsed.Valid?
      && pool.lanes[..] == if sent.Enqueued? then before[i := before[i] + [Job(r, parsed.event)]] else before
    }

    method Dispatch(r: Worker.Record, faults: seq<Scheduler.Fault>) returns (d: Dispatched)
      requires Valid() && |faults| == 3
      modifies `dead, offsets`partitions, offsets`table, offsets`states, offsets.states, scheduler`store, LanesOf(r.tp.topic)
      ensures offsets.Valid() && fresh(offsets.states - old(offsets.states))
      ensures d.Closed? <==> !Worker.NeedsWorker(cfg, r)
      ensures offsets.table == if d.Closed? then Completed(old(offsets.table), r) else old(offsets.table)
      ensures dead == old(dead) + if DeadLettered(cfg, r, faults) then [r] else []
      ensures scheduler.store == if Worker.IsRetryTopic(r.tp.topic)
                then Scheduler.HandedOff(old(scheduler.store), r.body, faults) else old(scheduler.store)
      ensures if d.Sending? then JobSent(r, d.sent, old(QueuesOf(r.tp.topic)))
              else QueuesOf(r.tp.topic) == old(QueuesOf(r.tp.topic))
    {
      Worker.RoutedIff(cfg, r);
      if Worker.IsRetryTopic(r.tp.topic) {
        DispatchRetry(r, faults);
        d := Closed;
      } else {
        d := DispatchEvent(r);
      }
    }

    method DispatchEvent(r: Worker.Record) returns (d: Dispatched)
      requires Valid() && !Worker.IsRetryTopic(r.tp.topic)
      modifies `dead, offsets`partitions, offsets`table, offsets`states, offsets.states, LanesOf(r.tp.topic)
      ensures offsets.Valid() && fresh(offsets.states - old(offsets.states))
      ensures d.Closed? <==> !Worker.NeedsWorker(cfg, r)
      ensures offsets.table == if d.Closed? then Completed(old(offsets.table), r) else old(offsets.table)
      ensures dead == old(dead) + if d.Closed? then [r] else []
      ensures if d.Sending? then JobSent(r, d.sent, old(QueuesOf(r.tp.topic)))
              else QueuesOf(r.tp.topic) == old(QueuesOf(r.tp.topic))
    {
      RouteOfEvent(r);
      var parsed := ParseAndValidate(r.tp.topic, r.tp.partition, r.offset, r.body);
      if parsed.Invalid? || (parsed.event.eventType, parsed.event.version) !in cfg.registry || r.tp.topic !in pools {
        DeadLetter(r);
        return Closed;
      }
      var sent := Send(r, parsed.event);
      return Sending(sent);
    }

    lemma RouteOfEvent(r: Worker.Record)
      requires Worker.ValidConfig(cfg) && PoolsMatch() && !Worker.IsRetryTopic(r.tp.topic)
      ensures var parsed := ParseAndValidate(r.tp.topic, r.tp.partition, r.offset, r.body);
              && (Worker.RouteOf(cfg, r).ToPool? <==> Worker.NeedsWorker(cfg, r))
              && (Worker.RouteOf(cfg, r).Inline? <==>
                  parsed.Invalid? || (parsed.event.eventType, parsed.event.version) !in cfg.registry || r.tp.topic !in pools)
    {
      Worker.RoutedIff(cfg, r);
    }

    method Send(r: Worker.Record, e: Event) returns (sent: Sent)
      requires Worker.ValidConfig(cfg) && PoolsMatch() && Worker.RouteOf(cfg, r).ToPool?
      requires ParseAndValidate(r.tp.topic, r.tp.partition, r.offset, r.body) == Parsed.Valid(e)
      modifies LanesOf(r.tp.topic)
      ensures JobSent(r, sent, old(QueuesOf(r.tp.topic)))
    {
      sent := pools[r.tp.topic].Submit(AffinityKey(e), Job(r, e));
    }

    method DispatchRetry(r: Worker.Record, faults: seq<Scheduler.Fault>)
      requires offsets.Valid() && |faults| == 3
      modifies `dead, offsets`partitions, offsets`table, offsets`states, offsets.states, scheduler`store
      ensures offsets.Valid() && fresh(offsets.states - old(offsets.states))
      ensures offsets.table == Completed(old(offsets.table), r)
      ensures dead == old(dead) +
                if ParseRetryEnvelope(r.body).None? || Scheduler.NoFault !in faults then [r] else []
      ensures scheduler.store == Scheduler.HandedOff(old(scheduler.store), r.body, faults)
    {
      var toDlq := scheduler.DispatchRetry(r.body, faults);
      if toDlq {
        dead := dead + [r];
      }
      offsets.Complete(r.tp, r.offset);
    }

    method DeadLetter(r: Worker.Record)
      requires offsets.Valid()
      modifies `dead, offsets`partitions, offsets`table, offsets`states, offsets.states
      ensures offsets.Valid() && fresh(offsets.states - old(offsets.states))
      ensures offsets.table == Completed(old(offsets.table), r)
      ensures dead == old(dead) + [r]
    {
      dead := dead + [r];
      offsets.Complete(r.tp, r.offset);
    }

    /**
     What a lane does with a job: the pipeline, the fallback, and the deferred Complete.  A failure goes to exactly
     one of the retry topic and the DLQ, unless the retry publisher panics; success and duplicates go to neither.
     */
    method Execute(j: Job, outcome: Outcome, start: Time, acquireFault: Scheduler.Fault, releaseFault: Scheduler.Fault,
                   now: Time, reason: string)
      returns (r: Executed, panics: bool)
      requires offsets.Valid()
      modifies `dead, offsets`partitions, offsets`table, offsets`states, offsets.states, pipeline, pipeline.idempotency, retry
      ensures offsets.Valid() && fresh(offsets.states - old(offsets.states))
      ensures offsets.table == Completed(old(offsets.table), j.record)
      ensures r.Skipped? <==> acquireFault.NoFault? && Held(old(pipeline.idempotency.keys), KeyOf(j.event.eventId), start)
      ensures !r.Skipped? ==> r == if outcome.Success? then Processed else Failed(outcome)
      ensures pipeline.processed == old(pipeline.processed) + if r.Skipped? then [] else [j.event.eventId]
      ensures KeysAfter(old(pipeline.idempotency.keys), pipeline.idempotency.keys, j.event.eventId, start,
                        acquireFault, releaseFault, r)
      ensures acquireFault.NoFault? && releaseFault.NoFault? ==>
                (Held(pipeline.idempotency.keys, KeyOf(j.event.eventId), start) <==> !r.Failed?)
      ensures r.Processed? && acquireFault.NoFault? ==>
                && KeyOf(j.event.eventId) in pipeline.idempotency.keys
                && pipeline.idempotency.keys[KeyOf(j.event.eventId)] == start + 172800 * SECOND
      ensures var again := r.Failed? && (outcome.OtherError? || outcome.Panic?) && j.event.retryCount < retry.maxRetries;
              && (panics <==> again && j.event.retryCount < 0)
              && retry.produced == old(retry.produced) +
                   (if again && !panics then [(j.event.topic + ".retry", Marshal(RetryOf(j.event, now, reason).value))] else [])
              && dead == old(dead) + (if r.Failed? && !again then [j.record] else [])
    {
      r, panics := ProcessWithFallback(j, outcome, start, acquireFault, releaseFault, now, reason);
      offsets.Complete(j.record.tp, j.record.offset);
    }

    method ProcessWithFallback(j: Job, outcome: Outcome, start: Time, acquireFault: Scheduler.Fault,
                               releaseFault: Scheduler.Fault, now: Time, reason: string)
      returns (r: Executed, panics: bool)
      modifies `dead, pipeline, pipeline.idempotency, retry
      ensures r.Skipped? <==> acquireFault.NoFault? && Held(old(pipeline.idempotency.keys), KeyOf(j.event.eventId), start)
      ensures !r.Skipped? ==> r == if outcome.Success? then Processed else Failed(outcome)
      ensures pipeline.processed == old(pipeline.processed) + if r.Skipped? then [] else [j.event.eventId]
      ensures KeysAfter(old(pipeline.idempotency.keys), pipeline.idempotency.keys, j.event.eventId, start,
                        acquireFault, releaseFault, r)
      ensures acquireFault.NoFault? && releaseFault.NoFault? ==>
                (Held(pipeline.idempotency.keys, KeyOf(j.event.eventId), start) <==> !r.Failed?)
      ensures r.Processed? && acquireFault.NoFault? ==>
                && KeyOf(j.event.eventId) in pipeline.idempotency.keys
                && pipeline.idempotency.keys[KeyOf(j.event.eventId)] == start + 172800 * SECOND
      ensures var again := r.Failed? && (outcome.OtherError? || outcome.Panic?) && j.event.retryCount < retry.maxRetries;
              && (panics <==> again && j.event.retryCount < 0)
              && retry.produced == old(retry.produced) +
                   (if again && !panics then [(j.event.topic + ".retry", Marshal(RetryOf(j.event, now, reason).value))] else [])
              && dead == old(dead) + (if r.Failed? && !again then [j.record] else [])
    {
      panics := false;
      r := pipeline.Execute(j.event, outcome, start, acquireFault, releaseFault);
      if r.Failed? {
        if IsRetriable(r.error) && ShouldRetry(j.event.retryCount, retry.maxRetries) {
          panics := retry.Publish(j.event, now, reason);
        } else {
          dead := dead + [j.record];
        }
      }
    }
  }
}
