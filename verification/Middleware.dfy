/** The idempotency store and one uninterrupted run of the pipeline (internal/idempotency/store.go,
    internal/middleware/pipeline.go).  Concurrent runs are the subject of the Flow modules. */
module Middleware {
  import opened Collections
  import opened Envelope
  import opened Retry
  import opened Scheduler

  function KeyOf(eventId: string): string {
    "idempotency:" + eventId
  }

  lemma KeysDiffer(a: string, b: string)
    requires a != b
    ensures KeyOf(a) != KeyOf(b)
  {
    assert KeyOf(a)[|"idempotency:"|..] == a;
    assert KeyOf(b)[|"idempotency:"|..] == b;
  }

  /** How long a key lives. */
  const TTL: Time := 48 * 3600 * SECOND

  type Keys = map<string, Time>

  /** The key is set and its time has not run out. */
  predicate Held(keys: Keys, key: string, now: Time) {
    key in keys && now < keys[key]
  }

  /** A key that is set now is held for 48 hours, and free from then on. */
  lemma HeldFor48Hours(keys: Keys, key: string, now: Time, later: Time)
    ensures Held(keys[key := now + TTL], key, later) <==> later < now + 48 * 3600 * SECOND
  {
  }

  /** SET NX EX and DEL on the shared keys, each kept with the time at which it expires. */
  class IdempotencyStore {
    var keys: Keys

    constructor ()
      ensures keys == map[]
    {
      keys := map[];
    }

    /** `claimed` is the reply; a request that fails has none. */
    method TryAcquire(eventId: string, now: Time, fault: Fault) returns (claimed: Option<bool>)
      modifies this
      ensures keys == if fault.LostRequest? || Held(old(keys), KeyOf(eventId), now) then old(keys)
                      else old(keys)[KeyOf(eventId) := now + 172800 * SECOND]
      ensures claimed == if fault.NoFault? then Some(!Held(old(keys), KeyOf(eventId), now)) else None
    {
      if fault.LostRequest? {
        return None;
      }
      var absent := !Held(keys, KeyOf(eventId), now);
      if absent {
        keys := keys[KeyOf(eventId) := now + TTL];
      }
      claimed := if fault.NoFault? then Some(absent) else None;
    }

    method Release(eventId: string, fault: Fault) returns (ok: bool)
      modifies this
      ensures keys == if fault.LostRequest? then old(keys) else old(keys) - {KeyOf(eventId)}
      ensures ok <==> fault.NoFault?
    {
      if !fault.LostRequest? {
        keys := keys - {KeyOf(eventId)};
      }
      ok := fault.NoFault?;
    }
  }

  /** What Execute returns: nil for a duplicate, nil after success, or the error of Process. */
  datatype Executed = Skipped | Processed | Failed(error: Outcome)

  /**
   The keys after a run of the pipeline: a release that arrives removes the key; otherwise it is what the acquire left,
   set for 48 hours if its request arrived and the key was free.
   */
  predicate KeysAfter(was: Keys, keys: Keys, eventId: string, now: Time, acquireFault: Fault, releaseFault: Fault, r: Executed) {
    var key := KeyOf(eventId);
    if r.Failed? && !releaseFault.LostRequest? then keys == was - {key}
    else if acquireFault.LostRequest? || Held(was, key, now) then keys == was
    else keys == was[key := now + 172800 * SECOND]
  }

  class Pipeline {
    const idempotency: IdempotencyStore
    var processed: seq<string>  // the events handed to Process, in order

    constructor (idempotency: IdempotencyStore)
      ensures this.idempotency == idempotency && processed == []
    {
      this.idempotency := idempotency;
      processed := [];
    }

    /**
     Acquire, process, and release on failure.  `outcome` is how Process ends if it runs; a panic counts as an
     error.  Without faults Process runs exactly when the key was free, and afterwards the key is held exactly when
     the event is now processed or already was.
     */
    method Execute(e: Event, outcome: Outcome, now: Time, acquireFault: Fault, releaseFault: Fault) returns (r: Executed)
      modifies this, idempotency
      ensures r.Skipped? <==> acquireFault.NoFault? && Held(old(idempotency.keys), KeyOf(e.eventId), now)
      ensures !r.Skipped? ==> r == if outcome.Success? then Processed else Failed(outcome)
      ensures processed == if r.Skipped? then old(processed) else old(processed) + [e.eventId]
      ensures acquireFault.NoFault? && releaseFault.NoFault? ==>
                (Held(idempotency.keys, KeyOf(e.eventId), now) <==> !r.Failed?)
      ensures r.Processed? && acquireFault.NoFault? ==>
                KeyOf(e.eventId) in idempotency.keys && idempotency.keys[KeyOf(e.eventId)] == now + 172800 * SECOND
      ensures idempotency.keys - {KeyOf(e.eventId)} == old(idempotency.keys) - {KeyOf(e.eventId)}
      ensures KeysAfter(old(idempotency.keys), idempotency.keys, e.eventId, now, acquireFault, releaseFault, r)
    {
      var reply := idempotency.TryAcquire(e.eventId, now, acquireFault);
      var acquired := true;
      if reply.Some? {
        acquired := reply.value;
      }
      if !acquired {
        return Skipped;
      }
      processed := processed + [e.eventId];
      var processingErr := outcome;
      if !processingErr.Success? {
        var _ := idempotency.Release(e.eventId, releaseFault);
        return Failed(processingErr);
      }
      return Processed;
    }
  }
}
