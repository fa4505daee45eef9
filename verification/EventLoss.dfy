/** No event is lost, however many copies of it there are; and exactly which faults can lose one. */
module EventLoss {
  import opened Collections
  import opened Envelope
  import opened Retry
  import opened Scheduler
  import opened Flow
  import opened FlowClaims
  import opened FlowRuns
  import Worker

  /** The event is in some copy, in the schedule, processed, or in the DLQ. */
  ghost predicate Somewhere(s: State, id: string) {
    || (exists c :: c in s.copies && CopyId(s.copies[c]) == id)
    || id in s.store.schedule || id in s.succeeded || id in s.dead
  }

  /** Each key that is set belongs to a job that owns it, or to an event that has been processed. */
  ghost predicate KeysJustified(s: State) {
    forall id :: id in s.keys ==> SomeOwner(s, id) || id in s.succeeded
  }

  /** Each entry has its payload. */
  predicate EntriesReadable(s: State) {
    forall id :: id in s.store.schedule ==>
      id in s.store.payload && Unmarshal(s.store.payload[id]).Some? && Unmarshal(s.store.payload[id]).value.eventId == id
  }

  ghost predicate Kept(s: State) {
    KeysJustified(s) && EntriesReadable(s) && Numbered(s)
  }

  /** A failing acquire and an expiring key do no harm here; a crash and a failing release may. */
  predicate Harmless(step: Step) {
    !step.CrashJob? && !step.ReleaseFails?
  }

  predicate AllHarmless(steps: seq<Step>) {
    forall i :: 0 <= i < |steps| ==> Harmless(steps[i])
  }

  function PublishedIds(steps: seq<Step>): set<string> {
    if steps == [] then {}
    else PublishedIds(DropLast(steps)) + if Last(steps).Publish? then {IdOf(Last(steps).body)} else {}
  }

  /**
   No event is lost: in every run without crashes and failing releases, with any number of copies of any event, each
   event that was published is in some copy, in the schedule, processed, or in the DLQ.
   */
  lemma {:induction false} NoEventLost(cfg: Config, s: State, steps: seq<Step>)
    requires Init(s) && AllHarmless(steps)
    ensures forall id :: id in PublishedIds(steps) ==> Somewhere(After(cfg, s, steps), id)
  {
    NothingLost(cfg, s, steps);
  }

  /** From any state on the way, nothing that is somewhere gets lost. */
  lemma {:induction false} NothingLost(cfg: Config, s: State, steps: seq<Step>)
    requires Kept(s) && AllHarmless(steps)
    ensures Kept(After(cfg, s, steps))
    ensures forall id :: Somewhere(s, id) || id in PublishedIds(steps) ==> Somewhere(After(cfg, s, steps), id)
  {
    if steps != [] {
      NothingLost(cfg, s, DropLast(steps));
      var t, step := After(cfg, s, DropLast(steps)), Last(steps);
      if Possible(t, step) {
        KeptStep(cfg, t, step);
        forall id | Somewhere(t, id) || (step.Publish? && IdOf(step.body) == id) ensures Somewhere(Next(cfg, t, step), id) {
          SomewhereStep(cfg, t, step, id);
        }
      }
    }
  }

  // ----- The invariant -----

  lemma KeptStep(cfg: Config, s: State, step: Step)
    requires Kept(s) && Possible(s, step) && Harmless(step)
    ensures Kept(Next(cfg, s, step))
  {
    NumberedStep(cfg, s, step);
    ReadableStep(cfg, s, step);
    forall id | id in Next(cfg, s, step).keys ensures SomeOwner(Next(cfg, s, step), id) || id in Next(cfg, s, step).succeeded {
      JustifiedStep(cfg, s, step, id);
    }
  }

  lemma ReadableStep(cfg: Config, s: State, step: Step)
    requires EntriesReadable(s) && Possible(s, step)
    ensures EntriesReadable(Next(cfg, s, step))
  {
    match step
    case HandOff(c) => ReadableHandOff(cfg, s, c);
    case Claim(id) => assert Next(cfg, s, step).store == ClaimIn(s.store, id).0;
    case _ => SameStore(cfg, s, step);
  }

  lemma ReadableHandOff(cfg: Config, s: State, c: nat)
    requires EntriesReadable(s) && Possible(s, HandOff(c))
    ensures EntriesReadable(Next(cfg, s, HandOff(c)))
  {
    var env := ParseRetryEnvelope(s.copies[c].body);
    if env.Some? {
      EnvelopeRoundTrip(env.value);
    }
  }

  lemma SameStore(cfg: Config, s: State, step: Step)
    requires Possible(s, step) && !step.HandOff? && !step.Claim?
    ensures Next(cfg, s, step).store == s.store
  {
  }

  /** A set key is the one of an owner or of a processed event, or was set just now by an owner. */
  lemma JustifiedStep(cfg: Config, s: State, step: Step, id: string)
    requires Kept(s) && Possible(s, step) && Harmless(step) && id in Next(cfg, s, step).keys
    ensures SomeOwner(Next(cfg, s, step), id) || id in Next(cfg, s, step).succeeded
  {
    var t := Next(cfg, s, step);
    KeysStep(cfg, s, step, id);
    if id !in s.keys {
      assert Owns(t, step.copy, id);
    } else if SomeOwner(s, id) {
      var d :| Owns(s, d, id);
      OwnerStays(cfg, s, step, d, id);
      if Owns(t, d, id) {
        assert SomeOwner(t, id);
      }
    } else {
      EndsGrow(cfg, s, step, id);
    }
  }

  /** A key is set by a job that owns it from now on, and a release removes it. */
  lemma KeysStep(cfg: Config, s: State, step: Step, id: string)
    requires Possible(s, step) && Harmless(step)
    ensures var t := Next(cfg, s, step);
            && (id in t.keys && id !in s.keys ==> (step.Acquire? || step.AcquireFails?) && Owns(t, step.copy, id))
            && (step.Release? && s.copies[step.copy].event.eventId == id ==> id !in t.keys)
  {
    if step.Consume? || step.HandOff? || step.Fallback? || step.Process? || step.Claim? {
      SameKeys(cfg, s, step);
    }
  }

  lemma SameKeys(cfg: Config, s: State, step: Step)
    requires Possible(s, step) && (step.Consume? || step.HandOff? || step.Fallback? || step.Process? || step.Claim?)
    ensures Next(cfg, s, step).keys == s.keys
  {
  }

  /** An owner goes on owning until it has succeeded or is released. */
  lemma OwnerStays(cfg: Config, s: State, step: Step, d: nat, id: string)
    requires Numbered(s) && Possible(s, step) && Harmless(step) && Owns(s, d, id)
    ensures var t := Next(cfg, s, step); Owns(t, d, id) || id in t.succeeded || (step.Release? && step.copy == d)
  {
    if !WorksOnCopy(step, d) {
      OthersStay(cfg, s, step, d);
    }
  }

  predicate WorksOnCopy(step: Step, c: nat) {
    match step
    case Consume(d, _, _) => c == d
    case Acquire(d) => c == d
    case Process(d, _) => c == d
    case Release(d) => c == d
    case Fallback(d, _) => c == d
    case HandOff(d) => c == d
    case AcquireFails(d, _) => c == d
    case ReleaseFails(d) => c == d
    case CrashJob(d, _) => c == d
    case _ => false
  }

  /** A step leaves the copies it does not work on. */
  lemma OthersStay(cfg: Config, s: State, step: Step, c: nat)
    requires Numbered(s) && Possible(s, step) && c in s.copies && !WorksOnCopy(step, c)
    ensures c in Next(cfg, s, step).copies && Next(cfg, s, step).copies[c] == s.copies[c]
  {
    if step.Publish? || step.Claim? {
      OthersStayBesideNew(cfg, s, step, c);
    } else if step.HandOff? {
      OthersStayAtHandOff(cfg, s, step.copy, c);
    } else if step.Consume? {
      OthersStayAtConsume(cfg, s, step, c);
    } else if step.Fallback? {
      OthersStayAtFallback(cfg, s, step, c);
    }
  }

  lemma OthersStayBesideNew(cfg: Config, s: State, step: Step, c: nat)
    requires Numbered(s) && Possible(s, step) && c in s.copies && (step.Publish? || step.Claim?)
    ensures c in Next(cfg, s, step).copies && Next(cfg, s, step).copies[c] == s.copies[c]
  {
  }

  lemma OthersStayAtHandOff(cfg: Config, s: State, d: nat, c: nat)
    requires Possible(s, HandOff(d)) && c in s.copies && c != d
    ensures c in Next(cfg, s, HandOff(d)).copies && Next(cfg, s, HandOff(d)).copies[c] == s.copies[c]
  {
  }

  lemma OthersStayAtConsume(cfg: Config, s: State, step: Step, c: nat)
    requires Possible(s, step) && c in s.copies && step.Consume? && step.copy != c
    ensures c in Next(cfg, s, step).copies && Next(cfg, s, step).copies[c] == s.copies[c]
  {
  }

  lemma OthersStayAtFallback(cfg: Config, s: State, step: Step, c: nat)
    requires Possible(s, step) && c in s.copies && step.Fallback? && step.copy != c
    ensures c in Next(cfg, s, step).copies && Next(cfg, s, step).copies[c] == s.copies[c]
  {
  }

  /** What has ended stays ended. */
  lemma EndsGrow(cfg: Config, s: State, step: Step, id: string)
    requires Possible(s, step)
    ensures id in s.succeeded ==> id in Next(cfg, s, step).succeeded
    ensures id in s.dead ==> id in Next(cfg, s, step).dead
  {
    if step.Consume? || step.HandOff? || step.Fallback? {
      EndsGrowByRecord(cfg, s, step, id);
    }
  }

  lemma EndsGrowByRecord(cfg: Config, s: State, step: Step, id: string)
    requires Possible(s, step) && (step.Consume? || step.HandOff? || step.Fallback?)
    ensures id in s.succeeded ==> id in Next(cfg, s, step).succeeded
    ensures id in s.dead ==> id in Next(cfg, s, step).dead
  {
  }

  // ----- No step loses an event -----

  lemma SomewhereStep(cfg: Config, s: State, step: Step, id: string)
    requires Kept(s) && Possible(s, step) && Harmless(step)
    requires Somewhere(s, id) || (step.Publish? && IdOf(step.body) == id)
    ensures Somewhere(Next(cfg, s, step), id)
  {
    var t := Next(cfg, s, step);
    EndsGrow(cfg, s, step, id);
    if step.Publish? && IdOf(step.body) == id {
      assert CopyId(t.copies[s.nextCopy]) == id;
    } else if c :| c in s.copies && CopyId(s.copies[c]) == id {
      CopyStays(cfg, s, step, c);
    } else if id in s.store.schedule {
      EntryStays(cfg, s, step, id);
    }
  }

  lemma EntryStays(cfg: Config, s: State, step: Step, id: string)
    requires EntriesReadable(s) && Possible(s, step) && id in s.store.schedule
    ensures Somewhere(Next(cfg, s, step), id)
  {
    if step == Claim(id) {
      EntryClaimed(cfg, s, id);
    } else if step.Claim? {
      assert id in ClaimIn(s.store, step.id).0.schedule;
    } else if step.HandOff? {
      EntriesGrow(cfg, s, step.copy, id);
    } else {
      SameStore(cfg, s, step);
    }
  }

  lemma EntryClaimed(cfg: Config, s: State, id: string)
    requires EntriesReadable(s) && Possible(s, Claim(id)) && id in s.store.schedule
    ensures Somewhere(Next(cfg, s, Claim(id)), id)
  {
    assert CopyId(Next(cfg, s, Claim(id)).copies[s.nextCopy]) == id;
  }

  lemma EntriesGrow(cfg: Config, s: State, c: nat, id: string)
    requires Possible(s, HandOff(c)) && id in s.store.schedule
    ensures id in Next(cfg, s, HandOff(c)).store.schedule
  {
  }

  lemma CopyStays(cfg: Config, s: State, step: Step, c: nat)
    requires Kept(s) && Possible(s, step) && Harmless(step) && c in s.copies
    ensures Somewhere(Next(cfg, s, step), CopyId(s.copies[c]))
  {
    if !WorksOnCopy(step, c) {
      OthersStay(cfg, s, step, c);
    } else {
      match step
      case Consume(_, partition, offset) => ConsumedStays(cfg, s, c, partition, offset);
      case Acquire(_) => AcquiredStays(cfg, s, c);
      case HandOff(_) => HandedOffStays(cfg, s, c);
      case Fallback(_, reason) => FallbackStays(cfg, s, c, reason);
      case _ => StageStays(cfg, s, step, c);
    }
  }

  lemma ConsumedStays(cfg: Config, s: State, c: nat, partition: int, offset: nat)
    requires Possible(s, Consume(c, partition, offset))
    ensures Somewhere(Next(cfg, s, Consume(c, partition, offset)), CopyId(s.copies[c]))
  {
    var t, r := Next(cfg, s, Consume(c, partition, offset)), s.copies[c];
    if c in t.copies {
      assert CopyId(t.copies[c]) == CopyId(r);
    } else {
      assert t.dead == s.dead + multiset{IdOf(r.body)};
    }
  }

  /** A job that is skipped leaves the owner of its key, or the success it is skipped for. */
  lemma AcquiredStays(cfg: Config, s: State, c: nat)
    requires KeysJustified(s) && Possible(s, Acquire(c))
    ensures Somewhere(Next(cfg, s, Acquire(c)), CopyId(s.copies[c]))
  {
    var t, id := Next(cfg, s, Acquire(c)), CopyId(s.copies[c]);
    if id in s.keys && SomeOwner(s, id) {
      var d :| Owns(s, d, id);
      assert d in t.copies && CopyId(t.copies[d]) == id;
    } else if id !in s.keys {
      assert c in t.copies && CopyId(t.copies[c]) == id;
    }
  }

  lemma HandedOffStays(cfg: Config, s: State, c: nat)
    requires Possible(s, HandOff(c))
    ensures Somewhere(Next(cfg, s, HandOff(c)), CopyId(s.copies[c]))
  {
    var t, env := Next(cfg, s, HandOff(c)), ParseRetryEnvelope(s.copies[c].body);
    if env.Some? {
      assert CopyId(s.copies[c]) in t.store.schedule;
    } else {
      assert CopyId(s.copies[c]) in t.dead;
    }
  }

  lemma FallbackStays(cfg: Config, s: State, c: nat, reason: string)
    requires Possible(s, Fallback(c, reason))
    ensures Somewhere(Next(cfg, s, Fallback(c, reason)), CopyId(s.copies[c]))
  {
    var t, id := Next(cfg, s, Fallback(c, reason)), CopyId(s.copies[c]);
    if c in t.copies {
      assert CopyId(t.copies[c]) == id;
    } else {
      assert id in t.dead;
    }
  }

  lemma StageStays(cfg: Config, s: State, step: Step, c: nat)
    requires Possible(s, step) && Harmless(step) && WorksOnCopy(step, c) && c in s.copies
    requires step.Process? || step.Release? || step.AcquireFails?
    ensures Somewhere(Next(cfg, s, step), CopyId(s.copies[c]))
  {
    var t, id := Next(cfg, s, step), CopyId(s.copies[c]);
    if c in t.copies {
      assert CopyId(t.copies[c]) == id;
    } else {
      assert id in t.succeeded;
    }
  }

  // ----- The faults that lose an event -----

  /** The copy is the one place where its event is. */
  ghost predicate Alone(s: State, c: nat) {
    c in s.copies &&
    var id := CopyId(s.copies[c]);
    && (forall d :: d in s.copies && CopyId(s.copies[d]) == id ==> d == c)
    && id !in s.store.schedule && id !in s.succeeded && id !in s.dead
  }

  /** Some continuation without further crashes and failing releases, and without a new copy, loses the event. */
  ghost predicate CanBeLost(cfg: Config, s: State, id: string) {
    exists steps :: AllHarmless(steps) && id !in PublishedIds(steps) && !Somewhere(After(cfg, s, steps), id)
  }

  lemma KeptIsNotLost(cfg: Config, s: State, id: string)
    requires Kept(s) && Somewhere(s, id)
    ensures !CanBeLost(cfg, s, id)
  {
    forall steps | AllHarmless(steps) ensures Somewhere(After(cfg, s, steps), id) {
      NothingLost(cfg, s, steps);
    }
  }

  lemma {:induction false} LeadsToLoss(cfg: Config, s: State, steps: seq<Step>, t: State, id: string)
    requires Leads(cfg, s, steps, t) && !Somewhere(t, id)
    ensures CanBeLost(cfg, s, id)
  {
    NothingPublished(steps);
  }

  lemma {:induction false} NothingPublished(steps: seq<Step>)
    requires forall i :: 0 <= i < |steps| ==> !steps[i].Publish?
    ensures PublishedIds(steps) == {}
  {
    if steps != [] {
      NothingPublished(DropLast(steps));
    }
  }

  /** A copy in its topic whose key is set is skipped, whoever set it. */
  lemma Skipped(cfg: Config, s: State, c: nat, e: Event) returns (steps: seq<Step>, t: State)
    requires InOwnTopic(s, c, e) && Known(cfg, e) && e.eventId in s.keys
    ensures Leads(cfg, s, steps, t)
    ensures t == s.(copies := s.copies - {c}, skipped := s.skipped + multiset{e.eventId})
  {
    steps, t := LeadsOn(cfg, s, [], s, Consume(c, e.partition, e.offset));
    assert t == s.(copies := s.copies[c := Running(e, Entered)]);
    steps, t := LeadsOn(cfg, s, steps, t, Acquire(c));
    assert s.copies[c := Running(e, Entered)] - {c} == s.copies - {c};
  }

  /** A crash can lose the event of a job if and only if the key of the event is set. */
  lemma CrashLosesIff(cfg: Config, s: State, c: nat, body: Body)
    requires Kept(s) && Alone(s, c) && Possible(s, CrashJob(c, body)) && Known(cfg, s.copies[c].event)
    ensures CanBeLost(cfg, Next(cfg, s, CrashJob(c, body)), CopyId(s.copies[c])) <==> CopyId(s.copies[c]) in s.keys
  {
    var e, id, t := s.copies[c].event, CopyId(s.copies[c]), Next(cfg, s, CrashJob(c, body));
    assert InOwnTopic(t, c, e);
    if id in s.keys {
      var steps, u := Skipped(cfg, t, c, e);
      LeadsToLoss(cfg, t, steps, u, id);
    } else {
      NumberedStep(cfg, s, CrashJob(c, body));
      OwnersBut(s, t, c);
      assert CopyId(t.copies[c]) == id;
      KeptIsNotLost(cfg, t, id);
    }
  }

  /** One copy changes, whose key is not set: every other key is as justified as before. */
  lemma OwnersBut(s: State, t: State, c: nat)
    requires KeysJustified(s) && c in s.copies && CopyId(s.copies[c]) !in s.keys
    requires c in t.copies && t.copies == s.copies[c := t.copies[c]] && t.keys == s.keys && t.succeeded == s.succeeded
    ensures KeysJustified(t)
  {
    forall id | id in t.keys ensures SomeOwner(t, id) || id in t.succeeded {
      if SomeOwner(s, id) {
        var d :| Owns(s, d, id);
        assert Owns(t, d, id);
      }
    }
  }

  /** The failed job is retried, rather than sent to the DLQ. */
  predicate WillRetry(cfg: Config, c: Copy)
    requires c.Running? && (c.stage.Failed? || c.stage.Released?)
  {
    IsRetriable(c.stage.error) && ShouldRetry(c.event.retryCount, cfg.maxRetries)
  }

  /** A failing release can lose the event of a job if and only if its key is set and the event is to be retried. */
  lemma ReleaseFailureLosesIff(cfg: Config, s: State, c: nat)
    requires Kept(s) && Alone(s, c) && Possible(s, ReleaseFails(c)) && Known(cfg, s.copies[c].event) && s.now >= 0
    requires s.copies[c].event.topic != "" && s.copies[c].event.retryCount >= 0
    ensures CanBeLost(cfg, Next(cfg, s, ReleaseFails(c)), CopyId(s.copies[c])) <==>
            CopyId(s.copies[c]) in s.keys && WillRetry(cfg, s.copies[c])
  {
    var e, id, t := s.copies[c].event, CopyId(s.copies[c]), Next(cfg, s, ReleaseFails(c));
    assert t == s.(copies := s.copies[c := Running(e, Released(s.copies[c].stage.error))]);
    if id in s.keys && WillRetry(cfg, s.copies[c]) {
      RetryIsSkipped(cfg, t, c, e);
    } else if id !in s.keys {
      NumberedStep(cfg, s, ReleaseFails(c));
      OwnersBut(s, t, c);
      assert CopyId(t.copies[c]) == id;
      KeptIsNotLost(cfg, t, id);
    } else {
      NumberedStep(cfg, s, ReleaseFails(c));
      forall steps | AllHarmless(steps) ensures Somewhere(After(cfg, t, steps), id) {
        DoomedAfter(cfg, t, steps, c, id);
      }
    }
  }

  /** The retry comes back to a key that nobody releases. */
  lemma RetryIsSkipped(cfg: Config, s: State, c: nat, e: Event)
    requires Alone(s, c) && s.copies[c].Running? && s.copies[c].event == e && s.now >= 0 && Numbered(s)
    requires s.copies[c].stage.Released? && WillRetry(cfg, s.copies[c]) && Retriable(cfg, e) && e.eventId in s.keys
    ensures CanBeLost(cfg, s, e.eventId)
  {
    var steps, t := GoesToSchedule(cfg, s, c, e);
    var more, u := ComesBack(cfg, t, e, s.now);
    LeadsConcat(cfg, s, steps, t, more, u);
    var v: State;
    var last: seq<Step>;
    last, v := Skipped(cfg, u, t.nextCopy, Again(e, s.now));
    LeadsConcat(cfg, s, steps + more, u, last, v);
    assert v.copies == s.copies - {c};
    LeadsToLoss(cfg, s, steps + more + last, v, e.eventId);
  }

  /** The job is on its way to the DLQ, or its event is there. */
  ghost predicate Doomed(cfg: Config, s: State, c: nat, id: string) {
    id in s.dead ||
    (c in s.copies && s.copies[c].Running? && s.copies[c].event.eventId == id && s.copies[c].stage.Released? &&
     !WillRetry(cfg, s.copies[c]))
  }

  lemma {:induction false} DoomedAfter(cfg: Config, s: State, steps: seq<Step>, c: nat, id: string)
    requires Numbered(s) && Doomed(cfg, s, c, id) && AllHarmless(steps)
    ensures var t := After(cfg, s, steps); Numbered(t) && Doomed(cfg, t, c, id) && Somewhere(t, id)
  {
    if steps != [] {
      DoomedAfter(cfg, s, DropLast(steps), c, id);
      var t, step := After(cfg, s, DropLast(steps)), Last(steps);
      if Possible(t, step) {
        NumberedStep(cfg, t, step);
        DoomedStep(cfg, t, step, c, id);
      }
    }
    var t := After(cfg, s, steps);
    assert id in t.dead || CopyId(t.copies[c]) == id;
  }

  lemma DoomedStep(cfg: Config, s: State, step: Step, c: nat, id: string)
    requires Numbered(s) && Doomed(cfg, s, c, id) && Possible(s, step) && Harmless(step)
    ensures Doomed(cfg, Next(cfg, s, step), c, id)
  {
    EndsGrow(cfg, s, step, id);
    if id !in s.dead && !WorksOnCopy(step, c) {
      OthersStay(cfg, s, step, c);
    }
  }
}
