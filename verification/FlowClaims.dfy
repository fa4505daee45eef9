/** Claim exclusion: among any number of concurrent runs on one event id, and what breaks it. */
module FlowClaims {
  import opened Collections
  import opened Envelope
  import opened Scheduler
  import opened Flow
  import Worker

  /** The job is between TryAcquire and Release. */
  predicate Owns(s: State, c: nat, id: string) {
    c in s.copies && s.copies[c].Running? && s.copies[c].event.eventId == id &&
    (s.copies[c].stage.Owned? || s.copies[c].stage.Failed?)
  }

  /** No two jobs hold the same id, none holds one that has been processed, and none has been processed twice. */
  ghost predicate Exclusive(s: State) {
    && (forall c, d, id :: Owns(s, c, id) && Owns(s, d, id) ==> c == d)
    && (forall c, id :: Owns(s, c, id) ==> id !in s.succeeded)
    && (forall id :: s.succeeded[id] <= 1)
  }

  ghost predicate SomeOwner(s: State, id: string) {
    exists c :: Owns(s, c, id)
  }

  /** The key of an id is set exactly when a job holds it or it has been processed. */
  ghost predicate KeysMark(s: State) {
    forall id :: id in s.keys <==> SomeOwner(s, id) || id in s.succeeded
  }

  /**
   Claim exclusion: without Redis errors, crashes and expiry, in every interleaving at most one job is between
   acquire and release of an event id, an id is processed successfully at most once, and its key is set exactly
   while a job holds it or once it has been processed.
   */
  lemma {:induction false} ClaimExclusion(cfg: Config, s: State, steps: seq<Step>)
    requires Init(s) && AllClean(steps)
    ensures var t := After(cfg, s, steps); Exclusive(t) && KeysMark(t) && Numbered(t)
  {
    ExclusionAfter(cfg, s, steps);
  }

  /** The same from any state on the way. */
  lemma {:induction false} ExclusionAfter(cfg: Config, s: State, steps: seq<Step>)
    requires Exclusive(s) && KeysMark(s) && Numbered(s) && AllClean(steps)
    ensures var t := After(cfg, s, steps); Exclusive(t) && KeysMark(t) && Numbered(t)
  {
    if steps != [] {
      ExclusionAfter(cfg, s, DropLast(steps));
      var t, step := After(cfg, s, DropLast(steps)), Last(steps);
      if Possible(t, step) {
        ExclusionStep(cfg, t, step);
      }
    }
  }

  lemma ExclusionStep(cfg: Config, s: State, step: Step)
    requires Exclusive(s) && KeysMark(s) && Numbered(s) && Possible(s, step) && Clean(step)
    ensures var t := Next(cfg, s, step); Exclusive(t) && KeysMark(t) && Numbered(t)
  {
    NumberedStep(cfg, s, step);
    if step.Acquire? {
      AcquireStep(cfg, s, step.copy);
    } else if step.Process? {
      ProcessStep(cfg, s, step.copy, step.outcome);
    } else if step.Release? {
      ReleaseStep(cfg, s, step.copy);
    } else if step.Consume? {
      ConsumeStep(cfg, s, step.copy, step.partition, step.offset);
    } else if step.Fallback? {
      FallbackStep(cfg, s, step.copy, step.reason);
    } else if step.HandOff? {
      HandOffStep(cfg, s, step.copy);
    } else {
      NewRecordStep(cfg, s, step);
    }
  }

  /** With the same owners, keys and successes, exclusion and marking are the same. */
  lemma SameMarks(s: State, t: State)
    requires Exclusive(s) && KeysMark(s)
    requires forall c, id :: Owns(t, c, id) <==> Owns(s, c, id)
    requires t.keys == s.keys && t.succeeded == s.succeeded
    ensures Exclusive(t) && KeysMark(t)
  {
    forall id ensures SomeOwner(t, id) <==> SomeOwner(s, id) {
      SameSomeOwner(s, t, id);
    }
  }

  predicate Holds(s: State, c: nat) {
    c in s.copies && s.copies[c].Running? && (s.copies[c].stage.Owned? || s.copies[c].stage.Failed?)
  }

  /** One copy changes, and it holds no claim before or after. */
  lemma IdleCopyChanges(s: State, t: State, c: nat)
    requires Exclusive(s) && KeysMark(s) && t.keys == s.keys && t.succeeded == s.succeeded
    requires !Holds(s, c) && !Holds(t, c)
    requires t.copies == s.copies - {c} || (c in t.copies && t.copies == s.copies[c := t.copies[c]])
    ensures Exclusive(t) && KeysMark(t)
  {
    assert forall d, id :: Owns(t, d, id) <==> Owns(s, d, id);
    SameMarks(s, t);
  }

  lemma ConsumeStep(cfg: Config, s: State, c: nat, partition: int, offset: nat)
    requires Exclusive(s) && KeysMark(s) && Possible(s, Consume(c, partition, offset))
    ensures var t := Next(cfg, s, Consume(c, partition, offset)); Exclusive(t) && KeysMark(t)
  {
    IdleCopyChanges(s, Next(cfg, s, Consume(c, partition, offset)), c);
  }

  lemma FallbackStep(cfg: Config, s: State, c: nat, reason: string)
    requires Exclusive(s) && KeysMark(s) && Possible(s, Fallback(c, reason))
    ensures var t := Next(cfg, s, Fallback(c, reason)); Exclusive(t) && KeysMark(t)
  {
    IdleCopyChanges(s, Next(cfg, s, Fallback(c, reason)), c);
  }

  lemma HandOffStep(cfg: Config, s: State, c: nat)
    requires Exclusive(s) && KeysMark(s) && Possible(s, HandOff(c))
    ensures var t := Next(cfg, s, HandOff(c)); Exclusive(t) && KeysMark(t)
  {
    IdleCopyChanges(s, Next(cfg, s, HandOff(c)), c);
  }

  lemma NewRecordStep(cfg: Config, s: State, step: Step)
    requires Exclusive(s) && KeysMark(s) && Numbered(s) && Possible(s, step)
    requires step.Publish? || step.Advance? || step.ReadDue? || step.Claim?
    ensures Exclusive(Next(cfg, s, step)) && KeysMark(Next(cfg, s, step))
  {
    var t := Next(cfg, s, step);
    NewRecordOnly(cfg, s, step);
    assert forall c, id :: Owns(t, c, id) <==> Owns(s, c, id);
    SameMarks(s, t);
  }

  /** At most a record in a topic is new. */
  lemma NewRecordOnly(cfg: Config, s: State, step: Step)
    requires Numbered(s) && Possible(s, step) && (step.Publish? || step.Advance? || step.ReadDue? || step.Claim?)
    ensures var t := Next(cfg, s, step);
            && t.keys == s.keys && t.succeeded == s.succeeded && s.nextCopy !in s.copies
            && (t.copies == s.copies || exists copy: Copy :: copy.InTopic? && t.copies == s.copies[s.nextCopy := copy])
  {
    var t := Next(cfg, s, step);
    if s.nextCopy in t.copies {
      assert t.copies == s.copies[s.nextCopy := t.copies[s.nextCopy]] && t.copies[s.nextCopy].InTopic?;
    }
  }

  lemma SameSomeOwner(s: State, t: State, id: string)
    requires forall c :: Owns(t, c, id) <==> Owns(s, c, id)
    ensures SomeOwner(t, id) <==> SomeOwner(s, id)
  {
    if SomeOwner(s, id) {
      var c :| Owns(s, c, id);
      assert Owns(t, c, id);
    }
    if SomeOwner(t, id) {
      var c :| Owns(t, c, id);
      assert Owns(s, c, id);
    }
  }

  lemma AcquireStep(cfg: Config, s: State, c: nat)
    requires Exclusive(s) && KeysMark(s) && Possible(s, Acquire(c))
    ensures var t := Next(cfg, s, Acquire(c)); Exclusive(t) && KeysMark(t)
  {
    var t, e := Next(cfg, s, Acquire(c)), s.copies[c].event;
    var claimed := e.eventId !in s.keys;
    assert forall d, id :: Owns(t, d, id) <==> Owns(s, d, id) || (claimed && d == c && id == e.eventId);
    if claimed {
      assert Owns(t, c, e.eventId);
      assert !SomeOwner(s, e.eventId) && e.eventId !in s.succeeded;
    }
    forall id ensures SomeOwner(t, id) <==> SomeOwner(s, id) || (claimed && id == e.eventId) {
      if SomeOwner(s, id) {
        var d :| Owns(s, d, id);
        assert Owns(t, d, id);
      }
    }
  }

  lemma ProcessStep(cfg: Config, s: State, c: nat, outcome: Outcome)
    requires Exclusive(s) && KeysMark(s) && Possible(s, Process(c, outcome))
    ensures var t := Next(cfg, s, Process(c, outcome)); Exclusive(t) && KeysMark(t)
  {
    var t, e := Next(cfg, s, Process(c, outcome)), s.copies[c].event;
    assert Owns(s, c, e.eventId);
    assert forall d, id :: Owns(t, d, id) <==> Owns(s, d, id) && !(outcome.Success? && d == c);
    forall id ensures SomeOwner(t, id) <==> SomeOwner(s, id) && !(outcome.Success? && id == e.eventId) {
      if SomeOwner(s, id) {
        var d :| Owns(s, d, id);
        assert !(outcome.Success? && d == c) ==> Owns(t, d, id);
      }
    }
  }

  lemma ReleaseStep(cfg: Config, s: State, c: nat)
    requires Exclusive(s) && KeysMark(s) && Possible(s, Release(c))
    ensures var t := Next(cfg, s, Release(c)); Exclusive(t) && KeysMark(t)
  {
    var t, e := Next(cfg, s, Release(c)), s.copies[c].event;
    assert Owns(s, c, e.eventId);
    assert forall d, id :: Owns(t, d, id) <==> Owns(s, d, id) && d != c;
    forall id ensures SomeOwner(t, id) <==> SomeOwner(s, id) && id != e.eventId {
      if SomeOwner(s, id) {
        var d :| Owns(s, d, id);
        assert d != c ==> Owns(t, d, id);
      }
    }
  }

  // ----- A job on an id can always be had -----

  /** The event is one that the worker processes. */
  predicate Known(cfg: Config, e: Event) {
    && e.version != 0 && e.eventId != "" && e.eventType != "" && e.tenantId != ""
    && (e.eventType, e.version) in cfg.registry && e.topic in cfg.topics && !Worker.IsRetryTopic(e.topic)
  }

  ghost predicate JobsKnown(cfg: Config, s: State) {
    forall c :: c in s.copies && s.copies[c].Running? ==> Known(cfg, s.copies[c].event)
  }

  /** Every job is on an event that was dispatched as known, in every run. */
  lemma {:induction false} JobsKnownAfter(cfg: Config, s: State, steps: seq<Step>)
    requires JobsKnown(cfg, s)
    ensures JobsKnown(cfg, After(cfg, s, steps))
  {
    if steps != [] {
      JobsKnownAfter(cfg, s, DropLast(steps));
      var t, step := After(cfg, s, DropLast(steps)), Last(steps);
      if Possible(t, step) {
        JobsKnownStep(cfg, t, step);
      }
    }
  }

  lemma JobsKnownStep(cfg: Config, s: State, step: Step)
    requires JobsKnown(cfg, s) && Possible(s, step)
    ensures JobsKnown(cfg, Next(cfg, s, step))
  {
    var t := Next(cfg, s, step);
    forall c | c in t.copies && t.copies[c].Running? ensures Known(cfg, t.copies[c].event) {
      JobChanges(cfg, s, step, c);
    }
  }

  /** The key runs out, or a job on the id goes on although its acquire failed. */
  predicate Unblocks(s: State, step: Step, id: string) {
    step == Expire(id) || (step.AcquireFails? && step.copy in s.copies && CopyId(s.copies[step.copy]) == id)
  }

  /** A job after a step is as it was, has just been dispatched, or has moved on by one stage. */
  ghost predicate JobChange(cfg: Config, s: State, step: Step, c: nat)
    requires Possible(s, step) && c in Next(cfg, s, step).copies && Next(cfg, s, step).copies[c].Running?
  {
    var job := Next(cfg, s, step).copies[c];
    || (c in s.copies && s.copies[c] == job)
    || (Known(cfg, job.event) && job.stage.Entered?)
    || (c in s.copies && s.copies[c].Running? && s.copies[c].event == job.event &&
        match job.stage
        case Entered => false
        case Owned => job.event.eventId !in s.keys || Unblocks(s, step, job.event.eventId)
        case Failed(_) => s.copies[c].stage.Owned?
        case Released(_) => s.copies[c].stage.Failed?)
  }

  lemma JobChanges(cfg: Config, s: State, step: Step, c: nat)
    requires Possible(s, step) && c in Next(cfg, s, step).copies && Next(cfg, s, step).copies[c].Running?
    ensures JobChange(cfg, s, step, c)
  {
    if step.Consume? {
      ConsumedJob(cfg, s, step, c);
    } else if step.Acquire? || step.Process? || step.Release? {
      JobMovesOn(cfg, s, step, c);
    } else if step.Publish? || step.Claim? {
      JobBesideNew(cfg, s, step, c);
    } else {
      JobOtherwise(cfg, s, step, c);
    }
  }

  lemma ConsumedJob(cfg: Config, s: State, step: Step, c: nat)
    requires Possible(s, step) && c in Next(cfg, s, step).copies && Next(cfg, s, step).copies[c].Running? && step.Consume?
    ensures JobChange(cfg, s, step, c)
  {
  }

  lemma JobMovesOn(cfg: Config, s: State, step: Step, c: nat)
    requires Possible(s, step) && c in Next(cfg, s, step).copies && Next(cfg, s, step).copies[c].Running?
    requires step.Acquire? || step.Process? || step.Release?
    ensures JobChange(cfg, s, step, c)
  {
  }

  lemma JobOtherwise(cfg: Config, s: State, step: Step, c: nat)
    requires Possible(s, step) && c in Next(cfg, s, step).copies && Next(cfg, s, step).copies[c].Running?
    requires !step.Consume? && !step.Acquire? && !step.Process? && !step.Release? && !step.Publish? && !step.Claim?
    ensures JobChange(cfg, s, step, c)
  {
  }

  lemma JobBesideNew(cfg: Config, s: State, step: Step, c: nat)
    requires Possible(s, step) && c in Next(cfg, s, step).copies && Next(cfg, s, step).copies[c].Running?
    requires step.Publish? || step.Claim?
    ensures JobChange(cfg, s, step, c)
  {
  }

  /** A message that carries the event. */
  function BodyOf(e: Event): Body {
    Json(Fields(e.version, e.eventId, e.eventType, e.tenantId, At(e.timestamp), Some(e.data), "", 0, "", NoTime, NoTime, NoTime))
  }

  lemma {:induction false} Go(cfg: Config, s: State, run: seq<Step>, step: Step) returns (more: seq<Step>, t: State)
    requires AllClean(run) && Clean(step) && Possible(After(cfg, s, run), step)
    ensures more == run + [step] && AllClean(more) && t == Next(cfg, After(cfg, s, run), step) && After(cfg, s, more) == t
  {
    AfterSnoc(cfg, s, run, step);
    more := run + [step];
    t := After(cfg, s, more);
  }

  lemma NewCopy(cfg: Config, s: State, e: Event)
    requires Known(cfg, e) && Numbered(s)
    ensures var c, published := s.nextCopy, Next(cfg, s, Publish(e.topic, BodyOf(e)));
            && Possible(published, Consume(c, 0, 0))
            && IsNewJob(s, Next(cfg, published, Consume(c, 0, 0)), c, e)
  {
    var c, published := s.nextCopy, Next(cfg, s, Publish(e.topic, BodyOf(e)));
    assert published == Add(s, InTopic(e.topic, BodyOf(e)));
    var t := Next(cfg, published, Consume(c, 0, 0));
    assert t.copies == published.copies[c := t.copies[c]] == s.copies[c := t.copies[c]];
  }

  /** A second copy of a known event became a job, and nothing else changed. */
  predicate IsNewJob(s: State, t: State, c: nat, e: Event) {
    && c !in s.copies && IsJob(t, c, Entered) && t.copies[c].event.eventId == e.eventId
    && t.copies == s.copies[c := t.copies[c]]
    && t.keys == s.keys && t.runs == s.runs && t.succeeded == s.succeeded
  }

  lemma {:induction false} NewJob(cfg: Config, s: State, run: seq<Step>, e: Event) returns (more: seq<Step>, t: State, c: nat)
    requires AllClean(run) && Known(cfg, e) && Numbered(After(cfg, s, run))
    ensures AllClean(more) && t == After(cfg, s, more)
    ensures IsNewJob(After(cfg, s, run), t, c, e)
  {
    var u := After(cfg, s, run);
    NewCopy(cfg, u, e);
    c := u.nextCopy;
    more, t := Go(cfg, s, run, Publish(e.topic, BodyOf(e)));
    more, t := Go(cfg, s, more, Consume(c, 0, 0));
  }

  // ----- What the assumptions are for -----

  /** Exclusion holds in every continuation without further faults. */
  ghost predicate StaysExclusive(cfg: Config, s: State) {
    forall steps :: AllClean(steps) ==> Exclusive(After(cfg, s, steps))
  }

  /**
   Going on after a failed acquire keeps exclusion in every continuation if and only if the key was free and the
   request arrived: then the job owns the key, although it was not told so.
   */
  lemma FailOpenKeepsExclusionIff(cfg: Config, s: State, c: nat, fault: Fault)
    requires Exclusive(s) && KeysMark(s) && Numbered(s) && Possible(s, AcquireFails(c, fault))
    requires Known(cfg, s.copies[c].event)
    ensures StaysExclusive(cfg, Next(cfg, s, AcquireFails(c, fault)))
            <==> s.copies[c].event.eventId !in s.keys && fault.LostReply?
  {
    var t, e := Next(cfg, s, AcquireFails(c, fault)), s.copies[c].event;
    if e.eventId in s.keys {
      OwnerOfTakenKey(cfg, s, c, fault);
      assert After(cfg, t, []) == t;
    } else if fault.LostRequest? {
      NumberedStep(cfg, s, AcquireFails(c, fault));
      assert Owns(t, c, e.eventId) && e.eventId !in t.keys;
      var run, u, d := NewJob(cfg, t, [], e);
      run, u := Go(cfg, t, run, Acquire(d));
      assert Owns(u, d, e.eventId) && Owns(u, c, e.eventId) && c != d;
    } else {
      assert t == Next(cfg, s, Acquire(c));
      ExclusionStep(cfg, s, Acquire(c));
      forall steps | AllClean(steps) ensures Exclusive(After(cfg, t, steps)) {
        ExclusionAfter(cfg, t, steps);
      }
    }
  }

  lemma OwnerOfTakenKey(cfg: Config, s: State, c: nat, fault: Fault)
    requires Exclusive(s) && KeysMark(s) && Possible(s, AcquireFails(c, fault)) && s.copies[c].event.eventId in s.keys
    ensures !Exclusive(Next(cfg, s, AcquireFails(c, fault)))
  {
    var t, id := Next(cfg, s, AcquireFails(c, fault)), s.copies[c].event.eventId;
    assert Owns(t, c, id) && !Owns(s, c, id);
    if SomeOwner(s, id) {
      var d :| Owns(s, d, id);
      assert Owns(t, d, id);
    }
  }

  /** The expiry of a key keeps exclusion in every continuation if and only if the key was not set. */
  lemma ExpiryKeepsExclusionIff(cfg: Config, s: State, e: Event)
    requires Exclusive(s) && KeysMark(s) && Numbered(s) && Known(cfg, e)
    ensures StaysExclusive(cfg, Next(cfg, s, Expire(e.eventId))) <==> e.eventId !in s.keys
  {
    var id, t := e.eventId, Next(cfg, s, Expire(e.eventId));
    NumberedStep(cfg, s, Expire(id));
    if id in s.keys {
      var run, u, d := NewJob(cfg, t, [], e);
      run, u := Go(cfg, t, run, Acquire(d));
      assert Owns(u, d, id);
      if SomeOwner(s, id) {
        var c :| Owns(s, c, id);
        assert Owns(u, c, id) && c != d;
      }
    } else {
      assert t == s;
      forall steps | AllClean(steps) ensures Exclusive(After(cfg, t, steps)) {
        ExclusionAfter(cfg, s, steps);
      }
    }
  }

  /** The key is set and held by nobody. */
  ghost predicate Blocked(s: State, id: string) {
    id in s.keys && !SomeOwner(s, id)
  }

  /** Whatever the step, Process does not run on a blocked id, which stays blocked unless the step is one of the two. */
  lemma BlockedStep(cfg: Config, s: State, step: Step, id: string)
    requires Blocked(s, id) && Possible(s, step)
    ensures Runs(Next(cfg, s, step), id) == Runs(s, id)
    ensures Blocked(Next(cfg, s, step), id) <==> !Unblocks(s, step, id)
  {
    var t := Next(cfg, s, step);
    assert forall c :: !Owns(s, c, id);
    if step.AcquireFails? && CopyId(s.copies[step.copy]) == id {
      assert Owns(t, step.copy, id);
    } else if !Unblocks(s, step, id) {
      forall c ensures !Owns(t, c, id) {
        BlockedCopy(cfg, s, step, id, c);
      }
      BlockedKey(cfg, s, step, id);
    }
    BlockedRuns(cfg, s, step, id);
  }

  lemma BlockedCopy(cfg: Config, s: State, step: Step, id: string, c: nat)
    requires Blocked(s, id) && Possible(s, step) && !Unblocks(s, step, id)
    ensures !Owns(Next(cfg, s, step), c, id)
  {
    assert !Owns(s, c, id);
    if Owns(Next(cfg, s, step), c, id) {
      JobChanges(cfg, s, step, c);
    }
  }

  lemma BlockedKey(cfg: Config, s: State, step: Step, id: string)
    requires Blocked(s, id) && Possible(s, step) && !Unblocks(s, step, id)
    ensures id in Next(cfg, s, step).keys
  {
    if step.Release? {
      assert !Owns(s, step.copy, id);
    }
  }

  lemma BlockedRuns(cfg: Config, s: State, step: Step, id: string)
    requires Blocked(s, id) && Possible(s, step)
    ensures Runs(Next(cfg, s, step), id) == Runs(s, id)
  {
    if step.Process? {
      assert !Owns(s, step.copy, id);
    }
  }

  ghost predicate NoUnblock(cfg: Config, s: State, steps: seq<Step>, id: string) {
    steps == [] ||
    (NoUnblock(cfg, s, DropLast(steps), id) && !Unblocks(After(cfg, s, DropLast(steps)), Last(steps), id))
  }

  /** A blocked id is not processed in any run, with whatever faults, until its key expires or an acquire fails open. */
  lemma {:induction false} BlockedAfter(cfg: Config, s: State, steps: seq<Step>, id: string)
    requires Blocked(s, id) && NoUnblock(cfg, s, steps, id)
    ensures Blocked(After(cfg, s, steps), id) && Runs(After(cfg, s, steps), id) == Runs(s, id)
  {
    if steps != [] {
      BlockedAfter(cfg, s, DropLast(steps), id);
      var t, step := After(cfg, s, DropLast(steps)), Last(steps);
      if Possible(t, step) {
        BlockedStep(cfg, t, step, id);
      }
    }
  }

  /** Some continuation without further faults processes the id once more. */
  ghost predicate CanRun(cfg: Config, s: State, id: string) {
    exists steps :: AllClean(steps) && Runs(After(cfg, s, steps), id) > Runs(s, id)
  }

  /** Process can run on an id again if and only if the id is not blocked. */
  lemma CanRunIff(cfg: Config, s: State, e: Event)
    requires Known(cfg, e) && Numbered(s)
    ensures CanRun(cfg, s, e.eventId) <==> !Blocked(s, e.eventId)
  {
    var id := e.eventId;
    if Blocked(s, id) {
      forall steps | AllClean(steps) ensures Runs(After(cfg, s, steps), id) == Runs(s, id) {
        CleanNeverUnblocks(cfg, s, steps, id);
        BlockedAfter(cfg, s, steps, id);
      }
    } else if id !in s.keys {
      RunNewJob(cfg, s, [], e);
    } else {
      var c :| Owns(s, c, id);
      if s.copies[c].stage.Owned? {
        var run, t := Go(cfg, s, [], Process(c, Success));
        assert Runs(t, id) > Runs(s, id);
      } else {
        NumberedStep(cfg, s, Release(c));
        var run, t := Go(cfg, s, [], Release(c));
        RunNewJob(cfg, s, run, e);
      }
    }
  }

  lemma {:induction false} CleanNeverUnblocks(cfg: Config, s: State, steps: seq<Step>, id: string)
    requires AllClean(steps)
    ensures NoUnblock(cfg, s, steps, id)
  {
    if steps != [] {
      CleanNeverUnblocks(cfg, s, DropLast(steps), id);
    }
  }

  lemma {:induction false} RunNewJob(cfg: Config, s: State, run: seq<Step>, e: Event)
    requires Known(cfg, e) && AllClean(run) && Numbered(After(cfg, s, run))
    requires e.eventId !in After(cfg, s, run).keys && Runs(After(cfg, s, run), e.eventId) == Runs(s, e.eventId)
    ensures CanRun(cfg, s, e.eventId)
  {
    var more, t, c := NewJob(cfg, s, run, e);
    more, t := Go(cfg, s, more, Acquire(c));
    more, t := Go(cfg, s, more, Process(c, Success));
    assert Runs(t, e.eventId) > Runs(s, e.eventId);
  }

  /** Of the steps on a blocked id, exactly the expiry of its key and a failed acquire let Process run again. */
  lemma UnblockedIff(cfg: Config, s: State, step: Step, e: Event)
    requires Known(cfg, e) && Numbered(s) && Blocked(s, e.eventId) && Possible(s, step)
    ensures CanRun(cfg, Next(cfg, s, step), e.eventId) <==> Unblocks(s, step, e.eventId)
  {
    NumberedStep(cfg, s, step);
    BlockedStep(cfg, s, step, e.eventId);
    CanRunIff(cfg, Next(cfg, s, step), e);
  }

  /**
   A job lost in a crash is redelivered.  Process can run on its event again if and only if the job was not between
   acquire and release and the event had not been processed; otherwise every redelivery is skipped.
   */
  lemma RedeliveryRunsIff(cfg: Config, s: State, c: nat, body: Body)
    requires Exclusive(s) && KeysMark(s) && Numbered(s) && Possible(s, CrashJob(c, body))
    requires Known(cfg, s.copies[c].event)
    ensures var id := s.copies[c].event.eventId;
            CanRun(cfg, Next(cfg, s, CrashJob(c, body)), id) <==> !Owns(s, c, id) && id !in s.succeeded
    ensures var e, t := s.copies[c].event, Next(cfg, s, CrashJob(c, body));
            && Possible(t, Consume(c, e.partition, e.offset))
            && var u := Next(cfg, t, Consume(c, e.partition, e.offset));
            && Possible(u, Acquire(c)) && (IsJob(Next(cfg, u, Acquire(c)), c, Owned) <==> e.eventId !in s.keys)
  {
    var e, t := s.copies[c].event, Next(cfg, s, CrashJob(c, body));
    NumberedStep(cfg, s, CrashJob(c, body));
    CanRunIff(cfg, t, e);
    assert forall d :: Owns(t, d, e.eventId) <==> Owns(s, d, e.eventId) && d != c;
    if SomeOwner(s, e.eventId) && !Owns(s, c, e.eventId) {
      var d :| Owns(s, d, e.eventId);
      assert Owns(t, d, e.eventId);
    }
  }

  /**
   After a failed release the key stays, held by nobody: no job on the id is processed in any run until the key
   expires or an acquire fails.
   */
  lemma {:induction false} FailedReleaseBlocksId(cfg: Config, s: State, c: nat)
    requires Exclusive(s) && KeysMark(s) && Numbered(s) && Possible(s, ReleaseFails(c))
    ensures var id, t := s.copies[c].event.eventId, Next(cfg, s, ReleaseFails(c));
            && Blocked(t, id) && id !in t.succeeded
            && (forall steps :: NoUnblock(cfg, t, steps, id) ==> Runs(After(cfg, t, steps), id) == Runs(t, id))
            && (forall d :: IsJob(t, d, Entered) && CopyId(t.copies[d]) == id ==> d !in Next(cfg, t, Acquire(d)).copies)
  {
    var id, t := s.copies[c].event.eventId, Next(cfg, s, ReleaseFails(c));
    assert Owns(s, c, id);
    forall k ensures !Owns(t, k, id) {
      assert Owns(t, k, id) ==> Owns(s, k, id) && k != c;
    }
    forall steps | NoUnblock(cfg, t, steps, id) ensures Runs(After(cfg, t, steps), id) == Runs(t, id) {
      BlockedAfter(cfg, t, steps, id);
    }
  }
}
