/**
 The lineage of one event: a single copy, published once by a producer, through any number of retries to
 success or to the dead-letter queue, whatever happens to other events meanwhile.
 */
module Lineage {
  import opened Collections
  import opened Envelope
  import opened Retry
  import opened Scheduler
  import opened Flow
  import Worker

  /** What the producer published. */
  datatype Origin = Origin(topic: string, fields: Fields)

  ghost predicate ValidOrigin(o: Origin) {
    && o.topic != "" && !Worker.IsRetryTopic(o.topic)
    && ParseAndValidate(o.topic, 0, 0, Json(o.fields)).Valid?
    && o.fields.retryCount == 0 && !o.fields.firstFailureTime.At?
  }

  function Id(o: Origin): string {
    o.fields.eventId
  }

  /** The retry budget; a negative setting means no retries. */
  function Budget(cfg: Config): nat {
    if cfg.maxRetries < 0 then 0 else cfg.maxRetries
  }

  /** Where the event is: in a record or job, in the schedule, processed, or in the DLQ. */
  datatype Place = AtCopy(copy: nat) | Waiting | Succeeded | Dead

  /** The event is in this place and in no other, it was never skipped, and it ended at most once. */
  ghost predicate IsAt(s: State, x: string, p: Place) {
    && (forall c :: c in s.copies ==> (CopyId(s.copies[c]) == x <==> p == AtCopy(c)))
    && (p.AtCopy? ==> p.copy in s.copies)
    && (x in s.store.schedule <==> p.Waiting?)
    && s.succeeded[x] == (if p.Succeeded? then 1 else 0)
    && s.dead[x] == (if p.Dead? then 1 else 0)
    && s.skipped[x] == 0
  }

  // ----- What the event carries -----

  /**
   No retry before its time, unless a claim from an old list came early: the k-th comes later than the first failure
   and k backoffs, less a second each.
   */
  predicate DelayMet(s: State, x: string, k: nat) {
    k > 0 ==> x in s.failures && (x in s.early || s.now > s.failures[x].first + TotalBackoff(k) - k * SECOND)
  }

  /** The event as the producer published it, with the history of k failures. */
  ghost predicate EventAt(s: State, o: Origin, e: Event, k: nat) {
    && ValidOrigin(o)
    && e.version == o.fields.version && e.eventId == Id(o) && e.eventType == o.fields.eventType
    && e.tenantId == o.fields.tenantId && e.timestamp == o.fields.timestamp.time && e.data == o.fields.data.value
    && e.topic == o.topic && e.retryCount == k
    && (k == 0 <==> Id(o) !in s.failures)
    && e.firstFailureTime == (if Id(o) in s.failures then Some(s.failures[Id(o)].first) else None)
    && DelayMet(s, Id(o), k)
  }

  /** The retry envelope of the k-th failure. */
  ghost predicate EnvelopeAt(s: State, o: Origin, env: RetryEnvelope, k: nat) {
    && ValidOrigin(o) && k > 0
    && env.version == o.fields.version && env.eventId == Id(o) && env.eventType == o.fields.eventType
    && env.tenantId == o.fields.tenantId && env.timestamp == o.fields.timestamp.time
    && env.data == Some(o.fields.data.value) && env.originalTopic == o.topic && env.retryCount == k
    && Id(o) in s.failures && env.firstFailureTime == s.failures[Id(o)].first
    && env.lastFailureTime == s.failures[Id(o)].last
    && env.nextRetryAfter == s.failures[Id(o)].last + Backoff(k)
    && (Id(o) in s.early || env.nextRetryAfter >= s.failures[Id(o)].first + TotalBackoff(k) - (k - 1) * SECOND)
    && env.nextRetryAfter >= 0
  }

  ghost predicate RecordAt(s: State, o: Origin, topic: string, body: Body, k: nat) {
    if topic == o.topic then
      ParseAndValidate(topic, 0, 0, body).Valid? && EventAt(s, o, ParseAndValidate(topic, 0, 0, body).event, k)
    else
      topic == o.topic + ".retry" && Unmarshal(body).Some? && EnvelopeAt(s, o, Unmarshal(body).value, k)
  }

  predicate HoldsKey(c: Copy) {
    c.Running? && (c.stage.Owned? || c.stage.Failed?)
  }

  predicate HasRun(c: Copy) {
    c.Running? && (c.stage.Failed? || c.stage.Released?)
  }

  /** How many failures the place records. */
  function Level(s: State, x: string, p: Place): int {
    match p
    case AtCopy(c) =>
      if c !in s.copies then 0
      else
        (match s.copies[c]
         case InTopic(_, body) => if body.Json? then body.fields.retryCount else 0
         case Running(e, _) => e.retryCount)
    case Waiting => if x in s.store.payload && s.store.payload[x].Json? then s.store.payload[x].fields.retryCount else 0
    case _ => 0
  }

  ghost predicate CopyAt(cfg: Config, s: State, o: Origin, c: Copy) {
    match c
    case InTopic(topic, body) =>
      body.Json? && 0 <= body.fields.retryCount <= Budget(cfg) && RecordAt(s, o, topic, body, body.fields.retryCount)
      && Runs(s, Id(o)) == body.fields.retryCount
    case Running(e, stage) =>
      0 <= e.retryCount <= Budget(cfg) && EventAt(s, o, e, e.retryCount)
      && Runs(s, Id(o)) == e.retryCount + (if HasRun(c) then 1 else 0)
      && (HasRun(c) ==> !stage.error.Success?)
  }

  ghost predicate WaitingAt(cfg: Config, s: State, o: Origin) {
    var x := Id(o);
    && x in s.store.schedule && x in s.store.payload
    && s.store.payload[x].Json? && Unmarshal(s.store.payload[x]).Some?
    && var env := Unmarshal(s.store.payload[x]).value;
    && 0 <= env.retryCount <= Budget(cfg) && EnvelopeAt(s, o, env, env.retryCount)
    && Runs(s, x) == env.retryCount
    && s.store.schedule[x] == UnixSeconds(env.nextRetryAfter)
  }

  ghost predicate Content(cfg: Config, s: State, o: Origin, p: Place) {
    match p
    case AtCopy(c) =>
      c in s.copies && CopyAt(cfg, s, o, s.copies[c]) && (Id(o) in s.keys <==> HoldsKey(s.copies[c]))
    case Waiting => WaitingAt(cfg, s, o) && Id(o) !in s.keys
    case Succeeded => Id(o) in s.keys && Runs(s, Id(o)) <= Budget(cfg) + 1
    case Dead => Runs(s, Id(o)) <= Budget(cfg) + 1
  }

  /** Payloads belong to the ids they are stored under. */
  ghost predicate OwnPayloads(s: Store) {
    forall id :: id in s.payload && Unmarshal(s.payload[id]).Some? ==>
      Unmarshal(s.payload[id]).value.eventId == id
  }

  ghost predicate Tracked(cfg: Config, s: State, o: Origin, p: Place) {
    IsAt(s, Id(o), p) && Content(cfg, s, o, p) && Sound(s)
  }

  ghost predicate Sound(s: State) {
    OwnPayloads(s.store) && s.now >= 0 && Numbered(s)
  }

  function Rank(c: Copy): nat {
    match c
    case InTopic(topic, _) => if Worker.IsRetryTopic(topic) then 8 else 6
    case Running(_, Entered) => 5
    case Running(_, Owned) => 4
    case Running(_, Failed(_)) => 3
    case Running(_, Released(_)) => 2
  }

  /** The measure of what is still to come. */
  function Measure(cfg: Config, s: State, x: string, p: Place): int {
    match p
    case AtCopy(c) =>
      if c in s.copies then 8 * (Budget(cfg) - Level(s, x, p)) + Rank(s.copies[c]) else 0
    case Waiting => 8 * (Budget(cfg) - Level(s, x, p)) + 7
    case _ => 0
  }

  // ----- Steps of other events -----

  /** The step works on the copy or the schedule entry of the id. */
  predicate Concerns(s: State, step: Step, x: string) {
    match step
    case Publish(_, body) => IdOf(body) == x
    case Advance(_) => false
    case ReadDue(_) => false
    case Claim(id) => id == x
    case Expire(id) => id == x
    case Consume(c, _, _) => c in s.copies && CopyId(s.copies[c]) == x
    case Acquire(c) => c in s.copies && CopyId(s.copies[c]) == x
    case Process(c, _) => c in s.copies && CopyId(s.copies[c]) == x
    case Release(c) => c in s.copies && CopyId(s.copies[c]) == x
    case Fallback(c, _) => c in s.copies && CopyId(s.copies[c]) == x
    case HandOff(c) => c in s.copies && CopyId(s.copies[c]) == x
    case AcquireFails(c, _) => c in s.copies && CopyId(s.copies[c]) == x
    case ReleaseFails(c) => c in s.copies && CopyId(s.copies[c]) == x
    case CrashJob(c, _) => c in s.copies && CopyId(s.copies[c]) == x
  }

  /** Nothing that matters to the id has changed. */
  ghost predicate SameFor(s: State, t: State, x: string) {
    SameCopies(s.copies, t.copies, x) && SameHistory(s, t, x) && SameStore(s.store, t.store, x)
  }

  ghost predicate SameCopies(m: map<nat, Copy>, n: map<nat, Copy>, x: string) {
    && (forall c :: c in m && CopyId(m[c]) == x ==> c in n && n[c] == m[c])
    && (forall c :: c in n && CopyId(n[c]) == x ==> c in m && m[c] == n[c])
  }

  lemma OtherCopyChanges(m: map<nat, Copy>, c: nat, copy: Copy, x: string)
    requires c in m ==> CopyId(m[c]) != x
    ensures CopyId(copy) != x ==> SameCopies(m, m[c := copy], x)
    ensures SameCopies(m, m - {c}, x)
  {
  }

  ghost predicate SameStore(s: Store, t: Store, x: string) {
    && (x in s.schedule <==> x in t.schedule) && (x in s.schedule ==> t.schedule[x] == s.schedule[x])
    && (x in s.payload <==> x in t.payload) && (x in s.payload ==> t.payload[x] == s.payload[x])
  }

  ghost predicate SameHistory(s: State, t: State, x: string) {
    && t.succeeded[x] == s.succeeded[x] && t.dead[x] == s.dead[x]
    && t.skipped[x] == s.skipped[x]
    && (x in s.keys <==> x in t.keys) && (x in s.early <==> x in t.early) && Runs(t, x) == Runs(s, x)
    && (x in s.failures <==> x in t.failures) && (x in s.failures ==> t.failures[x] == s.failures[x])
    && s.now <= t.now
  }

  lemma UnconcernedStep(cfg: Config, s: State, step: Step, x: string)
    requires Possible(s, step) && Clean(step) && Sound(s) && !Concerns(s, step, x)
    ensures SameFor(s, Next(cfg, s, step), x)
  {
    match step
    case Publish(topic, body) =>
    case Advance(t) =>
    case ReadDue(_) =>
    case Consume(c, partition, offset) => UnconcernedConsume(cfg, s, c, partition, offset, x);
    case Acquire(c) => UnconcernedAcquire(cfg, s, c, x);
    case Process(c, outcome) => UnconcernedProcess(cfg, s, c, outcome, x);
    case Release(c) => UnconcernedRelease(cfg, s, c, x);
    case Fallback(c, reason) => UnconcernedFallback(cfg, s, c, reason, x);
    case HandOff(c) => UnconcernedHandOff(cfg, s, c, x);
    case Claim(id) => UnconcernedClaim(cfg, s, id, x);
  }

  lemma UnconcernedConsume(cfg: Config, s: State, c: nat, partition: int, offset: nat, x: string)
    requires Possible(s, Consume(c, partition, offset)) && CopyId(s.copies[c]) != x
    ensures SameFor(s, Next(cfg, s, Consume(c, partition, offset)), x)
  {
    var r, id := s.copies[c], CopyId(s.copies[c]);
    match ParseAndValidate(r.topic, partition, offset, r.body)
    case Invalid(_) => OtherCopyChanges(s.copies, c, r, x);
    case Valid(e) =>
      assert e.eventId == id;
      OtherCopyChanges(s.copies, c, Running(e, Entered), x);
  }

  lemma UnconcernedAcquire(cfg: Config, s: State, c: nat, x: string)
    requires Possible(s, Acquire(c)) && CopyId(s.copies[c]) != x
    ensures SameFor(s, Next(cfg, s, Acquire(c)), x)
  {
    OtherCopyChanges(s.copies, c, Running(s.copies[c].event, Owned), x);
  }

  lemma UnconcernedProcess(cfg: Config, s: State, c: nat, outcome: Outcome, x: string)
    requires Possible(s, Process(c, outcome)) && CopyId(s.copies[c]) != x
    ensures SameFor(s, Next(cfg, s, Process(c, outcome)), x)
  {
    OtherCopyChanges(s.copies, c, Running(s.copies[c].event, Failed(outcome)), x);
  }

  lemma UnconcernedRelease(cfg: Config, s: State, c: nat, x: string)
    requires Possible(s, Release(c)) && CopyId(s.copies[c]) != x
    ensures SameFor(s, Next(cfg, s, Release(c)), x)
  {
    OtherCopyChanges(s.copies, c, Running(s.copies[c].event, Released(s.copies[c].stage.error)), x);
  }

  lemma UnconcernedFallback(cfg: Config, s: State, c: nat, reason: string, x: string)
    requires Possible(s, Fallback(c, reason)) && CopyId(s.copies[c]) != x
    ensures SameFor(s, Next(cfg, s, Fallback(c, reason)), x)
  {
    var e := s.copies[c].event;
    var copy := InTopic(e.topic + ".retry", Marshal(RetryOf(e, s.now, reason).value));
    assert CopyId(copy) == e.eventId;
    OtherCopyChanges(s.copies, c, copy, x);
  }

  lemma UnconcernedHandOff(cfg: Config, s: State, c: nat, x: string)
    requires Possible(s, HandOff(c)) && CopyId(s.copies[c]) != x
    ensures SameFor(s, Next(cfg, s, HandOff(c)), x)
  {
    OtherCopyChanges(s.copies, c, s.copies[c], x);
    match ParseRetryEnvelope(s.copies[c].body)
    case None =>
    case Some(env) => assert env.eventId != x;
  }

  lemma UnconcernedClaim(cfg: Config, s: State, id: string, x: string)
    requires Possible(s, Claim(id)) && Sound(s) && id != x
    ensures SameFor(s, Next(cfg, s, Claim(id)), x)
  {
    var (left, env) := ClaimIn(s.store, id);
    assert SameStore(s.store, left, x);
    match env
    case None =>
    case Some(got) =>
      assert got.eventId == id;
      OtherCopyChanges(s.copies, s.nextCopy, InTopic(got.originalTopic, RepublishBody(got)), x);
  }

  lemma SoundStep(cfg: Config, s: State, step: Step)
    requires Sound(s) && Possible(s, step) && Clean(step)
    ensures Sound(Next(cfg, s, step))
  {
    NumberedStep(cfg, s, step);
    if step.HandOff? {
      PayloadsAtHandOff(cfg, s, step.copy);
    } else if !step.Claim? {
      StoreUntouched(cfg, s, step);
    }
    TimeGoesOn(cfg, s, step);
  }

  lemma PayloadsAtHandOff(cfg: Config, s: State, c: nat)
    requires OwnPayloads(s.store) && Possible(s, HandOff(c))
    ensures OwnPayloads(Next(cfg, s, HandOff(c)).store)
  {
    var env := ParseRetryEnvelope(s.copies[c].body);
    if env.Some? {
      EnvelopeRoundTrip(env.value);
    }
  }

  lemma StoreUntouched(cfg: Config, s: State, step: Step)
    requires Possible(s, step) && !step.HandOff? && !step.Claim?
    ensures Next(cfg, s, step).store == s.store
  {
  }

  lemma TimeGoesOn(cfg: Config, s: State, step: Step)
    requires Possible(s, step)
    ensures Next(cfg, s, step).now >= s.now
  {
  }

  lemma SameForKeeps(cfg: Config, s: State, t: State, o: Origin, p: Place)
    requires Tracked(cfg, s, o, p) && SameFor(s, t, Id(o)) && Sound(t)
    ensures Tracked(cfg, t, o, p) && Measure(cfg, t, Id(o), p) == Measure(cfg, s, Id(o), p)
  {
  }

  // ----- Steps of the event itself -----

  /** The place and measure after a step on the event's own copy. */
  ghost predicate Progress(cfg: Config, s: State, p: Place, t: State, q: Place, o: Origin) {
    IsAt(t, Id(o), q) && Content(cfg, t, o, q) && Measure(cfg, t, Id(o), q) < Measure(cfg, s, Id(o), p)
  }

  /** The copy of the event is the only one with its id; changing it leaves the event in that copy or elsewhere. */
  lemma OwnCopyChanges(s: State, t: State, x: string, c: nat)
    requires IsAt(s, x, AtCopy(c))
    ensures forall copy :: CopyId(copy) == x && t.copies == s.copies[c := copy] ==>
              forall d :: d in t.copies ==> (CopyId(t.copies[d]) == x <==> d == c)
    ensures t.copies == s.copies - {c} ==> forall d :: d in t.copies ==> CopyId(t.copies[d]) != x
  {
  }

  /** Wherever the record lies, it parses to the event. */
  lemma ParsedRecord(s: State, o: Origin, body: Body, k: nat, partition: int, offset: nat)
    requires RecordAt(s, o, o.topic, body, k)
    ensures body.Json? && body.fields.retryCount == k
    ensures var parsed := ParseAndValidate(o.topic, partition, offset, body);
            parsed.Valid? && EventAt(s, o, parsed.event, k)
  {
  }

  lemma ConsumeOwn(cfg: Config, s: State, o: Origin, c: nat, partition: int, offset: nat) returns (q: Place)
    requires Tracked(cfg, s, o, AtCopy(c)) && Possible(s, Consume(c, partition, offset))
    ensures Progress(cfg, s, AtCopy(c), Next(cfg, s, Consume(c, partition, offset)), q, o)
  {
    var r, t := s.copies[c], Next(cfg, s, Consume(c, partition, offset));
    Worker.RetryTopicIsOne(o.topic);
    ParsedRecord(s, o, r.body, r.body.fields.retryCount, partition, offset);
    var e := ParseAndValidate(o.topic, partition, offset, r.body).event;
    if (e.eventType, e.version) in cfg.registry && o.topic in cfg.topics {
      EntersLane(cfg, s, o, c, e);
      q := AtCopy(c);
    } else {
      Dies(cfg, s, o, c);
      q := Dead;
    }
  }

  lemma EntersLane(cfg: Config, s: State, o: Origin, c: nat, e: Event)
    requires Tracked(cfg, s, o, AtCopy(c)) && s.copies[c].InTopic? && s.copies[c].topic == o.topic
    requires EventAt(s, o, e, s.copies[c].body.fields.retryCount)
    ensures Progress(cfg, s, AtCopy(c), Move(s, c, Running(e, Entered)), AtCopy(c), o)
  {
    OwnCopyChanges(s, Move(s, c, Running(e, Entered)), Id(o), c);
  }

  /** The copy goes to the DLQ. */
  lemma Dies(cfg: Config, s: State, o: Origin, c: nat)
    requires Tracked(cfg, s, o, AtCopy(c))
    ensures Progress(cfg, s, AtCopy(c), Drop(s, c).(dead := s.dead + multiset{Id(o)}), Dead, o)
  {
    OwnCopyChanges(s, Drop(s, c).(dead := s.dead + multiset{Id(o)}), Id(o), c);
  }

  lemma AcquireOwn(cfg: Config, s: State, o: Origin, c: nat)
    requires Tracked(cfg, s, o, AtCopy(c)) && Possible(s, Acquire(c))
    ensures Progress(cfg, s, AtCopy(c), Next(cfg, s, Acquire(c)), AtCopy(c), o)
  {
    OwnCopyChanges(s, Next(cfg, s, Acquire(c)), Id(o), c);
  }

  lemma ProcessOwn(cfg: Config, s: State, o: Origin, c: nat, outcome: Outcome) returns (q: Place)
    requires Tracked(cfg, s, o, AtCopy(c)) && Possible(s, Process(c, outcome))
    ensures Progress(cfg, s, AtCopy(c), Next(cfg, s, Process(c, outcome)), q, o)
  {
    OwnCopyChanges(s, Next(cfg, s, Process(c, outcome)), Id(o), c);
    if outcome.Success? {
      q := Succeeded;
    } else {
      q := AtCopy(c);
    }
  }

  lemma ReleaseOwn(cfg: Config, s: State, o: Origin, c: nat)
    requires Tracked(cfg, s, o, AtCopy(c)) && Possible(s, Release(c))
    ensures Progress(cfg, s, AtCopy(c), Next(cfg, s, Release(c)), AtCopy(c), o)
  {
    OwnCopyChanges(s, Next(cfg, s, Release(c)), Id(o), c);
  }

  lemma FallbackOwn(cfg: Config, s: State, o: Origin, c: nat, reason: string) returns (q: Place)
    requires Tracked(cfg, s, o, AtCopy(c)) && Possible(s, Fallback(c, reason))
    ensures Progress(cfg, s, AtCopy(c), Next(cfg, s, Fallback(c, reason)), q, o)
  {
    if IsRetriable(s.copies[c].stage.error) && ShouldRetry(s.copies[c].event.retryCount, cfg.maxRetries) {
      Retries(cfg, s, o, c, reason);
      q := AtCopy(c);
    } else {
      Dies(cfg, s, o, c);
      q := Dead;
    }
  }

  /** The copy goes to the retry topic. */
  lemma Retries(cfg: Config, s: State, o: Origin, c: nat, reason: string)
    requires Tracked(cfg, s, o, AtCopy(c)) && Possible(s, Fallback(c, reason))
    requires IsRetriable(s.copies[c].stage.error) && ShouldRetry(s.copies[c].event.retryCount, cfg.maxRetries)
    ensures Progress(cfg, s, AtCopy(c), Next(cfg, s, Fallback(c, reason)), AtCopy(c), o)
  {
    var e, t := s.copies[c].event, Next(cfg, s, Fallback(c, reason));
    OwnCopyChanges(s, t, Id(o), c);
    Worker.RetryTopicIsOne(o.topic);
    NextRetryTime(s, o, e, reason, t);
    EnvelopeRoundTrip(RetryOf(e, s.now, reason).value);
    var copy := InTopic(o.topic + ".retry", Marshal(RetryOf(e, s.now, reason).value));
    assert t.copies == s.copies[c := copy];
    assert CopyAt(cfg, t, o, copy);
  }

  /** The envelope that a failure leads to, and when it is due. */
  lemma NextRetryTime(s: State, o: Origin, e: Event, reason: string, t: State)
    requires e.retryCount >= 0 && EventAt(s, o, e, e.retryCount) && s.now >= 0
    requires t.failures == s.failures[Id(o) := FailedAgain(s, Id(o))] && t.early == s.early
    ensures EnvelopeAt(t, o, RetryOf(e, s.now, reason).value, e.retryCount + 1)
  {
    assert TotalBackoff(e.retryCount + 1) == TotalBackoff(e.retryCount) + Backoff(e.retryCount + 1);
    assert TotalBackoff(0) == 0;
  }

  lemma HandOffOwn(cfg: Config, s: State, o: Origin, c: nat)
    requires Tracked(cfg, s, o, AtCopy(c)) && Possible(s, HandOff(c))
    ensures Progress(cfg, s, AtCopy(c), Next(cfg, s, HandOff(c)), Waiting, o)
  {
    var r := s.copies[c];
    assert r.topic != o.topic;
    var env := Unmarshal(r.body).value;
    EnvelopeRoundTrip(env);
    OwnCopyChanges(s, Next(cfg, s, HandOff(c)), Id(o), c);
  }

  lemma ClaimOwn(cfg: Config, s: State, o: Origin)
    requires Tracked(cfg, s, o, Waiting) && Possible(s, Claim(Id(o)))
    ensures Progress(cfg, s, Waiting, Next(cfg, s, Claim(Id(o))), AtCopy(s.nextCopy), o)
  {
    var env, t := Unmarshal(s.store.payload[Id(o)]).value, Next(cfg, s, Claim(Id(o)));
    if !NotYetDue(s, Id(o)) {
      DueMeansLater(env.nextRetryAfter, s.now);
    }
    RepublishedIs(s, o, env, env.retryCount, t);
  }

  /** Both the score and the clock are cut to whole seconds, so a claim is less than one second early. */
  lemma DueMeansLater(due: Time, now: Time)
    requires UnixSeconds(due) <= UnixSeconds(now)
    ensures now > due - SECOND
  {
  }

  lemma RepublishedIs(s: State, o: Origin, env: RetryEnvelope, k: nat, t: State)
    requires EnvelopeAt(s, o, env, k) && t.failures == s.failures && t.now == s.now
    requires Id(o) !in t.early ==> Id(o) !in s.early && s.now > env.nextRetryAfter - SECOND
    ensures RecordAt(t, o, o.topic, RepublishBody(env), k)
  {
  }

  // ----- Whole runs -----

  lemma LineageStep(cfg: Config, s: State, o: Origin, p: Place, step: Step) returns (q: Place)
    requires Tracked(cfg, s, o, p) && Possible(s, step) && Clean(step)
    requires !(step.Publish? && IdOf(step.body) == Id(o))
    ensures Tracked(cfg, Next(cfg, s, step), o, q)
    ensures Concerns(s, step, Id(o)) ==> Measure(cfg, Next(cfg, s, step), Id(o), q) < Measure(cfg, s, Id(o), p)
    ensures !Concerns(s, step, Id(o)) ==> q == p && Measure(cfg, Next(cfg, s, step), Id(o), q) == Measure(cfg, s, Id(o), p)
  {
    SoundStep(cfg, s, step);
    if !Concerns(s, step, Id(o)) {
      UnconcernedStep(cfg, s, step, Id(o));
      SameForKeeps(cfg, s, Next(cfg, s, step), o, p);
      q := p;
    } else {
      q := OwnStep(cfg, s, o, p, step);
    }
  }

  lemma OwnStep(cfg: Config, s: State, o: Origin, p: Place, step: Step) returns (q: Place)
    requires Tracked(cfg, s, o, p) && Possible(s, step) && Clean(step)
    requires !step.Publish? && Concerns(s, step, Id(o))
    ensures Progress(cfg, s, p, Next(cfg, s, step), q, o)
  {
    match step
    case Consume(c, partition, offset) => q := ConsumeOwn(cfg, s, o, c, partition, offset);
    case Acquire(c) => AcquireOwn(cfg, s, o, c); q := AtCopy(c);
    case Process(c, outcome) => q := ProcessOwn(cfg, s, o, c, outcome);
    case Release(c) => ReleaseOwn(cfg, s, o, c); q := AtCopy(c);
    case Fallback(c, reason) => q := FallbackOwn(cfg, s, o, c, reason);
    case HandOff(c) => HandOffOwn(cfg, s, o, c); q := Waiting;
    case Claim(_) => ClaimOwn(cfg, s, o); q := AtCopy(s.nextCopy);
  }

  /** No other copy of the event is ever published. */
  predicate NoSecondCopy(steps: seq<Step>, x: string) {
    forall i :: 0 <= i < |steps| ==> !(steps[i].Publish? && IdOf(steps[i].body) == x)
  }

  /** How many steps of the run work on the event. */
  function OwnSteps(cfg: Config, s: State, steps: seq<Step>, x: string): nat {
    if steps == [] then 0
    else
      var t := After(cfg, s, DropLast(steps));
      OwnSteps(cfg, s, DropLast(steps), x) + if Possible(t, Last(steps)) && Concerns(t, Last(steps), x) then 1 else 0
  }

  lemma {:induction false} LineageRun(cfg: Config, s: State, o: Origin, p: Place, steps: seq<Step>) returns (q: Place)
    requires Tracked(cfg, s, o, p) && AllClean(steps) && NoSecondCopy(steps, Id(o))
    ensures Tracked(cfg, After(cfg, s, steps), o, q)
    ensures OwnSteps(cfg, s, steps, Id(o)) + Measure(cfg, After(cfg, s, steps), Id(o), q) <= Measure(cfg, s, Id(o), p)
  {
    if steps == [] {
      q := p;
    } else {
      q := LineageRun(cfg, s, o, p, DropLast(steps));
      var t := After(cfg, s, DropLast(steps));
      if Possible(t, Last(steps)) {
        q := LineageStep(cfg, t, o, q, Last(steps));
      }
    }
  }

  /** The id is new to the system. */
  ghost predicate Absent(s: State, x: string) {
    && (forall c :: c in s.copies ==> CopyId(s.copies[c]) != x)
    && x !in s.store.schedule && x !in s.keys && x !in s.failures && x !in s.early && Runs(s, x) == 0
    && s.succeeded[x] == 0 && s.dead[x] == 0 && s.skipped[x] == 0
  }

  /** The event is published once, with a new id, and nothing but other events' copies is published after. */
  ghost predicate PublishedOnce(s: State, o: Origin, steps: seq<Step>) {
    ValidOrigin(o) && Sound(s) && Absent(s, Id(o)) && AllClean(steps) && NoSecondCopy(steps, Id(o))
  }

  function AfterPublish(cfg: Config, s: State, o: Origin, steps: seq<Step>): State {
    After(cfg, Next(cfg, s, Publish(o.topic, Json(o.fields))), steps)
  }

  /**
   Retry lineage: published once into any state, and whatever other events do, the event is at all times in
   exactly one place with its own content and history; Process runs at most one time more than the retry
   budget; no job of it is skipped; it succeeds or dies at most once, not both; and it takes at most
   8 * budget + 6 steps.
   */
  lemma RetryLineage(cfg: Config, s: State, o: Origin, steps: seq<Step>) returns (q: Place)
    requires PublishedOnce(s, o, steps)
    ensures var t := AfterPublish(cfg, s, o, steps);
            && Tracked(cfg, t, o, q)
            && Runs(t, Id(o)) <= Budget(cfg) + 1
            && t.skipped[Id(o)] == 0 && t.succeeded[Id(o)] + t.dead[Id(o)] <= 1
            && OwnSteps(cfg, Next(cfg, s, Publish(o.topic, Json(o.fields))), steps, Id(o)) <= 8 * Budget(cfg) + 6
  {
    var first := Next(cfg, s, Publish(o.topic, Json(o.fields)));
    var p := AtCopy(s.nextCopy);
    assert Tracked(cfg, first, o, p);
    q := LineageRun(cfg, first, o, p, steps);
    MeasureNotNegative(cfg, After(cfg, first, steps), o, q);
  }

  lemma MeasureNotNegative(cfg: Config, s: State, o: Origin, p: Place)
    requires Tracked(cfg, s, o, p)
    ensures Measure(cfg, s, Id(o), p) >= 0
    ensures Runs(s, Id(o)) <= Budget(cfg) + 1
  {
  }

  /** Until it has succeeded or died, the event has a step to take, at once or when its retry falls due. */
  lemma NeverStuck(cfg: Config, s: State, o: Origin, p: Place) returns (later: Time, step: Step)
    requires Tracked(cfg, s, o, p) && !p.Succeeded? && !p.Dead?
    ensures s.now <= later
    ensures var t := Next(cfg, s, Advance(later));
            Possible(t, step) && Clean(step) && !step.Publish? && Concerns(t, step, Id(o))
  {
    later := s.now;
    match p
    case Waiting =>
      var due := Unmarshal(s.store.payload[Id(o)]).value.nextRetryAfter;
      if later < due {
        later := due;
      }
      StillDue(due, later);
      step := Claim(Id(o));
    case AtCopy(c) =>
      match s.copies[c]
      case InTopic(topic, _) => step := if Worker.IsRetryTopic(topic) then HandOff(c) else Consume(c, 0, 0);
      case Running(_, Entered) => step := Acquire(c);
      case Running(_, Owned) => step := Process(c, Success);
      case Running(_, Failed(_)) => step := Release(c);
      case Running(_, Released(_)) => step := Fallback(c, "");
  }

  lemma StillDue(due: Time, now: Time)
    requires 0 <= due <= now
    ensures 0 <= UnixSeconds(due) <= UnixSeconds(now)
  {
  }

  /** Some step on the event is possible, now or later. */
  ghost predicate CanMove(cfg: Config, s: State, x: string) {
    exists later, step ::
      s.now <= later && Possible(Next(cfg, s, Advance(later)), step) &&
      Clean(step) && !step.Publish? && Concerns(Next(cfg, s, Advance(later)), step, x)
  }

  /** The event can always move on until it has succeeded, or gone to the DLQ, exactly once. */
  lemma EndsExactlyOnce(cfg: Config, s: State, o: Origin, steps: seq<Step>)
    requires PublishedOnce(s, o, steps)
    ensures var t := AfterPublish(cfg, s, o, steps);
            t.succeeded[Id(o)] + t.dead[Id(o)] == if CanMove(cfg, t, Id(o)) then 0 else 1
  {
    var t := AfterPublish(cfg, s, o, steps);
    var p := RetryLineage(cfg, s, o, steps);
    if !p.Succeeded? && !p.Dead? {
      var later, step := NeverStuck(cfg, t, o, p);
      assert CanMove(cfg, t, Id(o));
    } else if CanMove(cfg, t, Id(o)) {
      var later, step :| t.now <= later && Possible(Next(cfg, t, Advance(later)), step) &&
        Clean(step) && !step.Publish? && Concerns(Next(cfg, t, Advance(later)), step, Id(o));
      NothingLeft(cfg, t, o, p, later, step);
      assert false;
    }
  }

  lemma NothingLeft(cfg: Config, s: State, o: Origin, p: Place, later: Time, step: Step)
    requires Tracked(cfg, s, o, p) && (p.Succeeded? || p.Dead?) && s.now <= later
    ensures var t := Next(cfg, s, Advance(later));
            !(Possible(t, step) && Clean(step) && !step.Publish? && Concerns(t, step, Id(o)))
  {
  }

  /** A job of the event always finds its key free: no retry is swallowed by the claim of the run that failed. */
  lemma NoRetrySwallowed(cfg: Config, s: State, o: Origin, steps: seq<Step>, c: nat)
    requires PublishedOnce(s, o, steps)
    requires var t := AfterPublish(cfg, s, o, steps); IsJob(t, c, Entered) && CopyId(t.copies[c]) == Id(o)
    ensures var t := AfterPublish(cfg, s, o, steps); IsJob(Next(cfg, t, Acquire(c)), c, Owned)
  {
    var _ := RetryLineage(cfg, s, o, steps);
  }

  /**
   The k-th republish comes later than the first failure and the first k backoffs, less k seconds, unless this claim
   or one before it came early; from the fifth on, that is 3090 + 1800 (k - 5) seconds less k.
   */
  lemma {:induction false} RepublishNotEarly(cfg: Config, s: State, o: Origin, steps: seq<Step>, k: nat)
    requires PublishedOnce(s, o, steps)
    requires var t := AfterPublish(cfg, s, o, steps);
             Possible(t, Claim(Id(o))) && Level(t, Id(o), Waiting) == k && Id(o) !in Next(cfg, t, Claim(Id(o))).early
    ensures var t := AfterPublish(cfg, s, o, steps);
            && Id(o) in t.failures
            && t.now > t.failures[Id(o)].first + TotalBackoff(k) - k * SECOND
            && (k >= 5 ==> t.now > t.failures[Id(o)].first + (3090 + 1800 * (k - 5) - k) * SECOND)
  {
    var t := AfterPublish(cfg, s, o, steps);
    var p := RetryLineage(cfg, s, o, steps);
    assert p == Waiting;
    DueMeansLater(Unmarshal(t.store.payload[Id(o)]).value.nextRetryAfter, t.now);
    TotalBackoffClosedForm(k);
  }

  /** A waiting retry is scored by the time of its last failure and the backoff for the number of its failures. */
  lemma {:induction false} RetryDueExactly(cfg: Config, s: State, o: Origin, steps: seq<Step>)
    requires PublishedOnce(s, o, steps) && Id(o) in AfterPublish(cfg, s, o, steps).store.schedule
    ensures var t := AfterPublish(cfg, s, o, steps);
            && Runs(t, Id(o)) > 0 && Id(o) in t.failures
            && t.store.schedule[Id(o)] == UnixSeconds(t.failures[Id(o)].last + Backoff(Runs(t, Id(o))))
  {
    var p := RetryLineage(cfg, s, o, steps);
    assert p == Waiting;
  }

  /**
   A job that has failed ends in the DLQ if and only if its failure is a validation error, or Process has by then run
   more often than there are retries allowed; otherwise it goes to the retry topic.
   */
  lemma {:induction false} DiesIff(cfg: Config, s: State, o: Origin, steps: seq<Step>, c: nat, reason: string)
    requires PublishedOnce(s, o, steps)
    requires var t := AfterPublish(cfg, s, o, steps); Possible(t, Fallback(c, reason)) && CopyId(t.copies[c]) == Id(o)
    ensures var t := AfterPublish(cfg, s, o, steps);
            var u, error := Next(cfg, t, Fallback(c, reason)), t.copies[c].stage.error;
            && (u.dead[Id(o)] == 1 <==> error.BusinessError? || error.InvalidEnvelope? || Runs(t, Id(o)) > cfg.maxRetries)
            && (u.dead[Id(o)] == 0 ==> c in u.copies && u.copies[c].InTopic? && u.copies[c].topic == o.topic + ".retry")
  {
    var p := RetryLineage(cfg, s, o, steps);
    assert p == AtCopy(c);
  }

  /**
   Whichever round it is in, a job of the event carries what the producer published, the number of its failures
   so far and the time of the first of them.
   */
  lemma JobCarriesMetadata(cfg: Config, s: State, o: Origin, steps: seq<Step>, c: nat)
    requires PublishedOnce(s, o, steps)
    requires var t := AfterPublish(cfg, s, o, steps);
             c in t.copies && t.copies[c].Running? && CopyId(t.copies[c]) == Id(o)
    ensures var t := AfterPublish(cfg, s, o, steps);
            var e := t.copies[c].event;
            var sent := ParseAndValidate(o.topic, e.partition, e.offset, Json(o.fields)).event;
            var failures := Runs(t, Id(o)) - (if HasRun(t.copies[c]) then 1 else 0);
            && (failures == 0 <==> Id(o) !in t.failures)
            && e == sent.(retryCount := failures, failureReason := e.failureReason,
                          firstFailureTime := if Id(o) in t.failures then Some(t.failures[Id(o)].first) else None)
  {
    var _ := RetryLineage(cfg, s, o, steps);
  }
}
