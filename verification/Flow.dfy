/**
 The life of events across topics, worker jobs, retry topics and Redis, as a transition system
 (internal/consumer/consumer.go, processWithFallback and dispatchRetry; internal/middleware/pipeline.go;
 internal/retry/retry.go and scheduler.go).

 A copy of an event is a Kafka record, or the job that it became.  Jobs run concurrently: each step below is one
 command or call of one job.  Claiming a due retry is one step here; its races are the subject of SchedulerRaces.
 */
module Flow {
  import opened Collections
  import opened Envelope
  import opened Retry
  import opened Scheduler
  import Worker

  datatype Config = Config(registry: set<(string, int)>, topics: set<string>, maxRetries: int)

  /** A job before and after TryAcquire, after a failed Process, and after Release. */
  datatype Stage = Entered | Owned | Failed(error: Outcome) | Released(error: Outcome)

  datatype Copy =
    | InTopic(topic: string, body: Body)
    | Running(event: Event, stage: Stage)

  /** When an event first failed, and when last. */
  datatype Failures = Failures(first: Time, last: Time)

  /** `listed` holds the ids on due lists that schedulers have read; the fields after it are history. */
  datatype State = State(
    now: Time,
    copies: map<nat, Copy>,
    nextCopy: nat,
    store: Store,
    keys: set<string>,             // event ids with an idempotency key
    listed: set<string>,
    succeeded: multiset<string>,   // ids processed
    dead: multiset<string>,        // ids published to a DLQ
    skipped: multiset<string>,     // ids of jobs that found their key taken
    runs: map<string, nat>,        // how often Process ran for an id
    failures: map<string, Failures>,
    early: set<string>)            // ids claimed before their retry was due

  function IdOf(body: Body): string {
    if body.Json? then body.fields.eventId else ""
  }

  function CopyId(c: Copy): string {
    match c
    case InTopic(_, body) => IdOf(body)
    case Running(e, _) => e.eventId
  }

  function Runs(s: State, id: string): nat {
    if id in s.runs then s.runs[id] else 0
  }

  function FailedAgain(s: State, id: string): Failures {
    Failures(if id in s.failures then s.failures[id].first else s.now, s.now)
  }

  datatype Step =
    | Publish(topic: string, body: Body)                // by a producer outside
    | Advance(now: Time)
    | Consume(copy: nat, partition: int, offset: nat)   // dispatch of a record of a main topic
    | Acquire(copy: nat)
    | Process(copy: nat, outcome: Outcome)
    | Release(copy: nat)
    | Fallback(copy: nat, reason: string)               // retry or DLQ
    | HandOff(copy: nat)                                // dispatch of a record of a retry topic
    | ReadDue(ids: set<string>)                         // a scheduler reads a due list
    | Claim(id: string)                                 // and republishes an entry, at once or from a list of any age
    | AcquireFails(copy: nat, fault: Fault)             // Redis error: the pipeline goes on without the claim
    | ReleaseFails(copy: nat)                           // Redis error: the key stays
    | CrashJob(copy: nat, body: Body)                   // the process dies; the record will be redelivered
    | Expire(id: string)                                // the TTL of an idempotency key runs out

  predicate IsJob(s: State, c: nat, stage: Stage) {
    c in s.copies && s.copies[c].Running? && s.copies[c].stage == stage
  }

  predicate Possible(s: State, step: Step) {
    match step
    case Publish(_, _) => true
    case Advance(t) => s.now <= t
    case Consume(c, _, _) => c in s.copies && s.copies[c].InTopic? && !Worker.IsRetryTopic(s.copies[c].topic)
    case Acquire(c) => IsJob(s, c, Entered)
    case Process(c, _) => IsJob(s, c, Owned)
    case Release(c) => c in s.copies && s.copies[c].Running? && s.copies[c].stage.Failed?
    case Fallback(c, _) =>
      c in s.copies && s.copies[c].Running? && s.copies[c].stage.Released? && s.copies[c].event.retryCount >= 0
    case HandOff(c) => c in s.copies && s.copies[c].InTopic? && Worker.IsRetryTopic(s.copies[c].topic)
    case ReadDue(ids) => ids <= DueAt(s.store.schedule, s.now)
    case Claim(id) => id in s.store.schedule && (id in s.listed || id in DueAt(s.store.schedule, s.now))
    case AcquireFails(c, fault) => IsJob(s, c, Entered) && !fault.NoFault?
    case ReleaseFails(c) => c in s.copies && s.copies[c].Running? && s.copies[c].stage.Failed?
    case CrashJob(c, body) =>
      c in s.copies && s.copies[c].Running? &&
      ParseAndValidate(s.copies[c].event.topic, s.copies[c].event.partition, s.copies[c].event.offset, body) ==
        Valid(s.copies[c].event)
    case Expire(_) => true
  }

  /** The entry's time has not come. */
  predicate NotYetDue(s: State, id: string)
    requires id in s.store.schedule
  {
    s.store.schedule[id] > UnixSeconds(s.now)
  }

  function Move(s: State, c: nat, copy: Copy): State {
    s.(copies := s.copies[c := copy])
  }

  function Drop(s: State, c: nat): State {
    s.(copies := s.copies - {c})
  }

  function Add(s: State, copy: Copy): State {
    s.(copies := s.copies[s.nextCopy := copy], nextCopy := s.nextCopy + 1)
  }

  function Next(cfg: Config, s: State, step: Step): State
    requires Possible(s, step)
  {
    match step
    case Publish(topic, body) => Add(s, InTopic(topic, body))
    case Advance(t) => s.(now := t)
    case Consume(c, partition, offset) =>
      var r := s.copies[c];
      (match ParseAndValidate(r.topic, partition, offset, r.body)
       case Invalid(_) => Drop(s, c).(dead := s.dead + multiset{IdOf(r.body)})
       case Valid(e) =>
         if (e.eventType, e.version) !in cfg.registry || r.topic !in cfg.topics
         then Drop(s, c).(dead := s.dead + multiset{e.eventId})
         else Move(s, c, Running(e, Entered)))
    case Acquire(c) =>
      var e := s.copies[c].event;
      if e.eventId in s.keys then Drop(s, c).(skipped := s.skipped + multiset{e.eventId})
      else Move(s, c, Running(e, Owned)).(keys := s.keys + {e.eventId})
    case Process(c, outcome) =>
      var e := s.copies[c].event;
      var t := s.(runs := s.runs[e.eventId := Runs(s, e.eventId) + 1]);
      if outcome.Success? then Drop(t, c).(succeeded := s.succeeded + multiset{e.eventId})
      else Move(t, c, Running(e, Failed(outcome)))
    case Release(c) =>
      var e := s.copies[c].event;
      Move(s, c, Running(e, Released(s.copies[c].stage.error))).(keys := s.keys - {e.eventId})
    case Fallback(c, reason) =>
      var e := s.copies[c].event;
      if IsRetriable(s.copies[c].stage.error) && ShouldRetry(e.retryCount, cfg.maxRetries) then
        Move(s, c, InTopic(e.topic + ".retry", Marshal(RetryOf(e, s.now, reason).value)))
        .(failures := s.failures[e.eventId := FailedAgain(s, e.eventId)])
      else Drop(s, c).(dead := s.dead + multiset{e.eventId})
    case HandOff(c) =>
      (match ParseRetryEnvelope(s.copies[c].body)
       case None => Drop(s, c).(dead := s.dead + multiset{IdOf(s.copies[c].body)})
       case Some(env) => Drop(s, c).(store := ScheduleIn(s.store, env)))
    case ReadDue(ids) => s.(listed := s.listed + ids)
    case Claim(id) =>
      var (left, env) := ClaimIn(s.store, id);
      var t := s.(store := left, early := if NotYetDue(s, id) then s.early + {id} else s.early);
      if env.Some? then Add(t, InTopic(env.value.originalTopic, RepublishBody(env.value))) else t
    case AcquireFails(c, fault) =>
      var e := s.copies[c].event;
      Move(s, c, Running(e, Owned)).(keys := if fault.LostReply? then s.keys + {e.eventId} else s.keys)
    case ReleaseFails(c) => Move(s, c, Running(s.copies[c].event, Released(s.copies[c].stage.error)))
    case CrashJob(c, body) => Move(s, c, InTopic(s.copies[c].event.topic, body))
    case Expire(id) => s.(keys := s.keys - {id})
  }

  /** No Redis error, crash or expiry. */
  predicate Clean(step: Step) {
    !step.AcquireFails? && !step.ReleaseFails? && !step.CrashJob? && !step.Expire?
  }

  predicate AllClean(steps: seq<Step>) {
    forall i :: 0 <= i < |steps| ==> Clean(steps[i])
  }

  function After(cfg: Config, s: State, steps: seq<Step>): State {
    if steps == [] then s
    else
      var t := After(cfg, s, DropLast(steps));
      if Possible(t, Last(steps)) then Next(cfg, t, Last(steps)) else t
  }

  lemma {:induction false} AfterSnoc(cfg: Config, s: State, steps: seq<Step>, step: Step)
    ensures After(cfg, s, steps + [step]) ==
            var t := After(cfg, s, steps);
            if Possible(t, step) then Next(cfg, t, step) else t
  {
    assert DropLast(steps + [step]) == steps && Last(steps + [step]) == step;
  }

  lemma {:induction false} AfterConcat(cfg: Config, s: State, a: seq<Step>, b: seq<Step>)
    ensures After(cfg, s, a + b) == After(cfg, After(cfg, s, a), b)
  {
    if b == [] {
      assert a + b == a;
    } else {
      assert DropLast(a + b) == a + DropLast(b) && Last(a + b) == Last(b);
      AfterConcat(cfg, s, a, DropLast(b));
    }
  }

  /** Nothing has happened yet. */
  ghost predicate Init(s: State) {
    && s.copies == map[] && s.store == Store(map[], map[]) && s.keys == {} && s.listed == {}
    && s.succeeded == multiset{} && s.dead == multiset{} && s.skipped == multiset{}
    && s.runs == map[] && s.failures == map[] && s.early == {}
  }

  /** Copies keep their numbers; only a published or republished record gets a new one. */
  ghost predicate Numbered(s: State) {
    forall c :: c in s.copies ==> c < s.nextCopy
  }

  lemma NumberedStep(cfg: Config, s: State, step: Step)
    requires Numbered(s) && Possible(s, step)
    ensures Numbered(Next(cfg, s, step))
  {
    if step.Consume? {
      NumberedConsume(cfg, s, step);
    } else if step.Acquire? || step.Process? {
      NumberedEarly(cfg, s, step);
    } else if step.Publish? || step.Claim? {
      NumberedNew(cfg, s, step);
    } else {
      NumberedLate(cfg, s, step);
    }
  }

  lemma NumberedConsume(cfg: Config, s: State, step: Step)
    requires Numbered(s) && Possible(s, step) && step.Consume?
    ensures Numbered(Next(cfg, s, step))
  {
  }

  lemma NumberedEarly(cfg: Config, s: State, step: Step)
    requires Numbered(s) && Possible(s, step) && (step.Acquire? || step.Process?)
    ensures Numbered(Next(cfg, s, step))
  {
  }

  lemma NumberedNew(cfg: Config, s: State, step: Step)
    requires Numbered(s) && Possible(s, step) && (step.Publish? || step.Claim?)
    ensures Numbered(Next(cfg, s, step))
  {
  }

  lemma NumberedLate(cfg: Config, s: State, step: Step)
    requires Numbered(s) && Possible(s, step)
    requires !step.Consume? && !step.Acquire? && !step.Process? && !step.Publish? && !step.Claim?
    ensures Numbered(Next(cfg, s, step))
  {
  }
}
