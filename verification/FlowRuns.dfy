/** Pieces of runs of the event flow: how one copy of an event gets from its topic to the schedule and back. */
module FlowRuns {
  import opened Collections
  import opened Envelope
  import opened Retry
  import opened Scheduler
  import opened Flow
  import opened FlowClaims
  import Worker

  /** The steps lead to the state, without faults and without new copies from outside. */
  ghost predicate Leads(cfg: Config, s: State, steps: seq<Step>, t: State) {
    AllClean(steps) && (forall i :: 0 <= i < |steps| ==> !steps[i].Publish?) && After(cfg, s, steps) == t
  }

  lemma {:induction false} LeadsOn(cfg: Config, s: State, steps: seq<Step>, t: State, step: Step) returns (more: seq<Step>, u: State)
    requires Leads(cfg, s, steps, t) && Possible(t, step) && Clean(step) && !step.Publish?
    ensures more == steps + [step] && u == Next(cfg, t, step) && Leads(cfg, s, more, u)
  {
    AfterSnoc(cfg, s, steps, step);
    more, u := steps + [step], Next(cfg, t, step);
  }

  lemma {:induction false} LeadsConcat(cfg: Config, s: State, a: seq<Step>, t: State, b: seq<Step>, u: State)
    requires Leads(cfg, s, a, t) && Leads(cfg, t, b, u)
    ensures Leads(cfg, s, a + b, u)
  {
    AfterConcat(cfg, s, a, b);
  }

  /** An event that the worker processes and can retry. */
  predicate Retriable(cfg: Config, e: Event) {
    Known(cfg, e) && e.topic != "" && 0 <= e.retryCount < cfg.maxRetries
  }

  /** The copy lies in the topic of the event, and parses to it. */
  predicate InOwnTopic(s: State, c: nat, e: Event) {
    c in s.copies && s.copies[c].InTopic? && s.copies[c].topic == e.topic &&
    ParseAndValidate(e.topic, e.partition, e.offset, s.copies[c].body) == Valid(e)
  }

  /** What the k-th failure of the event is published as. */
  function RetryAt(e: Event, now: Time): RetryEnvelope
    requires e.retryCount >= 0
  {
    RetryOf(e, now, "").value
  }

  /** The event as it comes back. */
  function Again(e: Event, now: Time): Event {
    e.(retryCount := e.retryCount + 1, failureReason := "",
       firstFailureTime := Some(if e.firstFailureTime.Some? then e.firstFailureTime.value else now))
  }

  /** From its topic into a job that owns its key. */
  lemma Owns1(cfg: Config, s: State, c: nat, e: Event) returns (steps: seq<Step>, t: State)
    requires InOwnTopic(s, c, e) && Known(cfg, e) && e.eventId !in s.keys
    ensures Leads(cfg, s, steps, t)
    ensures t == s.(copies := s.copies[c := Running(e, Owned)], keys := s.keys + {e.eventId})
  {
    steps, t := LeadsOn(cfg, s, [], s, Consume(c, e.partition, e.offset));
    assert t == s.(copies := s.copies[c := Running(e, Entered)]);
    steps, t := LeadsOn(cfg, s, steps, t, Acquire(c));
  }

  /** The job fails and lets its key go. */
  lemma Fails(cfg: Config, s: State, c: nat, e: Event) returns (steps: seq<Step>, t: State)
    requires IsJob(s, c, Owned) && s.copies[c].event == e
    ensures Leads(cfg, s, steps, t)
    ensures t == s.(copies := s.copies[c := Running(e, Released(OtherError))], keys := s.keys - {e.eventId},
                    runs := s.runs[e.eventId := Runs(s, e.eventId) + 1])
  {
    steps, t := LeadsOn(cfg, s, [], s, Process(c, OtherError));
    assert t == s.(copies := s.copies[c := Running(e, Failed(OtherError))], runs := t.runs);
    steps, t := LeadsOn(cfg, s, steps, t, Release(c));
  }

  /** The failed job goes to the retry topic and from there into the schedule. */
  lemma GoesToSchedule(cfg: Config, s: State, c: nat, e: Event) returns (steps: seq<Step>, t: State)
    requires c in s.copies && s.copies[c].Running? && s.copies[c].event == e && Retriable(cfg, e)
    requires s.copies[c].stage.Released? && IsRetriable(s.copies[c].stage.error)
    ensures Leads(cfg, s, steps, t)
    ensures t == s.(copies := s.copies - {c}, store := ScheduleIn(s.store, RetryAt(e, s.now)), failures := t.failures)
  {
    var env := RetryAt(e, s.now);
    Worker.RetryTopicIsOne(e.topic);
    EnvelopeRoundTrip(env);
    steps, t := LeadsOn(cfg, s, [], s, Fallback(c, ""));
    assert t == s.(copies := s.copies[c := InTopic(e.topic + ".retry", Marshal(env))], failures := t.failures);
    steps, t := LeadsOn(cfg, s, steps, t, HandOff(c));
  }

  /** From its topic, through a failure, into the schedule. */
  lemma FailsOnce(cfg: Config, s: State, c: nat, e: Event) returns (steps: seq<Step>, t: State)
    requires InOwnTopic(s, c, e) && Retriable(cfg, e) && e.eventId !in s.keys
    ensures Leads(cfg, s, steps, t)
    ensures t == s.(copies := s.copies - {c}, store := ScheduleIn(s.store, RetryAt(e, s.now)), runs := t.runs,
                    failures := t.failures)
  {
    var u, v: State;
    var more: seq<Step>;
    steps, u := Owns1(cfg, s, c, e);
    more, v := Fails(cfg, u, c, e);
    LeadsConcat(cfg, s, steps, u, more, v);
    steps := steps + more;
    assert v == s.(copies := s.copies[c := Running(e, Released(OtherError))], runs := v.runs);
    more, t := GoesToSchedule(cfg, v, c, e);
    LeadsConcat(cfg, s, steps, v, more, t);
    steps := steps + more;
    assert s.copies[c := Running(e, Released(OtherError))] - {c} == s.copies - {c};
  }

  /** The entry of the event's last failure is in the schedule, with its payload. */
  ghost predicate Waits(s: State, e: Event, failed: Time) {
    && e.retryCount >= 0 && e.eventId in s.store.schedule && e.eventId in s.store.payload
    && s.store.payload[e.eventId] == Marshal(RetryAt(e, failed))
    && s.store.schedule[e.eventId] == UnixSeconds(RetryAt(e, failed).nextRetryAfter)
  }

  /** It falls due, and a scheduler lists it. */
  lemma FallsDue(cfg: Config, s: State, e: Event, failed: Time) returns (steps: seq<Step>, t: State)
    requires Waits(s, e, failed) && 0 <= failed <= s.now
    ensures Leads(cfg, s, steps, t)
    ensures s.now <= t.now && t == s.(now := t.now, listed := s.listed + {e.eventId})
    ensures e.eventId in DueAt(t.store.schedule, t.now)
  {
    var due := RetryAt(e, failed).nextRetryAfter;
    var later := if due > s.now then due else s.now;
    SecondsOrdered(0, due);
    SecondsOrdered(due, later);
    steps, t := LeadsOn(cfg, s, [], s, Advance(later));
    steps, t := LeadsOn(cfg, s, steps, t, ReadDue({e.eventId}));
  }

  /** It is claimed when it is due, and back in its topic. */
  lemma ClaimedBack(cfg: Config, s: State, e: Event, failed: Time) returns (steps: seq<Step>, t: State)
    requires Waits(s, e, failed) && e.eventId in DueAt(s.store.schedule, s.now)
    ensures Leads(cfg, s, steps, t)
    ensures t == s.(copies := s.copies[s.nextCopy := InTopic(e.topic, RepublishBody(RetryAt(e, failed)))],
                    nextCopy := s.nextCopy + 1,
                    store := Store(s.store.schedule - {e.eventId}, s.store.payload - {e.eventId}))
  {
    EnvelopeRoundTrip(RetryAt(e, failed));
    steps, t := LeadsOn(cfg, s, [], s, Claim(e.eventId));
    assert t.early == s.early;
  }

  lemma ComesBack(cfg: Config, s: State, e: Event, failed: Time) returns (steps: seq<Step>, t: State)
    requires Retriable(cfg, e) && 0 <= failed <= s.now && Waits(s, e, failed)
    ensures Leads(cfg, s, steps, t)
    ensures s.now <= t.now && InOwnTopic(t, s.nextCopy, Again(e, failed))
    ensures t == s.(now := t.now, listed := s.listed + {e.eventId}, nextCopy := s.nextCopy + 1,
                    copies := s.copies[s.nextCopy := InTopic(e.topic, RepublishBody(RetryAt(e, failed)))],
                    store := Store(s.store.schedule - {e.eventId}, s.store.payload - {e.eventId}))
  {
    var u: State;
    var more: seq<Step>;
    steps, u := FallsDue(cfg, s, e, failed);
    more, t := ClaimedBack(cfg, u, e, failed);
    LeadsConcat(cfg, s, steps, u, more, t);
    steps := steps + more;
    BackInTopic(e, failed);
  }

  lemma BackInTopic(e: Event, failed: Time)
    requires e.retryCount >= 0 && e.version != 0 && e.eventId != "" && e.eventType != "" && e.tenantId != "" && e.topic != ""
    ensures ParseAndValidate(e.topic, e.partition, e.offset, RepublishBody(RetryAt(e, failed))) == Valid(Again(e, failed))
  {
    MetadataSurvivesRound(e, failed, "", e.partition, e.offset);
    EnvelopeRoundTrip(RetryAt(e, failed));
  }
}
