/** Claims from old due lists: exactly when they can republish a retry before its time, and a run in which one does. */
module EarlyClaims {
  import opened Collections
  import opened Envelope
  import opened Retry
  import opened Scheduler
  import opened Flow
  import opened FlowClaims
  import opened FlowRuns
  import Worker

  /** The score that the step gives the id. */
  function HandsOff(s: State, step: Step, id: string): Option<int> {
    if step.HandOff? && step.copy in s.copies && s.copies[step.copy].InTopic? then
      match ParseRetryEnvelope(s.copies[step.copy].body)
      case None => None
      case Some(env) => if env.eventId == id then Some(UnixSeconds(env.nextRetryAfter)) else None
    else None
  }

  ghost predicate NotRescheduled(cfg: Config, s: State, steps: seq<Step>, id: string) {
    steps == [] ||
    (NotRescheduled(cfg, s, DropLast(steps), id) && HandsOff(After(cfg, s, DropLast(steps)), Last(steps), id).None?)
  }

  /** Some continuation claims the retry that is scheduled now before its time. */
  ghost predicate CanComeEarly(cfg: Config, s: State, id: string) {
    exists steps :: NotRescheduled(cfg, s, steps, id) && id in After(cfg, s, steps).early
  }

  /** If the id is on a list, its entry is due. */
  predicate ListedIsDue(s: State, id: string) {
    id in s.store.schedule && id in s.listed ==> !NotYetDue(s, id)
  }

  /**
   A retry that is handed off can be republished before its time if and only if its id is still on a due list of its
   last round, and its time is to come.
   */
  lemma {:induction false} EarlyClaimIff(cfg: Config, s: State, c: nat, id: string)
    requires Possible(s, HandOff(c)) && HandsOff(s, HandOff(c), id).Some? && id !in s.early
    ensures CanComeEarly(cfg, Next(cfg, s, HandOff(c)), id) <==>
            id in s.listed && HandsOff(s, HandOff(c), id).value > UnixSeconds(s.now)
  {
    var t := Next(cfg, s, HandOff(c));
    ScoreStep(cfg, s, HandOff(c), id);
    assert t.listed == s.listed && t.early == s.early && t.now == s.now;
    if id in s.listed && NotYetDue(t, id) {
      EarlyNow(cfg, t, id);
    } else {
      forall steps | NotRescheduled(cfg, t, steps, id) ensures id !in After(cfg, t, steps).early {
        NeverEarly(cfg, t, steps, id);
      }
    }
  }

  lemma {:induction false} EarlyNow(cfg: Config, s: State, id: string)
    requires id in s.store.schedule && id in s.listed && NotYetDue(s, id)
    ensures CanComeEarly(cfg, s, id)
  {
    var steps := [Claim(id)];
    assert DropLast(steps) == [] && Last(steps) == Claim(id);
    assert NotRescheduled(cfg, s, [], id) && After(cfg, s, []) == s;
    assert NotRescheduled(cfg, s, steps, id) && id in After(cfg, s, steps).early;
  }

  lemma {:induction false} NeverEarly(cfg: Config, s: State, steps: seq<Step>, id: string)
    requires ListedIsDue(s, id) && id !in s.early && NotRescheduled(cfg, s, steps, id)
    ensures ListedIsDue(After(cfg, s, steps), id) && id !in After(cfg, s, steps).early
  {
    if steps != [] {
      NeverEarly(cfg, s, DropLast(steps), id);
      var t, step := After(cfg, s, DropLast(steps)), Last(steps);
      if Possible(t, step) {
        ListedStep(cfg, t, step, id);
      }
    }
  }

  lemma ListedStep(cfg: Config, s: State, step: Step, id: string)
    requires ListedIsDue(s, id) && Possible(s, step) && HandsOff(s, step, id).None?
    ensures ListedIsDue(Next(cfg, s, step), id)
    ensures id in Next(cfg, s, step).early ==> id in s.early
  {
    ScoreStep(cfg, s, step, id);
    SecondsOrdered(s.now, Next(cfg, s, step).now);
    ListsGrow(cfg, s, step, id);
  }

  /** Only reading a due list lists an id, and only a claim before its time makes it early. */
  lemma ListsGrow(cfg: Config, s: State, step: Step, id: string)
    requires Possible(s, step)
    ensures var t := Next(cfg, s, step);
            && (id in t.listed ==> id in s.listed || (step.ReadDue? && id in DueAt(s.store.schedule, s.now)))
            && (id in t.early ==> id in s.early || (step == Claim(id) && NotYetDue(s, id)))
            && (step == Claim(id) ==> id !in t.store.schedule)
  {
    match step
    case Consume(c, partition, offset) => ConsumeLists(cfg, s, c, partition, offset);
    case HandOff(c) => HandOffLists(cfg, s, c);
    case ReadDue(_) =>
    case Claim(_) =>
    case _ => ListsStay(cfg, s, step);
  }

  lemma ConsumeLists(cfg: Config, s: State, c: nat, partition: int, offset: nat)
    requires Possible(s, Consume(c, partition, offset))
    ensures var t := Next(cfg, s, Consume(c, partition, offset)); t.listed == s.listed && t.early == s.early
  {
  }

  lemma HandOffLists(cfg: Config, s: State, c: nat)
    requires Possible(s, HandOff(c))
    ensures var t := Next(cfg, s, HandOff(c)); t.listed == s.listed && t.early == s.early
  {
  }

  lemma ListsStay(cfg: Config, s: State, step: Step)
    requires Possible(s, step) && !step.ReadDue? && !step.Claim? && !step.Consume? && !step.HandOff?
    ensures Next(cfg, s, step).listed == s.listed && Next(cfg, s, step).early == s.early
  {
  }

  /** Only a hand-off gives an id a score. */
  lemma ScoreStep(cfg: Config, s: State, step: Step, id: string)
    requires Possible(s, step)
    ensures var t := Next(cfg, s, step);
            && s.now <= t.now
            && (HandsOff(s, step, id).Some? ==> id in t.store.schedule && t.store.schedule[id] == HandsOff(s, step, id).value)
            && (HandsOff(s, step, id).None? && id in t.store.schedule ==>
                  id in s.store.schedule && t.store.schedule[id] == s.store.schedule[id])
  {
    if step.HandOff? || step.Claim? {
      assert s.now == Next(cfg, s, step).now;
    } else {
      StoreStays(cfg, s, step);
    }
  }

  lemma StoreStays(cfg: Config, s: State, step: Step)
    requires Possible(s, step) && !step.HandOff? && !step.Claim?
    ensures Next(cfg, s, step).store == s.store && Next(cfg, s, step).now >= s.now
  {
  }

  // ----- A retry that comes early -----

  /** The claim of an entry that is on a list. */
  lemma ClaimsListed(cfg: Config, s: State, run: seq<Step>, t: State, id: string) returns (steps: seq<Step>, u: State)
    requires Leads(cfg, s, run, t) && id in t.store.schedule && id in t.listed
    ensures Leads(cfg, s, steps, u) && (NotYetDue(t, id) ==> id in u.early)
  {
    steps, u := LeadsOn(cfg, s, run, t, Claim(id));
  }

  /**
   One copy of an event fails, comes back when it is due, and fails again; the list that its first claim was taken
   from is then old, and a claim from it republishes the event before its second retry is due.
   */
  lemma {:induction false} EarlyClaimRun(cfg: Config, s: State, e: Event) returns (steps: seq<Step>)
    requires Init(s) && s.now >= 0 && Retriable(cfg, e) && e == Fresh(e) && cfg.maxRetries >= 2
    ensures AllClean(steps) && steps != [] && steps[0] == Publish(e.topic, BodyOf(e))
    ensures forall i :: 1 <= i < |steps| ==> !steps[i].Publish?
    ensures e.eventId in After(cfg, s, steps).early
  {
    var first := Next(cfg, s, Publish(e.topic, BodyOf(e)));
    var id, c := e.eventId, s.nextCopy;
    assert InOwnTopic(first, c, e);
    var run, t := FailsOnce(cfg, first, c, e);
    var more, u := ComesBack(cfg, t, e, t.now);
    LeadsConcat(cfg, first, run, t, more, u);
    run := run + more;
    var again := Again(e, t.now);
    var v: State;
    more, v := FailsOnce(cfg, u, t.nextCopy, again);
    LeadsConcat(cfg, first, run, u, more, v);
    SecondRetryIsLater(again, u.now);
    more, u := ClaimsListed(cfg, first, run + more, v, id);
    PublishFirst(cfg, s, e, more);
    steps := [Publish(e.topic, BodyOf(e))] + more;
  }

  /** An event as it is first parsed. */
  function Fresh(e: Event): Event {
    e.(partition := 0, offset := 0, retryCount := 0, failureReason := "", firstFailureTime := None)
  }

  lemma SecondRetryIsLater(e: Event, now: Time)
    requires e.retryCount >= 0
    ensures UnixSeconds(RetryAt(e, now).nextRetryAfter) > UnixSeconds(now)
  {
    assert RetryAt(e, now).nextRetryAfter >= now + 30 * SECOND;
  }

  lemma {:induction false} PublishFirst(cfg: Config, s: State, e: Event, steps: seq<Step>)
    ensures After(cfg, s, [Publish(e.topic, BodyOf(e))] + steps) ==
            After(cfg, Next(cfg, s, Publish(e.topic, BodyOf(e))), steps)
  {
    var first := Publish(e.topic, BodyOf(e));
    AfterSnoc(cfg, s, [], first);
    assert [] + [first] == [first];
    AfterConcat(cfg, s, [first], steps);
  }
}
