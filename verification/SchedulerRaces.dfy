/**
 Any number of schedulers on one Redis, interleaving at single commands, any of which may fail, and working off due
 lists of any age (internal/retry/scheduler.go, Schedule, tick and claim).
 */
module SchedulerRaces {
  import opened Collections
  import opened Envelope
  import opened Retry
  import opened Scheduler

  /** Where a claim has got to: after its ZREM, its GET or its produce. */
  datatype Stage =
    | Idle
    | Claimed(id: string)
    | Loaded(id: string, env: RetryEnvelope)
    | Republishing(id: string)

  datatype Worker = Worker(due: seq<string>, stage: Stage)

  /**
   The last five fields are history: the ids scheduled, superseded and claimed, what was republished, and the ids
   whose claim ended without republishing anything.
   */
  datatype State = State(
    now: Time,
    store: Store,
    workers: map<nat, Worker>,
    schedules: seq<string>,
    superseded: seq<string>,
    claims: seq<string>,
    republished: seq<RetryEnvelope>,
    lost: seq<string>)

  datatype Step =
    | Advance(now: Time)
    | DoSchedule(env: RetryEnvelope)
    | ReadDue(w: nat, due: seq<string>)  // entries that are due now; the list may be stale when it is used
    | ZRem(w: nat)                       // on the head of the worker's list
    | GetPayload(w: nat)
    | Produce(w: nat)
    | DelPayload(w: nat)
    | ZRemFails(w: nat)                  // the request is lost
    | ZRemReplyLost(w: nat)
    | GetFails(w: nat)
    | DelFails(w: nat)
    | Crash(w: nat)

  predicate Possible(s: State, step: Step) {
    match step
    case Advance(t) => s.now <= t
    case DoSchedule(env) => env.eventId != ""
    case ReadDue(w, due) =>
      (w in s.workers ==> s.workers[w].stage.Idle? && s.workers[w].due == []) &&
      forall i :: 0 <= i < |due| ==> due[i] in DueAt(s.store.schedule, s.now)
    case ZRem(w) => AtHead(s, w)
    case GetPayload(w) => w in s.workers && s.workers[w].stage.Claimed?
    case Produce(w) => w in s.workers && s.workers[w].stage.Loaded?
    case DelPayload(w) => w in s.workers && s.workers[w].stage.Republishing?
    case ZRemFails(w) => AtHead(s, w)
    case ZRemReplyLost(w) => AtHead(s, w)
    case GetFails(w) => w in s.workers && s.workers[w].stage.Claimed?
    case DelFails(w) => w in s.workers && s.workers[w].stage.Republishing?
    case Crash(w) => w in s.workers
  }

  predicate AtHead(s: State, w: nat) {
    w in s.workers && s.workers[w].stage.Idle? && s.workers[w].due != []
  }

  function At(s: State, w: nat, stage: Stage): State
    requires w in s.workers
  {
    s.(workers := s.workers[w := s.workers[w].(stage := stage)])
  }

  /** The worker turns to the rest of its list, in the given stage. */
  function Onward(s: State, w: nat, stage: Stage): State
    requires AtHead(s, w)
  {
    s.(workers := s.workers[w := Worker(s.workers[w].due[1..], stage)])
  }

  function Remove(s: State, id: string): State {
    s.(store := s.store.(schedule := s.store.schedule - {id}), claims := s.claims + [id])
  }

  function Lose(s: State, id: string): State {
    s.(lost := s.lost + [id])
  }

  function Readable(store: Store, id: string): Option<RetryEnvelope> {
    if id in store.payload then Unmarshal(store.payload[id]) else None
  }

  function Next(s: State, step: Step): State
    requires Possible(s, step)
  {
    match step
    case Advance(t) => s.(now := t)
    case DoSchedule(env) =>
      s.(store := ScheduleIn(s.store, env), schedules := s.schedules + [env.eventId],
         superseded := if env.eventId in s.store.schedule then s.superseded + [env.eventId] else s.superseded)
    case ReadDue(w, due) => s.(workers := s.workers[w := Worker(due, Idle)])
    case ZRem(w) =>
      var id := s.workers[w].due[0];
      if id in s.store.schedule then Remove(Onward(s, w, Claimed(id)), id) else Onward(s, w, Idle)
    case GetPayload(w) =>
      var id := s.workers[w].stage.id;
      var env := Readable(s.store, id);
      if env.Some? then At(s, w, Loaded(id, env.value)) else Lose(At(s, w, Idle), id)
    case Produce(w) =>
      At(s, w, Republishing(s.workers[w].stage.id)).(republished := s.republished + [s.workers[w].stage.env])
    case DelPayload(w) =>
      At(s, w, Idle).(store := s.store.(payload := s.store.payload - {s.workers[w].stage.id}))
    case ZRemFails(w) => Onward(s, w, Idle)
    case ZRemReplyLost(w) =>
      var id := s.workers[w].due[0];
      if id in s.store.schedule then Lose(Remove(Onward(s, w, Idle), id), id) else Onward(s, w, Idle)
    case GetFails(w) => Lose(At(s, w, Idle), s.workers[w].stage.id)
    case DelFails(w) => At(s, w, Idle)
    case Crash(w) =>
      var t := s.(workers := s.workers - {w});
      if Holding(s.workers[w], HeldId(s.workers[w])) then Lose(t, HeldId(s.workers[w])) else t
  }

  function HeldId(w: Worker): string {
    if w.stage.Idle? then "" else w.stage.id
  }

  /** A claim of the id whose payload has not been produced yet. */
  predicate Holding(w: Worker, id: string) {
    (w.stage.Claimed? || w.stage.Loaded?) && w.stage.id == id
  }

  /** The id a claim in progress works on. */
  predicate WorksOn(w: Worker, id: string) {
    !w.stage.Idle? && w.stage.id == id
  }

  function After(s: State, steps: seq<Step>): State {
    if steps == [] then s
    else
      var t := After(s, DropLast(steps));
      if Possible(t, Last(steps)) then Next(t, Last(steps)) else t
  }

  lemma {:induction false} AfterSnoc(s: State, steps: seq<Step>, step: Step)
    ensures After(s, steps + [step]) ==
            var t := After(s, steps);
            if Possible(t, step) then Next(t, step) else t
  {
    assert DropLast(steps + [step]) == steps && Last(steps + [step]) == step;
  }

  /** Nothing has happened yet. */
  ghost predicate Fresh(s: State) {
    s == State(s.now, Store(map[], map[]), map[], [], [], [], [], [])
  }

  // ----- One claim without others -----

  /** The commands of one claim, each with its own fault; one that has nothing to do is skipped. */
  function ClaimSteps(w: nat, f: ClaimFaults): seq<Step> {
    match f.zrem
    case LostRequest => [ZRemFails(w)]
    case LostReply => [ZRemReplyLost(w)]
    case NoFault =>
      if f.get.NoFault? then [ZRem(w), GetPayload(w), Produce(w), if f.del.LostRequest? then DelFails(w) else DelPayload(w)]
      else [ZRem(w), GetFails(w)]
  }

  /** Taken in one go, the single commands do to Redis and to Kafka what a claim as a whole is said to do. */
  lemma {:induction false} ClaimRefined(s: State, w: nat, f: ClaimFaults)
    requires AtHead(s, w)
    ensures var t, (left, env) := After(s, ClaimSteps(w, f)), ClaimWith(s.store, s.workers[w].due[0], f);
            && t.store == left
            && t.republished == s.republished + (if env.Some? then [env.value] else [])
            && w in t.workers && t.workers[w] == Worker(s.workers[w].due[1..], Idle)
  {
    match f.zrem
    case LostRequest => AfterOne(s, ZRemFails(w));
    case LostReply => AfterOne(s, ZRemReplyLost(w));
    case NoFault =>
      AfterOne(s, ZRem(w));
      if f.get.NoFault? {
        ReadAndRepublish(s, w, f);
      } else {
        AfterSnoc(s, [ZRem(w)], GetFails(w));
        assert [ZRem(w)] + [GetFails(w)] == ClaimSteps(w, f);
      }
  }

  lemma {:induction false} AfterOne(s: State, step: Step)
    ensures After(s, [step]) == if Possible(s, step) then Next(s, step) else s
  {
    AfterSnoc(s, [], step);
    assert [] + [step] == [step];
  }

  lemma {:induction false} ReadAndRepublish(s: State, w: nat, f: ClaimFaults)
    requires AtHead(s, w) && f.zrem.NoFault? && f.get.NoFault?
    ensures var t, (left, env) := After(s, ClaimSteps(w, f)), ClaimWith(s.store, s.workers[w].due[0], f);
            && t.store == left
            && t.republished == s.republished + (if env.Some? then [env.value] else [])
            && w in t.workers && t.workers[w] == Worker(s.workers[w].due[1..], Idle)
  {
    var last := if f.del.LostRequest? then DelFails(w) else DelPayload(w);
    var a, b, c := [ZRem(w)], [ZRem(w), GetPayload(w)], [ZRem(w), GetPayload(w), Produce(w)];
    AfterOne(s, ZRem(w));
    AfterSnoc(s, a, GetPayload(w));
    assert a + [GetPayload(w)] == b;
    AfterSnoc(s, b, Produce(w));
    assert b + [Produce(w)] == c;
    AfterSnoc(s, c, last);
    assert c + [last] == ClaimSteps(w, f);
  }

  // ----- Claims never exceed schedules -----

  function IsPending(s: State, id: string): nat {
    if id in s.store.schedule then 1 else 0
  }

  /** Every Schedule is pending, superseded by a later one, or claimed: this never changes. */
  function Balance(s: State, id: string): int {
    Times(s.schedules, id) - IsPending(s, id) - Times(s.superseded, id) - Times(s.claims, id)
  }

  /**
   Claim once: over any stretch of any interleaving, an event id is claimed at most as often as it is scheduled
   in that stretch, plus once if it was pending at its start.  So two claims always have a Schedule between them.
   */
  lemma {:induction false} ClaimOnce(s: State, steps: seq<Step>, id: string)
    ensures Times(After(s, steps).claims, id) - Times(s.claims, id) <=
            Times(After(s, steps).schedules, id) - Times(s.schedules, id) + IsPending(s, id)
    ensures Balance(After(s, steps), id) == Balance(s, id)
  {
    if steps != [] {
      ClaimOnce(s, DropLast(steps), id);
      var t, step := After(s, DropLast(steps)), Last(steps);
      if Possible(t, step) {
        BalanceStep(t, step, id);
        SupersededGrows(s, steps, id);
      }
    }
  }

  lemma {:induction false} BalanceStep(s: State, step: Step, id: string)
    requires Possible(s, step)
    ensures Balance(Next(s, step), id) == Balance(s, id)
    ensures Times(Next(s, step).superseded, id) >= Times(s.superseded, id)
  {
    if step.DoSchedule? {
      TimesSnoc(s.schedules, step.env.eventId, id);
      TimesSnoc(s.superseded, step.env.eventId, id);
    } else if step.ZRem? || step.ZRemReplyLost? {
      BalanceOfRemoval(s, Next(s, step), s.workers[step.w].due[0], id);
    } else {
      NoRemoval(s, step);
    }
  }

  lemma {:induction false} BalanceOfRemoval(s: State, t: State, x: string, id: string)
    requires t.schedules == s.schedules && t.superseded == s.superseded
    requires if x in s.store.schedule then t.claims == s.claims + [x] && t.store.schedule == s.store.schedule - {x}
             else t.claims == s.claims && t.store == s.store
    ensures Balance(t, id) == Balance(s, id)
  {
    TimesSnoc(s.claims, x, id);
  }

  lemma NoRemoval(s: State, step: Step)
    requires Possible(s, step) && !step.DoSchedule? && !step.ZRem? && !step.ZRemReplyLost?
    ensures var t := Next(s, step);
            && t.schedules == s.schedules && t.superseded == s.superseded && t.claims == s.claims
            && t.store.schedule == s.store.schedule
  {
  }

  lemma {:induction false} SupersededGrows(s: State, steps: seq<Step>, id: string)
    ensures Times(After(s, steps).superseded, id) >= Times(s.superseded, id)
  {
    if steps != [] {
      SupersededGrows(s, DropLast(steps), id);
      var t, step := After(s, DropLast(steps)), Last(steps);
      if Possible(t, step) {
        BalanceStep(t, step, id);
      }
    }
  }

  // ----- What becomes of a claim -----

  /** Payloads belong to the ids they are stored under, and claims carry them. */
  ghost predicate OwnPayloads(s: State) {
    && (forall id :: id in s.store.payload ==>
          Unmarshal(s.store.payload[id]).Some? && Unmarshal(s.store.payload[id]).value.eventId == id)
    && (forall w :: w in s.workers && s.workers[w].stage.Loaded? ==> s.workers[w].stage.env.eventId == s.workers[w].stage.id)
  }

  lemma OwnPayloadsStep(s: State, step: Step)
    requires OwnPayloads(s) && Possible(s, step)
    ensures OwnPayloads(Next(s, step))
  {
    if step.DoSchedule? {
      EnvelopeRoundTrip(step.env);
    }
  }

  /** The ids of a sequence of envelopes. */
  function Ids(envs: seq<RetryEnvelope>): seq<string> {
    if envs == [] then [] else Ids(DropLast(envs)) + [Last(envs).eventId]
  }

  lemma {:induction false} IdsSnoc(envs: seq<RetryEnvelope>, env: RetryEnvelope)
    ensures Ids(envs + [env]) == Ids(envs) + [env.eventId]
  {
    assert DropLast(envs + [env]) == envs;
  }

  function Holders(s: State, id: string): set<nat> {
    set w | w in s.workers && Holding(s.workers[w], id)
  }

  /** Claims that are neither republished, nor lost, nor being carried out: this never changes. */
  function Open(s: State, id: string): int {
    Times(s.claims, id) - Times(Ids(s.republished), id) - Times(s.lost, id) - |Holders(s, id)|
  }

  lemma {:induction false} OpenStep(s: State, step: Step, id: string)
    requires OwnPayloads(s) && Possible(s, step)
    ensures Open(Next(s, step), id) == Open(s, id)
  {
    match step
    case ZRem(w) => OpenZRem(s, w, id);
    case ZRemReplyLost(w) => OpenZRemReplyLost(s, w, id);
    case GetPayload(w) => OpenGet(s, step, w, id);
    case GetFails(w) => OpenGet(s, step, w, id);
    case Produce(w) => OpenProduce(s, w, id);
    case Crash(w) => OpenCrash(s, w, id);
    case _ => OpenOther(s, step, id);
  }

  lemma {:induction false} OpenZRem(s: State, w: nat, id: string)
    requires Possible(s, ZRem(w))
    ensures Open(Next(s, ZRem(w)), id) == Open(s, id)
  {
    TimesSnoc(s.claims, s.workers[w].due[0], id);
    HoldersChange(s, Next(s, ZRem(w)), w, id);
  }

  lemma {:induction false} OpenZRemReplyLost(s: State, w: nat, id: string)
    requires Possible(s, ZRemReplyLost(w))
    ensures Open(Next(s, ZRemReplyLost(w)), id) == Open(s, id)
  {
    TimesSnoc(s.claims, s.workers[w].due[0], id);
    TimesSnoc(s.lost, s.workers[w].due[0], id);
    HoldersChange(s, Next(s, ZRemReplyLost(w)), w, id);
  }

  lemma {:induction false} OpenGet(s: State, step: Step, w: nat, id: string)
    requires (step == GetPayload(w) || step == GetFails(w)) && Possible(s, step)
    ensures Open(Next(s, step), id) == Open(s, id)
  {
    TimesSnoc(s.lost, s.workers[w].stage.id, id);
    HoldersChange(s, Next(s, step), w, id);
  }

  lemma {:induction false} OpenProduce(s: State, w: nat, id: string)
    requires OwnPayloads(s) && Possible(s, Produce(w))
    ensures Open(Next(s, Produce(w)), id) == Open(s, id)
  {
    IdsSnoc(s.republished, s.workers[w].stage.env);
    TimesSnoc(Ids(s.republished), s.workers[w].stage.id, id);
    HoldersChange(s, Next(s, Produce(w)), w, id);
  }

  lemma {:induction false} OpenCrash(s: State, w: nat, id: string)
    requires Possible(s, Crash(w))
    ensures Open(Next(s, Crash(w)), id) == Open(s, id)
  {
    TimesSnoc(s.lost, HeldId(s.workers[w]), id);
    HoldersSplit(s, w, id);
    HoldersSplit(Next(s, Crash(w)), w, id);
    assert HoldersBut(Next(s, Crash(w)), w, id) == HoldersBut(s, w, id);
  }

  lemma OpenOther(s: State, step: Step, id: string)
    requires Possible(s, step) && !step.ZRem? && !step.ZRemReplyLost? && !step.GetPayload? && !step.GetFails?
    requires !step.Produce? && !step.Crash?
    ensures Open(Next(s, step), id) == Open(s, id)
  {
    assert Holders(Next(s, step), id) == Holders(s, id);
  }

  function HoldersBut(s: State, w: nat, id: string): set<nat> {
    set v | v in s.workers && v != w && Holding(s.workers[v], id)
  }

  lemma HoldersSplit(s: State, w: nat, id: string)
    ensures |Holders(s, id)| == |HoldersBut(s, w, id)| + if w in s.workers && Holding(s.workers[w], id) then 1 else 0
  {
    if w in s.workers && Holding(s.workers[w], id) {
      assert Holders(s, id) == HoldersBut(s, w, id) + {w};
    } else {
      assert Holders(s, id) == HoldersBut(s, w, id);
    }
  }

  /** Only worker w has changed. */
  lemma HoldersChange(s: State, t: State, w: nat, id: string)
    requires w in s.workers && w in t.workers && t.workers == s.workers[w := t.workers[w]]
    ensures |Holders(t, id)| == |Holders(s, id)|
              + (if Holding(t.workers[w], id) then 1 else 0) - (if Holding(s.workers[w], id) then 1 else 0)
  {
    HoldersSplit(s, w, id);
    HoldersSplit(t, w, id);
    assert HoldersBut(t, w, id) == HoldersBut(s, w, id);
  }

  lemma {:induction false} OpenAfter(s: State, steps: seq<Step>, id: string)
    requires OwnPayloads(s)
    ensures OwnPayloads(After(s, steps)) && Open(After(s, steps), id) == Open(s, id)
  {
    if steps != [] {
      OpenAfter(s, DropLast(steps), id);
      var t, step := After(s, DropLast(steps)), Last(steps);
      if Possible(t, step) {
        OwnPayloadsStep(t, step);
        OpenStep(t, step, id);
      }
    }
  }

  /**
   In every run, with whatever races and faults, each Schedule is pending, superseded by a later one of the same id,
   republished once, lost by its claim, or the object of a claim in progress.
   */
  lemma {:induction false} EveryScheduleAccountedFor(s: State, steps: seq<Step>, id: string)
    requires Fresh(s)
    ensures var t := After(s, steps);
            Times(t.schedules, id) == IsPending(t, id) + Times(t.superseded, id) + Times(Ids(t.republished), id)
                                      + Times(t.lost, id) + |Holders(t, id)|
  {
    assert Holders(s, id) == {};
    ClaimOnce(s, steps, id);
    OpenAfter(s, steps, id);
  }

  // ----- Index and payloads -----

  /** No entry is rescheduled while a scheduler is in the middle of claiming it. */
  ghost predicate Quiet(s: State, step: Step) {
    step.DoSchedule? ==> forall w :: w in s.workers ==> !WorksOn(s.workers[w], step.env.eventId)
  }

  ghost predicate QuietRun(s: State, steps: seq<Step>) {
    steps == [] || (QuietRun(s, DropLast(steps)) && Quiet(After(s, DropLast(steps)), Last(steps)))
  }

  predicate IsFault(step: Step) {
    step.ZRemFails? || step.ZRemReplyLost? || step.GetFails? || step.DelFails? || step.Crash?
  }

  predicate FaultFree(steps: seq<Step>) {
    forall i :: 0 <= i < |steps| ==> !IsFault(steps[i])
  }

  /** A payload that belongs to the id, with the score it should have. */
  predicate GoodPayload(body: Body, id: string, score: int) {
    Unmarshal(body).Some? && Unmarshal(body).value.eventId == id && UnixSeconds(Unmarshal(body).value.nextRetryAfter) == score
  }

  ghost predicate EntriesScored(s: State) {
    forall id :: id in s.store.schedule ==>
      id in s.store.payload && GoodPayload(s.store.payload[id], id, s.store.schedule[id])
  }

  ghost predicate PayloadsOwned(s: State) {
    forall id :: id in s.store.payload && id !in s.store.schedule ==>
      exists w :: w in s.workers && WorksOn(s.workers[w], id)
  }

  ghost predicate ClaimsHold(s: State) {
    forall w :: w in s.workers && !s.workers[w].stage.Idle? ==> ClaimHolds(s, s.workers[w].stage)
  }

  /** No two claims in progress work on the same id. */
  ghost predicate ClaimsApart(s: State) {
    forall v, w :: v in s.workers && w in s.workers && v != w && !s.workers[v].stage.Idle? ==>
      !WorksOn(s.workers[w], s.workers[v].stage.id)
  }

  ghost predicate ClaimHolds(s: State, stage: Stage)
    requires !stage.Idle?
  {
    && stage.id !in s.store.schedule && stage.id in s.store.payload
    && Unmarshal(s.store.payload[stage.id]).Some?
    && Unmarshal(s.store.payload[stage.id]).value.eventId == stage.id
    && (stage.Loaded? ==> Unmarshal(s.store.payload[stage.id]) == Some(stage.env))
  }

  /** Every entry has its payload, scored by its due time, and so has the one claim in progress on an id. */
  ghost predicate Sound(s: State) {
    EntriesScored(s) && ClaimsHold(s) && ClaimsApart(s)
  }

  lemma SoundStep(s: State, step: Step)
    requires Sound(s) && Possible(s, step) && Quiet(s, step)
    ensures Sound(Next(s, step))
  {
    ScoredStep(s, step);
    ClaimsHoldStep(s, step);
    ClaimsApartStep(s, step);
  }

  lemma ScoredStep(s: State, step: Step)
    requires Sound(s) && Possible(s, step)
    ensures EntriesScored(Next(s, step))
  {
    if step.DoSchedule? {
      EnvelopeRoundTrip(step.env);
    }
  }

  lemma ClaimsHoldStep(s: State, step: Step)
    requires Sound(s) && Possible(s, step) && Quiet(s, step)
    ensures ClaimsHold(Next(s, step))
  {
    var t := Next(s, step);
    forall w | w in t.workers && !t.workers[w].stage.Idle? ensures ClaimHolds(t, t.workers[w].stage) {
      assert w in s.workers;
    }
  }

  lemma ClaimsApartStep(s: State, step: Step)
    requires Sound(s) && Possible(s, step)
    ensures ClaimsApart(Next(s, step))
  {
    if step.ZRem? {
      ApartAfterZRem(s, step.w);
    } else {
      NoneBegins(s, step);
    }
  }

  /** An id that is claimed now was in the schedule, where no other claim's id is. */
  lemma ApartAfterZRem(s: State, w: nat)
    requires Sound(s) && Possible(s, ZRem(w))
    ensures ClaimsApart(Next(s, ZRem(w)))
  {
    forall v | v in s.workers && !s.workers[v].stage.Idle? ensures s.workers[v].stage.id !in s.store.schedule {
      assert ClaimHolds(s, s.workers[v].stage);
    }
  }

  /** Without a ZREM no worker turns to another id. */
  lemma NoneBegins(s: State, step: Step)
    requires ClaimsApart(s) && Possible(s, step) && !step.ZRem?
    ensures ClaimsApart(Next(s, step))
  {
    var t := Next(s, step);
    assert forall v :: v in t.workers && !t.workers[v].stage.Idle? ==>
      v in s.workers && WorksOn(s.workers[v], t.workers[v].stage.id);
  }

  /** The id whose claim a fault ends. */
  function Drops(s: State, step: Step): Option<string> {
    match step
    case ZRemReplyLost(w) =>
      if AtHead(s, w) && s.workers[w].due[0] in s.store.schedule then Some(s.workers[w].due[0]) else None
    case GetFails(w) => if w in s.workers && s.workers[w].stage.Claimed? then Some(s.workers[w].stage.id) else None
    case Crash(w) =>
      if w in s.workers && Holding(s.workers[w], HeldId(s.workers[w])) then Some(HeldId(s.workers[w])) else None
    case _ => None
  }

  /** The ids of the claims that faults end along a run. */
  function Dropped(s: State, steps: seq<Step>): seq<string> {
    if steps == [] then []
    else
      var drop := Drops(After(s, DropLast(steps)), Last(steps));
      Dropped(s, DropLast(steps)) + if drop.Some? then [drop.value] else []
  }

  /**
   In every quiet run, index and payloads stay in agreement, and exactly the claims that a fault ends after their ZREM
   are lost: by the loss of its reply, a failing GET, or a crash before the produce.
   */
  lemma {:induction false} QuietLosesOnlyToFaults(s: State, steps: seq<Step>)
    requires Sound(s) && QuietRun(s, steps)
    ensures Sound(After(s, steps)) && After(s, steps).lost == s.lost + Dropped(s, steps)
  {
    if steps != [] {
      QuietLosesOnlyToFaults(s, DropLast(steps));
      var t, step := After(s, DropLast(steps)), Last(steps);
      if Possible(t, step) {
        SoundStep(t, step);
      }
    }
  }

  /** Every payload without an entry belongs to the one claim in progress on it. */
  ghost predicate Agreement(s: State) {
    Sound(s) && PayloadsOwned(s)
  }

  lemma {:induction false} AgreementHolds(s: State, steps: seq<Step>)
    requires Agreement(s) && QuietRun(s, steps) && FaultFree(steps)
    ensures Agreement(After(s, steps)) && After(s, steps).lost == s.lost
  {
    if steps != [] {
      AgreementHolds(s, DropLast(steps));
      var t, step := After(s, DropLast(steps)), Last(steps);
      if Possible(t, step) {
        SoundStep(t, step);
        OwnedStep(t, step);
      }
    }
  }

  lemma OwnedStep(s: State, step: Step)
    requires Agreement(s) && Possible(s, step) && !IsFault(step)
    ensures PayloadsOwned(Next(s, step))
  {
    var t := Next(s, step);
    forall id | id in t.store.payload && id !in t.store.schedule
      ensures exists w :: w in t.workers && WorksOn(t.workers[w], id)
    {
      if step.ZRem? && id in s.store.schedule {
        assert WorksOn(t.workers[step.w], id);
      } else {
        var w :| w in s.workers && WorksOn(s.workers[w], id);
        assert WorksOn(t.workers[w], id);
      }
    }
  }

  ghost predicate SomeHolding(s: State, id: string) {
    exists w :: w in s.workers && Holding(s.workers[w], id)
  }

  lemma OneHolder(s: State, id: string)
    requires ClaimsApart(s)
    ensures |Holders(s, id)| == if SomeHolding(s, id) then 1 else 0
  {
    if SomeHolding(s, id) {
      var w :| w in s.workers && Holding(s.workers[w], id);
      assert Holders(s, id) == {w};
    } else {
      assert Holders(s, id) == {};
    }
  }

  /**
   Index and payloads agree in every run without faults in which no entry is rescheduled during its own claim, and
   each Schedule is pending, superseded by a later one of the same id, or republished once, now or when the claim in
   progress produces.
   */
  lemma {:induction false} EverySchedulePendingSupersededOrRepublished(s: State, steps: seq<Step>, id: string)
    requires Fresh(s) && QuietRun(s, steps) && FaultFree(steps)
    ensures var t := After(s, steps);
            && Agreement(t)
            && Times(t.schedules, id) == IsPending(t, id) + Times(t.superseded, id) + Times(Ids(t.republished), id)
                                           + if SomeHolding(t, id) then 1 else 0
  {
    AgreementHolds(s, steps);
    EveryScheduleAccountedFor(s, steps, id);
    OneHolder(After(s, steps), id);
  }

  // ----- The race that loses a retry -----

  /** No claim of the id is lost in any continuation that is quiet and free of faults. */
  ghost predicate NoLoss(s: State, id: string) {
    forall steps :: QuietRun(s, steps) && FaultFree(steps) ==> Times(After(s, steps).lost, id) == Times(s.lost, id)
  }

  /** Some scheduler has the id on its list. */
  ghost predicate Listed(s: State, id: string) {
    exists v :: v in s.workers && id in s.workers[v].due
  }

  /** The entry can be claimed: now or later from a new list, or from one that a scheduler holds. */
  ghost predicate Claimable(s: State, id: string) {
    id in s.store.schedule && (s.store.schedule[id] >= 0 || Listed(s, id))
  }

  /** A scheduler is between ZREM and GET of the id. */
  ghost predicate AwaitsPayload(s: State, id: string) {
    exists v :: v in s.workers && s.workers[v].stage == Claimed(id)
  }

  /**
   The delete that ends a claim is harmless in every continuation if and only if nobody is going to read the payload
   again: no claim is between its ZREM and its GET, and the id has not been scheduled again as a claimable entry.
   */
  lemma DeleteHarmlessIff(s: State, w: nat)
    requires OwnPayloads(s) && Possible(s, DelPayload(w))
    ensures var id := s.workers[w].stage.id;
            NoLoss(Next(s, DelPayload(w)), id) <==> !Claimable(s, id) && !AwaitsPayload(s, id)
  {
    var id, t := s.workers[w].stage.id, Next(s, DelPayload(w));
    if AwaitsPayload(s, id) {
      var v :| v in s.workers && s.workers[v].stage == Claimed(id);
      MissLoses(t, id, v);
    } else if Claimable(s, id) {
      if Listed(s, id) {
        var v :| v in s.workers && id in s.workers[v].due;
        assert id in t.workers[v].due;
        ListLoses(t, id, v);
      } else {
        DueLoses(t, id);
      }
    } else {
      OwnPayloadsStep(s, DelPayload(w));
      assert !Listed(t, id) || Listed(s, id);
      SecureNoLoss(t, id);
    }
  }

  /** Scheduling an id while a claim works on it is what makes that claim's delete harmful. */
  lemma ScheduleHarmlessIff(s: State, env: RetryEnvelope)
    requires Sound(s) && OwnPayloads(s) && Possible(s, DoSchedule(env))
    ensures NoLoss(Next(s, DoSchedule(env)), env.eventId) <==>
            Quiet(s, DoSchedule(env)) || !Claimable(Next(s, DoSchedule(env)), env.eventId)
  {
    var id, t := env.eventId, Next(s, DoSchedule(env));
    OwnPayloadsStep(s, DoSchedule(env));
    EnvelopeRoundTrip(env);
    if Quiet(s, DoSchedule(env)) || !Claimable(t, id) {
      SecureNoLoss(t, id);
    } else {
      var w :| w in s.workers && WorksOn(s.workers[w], id);
      ClaimLoses(t, id, w);
    }
  }

  /** A claim that goes on to its delete, while the id is a claimable entry again. */
  lemma {:induction false} ClaimLoses(s: State, id: string, w: nat)
    requires OwnPayloads(s) && w in s.workers && WorksOn(s.workers[w], id)
    requires Readable(s.store, id).Some? && Claimable(s, id)
    ensures !NoLoss(s, id)
    decreases Rank(s.workers[w].stage)
  {
    var step := match s.workers[w].stage
                case Claimed(_) => GetPayload(w)
                case Loaded(_, _) => Produce(w)
                case Republishing(_) => DelPayload(w);
    var t := Next(s, step);
    if step.DelPayload? {
      DeleteHarmlessIff(s, w);
    } else {
      OwnPayloadsStep(s, step);
      SameLists(s, t, w, id);
      ClaimLoses(t, id, w);
    }
    LossBack(s, step, id);
  }

  /** What is lost after a step is lost. */
  lemma {:induction false} LossBack(s: State, step: Step, id: string)
    requires Possible(s, step) && !IsFault(step) && !step.DoSchedule? && Times(Next(s, step).lost, id) == Times(s.lost, id)
    requires !NoLoss(Next(s, step), id)
    ensures !NoLoss(s, id)
  {
    var t := Next(s, step);
    var steps :| QuietRun(t, steps) && FaultFree(steps) && Times(After(t, steps).lost, id) != Times(t.lost, id);
    OneStep(s, step);
    RunConcat(s, [step], steps);
    assert FaultFree([step] + steps);
  }

  lemma {:induction false} OneStep(s: State, step: Step)
    requires Possible(s, step) && Quiet(s, step)
    ensures After(s, [step]) == Next(s, step) && QuietRun(s, [step])
  {
    assert DropLast([step]) == [];
  }

  lemma {:induction false} RunConcat(s: State, a: seq<Step>, b: seq<Step>)
    requires QuietRun(s, a) && QuietRun(After(s, a), b)
    ensures QuietRun(s, a + b) && After(s, a + b) == After(After(s, a), b)
  {
    if b == [] {
      assert a + b == a;
    } else {
      assert DropLast(a + b) == a + DropLast(b) && Last(a + b) == Last(b);
      RunConcat(s, a, DropLast(b));
    }
  }

  // Every continuation is safe while whoever is going to read the payload finds it.

  ghost predicate Secure(s: State, id: string) {
    && (forall v :: v in s.workers && s.workers[v].stage == Claimed(id) ==>
          id in s.store.payload && forall u :: u in s.workers && u != v ==> !WorksOn(s.workers[u], id))
    && (id in s.store.schedule ==>
          (id in s.store.payload && forall v :: v in s.workers ==> !WorksOn(s.workers[v], id)) || !Claimable(s, id))
  }

  lemma SecureStep(s: State, step: Step, id: string)
    requires OwnPayloads(s) && Secure(s, id) && Possible(s, step) && Quiet(s, step) && !IsFault(step)
    ensures Secure(Next(s, step), id)
    ensures step.GetPayload? ==> Readable(s.store, s.workers[step.w].stage.id).Some? || s.workers[step.w].stage.id != id
  {
    if step.ZRem? {
      SecureZRem(s, step.w, id);
    } else if step.DelPayload? {
      SecureDelete(s, step.w, id);
    } else if step.GetPayload? || step.Produce? {
      SecureClaim(s, step, id);
    } else {
      SecureOther(s, step, id);
    }
  }

  lemma SecureZRem(s: State, w: nat, id: string)
    requires Secure(s, id) && Possible(s, ZRem(w))
    ensures Secure(Next(s, ZRem(w)), id)
  {
    var t := Next(s, ZRem(w));
    assert s.workers[w].due[0] == id && id in s.store.schedule ==> Claimable(s, id);
    assert Listed(t, id) ==> Listed(s, id) by {
      if v :| v in t.workers && id in t.workers[v].due {
        assert id in s.workers[v].due;
      }
    }
  }

  lemma SecureClaim(s: State, step: Step, id: string)
    requires OwnPayloads(s) && Secure(s, id) && Possible(s, step) && (step.GetPayload? || step.Produce?)
    ensures Secure(Next(s, step), id)
  {
    SameLists(s, Next(s, step), step.w, id);
  }

  lemma SecureDelete(s: State, w: nat, id: string)
    requires Secure(s, id) && Possible(s, DelPayload(w))
    ensures Secure(Next(s, DelPayload(w)), id)
  {
    SameLists(s, Next(s, DelPayload(w)), w, id);
  }

  lemma SecureOther(s: State, step: Step, id: string)
    requires Secure(s, id) && Possible(s, step) && Quiet(s, step)
    requires step.Advance? || step.DoSchedule? || step.ReadDue?
    ensures Secure(Next(s, step), id)
  {
    var t := Next(s, step);
    if Claimable(t, id) && t.store == s.store && Listed(t, id) {
      var v :| v in t.workers && id in t.workers[v].due;
      assert Claimable(s, id);
    }
  }

  /** Only the stage of worker w has changed. */
  lemma SameLists(s: State, t: State, w: nat, id: string)
    requires w in s.workers && w in t.workers && t.workers == s.workers[w := t.workers[w]]
    requires t.workers[w].due == s.workers[w].due
    ensures Listed(t, id) <==> Listed(s, id)
  {
    if v :| v in t.workers && id in t.workers[v].due {
      assert id in s.workers[v].due;
    }
    if v :| v in s.workers && id in s.workers[v].due {
      assert id in t.workers[v].due;
    }
  }

  lemma SecureNoLoss(s: State, id: string)
    requires OwnPayloads(s) && Secure(s, id)
    ensures NoLoss(s, id)
  {
    forall steps | QuietRun(s, steps) && FaultFree(steps) ensures Times(After(s, steps).lost, id) == Times(s.lost, id) {
      SecureAfter(s, steps, id);
    }
  }

  lemma {:induction false} SecureAfter(s: State, steps: seq<Step>, id: string)
    requires OwnPayloads(s) && Secure(s, id) && QuietRun(s, steps) && FaultFree(steps)
    ensures var t := After(s, steps); OwnPayloads(t) && Secure(t, id) && Times(t.lost, id) == Times(s.lost, id)
  {
    if steps != [] {
      SecureAfter(s, DropLast(steps), id);
      var t, step := After(s, DropLast(steps)), Last(steps);
      if Possible(t, step) {
        OwnPayloadsStep(t, step);
        SecureStep(t, step, id);
        if step.GetPayload? {
          TimesSnoc(t.lost, t.workers[step.w].stage.id, id);
        }
      }
    }
  }

  // Otherwise some continuation reads it in vain.

  /** A claim that is about to read a payload that is not there. */
  lemma MissLoses(s: State, id: string, v: nat)
    requires v in s.workers && s.workers[v].stage == Claimed(id) && id !in s.store.payload
    ensures !NoLoss(s, id)
  {
    OneStep(s, GetPayload(v));
    TimesSnoc(s.lost, id, id);
    assert FaultFree([GetPayload(v)]);
  }

  /** What a scheduler does next: finish its claim, or turn to the head of its list. */
  function Onwards(w: nat, stage: Stage): Step {
    match stage
    case Idle => ZRem(w)
    case Claimed(_) => GetPayload(w)
    case Loaded(_, _) => Produce(w)
    case Republishing(_) => DelPayload(w)
  }

  /** A scheduler that comes upon the id on its list. */
  lemma {:induction false} ListLoses(s: State, id: string, v: nat)
    requires id in s.store.schedule && id !in s.store.payload && v in s.workers && id in s.workers[v].due
    ensures !NoLoss(s, id)
    decreases ToDo(s.workers[v])
  {
    if s.workers[v].stage == Claimed(id) {
      MissLoses(s, id, v);
    } else {
      var t := ListStep(s, id, v);
      if id in t.store.schedule {
        ListLoses(t, id, v);
      } else {
        MissLoses(t, id, v);
      }
    }
  }

  function ToDo(w: Worker): nat {
    4 * |w.due| + Rank(w.stage)
  }

  lemma ListMoves(s: State, id: string, v: nat)
    requires id in s.store.schedule && id !in s.store.payload && v in s.workers && id in s.workers[v].due
    requires s.workers[v].stage != Claimed(id) && Possible(s, Onwards(v, s.workers[v].stage))
    ensures var t := Next(s, Onwards(v, s.workers[v].stage));
            && v in t.workers && id !in t.store.payload && ToDo(t.workers[v]) < ToDo(s.workers[v])
            && if id in t.store.schedule then id in t.workers[v].due else t.workers[v].stage == Claimed(id)
  {
  }

  lemma {:induction false} ListStep(s: State, id: string, v: nat) returns (t: State)
    requires id in s.store.schedule && id !in s.store.payload && v in s.workers && id in s.workers[v].due
    requires s.workers[v].stage != Claimed(id)
    ensures v in t.workers && id !in t.store.payload && ToDo(t.workers[v]) < ToDo(s.workers[v])
    ensures if id in t.store.schedule then id in t.workers[v].due else t.workers[v].stage == Claimed(id)
    ensures NoLoss(s, id) ==> NoLoss(t, id)
  {
    var step := Onwards(v, s.workers[v].stage);
    t := Next(s, step);
    ListMoves(s, id, v);
    if step.GetPayload? {
      TimesSnoc(s.lost, s.workers[v].stage.id, id);
    }
    if !NoLoss(t, id) {
      LossBack(s, step, id);
    }
  }

  function Rank(stage: Stage): nat {
    match stage
    case Idle => 0
    case Claimed(_) => 3
    case Loaded(_, _) => 2
    case Republishing(_) => 1
  }

  /** A new scheduler that finds the entry due. */
  lemma DueLoses(s: State, id: string)
    requires id in s.store.schedule && s.store.schedule[id] >= 0 && id !in s.store.payload
    ensures !NoLoss(s, id)
  {
    var due := s.store.schedule[id] * SECOND;
    assert UnixSeconds(due) == s.store.schedule[id];
    var later := if due > s.now then due else s.now;
    SecondsOrdered(due, later);
    var w := NewWorker(s.workers);
    var t := Next(s, Advance(later));
    assert Possible(t, ReadDue(w, [id]));
    ListLoses(Next(t, ReadDue(w, [id])), id, w);
    LossBack(t, ReadDue(w, [id]), id);
    LossBack(s, Advance(later), id);
  }

  lemma NewWorker(m: map<nat, Worker>) returns (w: nat)
    ensures w !in m
  {
    w := Above(m.Keys);
  }

  lemma {:induction false} Above(s: set<nat>) returns (n: nat)
    ensures forall x :: x in s ==> x < n
    decreases s
  {
    if s == {} {
      n := 0;
    } else {
      var x :| x in s;
      var rest := s - {x};
      n := Above(rest);
      assert forall y :: y in s ==> y in rest || y == x;
      if n <= x {
        n := x + 1;
      }
    }
  }

  // ----- Two runs that lose a retry -----

  /** Claim and republish an entry, but schedule its id again before the claim's delete. */
  function Race(env: RetryEnvelope, again: RetryEnvelope, first: Time): seq<Step> {
    [DoSchedule(env), Advance(first), ReadDue(0, [env.eventId]), ZRem(0), GetPayload(0), Produce(0), DoSchedule(again),
     DelPayload(0)]
  }

  /** What the poll does that finds the id due again. */
  function ClaimAgain(id: string, second: Time): seq<Step> {
    [Advance(second), ReadDue(0, [id]), ZRem(0), GetPayload(0)]
  }

  /** Scheduled again between produce and delete, the new retry is lost: its claim finds nothing to republish. */
  lemma {:induction false} SlowDeleteLosesRetry(s: State, env: RetryEnvelope, again: RetryEnvelope, first: Time, second: Time)
    requires Fresh(s) && env.eventId != "" && again.eventId == env.eventId && s.now <= first <= second
    requires 0 <= env.nextRetryAfter <= first && 0 <= again.nextRetryAfter <= second
    ensures var t := After(After(s, Race(env, again, first)), ClaimAgain(env.eventId, second));
            && env.eventId !in t.store.schedule && env.eventId !in t.store.payload
            && t.schedules == [env.eventId, env.eventId] && |t.republished| == 1 && t.lost == [env.eventId]
  {
    var run, t := ClaimedAndProduced(s, env, first);
    run, t := Take(s, run, DoSchedule(again));
    run, t := Take(s, run, DelPayload(0));
    assert run == Race(env, again, first);
    SecondsOrdered(again.nextRetryAfter, second);
    ClaimFindsNothing(t, env.eventId, second);
  }

  lemma ClaimedAndProduced(s: State, env: RetryEnvelope, first: Time) returns (run: seq<Step>, t: State)
    requires Fresh(s) && env.eventId != "" && s.now <= first && 0 <= env.nextRetryAfter <= first
    ensures run == [DoSchedule(env), Advance(first), ReadDue(0, [env.eventId]), ZRem(0), GetPayload(0), Produce(0)]
    ensures t == After(s, run) && t.now == first && t.lost == []
    ensures t.store.schedule == map[] && t.schedules == [env.eventId] && |t.republished| == 1
    ensures 0 in t.workers && t.workers[0] == Worker([], Republishing(env.eventId))
  {
    EnvelopeRoundTrip(env);
    SecondsOrdered(env.nextRetryAfter, first);
    run, t := Take(s, [], DoSchedule(env));
    run, t := Take(s, run, Advance(first));
    run, t := Take(s, run, ReadDue(0, [env.eventId]));
    run, t := Take(s, run, ZRem(0));
    run, t := Take(s, run, GetPayload(0));
    run, t := Take(s, run, Produce(0));
  }

  lemma {:induction false} ClaimFindsNothing(s: State, id: string, second: Time)
    requires id in s.store.schedule && id !in s.store.payload && 0 in s.workers && s.workers[0] == Worker([], Idle)
    requires s.now <= second && 0 <= s.store.schedule[id] <= UnixSeconds(second)
    ensures var t := After(s, ClaimAgain(id, second));
            && id !in t.store.schedule && id !in t.store.payload
            && t.schedules == s.schedules && t.republished == s.republished && t.lost == s.lost + [id]
  {
    var run, t := Take(s, [], Advance(second));
    run, t := Take(s, run, ReadDue(0, [id]));
    run, t := Take(s, run, ZRem(0));
    run, t := Take(s, run, GetPayload(0));
    assert run == ClaimAgain(id, second);
  }

  lemma {:induction false} Take(s: State, steps: seq<Step>, step: Step) returns (run: seq<Step>, t: State)
    requires Possible(After(s, steps), step)
    ensures run == steps + [step] && t == Next(After(s, steps), step) && After(s, run) == t
  {
    AfterSnoc(s, steps, step);
    run := steps + [step];
    t := After(s, run);
  }
}
