/** The retry scheduler over its two Redis structures (internal/retry/scheduler.go). */
module Scheduler {
  import opened Collections
  import opened Envelope
  import opened Retry

  /** The sorted set of due times in seconds, and the payload keys. */
  datatype Store = Store(schedule: map<string, int>, payload: map<string, Body>)

  /** How many due entries one poll asks for. */
  const BATCH: nat := 500

  /** Time.Unix: whole seconds, rounded down. */
  function UnixSeconds(t: Time): int {
    t / SECOND
  }

  lemma SecondsOrdered(a: Time, b: Time)
    requires a <= b
    ensures UnixSeconds(a) <= UnixSeconds(b)
  {
  }

  /** Schedule: SET and ZADD in one transaction. */
  function ScheduleIn(s: Store, env: RetryEnvelope): Store {
    Store(s.schedule[env.eventId := UnixSeconds(env.nextRetryAfter)], s.payload[env.eventId := Marshal(env)])
  }

  /** How a command fails: its request is lost before it takes effect, or its reply after. */
  datatype Fault = NoFault | LostRequest | LostReply

  /** How the three commands of one claim end. */
  datatype ClaimFaults = ClaimFaults(zrem: Fault, get: Fault, del: Fault)

  const NO_FAULTS := ClaimFaults(NoFault, NoFault, NoFault)

  /** claim, uninterrupted by others: what is left in Redis, and the envelope to republish. */
  function ClaimWith(s: Store, id: string, f: ClaimFaults): (Store, Option<RetryEnvelope>) {
    if f.zrem.LostRequest? || id !in s.schedule then (s, None)
    else
      var t := s.(schedule := s.schedule - {id});
      if !f.zrem.NoFault? || !f.get.NoFault? || id !in t.payload then (t, None)
      else
        match Unmarshal(t.payload[id])
        case None => (t, None)
        case Some(env) => (if f.del.LostRequest? then t else t.(payload := t.payload - {id}), Some(env))
  }

  function ClaimIn(s: Store, id: string): (Store, Option<RetryEnvelope>) {
    ClaimWith(s, id, NO_FAULTS)
  }

  /** The claims of one poll; `faults` says how each ends. */
  function ClaimAll(s: Store, due: seq<string>, faults: string -> ClaimFaults): (Store, seq<RetryEnvelope>) {
    if due == [] then (s, [])
    else
      var (t, out) := ClaimAll(s, DropLast(due), faults);
      var (u, env) := ClaimWith(t, Last(due), faults(Last(due)));
      (u, if env.Some? then out + [env.value] else out)
  }

  /** The entries with a score from zero to now; a negative score is never due. */
  function DueAt(schedule: map<string, int>, now: Time): set<string> {
    set id | id in schedule && 0 <= schedule[id] <= UnixSeconds(now)
  }

  /** ZRANGEBYSCORE 0 now LIMIT 500: the earliest due entries, in order; ties may be broken in any way. */
  ghost predicate IsDueList(schedule: map<string, int>, now: Time, due: seq<string>) {
    && (forall i :: 0 <= i < |due| ==> due[i] in DueAt(schedule, now))
    && (forall i, j :: 0 <= i < j < |due| ==> due[i] != due[j] && schedule[due[i]] <= schedule[due[j]])
    && |due| == (if |DueAt(schedule, now)| < BATCH then |DueAt(schedule, now)| else BATCH)
    && (forall id, i :: id in DueAt(schedule, now) && id !in due && 0 <= i < |due| ==> schedule[due[i]] <= schedule[id])
  }

  /** Redis after the attempts to schedule a retry message: one whose request arrives is enough. */
  function HandedOff(s: Store, body: Body, faults: seq<Fault>): Store {
    if ParseRetryEnvelope(body).Some? && (exists i :: 0 <= i < |faults| && !faults[i].LostRequest?)
    then ScheduleIn(s, ParseRetryEnvelope(body).value) else s
  }

  // ----- The scheduler as an object -----

  class Scheduler {
    var store: Store
    var produced: seq<(string, Body)>

    constructor ()
      ensures store == Store(map[], map[]) && produced == []
    {
      store, produced := Store(map[], map[]), [];
    }

    method Schedule(env: RetryEnvelope, fault: Fault) returns (ok: bool)
      modifies this`store
      ensures ok <==> fault.NoFault?
      ensures store == if fault.LostRequest? then old(store) else ScheduleIn(old(store), env)
    {
      if fault.LostRequest? {
        return false;
      }
      store := store.(payload := store.payload[env.eventId := Marshal(env)]);
      store := store.(schedule := store.schedule[env.eventId := UnixSeconds(env.nextRetryAfter)]);
      return fault.NoFault?;
    }

    /** A failed ZREM or GET ends the claim, also where the entry is already removed: its retry is then lost. */
    method Claim(id: string, f: ClaimFaults)
      modifies this
      ensures store == ClaimWith(old(store), id, f).0
      ensures produced == old(produced) + Republished(ClaimWith(old(store), id, f).1)
    {
      if f.zrem.LostRequest? {
        return;
      }
      var removed := id in store.schedule;
      store := store.(schedule := store.schedule - {id});
      if !f.zrem.NoFault? || !removed {
        return;
      }
      if !f.get.NoFault? || id !in store.payload {
        return;
      }
      var env := Unmarshal(store.payload[id]);
      if env.None? {
        return;
      }
      produced := produced + [(env.value.originalTopic, RepublishBody(env.value))];
      if !f.del.LostRequest? {
        store := store.(payload := store.payload - {id});
      }
    }

    /** The command the poll sends: repeatedly the least score that is left. */
    method ZRangeByScore(now: Time) returns (due: seq<string>)
      ensures IsDueList(store.schedule, now, due)
      ensures |due| <= 500 && (|due| < 500 ==> forall id :: id in DueAt(store.schedule, now) ==> id in due)
    {
      var all := DueAt(store.schedule, now);
      var rest := all;
      due := [];
      while |due| < BATCH && rest != {}
        invariant AreEarliest(store.schedule, all, rest, due) && |due| <= BATCH
        decreases rest
      {
        EarliestExists(store.schedule, rest);
        var id :| id in rest && forall other :: other in rest ==> store.schedule[id] <= store.schedule[other];
        TakeEarliest(store.schedule, all, rest, due, id);
        due := due + [id];
        rest := rest - {id};
      }
    }

    /** One poll: claim each entry of the due list in turn; without a list, nothing happens. */
    method Tick(now: Time, poll: Fault, faults: string -> ClaimFaults) returns (due: seq<string>)
      modifies this
      ensures if poll.NoFault? then IsDueList(old(store.schedule), now, due) else due == []
      ensures store == ClaimAll(old(store), due, faults).0
      ensures produced == old(produced) + RepublishedAll(ClaimAll(old(store), due, faults).1)
    {
      if !poll.NoFault? {
        return [];
      }
      due := ZRangeByScore(now);
      for i := 0 to |due|
        invariant store == ClaimAll(old(store), due[..i], faults).0
        invariant produced == old(produced) + RepublishedAll(ClaimAll(old(store), due[..i], faults).1)
      {
        ClaimNext(old(store), due, i, faults);
        Claim(due[i], faults(due[i]));
      }
      assert due[..|due|] == due;
    }

    /** The produce callback of republish: a failed republish is due again in fifteen seconds. */
    method OnRepublishFailed(env: RetryEnvelope, now: Time, fault: Fault)
      modifies this`store
      ensures store == if fault.LostRequest? then old(store) else ScheduleIn(old(store), env.(nextRetryAfter := now + 15 * SECOND))
      ensures fault.NoFault? ==>
                (env.eventId in store.schedule && store.schedule[env.eventId] == UnixSeconds(now) + 15)
      ensures fault.NoFault? ==>
                (env.eventId in store.payload && RepublishesAs(store.payload[env.eventId], RepublishBody(env)))
    {
      var _ := Schedule(env.(nextRetryAfter := now + 15 * SECOND), fault);
    }

    /**
     dispatchRetry: up to three attempts to schedule.  The message goes to the DLQ exactly when it is not a
     retry envelope or every attempt fails; it is stored exactly when the request of some attempt arrived.
     */
    method DispatchRetry(body: Body, faults: seq<Fault>) returns (toDlq: bool)
      requires |faults| == 3
      modifies this`store
      ensures toDlq <==> ParseRetryEnvelope(body).None? || NoFault !in faults
      ensures store == HandedOff(old(store), body, faults)
    {
      var env := ParseRetryEnvelope(body);
      if env.None? {
        return true;
      }
      for attempt := 0 to 3
        invariant NoFault !in faults[..attempt]
        invariant store == if exists i :: 0 <= i < attempt && !faults[i].LostRequest?
                           then ScheduleIn(old(store), env.value) else old(store)
      {
        var ok := Schedule(env.value, faults[attempt]);
        if ok {
          return false;
        }
      }
      return true;
    }
  }

  /** `due` holds what has been taken from `all`, earliest first; `rest` is what is left. */
  ghost predicate AreEarliest(schedule: map<string, int>, all: set<string>, rest: set<string>, due: seq<string>) {
    && rest <= all <= schedule.Keys && |due| + |rest| == |all|
    && (forall id :: id in all <==> id in rest || id in due)
    && (forall i :: 0 <= i < |due| ==> due[i] in all && due[i] !in rest)
    && (forall i, j :: 0 <= i < j < |due| ==> due[i] != due[j] && schedule[due[i]] <= schedule[due[j]])
    && forall i, id :: 0 <= i < |due| && id in rest ==> schedule[due[i]] <= schedule[id]
  }

  lemma {:induction false} TakeEarliest(schedule: map<string, int>, all: set<string>, rest: set<string>,
                                        due: seq<string>, id: string)
    requires AreEarliest(schedule, all, rest, due) && id in rest
    requires forall other :: other in rest ==> schedule[id] <= schedule[other]
    ensures AreEarliest(schedule, all, rest - {id}, due + [id])
  {
  }

  lemma {:induction false} EarliestExists(schedule: map<string, int>, ids: set<string>)
    requires ids != {} && ids <= schedule.Keys
    ensures exists id :: id in ids && forall other :: other in ids ==> schedule[id] <= schedule[other]
    decreases ids
  {
    var x :| x in ids;
    var rest := ids - {x};
    if rest == {} {
      assert ids == {x};
    } else {
      EarliestExists(schedule, rest);
      var y :| y in rest && forall other :: other in rest ==> schedule[y] <= schedule[other];
      var least := if schedule[x] <= schedule[y] then x else y;
      assert least in ids && forall other :: other in ids ==> schedule[least] <= schedule[other];
    }
  }

  /** A payload that, when claimed, is republished as the given body. */
  predicate RepublishesAs(payload: Body, body: Body) {
    Unmarshal(payload).Some? && RepublishBody(Unmarshal(payload).value) == body
  }

  function Republished(env: Option<RetryEnvelope>): seq<(string, Body)> {
    if env.Some? then [(env.value.originalTopic, RepublishBody(env.value))] else []
  }

  function RepublishedAll(envs: seq<RetryEnvelope>): seq<(string, Body)> {
    if envs == [] then [] else RepublishedAll(DropLast(envs)) + Republished(Some(Last(envs)))
  }

  lemma {:induction false} ClaimNext(s: Store, due: seq<string>, i: nat, faults: string -> ClaimFaults)
    requires i < |due|
    ensures var before, after := ClaimAll(s, due[..i], faults), ClaimAll(s, due[..i + 1], faults);
            var (store, env) := ClaimWith(before.0, due[i], faults(due[i]));
            after.0 == store && RepublishedAll(after.1) == RepublishedAll(before.1) + Republished(env)
  {
    assert DropLast(due[..i + 1]) == due[..i];
    var before := ClaimAll(s, due[..i], faults);
    var env := ClaimWith(before.0, due[i], faults(due[i])).1;
    if env.Some? {
      assert DropLast(before.1 + [env.value]) == before.1;
    }
  }

  // ----- Draining a backlog -----

  /** Claiming a list removes exactly its entries, but for those whose ZREM did not arrive. */
  lemma {:induction false} ClaimAllRemoves(s: Store, due: seq<string>, faults: string -> ClaimFaults)
    ensures ClaimAll(s, due, faults).0.schedule == s.schedule - set id | id in due && !faults(id).zrem.LostRequest?
  {
    if due == [] {
    } else {
      ClaimAllRemoves(s, DropLast(due), faults);
      var gone, arrived := set id | id in DropLast(due) && !faults(id).zrem.LostRequest?, !faults(Last(due)).zrem.LostRequest?;
      assert (set id | id in due && !faults(id).zrem.LostRequest?) == gone + if arrived then {Last(due)} else {};
    }
  }

  lemma {:induction false} DistinctSize(due: seq<string>)
    requires forall i, j :: 0 <= i < j < |due| ==> due[i] != due[j]
    ensures |set id | id in due| == |due|
  {
    if due != [] {
      DistinctSize(DropLast(due));
      assert (set id | id in due) == (set id | id in DropLast(due)) + {Last(due)};
    }
  }

  lemma SubsetSize<T>(a: set<T>, b: set<T>)
    requires a <= b
    ensures |a| <= |b| && |b - a| == |b| - |a|
  {
    assert b == a + (b - a);
  }

  /** Of the entries that were due at an earlier time, one poll claims all, or as many as it asks for. */
  lemma TickTakesEarliest(schedule: map<string, int>, now: Time, then': Time, due: seq<string>)
    requires IsDueList(schedule, now, due) && then' <= now
    ensures var taken := set id | id in due;
            var left := |DueAt(schedule, then')| - 500;
            |DueAt(schedule - taken, then')| == if left <= 0 then 0 else left
  {
    var taken := set id | id in due;
    var early, all := DueAt(schedule, then'), DueAt(schedule, now);
    DistinctSize(due);
    assert early <= all && taken <= all;
    assert DueAt(schedule - taken, then') == early - taken;
    if d :| d in early && d !in taken {
      assert d in all && d !in due;
      forall id | id in taken ensures id in early {
        var i :| 0 <= i < |due| && due[i] == id;
        assert schedule[due[i]] <= schedule[d];
      }
      SubsetSize(taken, all);
      assert d in all - taken && |all - taken| > 0;
      SubsetSize(taken, early);
    } else {
      assert early <= taken;
      assert early - taken == {};
      SubsetSize(early, taken);
    }
  }

  /** Polls at the given times, with the due lists they were answered. */
  ghost predicate Polls(schedule: map<string, int>, start: Time, polls: seq<(Time, seq<string>)>) {
    polls == [] ||
    (Polls(schedule, start, DropLast(polls)) && start <= Last(polls).0 &&
     IsDueList(AfterPolls(schedule, DropLast(polls)), Last(polls).0, Last(polls).1))
  }

  function AfterPolls(schedule: map<string, int>, polls: seq<(Time, seq<string>)>): map<string, int> {
    if polls == [] then schedule else AfterPolls(schedule, DropLast(polls)) - set id | id in Last(polls).1
  }

  /**
   Backlog: without new Schedules, of n entries due at the start exactly n - 500 m are left after m polls, and
   none once 500 m reaches n, whatever else falls due meanwhile.
   */
  lemma {:induction false} BacklogDrains(schedule: map<string, int>, start: Time, polls: seq<(Time, seq<string>)>)
    requires Polls(schedule, start, polls)
    ensures var left := |DueAt(schedule, start)| - 500 * |polls|;
            |DueAt(AfterPolls(schedule, polls), start)| == if left <= 0 then 0 else left
  {
    if polls != [] {
      BacklogDrains(schedule, start, DropLast(polls));
      TickTakesEarliest(AfterPolls(schedule, DropLast(polls)), Last(polls).0, start, Last(polls).1);
    }
  }

  /** An entry falls due at some time exactly when its score is not negative. */
  lemma ClaimableIff(schedule: map<string, int>, id: string)
    requires id in schedule
    ensures (exists now :: id in DueAt(schedule, now)) <==> 0 <= schedule[id]
  {
    if 0 <= schedule[id] {
      assert UnixSeconds(schedule[id] * SECOND) == schedule[id];
      assert id in DueAt(schedule, schedule[id] * SECOND);
    }
  }

  /** A scheduled retry is due exactly from the second of its due time on, if that lies after 1970. */
  lemma DueIff(s: Store, env: RetryEnvelope, now: Time)
    ensures var due := env.nextRetryAfter;
            env.eventId in DueAt(ScheduleIn(s, env).schedule, now) <==> due >= 0 && now >= due - due % SECOND
  {
    var due := env.nextRetryAfter;
    WholeSeconds(due);
    WholeSeconds(now);
  }

  lemma WholeSeconds(t: Time)
    ensures t == UnixSeconds(t) * SECOND + t % SECOND && 0 <= t % SECOND < SECOND
  {
  }

  /**
   A failed event that is scheduled and then claimed goes back to its own topic exactly once, and parses to the same
   event with one more retry, the new reason and the time of its first failure; nothing of it stays in Redis.
   */
  lemma {:induction false} RoundThroughRedis(s: Store, e: Event, now: Time, reason: string, partition: int, offset: nat)
    requires WellFormed(e) && e.retryCount >= 0
    ensures RetryOf(e, now, reason).Some?
    ensures var (left, env) := ClaimIn(ScheduleIn(s, RetryOf(e, now, reason).value), e.eventId);
            && e.eventId !in left.schedule && e.eventId !in left.payload
            && |Republished(env)| == 1 && Republished(env)[0].0 == e.topic
            && ParseAndValidate(e.topic, partition, offset, Republished(env)[0].1) ==
               Valid(e.(partition := partition, offset := offset, retryCount := e.retryCount + 1, failureReason := reason,
                        firstFailureTime := Some(if e.firstFailureTime.Some? then e.firstFailureTime.value else now)))
  {
    MetadataSurvivesRound(e, now, reason, partition, offset);
    EnvelopeRoundTrip(RetryOf(e, now, reason).value);
  }

  /** An envelope without nextRetryAfter is accepted and stored, but no poll ever finds it. */
  lemma MissingDueTimeIsNeverDue(f: Fields, s: Store, now: Time)
    requires ParseRetryEnvelope(Json(f)).Some? && f.nextRetryAfter == NoTime
    ensures f.eventId in ScheduleIn(s, ParseRetryEnvelope(Json(f)).value).schedule
    ensures ScheduleIn(s, ParseRetryEnvelope(Json(f)).value).schedule[f.eventId] == -62_135_596_800
    ensures f.eventId !in DueAt(ScheduleIn(s, ParseRetryEnvelope(Json(f)).value).schedule, now)
  {
  }
}
