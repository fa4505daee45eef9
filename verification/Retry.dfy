/** Retry envelopes and the retry publisher (internal/retry/retry.go, and republish in scheduler.go). */
module Retry {
  import opened Collections
  import opened Envelope

  const SECOND: int := 1_000_000_000

  /** Go's zero time, the first of January of year one. */
  const ZERO_TIME: Time := -62_135_596_800 * SECOND

  datatype RetryEnvelope = RetryEnvelope(
    version: int,
    eventId: string,
    eventType: string,
    tenantId: string,
    timestamp: Time,
    data: Option<Data>,
    originalTopic: string,
    retryCount: int,
    failureReason: string,
    firstFailureTime: Time,
    lastFailureTime: Time,
    nextRetryAfter: Time)

  const BACKOFF_SCHEDULE: seq<int> := [30 * SECOND, 60 * SECOND, 300 * SECOND, 900 * SECOND, 1800 * SECOND]

  /** json.Marshal of an envelope; absent data is written as null. */
  function Marshal(env: RetryEnvelope): Body {
    Json(Fields(
      env.version, env.eventId, env.eventType, env.tenantId, At(env.timestamp),
      Some(if env.data.Some? then env.data.value else Null),
      env.originalTopic, env.retryCount, env.failureReason,
      At(env.firstFailureTime), At(env.lastFailureTime), At(env.nextRetryAfter)))
  }

  function TimeOr(t: TimeText, default: Time): Time {
    if t.At? then t.time else default
  }

  /** json.Unmarshal into an envelope: absent fields keep their zero value, a bad time is an error. */
  function Unmarshal(body: Body): Option<RetryEnvelope> {
    match body
    case Garbage => None
    case Json(f) =>
      if f.timestamp == BadTime || f.firstFailureTime == BadTime || f.lastFailureTime == BadTime || f.nextRetryAfter == BadTime
      then None
      else Some(RetryEnvelope(
        f.version, f.eventId, f.eventType, f.tenantId, TimeOr(f.timestamp, ZERO_TIME), f.data,
        f.originalTopic, f.retryCount, f.failureReason, TimeOr(f.firstFailureTime, ZERO_TIME),
        TimeOr(f.lastFailureTime, ZERO_TIME), TimeOr(f.nextRetryAfter, ZERO_TIME)))
  }

  function ParseRetryEnvelope(body: Body): Option<RetryEnvelope> {
    match Unmarshal(body)
    case None => None
    case Some(env) => if env.eventId == "" || env.originalTopic == "" then None else Some(env)
  }

  function ShouldRetry(retryCount: int, maxRetries: int): bool {
    retryCount < maxRetries
  }

  /** What Publish sends to the retry topic, or None when the backoff index is out of range and Go panics. */
  function RetryOf(e: Event, now: Time, reason: string): Option<RetryEnvelope> {
    var index := if e.retryCount >= |BACKOFF_SCHEDULE| then |BACKOFF_SCHEDULE| - 1 else e.retryCount;
    if index < 0 then None
    else Some(RetryEnvelope(
      e.version, e.eventId, e.eventType, e.tenantId, e.timestamp, Some(e.data), e.topic, e.retryCount + 1, reason,
      if e.firstFailureTime.Some? then e.firstFailureTime.value else now, now, now + BACKOFF_SCHEDULE[index]))
  }

  /** The retry of the event: its content, one more failure, and due once the backoff for that failure has passed. */
  predicate IsRetryOf(env: RetryEnvelope, e: Event, now: Time, reason: string)
    requires e.retryCount >= 0
  {
    && env.version == e.version && env.eventId == e.eventId && env.eventType == e.eventType && env.tenantId == e.tenantId
    && env.timestamp == e.timestamp && env.data == Some(e.data) && env.originalTopic == e.topic
    && env.retryCount == e.retryCount + 1 && env.failureReason == reason
    && env.firstFailureTime == (if e.firstFailureTime.Some? then e.firstFailureTime.value else now)
    && env.lastFailureTime == now && env.nextRetryAfter == now + Backoff(e.retryCount + 1)
  }

  lemma RetryIsDueAfterBackoff(e: Event, now: Time, reason: string)
    ensures RetryOf(e, now, reason).Some? <==> e.retryCount >= 0
    ensures e.retryCount >= 0 ==> IsRetryOf(RetryOf(e, now, reason).value, e, now, reason)
  {
  }

  /** republish: the envelope shape of the original topic, with the retry history folded in. */
  function RepublishBody(env: RetryEnvelope): Body {
    Json(Fields(
      env.version, env.eventId, env.eventType, env.tenantId, At(env.timestamp),
      Some(if env.data.Some? then env.data.value else Null),
      "", env.retryCount, env.failureReason, At(env.firstFailureTime), NoTime, NoTime))
  }

  /** The publisher as an object; `produced` is what it handed to the Kafka client. */
  class Publisher {
    const maxRetries: int
    var produced: seq<(string, Body)>

    constructor (maxRetries: int)
      ensures this.maxRetries == maxRetries && produced == []
    {
      this.maxRetries := maxRetries;
      produced := [];
    }

    /** Panics exactly for a negative retry count; otherwise one record goes to the event's retry topic. */
    method Publish(e: Event, now: Time, reason: string) returns (panics: bool)
      modifies this
      ensures panics <==> e.retryCount < 0
      ensures produced == if panics then old(produced)
                          else old(produced) + [(e.topic + ".retry", Marshal(RetryOf(e, now, reason).value))]
      ensures !panics ==> IsRetryOf(RetryOf(e, now, reason).value, e, now, reason)
    {
      var retryCount := e.retryCount + 1;
      var firstFailure := now;
      if e.firstFailureTime.Some? {
        firstFailure := e.firstFailureTime.value;
      }
      var backoffIdx := retryCount - 1;
      if backoffIdx >= |BACKOFF_SCHEDULE| {
        backoffIdx := |BACKOFF_SCHEDULE| - 1;
      }
      if backoffIdx < 0 {
        return true;
      }
      var env := RetryEnvelope(
        e.version, e.eventId, e.eventType, e.tenantId, e.timestamp, Some(e.data), e.topic, retryCount, reason,
        firstFailure, now, now + BACKOFF_SCHEDULE[backoffIdx]);
      produced := produced + [(e.topic + ".retry", Marshal(env))];
      return false;
    }
  }

  // ----- What survives a round -----

  /** An event as ParseAndValidate returns it. */
  predicate WellFormed(e: Event) {
    e.version != 0 && e.eventId != "" && e.eventType != "" && e.tenantId != "" && e.topic != ""
  }

  /** A republished message says of the event and its failures what the envelope says, and is no retry envelope any more. */
  lemma RepublishedIsPlain(env: RetryEnvelope)
    ensures ParseRetryEnvelope(RepublishBody(env)).None?
    ensures RepublishBody(env).Json?
    ensures var f := RepublishBody(env).fields;
            && f.lastFailureTime.NoTime? && f.nextRetryAfter.NoTime? && f.originalTopic == ""
            && Unmarshal(RepublishBody(env)) ==
               Some(env.(data := f.data, originalTopic := "", lastFailureTime := ZERO_TIME, nextRetryAfter := ZERO_TIME))
            && f.data == Some(if env.data.Some? then env.data.value else Null)
  {
  }

  lemma ParsedIsWellFormed(topic: string, partition: int, offset: nat, body: Body)
    requires topic != "" && ParseAndValidate(topic, partition, offset, body).Valid?
    ensures WellFormed(ParseAndValidate(topic, partition, offset, body).event)
  {
  }

  /** An envelope survives the retry topic and the scheduler's payload unchanged, except that absent data becomes null. */
  lemma EnvelopeRoundTrip(env: RetryEnvelope)
    ensures Unmarshal(Marshal(env)) == Some(env.(data := Some(if env.data.Some? then env.data.value else Null)))
    ensures env.eventId != "" && env.originalTopic != "" ==> ParseRetryEnvelope(Marshal(env)) == Unmarshal(Marshal(env))
  {
  }

  /** The envelope holds what the fields say; a missing time is Go's zero time. */
  predicate Carries(env: RetryEnvelope, f: Fields) {
    && env.version == f.version && env.eventId == f.eventId && env.eventType == f.eventType && env.tenantId == f.tenantId
    && env.data == f.data && env.originalTopic == f.originalTopic && env.retryCount == f.retryCount
    && env.failureReason == f.failureReason
    && f.timestamp in {At(env.timestamp), NoTime} && (f.timestamp.NoTime? ==> env.timestamp == ZERO_TIME)
    && f.firstFailureTime in {At(env.firstFailureTime), NoTime} && (f.firstFailureTime.NoTime? ==> env.firstFailureTime == ZERO_TIME)
    && f.lastFailureTime in {At(env.lastFailureTime), NoTime} && (f.lastFailureTime.NoTime? ==> env.lastFailureTime == ZERO_TIME)
    && f.nextRetryAfter in {At(env.nextRetryAfter), NoTime} && (f.nextRetryAfter.NoTime? ==> env.nextRetryAfter == ZERO_TIME)
  }

  /** A body is a retry envelope exactly when it names its event and topic and no time in it is malformed. */
  lemma EnvelopeParsesIff(body: Body)
    ensures ParseRetryEnvelope(body).Some? <==>
              body.Json? && body.fields.eventId != "" && body.fields.originalTopic != "" &&
              BadTime !in {body.fields.timestamp, body.fields.firstFailureTime, body.fields.lastFailureTime,
                           body.fields.nextRetryAfter}
    ensures ParseRetryEnvelope(body).Some? ==> Carries(ParseRetryEnvelope(body).value, body.fields)
  {
  }

  /**
   One round of fail, publish, parse, schedule, republish and parse returns the event with only its retry
   history changed: the count is one more, the reason is the new one, and the time of the first failure is
   kept, or is now when there was none.
   */
  lemma MetadataSurvivesRound(e: Event, now: Time, reason: string, partition: int, offset: nat)
    requires WellFormed(e) && e.retryCount >= 0
    ensures RetryOf(e, now, reason).Some?
    ensures var parsed := ParseRetryEnvelope(Marshal(RetryOf(e, now, reason).value));
            && parsed.Some? && parsed.value.originalTopic == e.topic
            && ParseAndValidate(e.topic, partition, offset, RepublishBody(parsed.value)) ==
               Valid(e.(partition := partition, offset := offset, retryCount := e.retryCount + 1, failureReason := reason,
                        firstFailureTime := Some(if e.firstFailureTime.Some? then e.firstFailureTime.value else now)))
  {
  }

  /** The event that comes back from one round, through every encoding on the way; None where one of them fails. */
  function Round(e: Event, now: Time, reason: string): Option<Event> {
    match RetryOf(e, now, reason)
    case None => None
    case Some(env) =>
      match ParseRetryEnvelope(Marshal(env))
      case None => None
      case Some(got) =>
        match Unmarshal(Marshal(got))
        case None => None
        case Some(due) =>
          match ParseAndValidate(due.originalTopic, e.partition, e.offset, RepublishBody(due))
          case Invalid(_) => None
          case Valid(back) => Some(back)
  }

  /** The event after one round for each failure, given by its time and reason. */
  function Rounds(e: Event, failures: seq<(Time, string)>): Option<Event> {
    if failures == [] then Some(e)
    else
      match Rounds(e, DropLast(failures))
      case None => None
      case Some(before) => Round(before, Last(failures).0, Last(failures).1)
  }

  /**
   After any number of rounds the retry count is the number of failures, the first failure time is the time of
   the first of them, and everything else is what the producer sent.
   */
  lemma {:induction false} MetadataAfterRounds(e: Event, failures: seq<(Time, string)>)
    requires WellFormed(e) && e.retryCount == 0 && e.firstFailureTime == None
    ensures Rounds(e, failures) ==
            Some(e.(retryCount := |failures|,
                    failureReason := if failures == [] then e.failureReason else Last(failures).1,
                    firstFailureTime := if failures == [] then None else Some(failures[0].0)))
  {
    if failures != [] {
      MetadataAfterRounds(e, DropLast(failures));
    }
  }

  // ----- Backoff -----

  /** The wait before the k-th retry. */
  function Backoff(k: nat): int
    requires k > 0
  {
    if k > |BACKOFF_SCHEDULE| then BACKOFF_SCHEDULE[|BACKOFF_SCHEDULE| - 1] else BACKOFF_SCHEDULE[k - 1]
  }

  function TotalBackoff(k: nat): int {
    if k == 0 then 0 else TotalBackoff(k - 1) + Backoff(k)
  }

  lemma {:induction false} TotalBackoffClosedForm(k: nat)
    ensures k >= 5 ==> TotalBackoff(k) == (3090 + 1800 * (k - 5)) * SECOND
    ensures k <= 5 ==> TotalBackoff(k) == [0, 30, 90, 390, 1290, 3090][k] * SECOND
  {
    if k > 0 {
      TotalBackoffClosedForm(k - 1);
    }
  }
}
