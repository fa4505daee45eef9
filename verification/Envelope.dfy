/**
 Event envelopes (internal/event/envelope.go, affinity.go, errors.go) at field level.  A message body is
 either not JSON of the expected shape or a record of fields; a field that is absent has its zero value.
 Times are nanoseconds since the Unix epoch.
 */
module Envelope {
  import opened Collections

  type Time = int

  /** A time in a message: the field is absent, is not a valid RFC 3339 text, or denotes a time. */
  datatype TimeText = NoTime | BadTime | At(time: Time)

  /** The JSON value under "data"; only a possible caseId matters to the worker. */
  datatype Data = Null | Value(caseId: string, content: string)

  datatype Fields = Fields(
    version: int,
    eventId: string,
    eventType: string,
    tenantId: string,
    timestamp: TimeText,
    data: Option<Data>,
    originalTopic: string,
    retryCount: int,
    failureReason: string,
    firstFailureTime: TimeText,
    lastFailureTime: TimeText,
    nextRetryAfter: TimeText)

  datatype Body = Garbage | Json(fields: Fields)

  datatype Event = Event(
    version: int,
    eventId: string,
    eventType: string,
    tenantId: string,
    timestamp: Time,
    data: Data,
    topic: string,
    partition: int,
    offset: nat,
    retryCount: int,
    failureReason: string,
    firstFailureTime: Option<Time>)

  datatype Reason =
    | NotJson | MissingVersion | MissingEventId | MissingEventType | MissingTenantId
    | MissingTimestamp | MissingData | InvalidTimestamp

  datatype Parsed = Valid(event: Event) | Invalid(reason: Reason)

  function ValidateMandatoryFields(f: Fields): Option<Reason> {
    if f.version == 0 then Some(MissingVersion)
    else if f.eventId == "" then Some(MissingEventId)
    else if f.eventType == "" then Some(MissingEventType)
    else if f.tenantId == "" then Some(MissingTenantId)
    else if f.timestamp == NoTime then Some(MissingTimestamp)
    else if f.data == None then Some(MissingData)
    else None
  }

  function ParseAndValidate(topic: string, partition: int, offset: nat, body: Body): Parsed {
    match body
    case Garbage => Invalid(NotJson)
    case Json(f) =>
      match ValidateMandatoryFields(f)
      case Some(reason) => Invalid(reason)
      case None =>
        if f.timestamp == BadTime then Invalid(InvalidTimestamp)
        else
          Valid(Event(
            f.version, f.eventId, f.eventType, f.tenantId, f.timestamp.time, f.data.value,
            topic, partition, offset, f.retryCount, f.failureReason,
            if f.firstFailureTime.At? then Some(f.firstFailureTime.time) else None))
  }

  /** All mandatory fields are there, and the time is one. */
  predicate HasMandatory(f: Fields) {
    f.version != 0 && f.eventId != "" && f.eventType != "" && f.tenantId != "" && f.timestamp.At? && f.data.Some?
  }

  /** The event holds what the fields say. */
  predicate Holds(e: Event, f: Fields) {
    && e.version == f.version && e.eventId == f.eventId && e.eventType == f.eventType && e.tenantId == f.tenantId
    && f.timestamp == At(e.timestamp) && f.data == Some(e.data)
    && e.retryCount == f.retryCount && e.failureReason == f.failureReason
    && (if e.firstFailureTime.Some? then f.firstFailureTime == At(e.firstFailureTime.value) else !f.firstFailureTime.At?)
  }

  /** The reason names something that is wrong with the body. */
  predicate Justified(reason: Reason, body: Body) {
    match reason
    case NotJson => body.Garbage?
    case MissingVersion => body.Json? && body.fields.version == 0
    case MissingEventId => body.Json? && body.fields.eventId == ""
    case MissingEventType => body.Json? && body.fields.eventType == ""
    case MissingTenantId => body.Json? && body.fields.tenantId == ""
    case MissingTimestamp => body.Json? && body.fields.timestamp.NoTime?
    case MissingData => body.Json? && body.fields.data.None?
    case InvalidTimestamp => body.Json? && body.fields.timestamp.BadTime?
  }

  /** A body parses exactly when nothing mandatory is missing; the event then holds its fields and its place. */
  lemma ParsedIff(topic: string, partition: int, offset: nat, body: Body)
    ensures var parsed := ParseAndValidate(topic, partition, offset, body);
            && (parsed.Valid? <==> body.Json? && HasMandatory(body.fields))
            && (parsed.Valid? ==> Holds(parsed.event, body.fields))
            && (parsed.Valid? ==>
                  parsed.event.topic == topic && parsed.event.partition == partition && parsed.event.offset == offset)
            && (parsed.Invalid? ==> Justified(parsed.reason, body))
  {
  }

  /** The case that the data names, or "". */
  function CaseIn(data: Data): string {
    if data.Value? then data.caseId else ""
  }

  /** The key that orders events: tenant and case when the data names a case, else the tenant. */
  function AffinityKey(e: Event): string {
    if e.data.Value? && e.data.caseId != "" then e.tenantId + ":" + e.data.caseId else e.tenantId
  }

  /** Events of one tenant have the same key exactly when they name the same case, or none. */
  lemma KeyIsCase(a: Event, b: Event)
    requires a.tenantId == b.tenantId
    ensures AffinityKey(a) == AffinityKey(b) <==> CaseIn(a.data) == CaseIn(b.data)
  {
    var prefix := a.tenantId + ":";
    if CaseIn(a.data) != "" {
      assert AffinityKey(a)[|prefix|..] == CaseIn(a.data);
    }
    if CaseIn(b.data) != "" {
      assert AffinityKey(b)[|prefix|..] == CaseIn(b.data);
    }
  }

  /** Events of tenants without a colon in their names have the same key only within one tenant. */
  lemma KeyNamesTenant(a: Event, b: Event)
    requires ':' !in a.tenantId && ':' !in b.tenantId && AffinityKey(a) == AffinityKey(b)
    ensures a.tenantId == b.tenantId
  {
    TenantIn(a);
    TenantIn(b);
  }

  lemma TenantIn(e: Event)
    ensures var key, n := AffinityKey(e), |e.tenantId|;
            && n <= |key| && key[..n] == e.tenantId && (n < |key| ==> key[n] == ':')
            && forall i :: 0 <= i < n ==> key[i] == e.tenantId[i]
  {
  }

  /** How a call of Process can end. */
  datatype Outcome = Success | BusinessError | InvalidEnvelope | OtherError | Panic

  function IsRetriable(o: Outcome): bool {
    o == OtherError || o == Panic
  }
}
