/** Request, response and event records of the session API, with the field
    rules their schema declarations impose (required fields, defaults,
    minimum lengths and literal choices). */
module Schemas {
  import opened Wrappers

  type SessionId = string

  /** An ISO-8601 instant produced by the host clock; never inspected. */
  type Timestamp = string

  /** Elapsed seconds reported by the host clock. */
  type Seconds = real

  /** The three kinds of query a client may submit. */
  datatype QueryType = Chat | Research | Docs {
    function Name(): string {
      match this
      case Chat => "chat"
      case Research => "research"
      case Docs => "docs"
    }
  }

  function ParseQueryType(s: string): (r: Option<QueryType>)
    ensures r.Some? <==> s == "chat" || s == "research" || s == "docs"
    ensures r.Some? ==> r.value.Name() == s
  {
    if s == "chat" then Some(Chat)
    else if s == "research" then Some(Research)
    else if s == "docs" then Some(Docs)
    else None
  }

  lemma QueryTypeRoundTrip(q: QueryType)
    ensures ParseQueryType(q.Name()) == Some(q)
  {
  }

  /** Life-cycle of a session.  The schema types the field as free text, but
      every writer stores one of these four words. */
  datatype Status = Pending | Running | Completed | Failed {
    function Name(): string {
      match this
      case Pending => "pending"
      case Running => "running"
      case Completed => "completed"
      case Failed => "failed"
    }

    predicate Terminal() { this == Completed || this == Failed }
  }

  /** Arbitrary result data: either plain text or a structured value, kept as
      its JSON dump. */
  datatype Payload = Text(text: string) | Structured(json: string)

  /* ---------------------------------------------------------------------- */
  /* SessionCreateRequest                                                     */
  /* ---------------------------------------------------------------------- */

  /** A request body that passed validation. */
  datatype SessionCreateRequest = SessionCreateRequest(
    query: string,
    queryType: QueryType,
    repoName: Option<string>)
  {
    predicate Valid() { |query| >= 1 }
  }

  /** A request body as received: every field may be absent. Field names
      follow the wire aliases `query`, `queryType`, `repoName`. */
  datatype RawSessionCreateRequest = RawSessionCreateRequest(
    query: Option<string>,
    queryType: Option<string>,
    repoName: Option<string>)

  datatype ValidationError =
    | Missing(field: string)
    | TooShort(field: string)
    | NotAllowed(field: string, given: string)

  function QueryErrors(raw: RawSessionCreateRequest): seq<ValidationError> {
    if raw.query.None? then [Missing("query")]
    else if |raw.query.value| < 1 then [TooShort("query")]
    else []
  }

  function QueryTypeErrors(raw: RawSessionCreateRequest): seq<ValidationError> {
    if raw.queryType.None? then [Missing("queryType")]
    else if ParseQueryType(raw.queryType.value).None? then [NotAllowed("queryType", raw.queryType.value)]
    else []
  }

  /** Validation of a create/message request body: `query` is required with
      at least one character, `queryType` is required and must be one of the
      three literals, `repoName` is optional and defaults to none.  All
      violations are reported together. */
  function ValidateCreateRequest(raw: RawSessionCreateRequest): (r: Result<SessionCreateRequest, seq<ValidationError>>)
    ensures r.Success? <==>
              && raw.query.Some? && |raw.query.value| >= 1
              && raw.queryType.Some?
              && (raw.queryType.value == "chat" || raw.queryType.value == "research" || raw.queryType.value == "docs")
    ensures r.Success? ==>
              && r.value.Valid()
              && r.value.query == raw.query.value
              && r.value.queryType.Name() == raw.queryType.value
              && r.value.repoName == raw.repoName
    ensures r.Failure? ==>
              && |r.error| > 0
              && (Missing("query") in r.error <==> raw.query.None?)
              && (TooShort("query") in r.error <==> raw.query.Some? && raw.query.value == "")
              && (Missing("queryType") in r.error <==> raw.queryType.None?)
              && (forall v :: NotAllowed("queryType", v) in r.error <==>
                    raw.queryType == Some(v) && v != "chat" && v != "research" && v != "docs")
    ensures r.Failure? ==>
              forall err | err in r.error ::
                || err == Missing("query") || err == TooShort("query")
                || err == Missing("queryType") || err == NotAllowed("queryType", raw.queryType.GetOr(""))
  {
    var errors := QueryErrors(raw) + QueryTypeErrors(raw);
    if errors == [] then
      Success(SessionCreateRequest(raw.query.value, ParseQueryType(raw.queryType.value).value, raw.repoName))
    else
      Failure(errors)
  }

  /* ---------------------------------------------------------------------- */
  /* SessionResponse                                                          */
  /* ---------------------------------------------------------------------- */

  datatype SessionResponse = SessionResponse(
    sessionId: SessionId,
    status: Status,
    createdAt: Timestamp,
    streamUrl: string)

  /* ---------------------------------------------------------------------- */
  /* SessionStatus                                                            */
  /* ---------------------------------------------------------------------- */

  datatype SessionStatus = SessionStatus(
    sessionId: SessionId,
    status: Status,
    createdAt: Timestamp,
    startedAt: Option<Timestamp>,
    completedAt: Option<Timestamp>,
    result: Option<Payload>,
    error: Option<string>,
    executionTime: Option<Seconds>)

  datatype RawSessionStatus = RawSessionStatus(
    sessionId: Option<SessionId>,
    status: Option<Status>,
    createdAt: Option<Timestamp>,
    startedAt: Option<Timestamp>,
    completedAt: Option<Timestamp>,
    result: Option<Payload>,
    error: Option<string>,
    executionTime: Option<Seconds>)

  /** Building a `SessionStatus` from named fields: `session_id`, `status` and
      `created_at` are required, the other five default to none. */
  function ParseSessionStatus(raw: RawSessionStatus): (r: Result<SessionStatus, seq<string>>)
    ensures r.Success? <==> raw.sessionId.Some? && raw.status.Some? && raw.createdAt.Some?
    ensures r.Success? ==>
              && r.value.sessionId == raw.sessionId.value
              && r.value.status == raw.status.value
              && r.value.createdAt == raw.createdAt.value
              && r.value.startedAt == raw.startedAt
              && r.value.completedAt == raw.completedAt
              && r.value.result == raw.result
              && r.value.error == raw.error
              && r.value.executionTime == raw.executionTime
    ensures r.Failure? ==>
              && ("session_id" in r.error <==> raw.sessionId.None?)
              && ("status" in r.error <==> raw.status.None?)
              && ("created_at" in r.error <==> raw.createdAt.None?)
  {
    var missing :=
      (if raw.sessionId.None? then ["session_id"] else [])
      + (if raw.status.None? then ["status"] else [])
      + (if raw.createdAt.None? then ["created_at"] else []);
    if missing == [] then
      Success(SessionStatus(raw.sessionId.value, raw.status.value, raw.createdAt.value,
                            raw.startedAt, raw.completedAt, raw.result, raw.error, raw.executionTime))
    else
      Failure(missing)
  }

  /* ---------------------------------------------------------------------- */
  /* StepEvent                                                                */
  /* ---------------------------------------------------------------------- */

  /** One entry of a session's event stream.  `eventType` and `status` are
      free text. */
  datatype StepEvent = StepEvent(
    sessionId: SessionId,
    timestamp: Timestamp,
    eventType: string,
    stepId: Option<string>,
    stepName: Option<string>,
    toolId: Option<string>,
    status: string,
    output: Option<Payload>,
    error: Option<string>)

  datatype RawStepEvent = RawStepEvent(
    sessionId: Option<SessionId>,
    timestamp: Option<Timestamp>,
    eventType: Option<string>,
    stepId: Option<string>,
    stepName: Option<string>,
    toolId: Option<string>,
    status: Option<string>,
    output: Option<Payload>,
    error: Option<string>)

  /** Building a `StepEvent` from named fields: `session_id`, `timestamp`,
      `event_type` and `status` are required (any text), the other five
      default to none. */
  function ParseStepEvent(raw: RawStepEvent): (r: Result<StepEvent, seq<string>>)
    ensures r.Success? <==>
              raw.sessionId.Some? && raw.timestamp.Some? && raw.eventType.Some? && raw.status.Some?
    ensures r.Success? ==>
              && r.value.sessionId == raw.sessionId.value
              && r.value.timestamp == raw.timestamp.value
              && r.value.eventType == raw.eventType.value
              && r.value.status == raw.status.value
              && r.value.stepId == raw.stepId
              && r.value.stepName == raw.stepName
              && r.value.toolId == raw.toolId
              && r.value.output == raw.output
              && r.value.error == raw.error
    ensures r.Failure? ==>
              && ("session_id" in r.error <==> raw.sessionId.None?)
              && ("timestamp" in r.error <==> raw.timestamp.None?)
              && ("event_type" in r.error <==> raw.eventType.None?)
              && ("status" in r.error <==> raw.status.None?)
  {
    var missing :=
      (if raw.sessionId.None? then ["session_id"] else [])
      + (if raw.timestamp.None? then ["timestamp"] else [])
      + (if raw.eventType.None? then ["event_type"] else [])
      + (if raw.status.None? then ["status"] else []);
    if missing == [] then
      Success(StepEvent(raw.sessionId.value, raw.timestamp.value, raw.eventType.value,
                        raw.stepId, raw.stepName, raw.toolId, raw.status.value, raw.output, raw.error))
    else
      Failure(missing)
  }
}
