/** The HTTP endpoints of the session API: request guards and responses, the
    background execution of a session, and the frame order of the event
    stream.  Transport, tasks and timers are abstracted away. */
module SessionsApi {
  import opened Wrappers
  import opened Slicing
  import opened Schemas
  import opened SessionService
  import opened PortiaService

  /** How many stored events a new stream replays before going live. */
  const RECENT_EVENTS_ON_CONNECT: nat := 20

  /** Capacity of the queue each stream registers. */
  const CLIENT_QUEUE_MAXSIZE: nat := 100

  /** `limit` of the events endpoint when the client gives none. */
  const DEFAULT_EVENTS_LIMIT: nat := 50

  datatype HttpError =
    | NotFound(detail: string)
    | Conflict(detail: string)
    | Unprocessable(errors: seq<ValidationError>)
  {
    function Code(): nat {
      match this
      case NotFound(_) => 404
      case Conflict(_) => 409
      case Unprocessable(_) => 422
    }
  }

  function NotFoundError(sid: SessionId): HttpError {
    NotFound("Session " + sid + " not found")
  }

  /* ---------------------------------------------------------------------- */
  /* Stream URLs                                                              */
  /* ---------------------------------------------------------------------- */

  const STREAM_PREFIX: string := "/sessions/"
  const STREAM_SUFFIX: string := "/stream"

  function StreamUrl(sid: SessionId): string {
    STREAM_PREFIX + sid + STREAM_SUFFIX
  }

  /** The session id inside a stream URL, if it is one. */
  function ParseStreamUrl(url: string): Option<SessionId> {
    if |url| >= |STREAM_PREFIX| + |STREAM_SUFFIX|
       && url[..|STREAM_PREFIX|] == STREAM_PREFIX
       && url[|url| - |STREAM_SUFFIX|..] == STREAM_SUFFIX
    then Some(url[|STREAM_PREFIX|..|url| - |STREAM_SUFFIX|])
    else None
  }

  /** A stream URL names its session unambiguously: the id can be read back,
      and every URL that parses is the stream URL of what it parses to. */
  lemma StreamUrlRoundTrip(sid: SessionId, url: string)
    ensures ParseStreamUrl(StreamUrl(sid)) == Some(sid)
    ensures ParseStreamUrl(url).Some? ==> StreamUrl(ParseStreamUrl(url).value) == url
  {
    var u := StreamUrl(sid);
    assert u[..|STREAM_PREFIX|] == STREAM_PREFIX;
    assert u[|u| - |STREAM_SUFFIX|..] == STREAM_SUFFIX;
    assert u[|STREAM_PREFIX|..|u| - |STREAM_SUFFIX|] == sid;
    if ParseStreamUrl(url).Some? {
      var mid := url[|STREAM_PREFIX|..|url| - |STREAM_SUFFIX|];
      assert url == url[..|STREAM_PREFIX|] + mid + url[|url| - |STREAM_SUFFIX|..];
    }
  }

  /* ---------------------------------------------------------------------- */
  /* Creating a session and adding messages                                   */
  /* ---------------------------------------------------------------------- */

  /** A background execution scheduled by an endpoint. */
  datatype Job = Job(sessionId: SessionId, request: SessionCreateRequest)

  /** An accepted request: the new store, the response body and the job
      started in the background. */
  datatype Accepted = Accepted(svc: Service, response: SessionResponse, job: Job)

  /** `POST /sessions` with a fresh id `id` and the clock reading `now`. The
      body is validated first. */
  function CreateSessionEndpoint(s: Service, body: RawSessionCreateRequest, id: SessionId, now: Timestamp): (r: Result<Accepted, HttpError>)
    ensures r.Failure? <==> ValidateCreateRequest(body).Failure?
    ensures r.Failure? ==> r.error == Unprocessable(ValidateCreateRequest(body).error)
    ensures r.Success? ==>
              && r.value.response == SessionResponse(id, Pending, now, StreamUrl(id))
              && r.value.job == Job(id, ValidateCreateRequest(body).value)
              && GetSession(r.value.svc, id) == Some(SessionStatus(id, Pending, now, None, None, None, None, None))
              && (forall other :: other != id ==> GetSession(r.value.svc, other) == GetSession(s, other))
    ensures r.Success? && Valid(s) ==> Valid(r.value.svc)
  {
    match ValidateCreateRequest(body)
    case Failure(errors) => Failure(Unprocessable(errors))
    case Success(request) =>
      var (s', record) := CreateSession(s, id, now);
      Success(Accepted(s', SessionResponse(record.sessionId, record.status, record.createdAt, StreamUrl(record.sessionId)), Job(id, request)))
  }

  /** `POST /sessions/{sid}/messages`: refuses unknown and running sessions,
      otherwise resets the session to pending and schedules the new query. */
  function AddMessageEndpoint(s: Service, sid: SessionId, body: RawSessionCreateRequest, now: Timestamp): (r: Result<Accepted, HttpError>)
    ensures ValidateCreateRequest(body).Failure? ==> r == Failure(Unprocessable(ValidateCreateRequest(body).error))
    ensures ValidateCreateRequest(body).Success? && sid !in s.sessions ==> r == Failure(NotFoundError(sid))
    ensures ValidateCreateRequest(body).Success? && sid in s.sessions && s.sessions[sid].status == Running ==>
              r == Failure(Conflict("Session " + sid + " is still running"))
    ensures r.Success? <==>
              ValidateCreateRequest(body).Success? && sid in s.sessions && s.sessions[sid].status != Running
    ensures r.Success? ==>
              && r.value.response ==
                   SessionResponse(s.sessions[sid].sessionId, Pending, s.sessions[sid].createdAt, StreamUrl(s.sessions[sid].sessionId))
              && (Valid(s) ==> r.value.response.sessionId == sid && r.value.response.streamUrl == StreamUrl(sid))
              && r.value.job == Job(sid, ValidateCreateRequest(body).value)
              && GetSession(r.value.svc, sid) == Some(s.sessions[sid].(status := Pending))
              && (forall other :: other != sid ==> GetSession(r.value.svc, other) == GetSession(s, other))
              && r.value.svc.history == s.history && r.value.svc.connections == s.connections
              && r.value.svc.queues == s.queues
    ensures r.Success? && Valid(s) ==> Valid(r.value.svc)
  {
    match ValidateCreateRequest(body)
    case Failure(errors) => Failure(Unprocessable(errors))
    case Success(request) =>
      match GetSession(s, sid)
      case None => Failure(NotFoundError(sid))
      case Some(session) =>
        if session.status == Running then
          Failure(Conflict("Session " + sid + " is still running"))
        else
          var s' := UpdateSessionStatus(s, sid, Pending, None, None, None, now);
          Success(Accepted(s', SessionResponse(session.sessionId, Pending, session.createdAt, StreamUrl(session.sessionId)), Job(sid, request)))
  }

  /** Rejected requests are reported by code: 422 for a bad body, 404 for an
      unknown session and 409 for a running one. */
  lemma AddMessageErrorCodes(s: Service, sid: SessionId, body: RawSessionCreateRequest, now: Timestamp)
    ensures var r := AddMessageEndpoint(s, sid, body, now);
            r.Failure? ==>
              r.error.Code() == (if ValidateCreateRequest(body).Failure? then 422
                                 else if sid !in s.sessions then 404
                                 else 409)
  {
  }

  /* ---------------------------------------------------------------------- */
  /* Reading and deleting                                                     */
  /* ---------------------------------------------------------------------- */

  /** `GET /sessions/{sid}` */
  function GetSessionStatusEndpoint(s: Service, sid: SessionId): (r: Result<SessionStatus, HttpError>)
    ensures sid !in s.sessions ==> r == Failure(NotFoundError(sid))
    ensures sid in s.sessions ==> r == Success(s.sessions[sid])
  {
    match GetSession(s, sid)
    case None => Failure(NotFoundError(sid))
    case Some(session) => Success(session)
  }

  datatype EventsPage = EventsPage(sessionId: SessionId, events: seq<StepEvent>, totalEvents: nat)

  /** `GET /sessions/{sid}/events?limit=...`; `None` is a request without
      `limit`, and a given `limit` is passed on unchecked. */
  function GetSessionEventsEndpoint(s: Service, sid: SessionId, limit: Option<int>): (r: Result<EventsPage, HttpError>)
    ensures sid !in s.sessions ==> r == Failure(NotFoundError(sid))
    ensures sid in s.sessions ==>
              && r.Success? && r.value.sessionId == sid
              && r.value.events == GetSessionEvents(s, sid, limit.GetOr(DEFAULT_EVENTS_LIMIT))
              && r.value.totalEvents == |r.value.events|
    ensures sid in s.sessions && limit.None? ==> r.value.totalEvents == Min(DEFAULT_EVENTS_LIMIT, |History(s, sid)|)
    ensures sid in s.sessions && limit.Some? && limit.value >= 1 ==>
              r.value.totalEvents == Min(limit.value, |History(s, sid)|)
    ensures sid in s.sessions && limit == Some(0) ==> r.value.events == History(s, sid)
  {
    if sid !in s.sessions then Failure(NotFoundError(sid))
    else
      var events := GetSessionEvents(s, sid, limit.GetOr(DEFAULT_EVENTS_LIMIT));
      Success(EventsPage(sid, events, |events|))
  }

  /** `DELETE /sessions/{sid}`: cleans up and reports success, also when the
      cleanup was skipped because clients are still connected. */
  function DeleteSessionEndpoint(s: Service, sid: SessionId): (r: Result<(Service, string), HttpError>)
    ensures sid !in s.sessions ==> r == Failure(NotFoundError(sid))
    ensures sid in s.sessions ==>
              && r.Success?
              && r.value.1 == "Session " + sid + " deleted successfully"
              && r.value.0 == CleanupSession(s, sid)
    ensures r.Success? && Valid(s) ==> Valid(r.value.0)
  {
    if sid !in s.sessions then Failure(NotFoundError(sid))
    else Success((CleanupSession(s, sid), "Session " + sid + " deleted successfully"))
  }

  /** A delete of a session with listeners answers success yet keeps the
      session; without listeners the session is gone afterwards. */
  lemma DeleteSuccessDoesNotMeanDeleted(s: Service, sid: SessionId)
    requires Valid(s) && sid in s.sessions
    ensures DeleteSessionEndpoint(s, sid).Success?
    ensures GetActiveConnectionsCount(s, sid) > 0 ==> sid in DeleteSessionEndpoint(s, sid).value.0.sessions
    ensures GetActiveConnectionsCount(s, sid) == 0 ==> sid !in DeleteSessionEndpoint(s, sid).value.0.sessions
  {
    CleanupRefusedIffConnected(s, sid);
  }

  /* ---------------------------------------------------------------------- */
  /* Background execution                                                     */
  /* ---------------------------------------------------------------------- */

  /** Runs a scheduled job with the tools configured for its query type.  An
      error escaping the run marks the session failed with the error text. */
  function ExecuteSession(svc: Service, p: Runner, job: Job, tools: seq<ToolId>, available: set<ToolId>,
                          sdk: SdkRun, now: Timestamp): (r: (Service, Runner))
    ensures r.1.currentSessionId == Some("")
    ensures r.0.sessions.Keys == svc.sessions.Keys
    ensures Valid(svc) ==> Valid(r.0)
  {
    var run := RunQueryWithSession(svc, p, job.sessionId, job.request.query, tools, available, sdk, now);
    match run.outcome
    case Failure(err) => (UpdateSessionStatus(run.svc, job.sessionId, Failed, None, Some(err.Text()), None, now), run.runner)
    case Success(_) => (run.svc, run.runner)
  }

  /** Every execution of a known session leaves it in a terminal status:
      completed exactly when the tools were usable and the agent finished,
      failed with the exception text when the tool set was rejected, failed
      with the agent's error when it raised. */
  lemma ExecutionEndsTerminal(svc: Service, p: Runner, job: Job, tools: seq<ToolId>, available: set<ToolId>,
                              sdk: SdkRun, now: Timestamp)
    requires job.sessionId in svc.sessions
    ensures var rec := ExecuteSession(svc, p, job, tools, available, sdk, now).0.sessions[job.sessionId];
            && rec.status.Terminal()
            && (rec.status == Completed <==> GetInstance(p, ToolSet(tools), available).Success? && sdk.outcome.Finished?)
            && (GetInstance(p, ToolSet(tools), available).Failure? ==>
                  rec.error == Some(InvalidToolsError(ToolSet(tools), available).Text()) && rec.result.None?)
            && (GetInstance(p, ToolSet(tools), available).Success? && sdk.outcome.Crashed? ==>
                  rec.error == Some(sdk.outcome.message) && rec.executionTime == Some(sdk.outcome.elapsed))
            && (GetInstance(p, ToolSet(tools), available).Success? && sdk.outcome.Finished? ==>
                  rec.result == sdk.outcome.finalOutput && rec.error.None?)
  {
    RunFinalRecord(svc, p, job.sessionId, job.request.query, tools, available, sdk, now);
  }

  /** An execution never moves a start time once one is recorded. */
  lemma ExecutionKeepsStart(svc: Service, p: Runner, job: Job, tools: seq<ToolId>, available: set<ToolId>,
                            sdk: SdkRun, now: Timestamp)
    requires job.sessionId in svc.sessions && IsSet(svc.sessions[job.sessionId].startedAt)
    ensures job.sessionId in ExecuteSession(svc, p, job, tools, available, sdk, now).0.sessions
    ensures ExecuteSession(svc, p, job, tools, available, sdk, now).0.sessions[job.sessionId].startedAt
            == svc.sessions[job.sessionId].startedAt
  {
    var sid := job.sessionId;
    var run := RunQueryWithSession(svc, p, sid, job.request.query, tools, available, sdk, now);
    RunIsReplay(svc, p, sid, job.request.query, tools, available, sdk, now);
    StartedAtWriteOnce(svc, sid, run.log, now);
  }

  /** A follow-up message to a session that has run before keeps the
      session's original start time through the reset and the new run. */
  lemma FollowUpKeepsStart(s: Service, sid: SessionId, body: RawSessionCreateRequest, now: Timestamp,
                           p: Runner, tools: seq<ToolId>, available: set<ToolId>, sdk: SdkRun, later: Timestamp)
    requires sid in s.sessions && IsSet(s.sessions[sid].startedAt)
    requires AddMessageEndpoint(s, sid, body, now).Success?
    ensures var acc := AddMessageEndpoint(s, sid, body, now).value;
            var after := ExecuteSession(acc.svc, p, acc.job, tools, available, sdk, later).0;
            sid in after.sessions && after.sessions[sid].startedAt == s.sessions[sid].startedAt
  {
    var acc := AddMessageEndpoint(s, sid, body, now).value;
    ExecutionKeepsStart(acc.svc, p, acc.job, tools, available, sdk, later);
  }

  /* ---------------------------------------------------------------------- */
  /* The event stream                                                         */
  /* ---------------------------------------------------------------------- */

  /** One server-sent event of a session stream. */
  datatype Frame =
    | Connected(sessionId: SessionId)
    | EventFrame(event: StepEvent, isHistorical: bool)
    | Heartbeat(sessionId: SessionId)
  {
    /** The SSE `event:` field. */
    function Name(): string {
      match this
      case Connected(_) => "connected"
      case EventFrame(e, _) => e.eventType
      case Heartbeat(_) => "heartbeat"
    }
  }

  /** A stream connects: a new empty queue of capacity 100 with identity `c`
      is created and registered as a listener of `sid`. */
  function Subscribe(s: Service, sid: SessionId, c: ClientId): (r: Service)
    requires c !in s.queues
    ensures c in r.queues && r.queues[c] == ClientQueue([], CLIENT_QUEUE_MAXSIZE)
    ensures forall d | d in s.queues :: d in r.queues && r.queues[d] == s.queues[d]
    ensures Connections(r, sid) == Connections(s, sid) + {c}
    ensures forall other :: other != sid ==> Connections(r, other) == Connections(s, other)
    ensures r.sessions == s.sessions && r.history == s.history
    ensures Valid(s) ==> Valid(r)
  {
    AddConnection(s.(queues := s.queues[c := ClientQueue([], CLIENT_QUEUE_MAXSIZE)]), sid, c)
  }

  /** A stream ends, however it ends: its queue stops listening. */
  function Unsubscribe(s: Service, sid: SessionId, c: ClientId): (r: Service)
    ensures Connections(r, sid) == Connections(s, sid) - {c}
    ensures forall other :: other != sid ==> Connections(r, other) == Connections(s, other)
    ensures r.sessions == s.sessions && r.history == s.history && r.queues == s.queues
    ensures Valid(s) ==> Valid(r)
  {
    RemoveConnection(s, sid, c)
  }

  /** A connection that comes and goes leaves the listener map as it found
      it: the new queue was nobody's listener before. */
  lemma SubscribeUnsubscribeRestores(s: Service, sid: SessionId, c: ClientId)
    requires Valid(s) && c !in s.queues
    ensures Unsubscribe(Subscribe(s, sid, c), sid, c).connections == s.connections
  {
    var r := Unsubscribe(Subscribe(s, sid, c), sid, c);
    assert c !in Connections(s, sid);
    if sid in s.connections {
      assert Connections(r, sid) == s.connections[sid];
      assert s.connections[sid] != {};
    }
    assert forall k :: k in r.connections <==> k in s.connections;
  }

  /** The frames sent when a stream opens: the confirmation, then the last
      twenty stored events marked as historical. */
  function OpeningFrames(s: Service, sid: SessionId): (r: seq<Frame>)
    ensures |r| == 1 + Min(RECENT_EVENTS_ON_CONNECT, |History(s, sid)|)
    ensures r[0] == Connected(sid)
    ensures forall i | 1 <= i < |r| ::
              r[i] == EventFrame(History(s, sid)[|History(s, sid)| - (|r| - 1) + (i - 1)], true)
  {
    var h := History(s, sid);
    var recent := GetSessionEvents(s, sid, RECENT_EVENTS_ON_CONNECT);
    assert recent == h[|h| - |recent|..];
    [Connected(sid)] + HistoricalFrames(recent)
  }

  function HistoricalFrames(events: seq<StepEvent>): (r: seq<Frame>)
    ensures |r| == |events|
    ensures forall i | 0 <= i < |r| :: r[i] == EventFrame(events[i], true)
  {
    seq(|events|, i requires 0 <= i < |events| => EventFrame(events[i], true))
  }

  /** The next frame once the stream is live: the oldest queued event, marked
      live, or a heartbeat when the queue stays empty for the wait. */
  function NextFrame(s: Service, sid: SessionId, c: ClientId): (r: (Service, Frame))
    requires c in s.queues
    ensures s.queues[c].items == [] ==> r == (s, Heartbeat(sid))
    ensures s.queues[c].items != [] ==>
              && r.1 == EventFrame(s.queues[c].items[0], false)
              && c in r.0.queues && r.0.queues[c].items == s.queues[c].items[1..]
    ensures r.0.queues.Keys == s.queues.Keys
    ensures forall d | d in s.queues && d != c :: r.0.queues[d] == s.queues[d]
    ensures r.0.sessions == s.sessions && r.0.history == s.history && r.0.connections == s.connections
    ensures Valid(s) ==> Valid(r.0)
  {
    var q := s.queues[c];
    if q.items == [] then (s, Heartbeat(sid))
    else (s.(queues := s.queues[c := q.(items := q.items[1..])]), EventFrame(q.items[0], false))
  }

  /** `GET /sessions/{sid}/stream` up to the history read: the existence
      check, then the subscription, then the events `early` that are
      broadcast while the `connected` frame goes out, then the opening frames
      built from the history as it is now. */
  function OpenStream(s: Service, sid: SessionId, c: ClientId, early: seq<StepEvent>): (r: Result<(Service, seq<Frame>), HttpError>)
    requires c !in s.queues
    ensures sid !in s.sessions ==> r == Failure(NotFoundError(sid))
    ensures sid in s.sessions ==>
              && r.Success?
              && r.value.0 == BroadcastAll(Subscribe(s, sid, c), sid, early)
              && r.value.1 == OpeningFrames(r.value.0, sid)
    ensures sid in s.sessions && |History(s, sid)| <= MAX_EVENTS_PER_SESSION ==>
              History(r.value.0, sid) == LastN(History(s, sid) + early, MAX_EVENTS_PER_SESSION)
    ensures r.Success? ==> c in r.value.0.queues && r.value.0.sessions == s.sessions
    ensures r.Success? && Valid(s) ==> Valid(r.value.0)
  {
    if sid !in s.sessions then Failure(NotFoundError(sid))
    else
      var s1 := Subscribe(s, sid, c);
      HistoryBound(s1, sid, early);
      var s2 := BroadcastAll(s1, sid, early);
      Success((s2, OpeningFrames(s2, sid)))
  }

  /** A frame sent once the stream is live. */
  predicate IsLive(f: Frame, sid: SessionId) {
    f == Heartbeat(sid) || (f.EventFrame? && !f.isHistorical)
  }

  /** One wait of a live stream: the events `a` are broadcast to `sid`
      meanwhile, then one frame is sent. */
  function Wait(s: Service, sid: SessionId, c: ClientId, a: seq<StepEvent>): (r: (Service, Frame))
    requires c in s.queues
    ensures c in r.0.queues && r.0.sessions == s.sessions
    ensures IsLive(r.1, sid)
    ensures Valid(s) ==> Valid(r.0)
  {
    NextFrame(BroadcastAll(s, sid, a), sid, c)
  }

  /** The live part of a stream: one wait per entry of `arrivals`.  A client
      evicted by a full queue keeps draining what it holds and then only
      receives heartbeats. */
  function LiveFrames(s: Service, sid: SessionId, c: ClientId, arrivals: seq<seq<StepEvent>>): (r: (Service, seq<Frame>))
    requires c in s.queues
    ensures |r.1| == |arrivals|
    ensures c in r.0.queues && r.0.sessions == s.sessions
    ensures forall i | 0 <= i < |r.1| :: IsLive(r.1[i], sid)
    ensures Valid(s) ==> Valid(r.0)
    decreases |arrivals|
  {
    if arrivals == [] then (s, [])
    else
      var w := Wait(s, sid, c, arrivals[0]);
      var rest := LiveFrames(w.0, sid, c, arrivals[1..]);
      (rest.0, [w.1] + rest.1)
  }

  /** A whole stream of `sid` by client `c`, from the request to the
      disconnect: the opening frames (with `early` broadcast before the
      history is read), the live frames, and the queue unregistered at the
      end. */
  function StreamSessionEvents(s: Service, sid: SessionId, c: ClientId, early: seq<StepEvent>,
                               arrivals: seq<seq<StepEvent>>): (r: Result<(Service, seq<Frame>), HttpError>)
    requires c !in s.queues
    ensures sid !in s.sessions ==> r == Failure(NotFoundError(sid))
    ensures sid in s.sessions ==>
              && r.Success?
              && |r.value.1| == 1 + Min(RECENT_EVENTS_ON_CONNECT, |History(OpenStream(s, sid, c, early).value.0, sid)|) + |arrivals|
              && c !in Connections(r.value.0, sid)
              && r.value.0.sessions == s.sessions
    ensures r.Success? && Valid(s) ==> Valid(r.value.0)
  {
    match OpenStream(s, sid, c, early)
    case Failure(err) => Failure(err)
    case Success(start) =>
      var live := LiveFrames(start.0, sid, c, arrivals);
      Success((Unsubscribe(live.0, sid, c), start.1 + live.1))
  }

  /** The frame order of a stream over history `h`: the confirmation, the
      most recent (at most twenty) stored events flagged historical, then only
      live frames. */
  predicate StreamOrder(frames: seq<Frame>, sid: SessionId, h: seq<StepEvent>) {
    var k := Min(RECENT_EVENTS_ON_CONNECT, |h|);
    && |frames| >= 1 + k
    && frames[0] == Connected(sid)
    && (forall i | 1 <= i <= k :: frames[i] == EventFrame(h[|h| - k + (i - 1)], true))
    && (forall i | 1 + k <= i < |frames| :: IsLive(frames[i], sid))
  }

  /** The opening frames over history `h` followed by live frames are in
      stream order. */
  lemma StreamShape(sid: SessionId, h: seq<StepEvent>, live: seq<Frame>)
    requires forall i | 0 <= i < |live| :: IsLive(live[i], sid)
    ensures StreamOrder([Connected(sid)] + HistoricalFrames(LastN(h, RECENT_EVENTS_ON_CONNECT)) + live, sid, h)
  {
    var recent := LastN(h, RECENT_EVENTS_ON_CONNECT);
    var opening := [Connected(sid)] + HistoricalFrames(recent);
    var frames := opening + live;
    forall i | 1 <= i < |opening|
      ensures frames[i] == EventFrame(h[|h| - |recent| + (i - 1)], true)
    {
      assert frames[i] == HistoricalFrames(recent)[i - 1];
    }
    forall i | |opening| <= i < |frames|
      ensures IsLive(frames[i], sid)
    {
      assert frames[i] == live[i - |opening|];
    }
  }

  /** Every stream of a known session sends `connected`, then the most recent
      (at most twenty) events of the history as it is when read, flagged
      historical and in order, then only live events and heartbeats. */
  lemma StreamFrameOrder(s: Service, sid: SessionId, c: ClientId, early: seq<StepEvent>, arrivals: seq<seq<StepEvent>>)
    requires c !in s.queues && sid in s.sessions
    ensures StreamOrder(StreamSessionEvents(s, sid, c, early, arrivals).value.1, sid,
                        History(OpenStream(s, sid, c, early).value.0, sid))
  {
    var s2 := OpenStream(s, sid, c, early).value.0;
    var h := History(s2, sid);
    var opening := OpeningFrames(s2, sid);
    assert opening == [Connected(sid)] + HistoricalFrames(LastN(h, RECENT_EVENTS_ON_CONNECT));
    var live := LiveFrames(s2, sid, c, arrivals).1;
    StreamShape(sid, h, live);
    assert StreamSessionEvents(s, sid, c, early, arrivals).value.1 == opening + live;
  }

  /** An event broadcast after the queue is registered but before the
      history is read reaches the client twice: as the last historical frame
      and again as the first live frame. */
  lemma ConnectRaceDuplicates(s: Service, sid: SessionId, c: ClientId, e: StepEvent, arrivals: seq<seq<StepEvent>>)
    requires c !in s.queues && sid in s.sessions && arrivals != []
    ensures var frames := StreamSessionEvents(s, sid, c, [e], arrivals).value.1;
            var k := Min(RECENT_EVENTS_ON_CONNECT, |History(OpenStream(s, sid, c, [e]).value.0, sid)|);
            && 1 <= k && k + 1 < |frames|
            && frames[k] == EventFrame(e, true)
            && frames[k + 1] == EventFrame(e, false)
  {
    var start := OpenStream(s, sid, c, [e]).value;
    var live := LiveFrames(start.0, sid, c, arrivals).1;
    StreamIsOpeningThenLive(s, sid, c, [e], arrivals);
    RacedOpening(s, sid, c, e);
    FirstLiveFrame(start.0, sid, c, arrivals);
    SeamOfConcat(start.1, live);
    var frames := start.1 + live;
    var k := |start.1| - 1;
    assert k == Min(RECENT_EVENTS_ON_CONNECT, |History(start.0, sid)|);
    assert frames[k] == EventFrame(e, true) && frames[k + 1] == EventFrame(e, false);
  }

  /** A stream's frames are its opening frames followed by its live frames. */
  lemma StreamIsOpeningThenLive(s: Service, sid: SessionId, c: ClientId, early: seq<StepEvent>, arrivals: seq<seq<StepEvent>>)
    requires c !in s.queues && sid in s.sessions
    ensures var start := OpenStream(s, sid, c, early).value;
            StreamSessionEvents(s, sid, c, early, arrivals).value.1 == start.1 + LiveFrames(start.0, sid, c, arrivals).1
  {
  }

  lemma SeamOfConcat<T>(a: seq<T>, b: seq<T>)
    requires a != [] && b != []
    ensures (a + b)[|a| - 1] == a[|a| - 1] && (a + b)[|a|] == b[0]
  {
  }

  /** The event broadcast between the subscription and the history read is
      both the last opening frame and the only queued event. */
  lemma RacedOpening(s: Service, sid: SessionId, c: ClientId, e: StepEvent)
    requires c !in s.queues && sid in s.sessions
    ensures var start := OpenStream(s, sid, c, [e]).value;
            && c in start.0.queues && start.0.queues[c].items == [e]
            && |start.1| >= 2 && start.1[|start.1| - 1] == EventFrame(e, true)
  {
    var start := OpenStream(s, sid, c, [e]).value;
    BroadcastOne(Subscribe(s, sid, c), sid, e);
    SubscribedQueueGets(s, sid, c, e);
    LastOpeningFrame(start.0, sid);
  }

  lemma BroadcastOne(s: Service, sid: SessionId, e: StepEvent)
    ensures BroadcastAll(s, sid, [e]) == BroadcastEvent(s, sid, e)
  {
    assert [e][1..] == [];
  }

  /** A fresh subscriber receives the next broadcast, which also ends the
      history. */
  lemma SubscribedQueueGets(s: Service, sid: SessionId, c: ClientId, e: StepEvent)
    requires c !in s.queues
    ensures var r := BroadcastEvent(Subscribe(s, sid, c), sid, e);
            && c in r.queues && r.queues[c].items == [e]
            && History(r, sid) != [] && History(r, sid)[|History(r, sid)| - 1] == e
  {
    var s1 := Subscribe(s, sid, c);
    assert c in Connections(s1, sid) && !s1.queues[c].Full();
  }

  /** The last opening frame carries the newest stored event. */
  lemma LastOpeningFrame(s: Service, sid: SessionId)
    requires History(s, sid) != []
    ensures var o := OpeningFrames(s, sid);
            |o| >= 2 && o[|o| - 1] == EventFrame(History(s, sid)[|History(s, sid)| - 1], true)
  {
    var o := OpeningFrames(s, sid);
    var h := History(s, sid);
    var recent := LastN(h, RECENT_EVENTS_ON_CONNECT);
    assert o == [Connected(sid)] + HistoricalFrames(recent);
    LastOfLastN(h, RECENT_EVENTS_ON_CONNECT);
    assert o[|o| - 1] == HistoricalFrames(recent)[|recent| - 1];
  }

  /** The first live frame is the event at the head of the queue, whatever
      is broadcast during the first wait. */
  lemma FirstLiveFrame(s: Service, sid: SessionId, c: ClientId, arrivals: seq<seq<StepEvent>>)
    requires c in s.queues && s.queues[c].items != [] && arrivals != []
    ensures LiveFrames(s, sid, c, arrivals).1[0] == EventFrame(s.queues[c].items[0], false)
  {
    BroadcastAllKeepsHead(s, sid, c, arrivals[0]);
  }

  function Flatten(xss: seq<seq<StepEvent>>): seq<StepEvent>
    decreases |xss|
  {
    if xss == [] then [] else xss[0] + Flatten(xss[1..])
  }

  /** The events carried by the event frames of `frames`, in order. */
  function FrameEvents(frames: seq<Frame>): seq<StepEvent>
    decreases |frames|
  {
    if frames == [] then []
    else (if frames[0].EventFrame? then [frames[0].event] else []) + FrameEvents(frames[1..])
  }

  /** One wait of a listener with room: the frame's event, if any, followed
      by what is still queued, is the old queue followed by the arrivals. */
  lemma WaitIsFifo(s: Service, sid: SessionId, c: ClientId, a: seq<StepEvent>, extra: nat)
    requires c in Connections(s, sid) && c in s.queues && Room(s.queues[c], |a| + extra)
    ensures var w := Wait(s, sid, c, a);
            && c in Connections(w.0, sid) && c in w.0.queues
            && w.0.queues[c].maxsize == s.queues[c].maxsize
            && Room(w.0.queues[c], extra)
            && FrameEvents([w.1]) + w.0.queues[c].items == s.queues[c].items + a
  {
    var s1 := BroadcastAll(s, sid, a);
    BroadcastAllQueue(s, sid, c, a);
    NextFrameIsFifo(s1, sid, c);
  }

  /** Taking one frame moves the queue's head, if any, into the frame. */
  lemma NextFrameIsFifo(s: Service, sid: SessionId, c: ClientId)
    requires c in s.queues
    ensures var r := NextFrame(s, sid, c);
            && c in r.0.queues
            && r.0.queues[c].maxsize == s.queues[c].maxsize
            && |r.0.queues[c].items| <= |s.queues[c].items|
            && Connections(r.0, sid) == Connections(s, sid)
            && FrameEvents([r.1]) + r.0.queues[c].items == s.queues[c].items
  {
    var r := NextFrame(s, sid, c);
    var items := s.queues[c].items;
    assert FrameEvents([r.1]) == if r.1.EventFrame? then [r.1.event] else [];
    if items != [] {
      assert [items[0]] + items[1..] == items;
    }
  }

  /** At every wait, the client's queue has room for the events that arrive
      during it. */
  predicate RoomEachWait(s: Service, sid: SessionId, c: ClientId, arrivals: seq<seq<StepEvent>>)
    requires c in s.queues
    decreases |arrivals|
  {
    arrivals == []
    || (Room(s.queues[c], |arrivals[0]|) && RoomEachWait(Wait(s, sid, c, arrivals[0]).0, sid, c, arrivals[1..]))
  }

  /** While the client's queue never overflows during a wait, the live
      stream loses and reorders nothing: what it has sent, followed by what
      is still queued, is what was queued at the start followed by every
      event broadcast since. */
  lemma {:induction false} LiveStreamIsFifo(s: Service, sid: SessionId, c: ClientId, arrivals: seq<seq<StepEvent>>)
    requires c in Connections(s, sid) && c in s.queues && RoomEachWait(s, sid, c, arrivals)
    ensures var r := LiveFrames(s, sid, c, arrivals);
            && c in Connections(r.0, sid)
            && r.0.queues[c].maxsize == s.queues[c].maxsize
            && FrameEvents(r.1) + r.0.queues[c].items == s.queues[c].items + Flatten(arrivals)
    decreases |arrivals|
  {
    if arrivals != [] {
      var a := arrivals[0];
      var tail := Flatten(arrivals[1..]);
      assert Flatten(arrivals) == a + tail;
      var w := Wait(s, sid, c, a);
      WaitIsFifo(s, sid, c, a, 0);
      LiveStreamIsFifo(w.0, sid, c, arrivals[1..]);
      var rest := LiveFrames(w.0, sid, c, arrivals[1..]);
      assert LiveFrames(s, sid, c, arrivals) == (rest.0, [w.1] + rest.1);
      FrameEventsAppend([w.1], rest.1);
      Regroup(FrameEvents([w.1]), FrameEvents(rest.1), rest.0.queues[c].items,
              w.0.queues[c].items, s.queues[c].items, a, tail);
    }
  }

  /** A client that keeps up, with at most one event arriving per wait and
      an empty queue to begin with, never runs out of room, however long the
      stream. */
  lemma {:induction false} KeepingUpHasRoom(s: Service, sid: SessionId, c: ClientId, arrivals: seq<seq<StepEvent>>)
    requires c in Connections(s, sid) && c in s.queues
    requires s.queues[c].items == [] && s.queues[c].maxsize >= 1
    requires forall i | 0 <= i < |arrivals| :: |arrivals[i]| <= 1
    ensures RoomEachWait(s, sid, c, arrivals)
    decreases |arrivals|
  {
    if arrivals != [] {
      var a := arrivals[0];
      var w := Wait(s, sid, c, a);
      WaitKeepsUp(s, sid, c, a);
      assert forall i | 0 <= i < |arrivals[1..]| :: |arrivals[1..][i]| <= 1 by {
        forall i | 0 <= i < |arrivals[1..]| ensures |arrivals[1..][i]| <= 1 {
          assert arrivals[1..][i] == arrivals[i + 1];
        }
      }
      KeepingUpHasRoom(w.0, sid, c, arrivals[1..]);
    }
  }

  /** One wait with at most one arrival leaves an empty queue empty. */
  lemma WaitKeepsUp(s: Service, sid: SessionId, c: ClientId, a: seq<StepEvent>)
    requires c in Connections(s, sid) && c in s.queues
    requires s.queues[c].items == [] && s.queues[c].maxsize >= 1 && |a| <= 1
    ensures var w := Wait(s, sid, c, a);
            && Room(s.queues[c], |a|)
            && c in Connections(w.0, sid) && c in w.0.queues
            && w.0.queues[c].items == [] && w.0.queues[c].maxsize == s.queues[c].maxsize
  {
    var s1 := BroadcastAll(s, sid, a);
    BroadcastAllQueue(s, sid, c, a);
    assert s1.queues[c].items == a;
    NextFrameIsFifo(s1, sid, c);
  }

  lemma {:induction false} FrameEventsAppend(a: seq<Frame>, b: seq<Frame>)
    ensures FrameEvents(a + b) == FrameEvents(a) + FrameEvents(b)
    decreases |a|
  {
    if a == [] {
      assert a + b == b;
    } else {
      var f := if a[0].EventFrame? then [a[0].event] else [];
      assert (a + b)[0] == a[0];
      assert (a + b)[1..] == a[1..] + b;
      assert FrameEvents(a + b) == f + FrameEvents(a[1..] + b);
      FrameEventsAppend(a[1..], b);
      assert FrameEvents(a) == f + FrameEvents(a[1..]);
      ConcatAssoc(f, FrameEvents(a[1..]), FrameEvents(b));
    }
  }

  /** The sequence bookkeeping of one step of the FIFO argument. */
  lemma Regroup<T>(first: seq<T>, sent: seq<T>, final: seq<T>, mid: seq<T>, start: seq<T>, a: seq<T>, tail: seq<T>)
    requires first + mid == start + a
    requires sent + final == mid + tail
    ensures first + sent + final == start + (a + tail)
  {
    calc {
      first + sent + final;
      first + (sent + final);
      first + (mid + tail);
      (first + mid) + tail;
      (start + a) + tail;
      start + (a + tail);
    }
  }
}
