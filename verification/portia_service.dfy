/** The agent runner: the cached agent instance keyed by tool set, the
    per-step hook that streams step events into the session store, and the
    order of status changes and events of one query run. */
module PortiaService {
  import opened Wrappers
  import opened Schemas
  import opened Slicing
  import opened SessionService

  type ToolId = string

  const UNKNOWN_STEP: string := "Unknown Step"

  /** An agent instance, built for a fixed tool set; `serial` tells builds
      apart. */
  datatype Instance = Instance(tools: set<ToolId>, serial: nat)

  /** The runner's state: the tool set of the cached instance, the instance
      itself, how many instances were built so far, and the session that the
      step hook reports to. */
  datatype Runner = Runner(
    tools: set<ToolId>,
    instance: Option<Instance>,
    built: nat,
    currentSessionId: Option<SessionId>)

  /** The cached instance, if any, was built for exactly the cached tool set. */
  predicate Coherent(p: Runner) {
    p.instance.Some? ==> p.instance.value.tools == p.tools && p.instance.value.serial < p.built
  }

  /** Raised when a run asks for tools the registry does not offer. It carries
      the whole requested set and the available set. */
  datatype InvalidToolsError = InvalidToolsError(requested: set<ToolId>, available: set<ToolId>) {
    /** The exception text; its wording lives outside this model. */
    function Text(): string { "InvalidToolsError" }
  }

  /* ---------------------------------------------------------------------- */
  /* Instance cache                                                           */
  /* ---------------------------------------------------------------------- */

  /** The cached instance when the same tool set is asked for again; otherwise
      a new instance when every requested tool is available (`available` is the
      registry's current tool ids); otherwise an error, with the cache left as
      it was. */
  function GetInstance(p: Runner, tools: set<ToolId>, available: set<ToolId>): (r: Result<(Runner, Instance), InvalidToolsError>)
    ensures tools == p.tools && p.instance.Some? ==> r == Success((p, p.instance.value))
    ensures !(tools == p.tools && p.instance.Some?) && !(tools <= available) ==>
              r == Failure(InvalidToolsError(tools, available))
    ensures !(tools == p.tools && p.instance.Some?) && tools <= available ==>
              && r.Success?
              && r.value.1 == Instance(tools, p.built)
              && r.value.0 == p.(tools := tools, instance := Some(r.value.1), built := p.built + 1)
  {
    if tools == p.tools && p.instance.Some? then
      Success((p, p.instance.value))
    else if tools <= available then
      var instance := Instance(tools, p.built);
      Success((p.(tools := tools, instance := Some(instance), built := p.built + 1), instance))
    else
      Failure(InvalidToolsError(tools, available))
  }

  /** From a coherent cache, the instance handed out is always one built for
      exactly the requested tools, the cache stays coherent, and asking again
      for the same tools returns the same instance without a rebuild. */
  lemma InstanceServesRequestedTools(p: Runner, tools: set<ToolId>, available: set<ToolId>, laterAvailable: set<ToolId>)
    requires Coherent(p)
    requires GetInstance(p, tools, available).Success?
    ensures var (p', inst) := GetInstance(p, tools, available).value;
            && inst.tools == tools
            && Coherent(p')
            && p'.currentSessionId == p.currentSessionId
            && GetInstance(p', tools, laterAvailable) == Success((p', inst))
  {
  }

  /** A request fails exactly when it is not a cache hit and names a tool the
      registry lacks. */
  lemma InstanceFailsIffUnavailable(p: Runner, tools: set<ToolId>, available: set<ToolId>)
    ensures GetInstance(p, tools, available).Failure? <==>
              !(tools == p.tools && p.instance.Some?) && exists t :: t in tools && t !in available
  {
    if !(tools <= available) {
      var t :| t in tools && t !in available;
    }
  }

  /* ---------------------------------------------------------------------- */
  /* Step hook                                                                */
  /* ---------------------------------------------------------------------- */

  /** The fields the hook reads from an executed step; `None` stands for a
      missing key. */
  datatype StepInfo = StepInfo(id: Option<string>, task: Option<string>, toolId: Option<string>)

  datatype ExecutedStep = ExecutedStep(step: StepInfo, output: Payload)

  /** The two events streamed for one executed step: an update while running
      without output, then a completion carrying the output.  Both name the
      same step. */
  function StepEvents(sid: SessionId, step: StepInfo, output: Payload, now: Timestamp): (r: seq<StepEvent>)
    ensures |r| == 2
    ensures r[0].eventType == "step_update" && r[0].status == "running" && r[0].output.None?
    ensures r[1].eventType == "step_completed" && r[1].status == "completed" && r[1].output == Some(output)
    ensures forall i | 0 <= i < 2 ::
              && r[i].sessionId == sid
              && r[i].stepId == step.id
              && r[i].stepName == Some(step.task.GetOr(UNKNOWN_STEP))
              && r[i].toolId == step.toolId
              && r[i].error.None?
  {
    var name := Some(step.task.GetOr(UNKNOWN_STEP));
    [ StepEvent(sid, now, "step_update", step.id, name, step.toolId, "running", None, None),
      StepEvent(sid, now, "step_completed", step.id, name, step.toolId, "completed", Some(output), None) ]
  }

  /** The hook run after every step: it reports to the current session, and
      does nothing when there is none or it is the empty id. */
  function StreamStep(svc: Service, current: Option<SessionId>, step: StepInfo, output: Payload, now: Timestamp): (r: Service)
    ensures !IsSet(current) ==> r == svc
    ensures IsSet(current) && |History(svc, current.value)| <= MAX_EVENTS_PER_SESSION ==>
              History(r, current.value) ==
                LastN(History(svc, current.value) + StepEvents(current.value, step, output, now), MAX_EVENTS_PER_SESSION)
    ensures r.sessions == svc.sessions
    ensures Valid(svc) ==> Valid(r)
  {
    if !IsSet(current) then svc
    else
      var events := StepEvents(current.value, step, output, now);
      HistoryBound(svc, current.value, events);
      BroadcastAll(svc, current.value, events)
  }

  lemma HistoryBound(svc: Service, sid: SessionId, es: seq<StepEvent>)
    ensures |History(svc, sid)| <= MAX_EVENTS_PER_SESSION ==>
              History(BroadcastAll(svc, sid, es), sid) == LastN(History(svc, sid) + es, MAX_EVENTS_PER_SESSION)
  {
    if |History(svc, sid)| <= MAX_EVENTS_PER_SESSION {
      HistoryKeepsMostRecent(svc, sid, es);
    }
  }

  /** The events the hook streams for a sequence of steps, in order. */
  function StepTrail(sid: SessionId, steps: seq<ExecutedStep>, now: Timestamp): (r: seq<StepEvent>)
    ensures |r| == 2 * |steps|
    ensures forall k | 0 <= k < |steps| ::
              r[2 * k] == StepEvents(sid, steps[k].step, steps[k].output, now)[0]
              && r[2 * k + 1] == StepEvents(sid, steps[k].step, steps[k].output, now)[1]
    decreases |steps|
  {
    if steps == [] then []
    else StepEvents(sid, steps[0].step, steps[0].output, now) + StepTrail(sid, steps[1..], now)
  }

  /** Every event of a step trail is a step event: an update at even
      positions, a completion at odd ones. */
  lemma StepTrailKind(sid: SessionId, steps: seq<ExecutedStep>, now: Timestamp, i: nat)
    requires i < |StepTrail(sid, steps, now)|
    ensures StepTrail(sid, steps, now)[i].eventType == (if i % 2 == 0 then "step_update" else "step_completed")
  {
    var t := StepTrail(sid, steps, now);
    var k := i / 2;
    assert k < |steps|;
    var pair := StepEvents(sid, steps[k].step, steps[k].output, now);
    if i % 2 == 0 {
      assert i == 2 * k;
      assert t[2 * k] == pair[0];
    } else {
      assert i == 2 * k + 1;
      assert t[2 * k + 1] == pair[1];
    }
  }

  /** The hook applied after each step in turn. */
  function RunHooks(svc: Service, current: Option<SessionId>, steps: seq<ExecutedStep>, now: Timestamp): Service
    decreases |steps|
  {
    if steps == [] then svc
    else RunHooks(StreamStep(svc, current, steps[0].step, steps[0].output, now), current, steps[1..], now)
  }

  /** The actions the hook performs for `steps`. */
  function HookLog(current: Option<SessionId>, steps: seq<ExecutedStep>, now: Timestamp): seq<Action> {
    if IsSet(current) then Emits(StepTrail(current.value, steps, now)) else []
  }

  lemma {:induction false} RunHooksIsBroadcast(svc: Service, sid: SessionId, steps: seq<ExecutedStep>, now: Timestamp)
    requires sid != ""
    ensures RunHooks(svc, Some(sid), steps, now) == BroadcastAll(svc, sid, StepTrail(sid, steps, now))
    decreases |steps|
  {
    if steps != [] {
      var first := StepEvents(sid, steps[0].step, steps[0].output, now);
      var s1 := StreamStep(svc, Some(sid), steps[0].step, steps[0].output, now);
      assert s1 == BroadcastAll(svc, sid, first);
      RunHooksIsBroadcast(s1, sid, steps[1..], now);
      BroadcastAllAppend(svc, sid, first, StepTrail(sid, steps[1..], now));
    }
  }

  lemma {:induction false} RunHooksIdle(svc: Service, steps: seq<ExecutedStep>, now: Timestamp)
    ensures RunHooks(svc, Some(""), steps, now) == svc
    decreases |steps|
  {
    if steps != [] {
      RunHooksIdle(svc, steps[1..], now);
    }
  }

  /** The hooks' effect on the store is exactly replaying their log. */
  lemma RunHooksIsReplay(svc: Service, sid: SessionId, steps: seq<ExecutedStep>, now: Timestamp)
    ensures RunHooks(svc, Some(sid), steps, now) == Replay(svc, sid, HookLog(Some(sid), steps, now), now)
  {
    if sid == "" {
      RunHooksIdle(svc, steps, now);
    } else {
      RunHooksIsBroadcast(svc, sid, steps, now);
      BroadcastAllIsReplay(svc, sid, StepTrail(sid, steps, now), now);
    }
  }

  /* ---------------------------------------------------------------------- */
  /* One query                                                                */
  /* ---------------------------------------------------------------------- */

  /** How the agent SDK ended: with a final output (possibly none), or by
      raising; each with the elapsed seconds. */
  datatype SdkOutcome =
    | Finished(finalOutput: Option<Payload>, elapsed: Seconds)
    | Crashed(message: string, elapsed: Seconds)

  /** What the SDK does for one query: the steps it executes, then how it ends. */
  datatype SdkRun = SdkRun(steps: seq<ExecutedStep>, outcome: SdkOutcome)

  /** The result dictionary of a query: `success` true with result, or false
      with the error text. */
  datatype QueryResult =
    | Succeeded(result: Option<Payload>, executionTime: Seconds)
    | QueryFailed(error: string, executionTime: Seconds)

  datatype QueryRun = QueryRun(
    svc: Service,
    runner: Runner,
    outcome: Result<QueryResult, InvalidToolsError>,
    log: seq<Action>)

  function ToolSet(tools: seq<ToolId>): set<ToolId> {
    set t | t in tools
  }

  /** Runs a query with the given tools. An unusable tool set raises before
      anything runs; otherwise every step is reported through the hook and an
      SDK exception becomes a failed result instead of propagating. */
  function RunQuery(svc: Service, p: Runner, tools: seq<ToolId>, available: set<ToolId>, sdk: SdkRun, now: Timestamp): (r: QueryRun)
    ensures r.outcome.Failure? <==> GetInstance(p, ToolSet(tools), available).Failure?
    ensures r.outcome.Failure? ==> r.svc == svc && r.runner == p && r.log == []
    ensures r.outcome.Success? ==> match sdk.outcome
              case Finished(out, t) => r.outcome.value == Succeeded(out, t)
              case Crashed(m, t) => r.outcome.value == QueryFailed(m, t)
    ensures r.runner.currentSessionId == p.currentSessionId
    ensures r.svc.sessions == svc.sessions
    ensures Valid(svc) ==> Valid(r.svc)
  {
    match GetInstance(p, ToolSet(tools), available)
    case Failure(err) => QueryRun(svc, p, Failure(err), [])
    case Success((p1, _)) =>
      var result := match sdk.outcome
        case Finished(out, t) => Succeeded(out, t)
        case Crashed(m, t) => QueryFailed(m, t);
      HooksKeepSessions(svc, p1.currentSessionId, sdk.steps, now);
      QueryRun(RunHooks(svc, p1.currentSessionId, sdk.steps, now), p1, Success(result),
               HookLog(p1.currentSessionId, sdk.steps, now))
  }

  lemma {:induction false} HooksKeepSessions(svc: Service, current: Option<SessionId>, steps: seq<ExecutedStep>, now: Timestamp)
    ensures RunHooks(svc, current, steps, now).sessions == svc.sessions
    ensures Valid(svc) ==> Valid(RunHooks(svc, current, steps, now))
    decreases |steps|
  {
    if steps != [] {
      HooksKeepSessions(StreamStep(svc, current, steps[0].step, steps[0].output, now), current, steps[1..], now);
    }
  }

  /* ---------------------------------------------------------------------- */
  /* One run within a session                                                 */
  /* ---------------------------------------------------------------------- */

  function UserMessageEvent(sid: SessionId, query: string, now: Timestamp): StepEvent {
    StepEvent(sid, now, "user_message", None, Some("User"), None, "completed", Some(Text(query)), None)
  }

  function SessionStartedEvent(sid: SessionId, now: Timestamp): StepEvent {
    StepEvent(sid, now, "session_started", None, None, None, "running", None, None)
  }

  function SessionCompletedEvent(sid: SessionId, result: Option<Payload>, now: Timestamp): StepEvent {
    StepEvent(sid, now, "session_completed", None, None, None, "completed", result, None)
  }

  function SessionFailedEvent(sid: SessionId, error: string, now: Timestamp): StepEvent {
    StepEvent(sid, now, "session_failed", None, None, None, "failed", None, Some(error))
  }

  /** The effects that open every run. */
  function Opening(sid: SessionId, query: string, now: Timestamp): seq<Action> {
    [Emit(UserMessageEvent(sid, query, now)), SetStatus(Running, None, None, None), Emit(SessionStartedEvent(sid, now))]
  }

  /** The status change and event that close a run with the given result. */
  function Closing(sid: SessionId, res: QueryResult, now: Timestamp): seq<Action> {
    match res
    case Succeeded(out, t) =>
      [SetStatus(Completed, out, None, Some(t)), Emit(SessionCompletedEvent(sid, out, now))]
    case QueryFailed(m, t) =>
      [SetStatus(Failed, None, Some(m), Some(t)), Emit(SessionFailedEvent(sid, m, now))]
  }

  datatype SessionRun = SessionRun(
    svc: Service,
    runner: Runner,
    outcome: Result<QueryResult, InvalidToolsError>,
    log: seq<Action>)

  /** Runs one query for session `sid`: announce the user's message, mark the
      session running, announce the start, run the query with the hook
      reporting to `sid`, then record the result and announce the end.  An
      invalid tool set escapes as an error after the opening announcements.
      The hook's session is cleared on every exit. `log` lists the store
      effects in the order they happen. */
  function RunQueryWithSession(svc: Service, p: Runner, sid: SessionId, query: string, tools: seq<ToolId>,
                               available: set<ToolId>, sdk: SdkRun, now: Timestamp): (r: SessionRun)
    ensures r.runner.currentSessionId == Some("")
    ensures r.outcome.Failure? <==> GetInstance(p, ToolSet(tools), available).Failure?
    ensures r.outcome.Success? ==> match sdk.outcome
              case Finished(out, t) => r.outcome.value == Succeeded(out, t)
              case Crashed(m, t) => r.outcome.value == QueryFailed(m, t)
    ensures r.outcome.Failure? ==> r.runner == p.(currentSessionId := Some(""))
    ensures r.svc.sessions.Keys == svc.sessions.Keys
    ensures Valid(svc) ==> Valid(r.svc)
  {
    var q := RunQuery(OpenRun(svc, sid, query, now), p.(currentSessionId := Some(sid)), tools, available, sdk, now);
    var p' := q.runner.(currentSessionId := Some(""));
    match q.outcome
    case Failure(err) => SessionRun(q.svc, p', Failure(err), Opening(sid, query, now) + q.log)
    case Success(res) => SessionRun(CloseRun(q.svc, sid, res, now), p', Success(res), Opening(sid, query, now) + q.log + Closing(sid, res, now))
  }

  /** The store after a run's opening: user message, running, started. */
  function OpenRun(svc: Service, sid: SessionId, query: string, now: Timestamp): (r: Service)
    ensures r.sessions.Keys == svc.sessions.Keys
    ensures sid in svc.sessions ==> r.sessions[sid] == Transition(svc.sessions[sid], Running, None, None, None, now)
    ensures Valid(svc) ==> Valid(r)
  {
    var s1 := BroadcastEvent(svc, sid, UserMessageEvent(sid, query, now));
    var s2 := UpdateSessionStatus(s1, sid, Running, None, None, None, now);
    BroadcastEvent(s2, sid, SessionStartedEvent(sid, now))
  }

  /** The store after a run's closing: the terminal status is recorded before
      the terminal event is broadcast. */
  function CloseRun(svc: Service, sid: SessionId, res: QueryResult, now: Timestamp): (r: Service)
    ensures r.sessions.Keys == svc.sessions.Keys
    ensures sid in svc.sessions ==> r.sessions[sid] == match res
              case Succeeded(out, t) => Transition(svc.sessions[sid], Completed, out, None, Some(t), now)
              case QueryFailed(m, t) => Transition(svc.sessions[sid], Failed, None, Some(m), Some(t), now)
    ensures Valid(svc) ==> Valid(r)
  {
    match res
    case Succeeded(out, t) =>
      BroadcastEvent(UpdateSessionStatus(svc, sid, Completed, out, None, Some(t), now), sid, SessionCompletedEvent(sid, out, now))
    case QueryFailed(m, t) =>
      BroadcastEvent(UpdateSessionStatus(svc, sid, Failed, None, Some(m), Some(t), now), sid, SessionFailedEvent(sid, m, now))
  }

  /* ---------------------------------------------------------------------- */
  /* Properties of a run                                                      */
  /* ---------------------------------------------------------------------- */

  predicate IsStepAction(a: Action) {
    a.Emit? && (a.event.eventType == "step_update" || a.event.eventType == "step_completed")
  }

  predicate IsTerminalAction(a: Action) {
    a.Emit? && (a.event.eventType == "session_completed" || a.event.eventType == "session_failed")
  }

  /** The number of terminal announcements in a log. */
  function CountTerminal(log: seq<Action>): nat
    decreases |log|
  {
    if log == [] then 0 else (if IsTerminalAction(log[0]) then 1 else 0) + CountTerminal(log[1..])
  }

  lemma {:induction false} CountTerminalAppend(a: seq<Action>, b: seq<Action>)
    ensures CountTerminal(a + b) == CountTerminal(a) + CountTerminal(b)
    decreases |a|
  {
    if a == [] {
      assert a + b == b;
    } else {
      assert (a + b)[0] == a[0];
      assert (a + b)[1..] == a[1..] + b;
      CountTerminalAppend(a[1..], b);
    }
  }

  lemma {:induction false} NoTerminalAmong(log: seq<Action>)
    requires forall i | 0 <= i < |log| :: !IsTerminalAction(log[i])
    ensures CountTerminal(log) == 0
    decreases |log|
  {
    if log != [] {
      NoTerminalAmong(log[1..]);
    }
  }

  lemma HookLogIsSteps(current: Option<SessionId>, steps: seq<ExecutedStep>, now: Timestamp)
    ensures var h := HookLog(current, steps, now);
            forall i | 0 <= i < |h| :: IsStepAction(h[i])
  {
    if IsSet(current) {
      var t := StepTrail(current.value, steps, now);
      var h := Emits(t);
      forall i | 0 <= i < |h|
        ensures IsStepAction(h[i])
      {
        assert h[i] == Emit(t[i]);
        StepTrailKind(current.value, steps, now, i);
      }
    }
  }

  /** The log of a run is the opening, then the hook's step events, then,
      if the query returned, the closing pair. */
  lemma RunLogParts(svc: Service, p: Runner, sid: SessionId, query: string, tools: seq<ToolId>,
                    available: set<ToolId>, sdk: SdkRun, now: Timestamp)
    ensures var r := RunQueryWithSession(svc, p, sid, query, tools, available, sdk, now);
            && (r.outcome.Failure? ==> r.log == Opening(sid, query, now))
            && (r.outcome.Success? ==>
                  r.log == Opening(sid, query, now) + HookLog(Some(sid), sdk.steps, now) + Closing(sid, r.outcome.value, now))
  {
  }

  /** The shape shared by every run log, stated on its parts. */
  lemma ProtocolOfParts(sid: SessionId, query: string, now: Timestamp, hooks: seq<Action>, res: Option<QueryResult>)
    requires forall i | 0 <= i < |hooks| :: IsStepAction(hooks[i])
    ensures var log := Opening(sid, query, now) + hooks + (if res.Some? then Closing(sid, res.value, now) else []);
            var n := |log|;
            && n >= 3
            && log[0] == Emit(UserMessageEvent(sid, query, now))
            && log[1] == SetStatus(Running, None, None, None)
            && log[2] == Emit(SessionStartedEvent(sid, now))
            && CountTerminal(log) == (if res.Some? then 1 else 0)
            && (forall i | 3 <= i < n - (if res.Some? then 2 else 0) :: IsStepAction(log[i]))
            && (res.Some? ==> n >= 5 && log[n - 2] == Closing(sid, res.value, now)[0]
                                     && log[n - 1] == Closing(sid, res.value, now)[1])
  {
    var opening := Opening(sid, query, now);
    var tail := if res.Some? then Closing(sid, res.value, now) else [];
    var log := opening + hooks + tail;
    NoTerminalAmong(opening);
    NoTerminalAmong(hooks);
    CountTerminalAppend(opening, hooks);
    CountTerminalAppend(opening + hooks, tail);
    if res.Some? {
      assert CountTerminal(tail) == 1 by {
        assert tail[1..][1..] == [];
      }
    }
    assert forall i | 3 <= i < 3 + |hooks| :: log[i] == hooks[i - 3];
  }

  /** The order of effects of one run: the user's message (carrying the raw
      query), the move to running, the start announcement; then only step
      events; then, when the query returned, exactly one status change and one
      terminal announcement in that order, matching the result; and no
      terminal announcement at all when the tool set was rejected. */
  lemma RunProtocol(svc: Service, p: Runner, sid: SessionId, query: string, tools: seq<ToolId>,
                    available: set<ToolId>, sdk: SdkRun, now: Timestamp)
    ensures var r := RunQueryWithSession(svc, p, sid, query, tools, available, sdk, now);
            var n := |r.log|;
            && n >= 3
            && r.log[0] == Emit(UserMessageEvent(sid, query, now))
            && r.log[0].event.output == Some(Text(query))
            && r.log[1] == SetStatus(Running, None, None, None)
            && r.log[2] == Emit(SessionStartedEvent(sid, now))
            && CountTerminal(r.log) == (if r.outcome.Success? then 1 else 0)
            && (r.outcome.Failure? ==> n == 3)
            && (forall i | 3 <= i < n - (if r.outcome.Success? then 2 else 0) :: IsStepAction(r.log[i]))
            && (r.outcome.Success? ==> n >= 5 && match r.outcome.value
                  case Succeeded(out, t) =>
                    r.log[n - 2] == SetStatus(Completed, out, None, Some(t))
                    && r.log[n - 1].Emit? && r.log[n - 1].event.eventType == "session_completed"
                    && r.log[n - 1].event.output == out
                  case QueryFailed(m, t) =>
                    r.log[n - 2] == SetStatus(Failed, None, Some(m), Some(t))
                    && r.log[n - 1].Emit? && r.log[n - 1].event.eventType == "session_failed"
                    && r.log[n - 1].event.error == Some(m))
  {
    var r := RunQueryWithSession(svc, p, sid, query, tools, available, sdk, now);
    RunLogParts(svc, p, sid, query, tools, available, sdk, now);
    if r.outcome.Success? {
      HookLogIsSteps(Some(sid), sdk.steps, now);
      ProtocolOfParts(sid, query, now, HookLog(Some(sid), sdk.steps, now), Some(r.outcome.value));
    } else {
      ProtocolOfParts(sid, query, now, [], None);
      assert r.log == Opening(sid, query, now) + [] + [];
    }
  }

  lemma OpenRunIsReplay(svc: Service, sid: SessionId, query: string, now: Timestamp)
    ensures Replay(svc, sid, Opening(sid, query, now), now) == OpenRun(svc, sid, query, now)
  {
    var opening := Opening(sid, query, now);
    var s1 := Perform(svc, sid, opening[0], now);
    var s2 := Perform(s1, sid, opening[1], now);
    var s3 := Perform(s2, sid, opening[2], now);
    assert opening[1..][0] == opening[1] && opening[1..][1..] == [opening[2]];
    assert Replay(svc, sid, opening, now) == Replay(s1, sid, opening[1..], now);
    assert Replay(s1, sid, opening[1..], now) == Replay(s2, sid, [opening[2]], now);
    assert Replay(s2, sid, [opening[2]], now) == Replay(s3, sid, [], now);
  }

  lemma CloseRunIsReplay(svc: Service, sid: SessionId, res: QueryResult, now: Timestamp)
    ensures Replay(svc, sid, Closing(sid, res, now), now) == CloseRun(svc, sid, res, now)
  {
    var closing := Closing(sid, res, now);
    var s1 := Perform(svc, sid, closing[0], now);
    var s2 := Perform(s1, sid, closing[1], now);
    assert closing[1..] == [closing[1]];
    assert Replay(svc, sid, closing, now) == Replay(s1, sid, [closing[1]], now);
    assert Replay(s1, sid, [closing[1]], now) == Replay(s2, sid, [], now);
  }

  /** A run changes the store exactly as replaying its log does. */
  lemma RunIsReplay(svc: Service, p: Runner, sid: SessionId, query: string, tools: seq<ToolId>,
                    available: set<ToolId>, sdk: SdkRun, now: Timestamp)
    ensures var r := RunQueryWithSession(svc, p, sid, query, tools, available, sdk, now);
            r.svc == Replay(svc, sid, r.log, now)
  {
    var r := RunQueryWithSession(svc, p, sid, query, tools, available, sdk, now);
    var s3 := OpenRun(svc, sid, query, now);
    var q := RunQuery(s3, p.(currentSessionId := Some(sid)), tools, available, sdk, now);
    var opening := Opening(sid, query, now);
    OpenRunIsReplay(svc, sid, query, now);
    ReplayAppend(svc, sid, opening, q.log, now);
    if q.outcome.Success? {
      RunHooksIsReplay(s3, sid, sdk.steps, now);
      assert q.svc == Replay(s3, sid, q.log, now);
      CloseRunIsReplay(q.svc, sid, q.outcome.value, now);
      ReplayAppend(svc, sid, opening + q.log, Closing(sid, q.outcome.value, now), now);
    } else {
      assert q.log == [];
    }
  }

  /** The record of the run's session afterwards: still running when the
      tool set was rejected; otherwise completed with the result and timing,
      or failed with the error and timing. */
  lemma RunFinalRecord(svc: Service, p: Runner, sid: SessionId, query: string, tools: seq<ToolId>,
                       available: set<ToolId>, sdk: SdkRun, now: Timestamp)
    requires sid in svc.sessions
    ensures var r := RunQueryWithSession(svc, p, sid, query, tools, available, sdk, now);
            && sid in r.svc.sessions
            && (r.outcome.Failure? ==> r.svc.sessions[sid].status == Running)
            && (r.outcome.Success? ==> match r.outcome.value
                  case Succeeded(out, t) =>
                    var rec := r.svc.sessions[sid];
                    rec.status == Completed && rec.result == out && rec.error.None?
                    && rec.executionTime == Some(t) && rec.completedAt == Some(now)
                  case QueryFailed(m, t) =>
                    var rec := r.svc.sessions[sid];
                    rec.status == Failed && rec.result.None? && rec.error == Some(m)
                    && rec.executionTime == Some(t) && rec.completedAt == Some(now))
  {
    RunRecord(svc, p, sid, query, tools, available, sdk, now);
    var r := RunQueryWithSession(svc, p, sid, query, tools, available, sdk, now);
    if r.outcome.Success? {
      CloseRecordFields(Transition(svc.sessions[sid], Running, None, None, None, now), r.outcome.value, now);
    }
  }

  /** The fields a closing status change leaves. */
  lemma CloseRecordFields(rec: SessionStatus, res: QueryResult, now: Timestamp)
    ensures var c := CloseRecord(rec, res, now);
            && c.completedAt == Some(now)
            && match res
               case Succeeded(out, t) =>
                 c.status == Completed && c.result == out && c.error.None? && c.executionTime == Some(t)
               case QueryFailed(m, t) =>
                 c.status == Failed && c.result.None? && c.error == Some(m) && c.executionTime == Some(t)
  {
  }

  /** The status change that closes a run with result `res`. */
  function CloseRecord(rec: SessionStatus, res: QueryResult, now: Timestamp): SessionStatus {
    match res
    case Succeeded(out, t) => Transition(rec, Completed, out, None, Some(t), now)
    case QueryFailed(m, t) => Transition(rec, Failed, None, Some(m), Some(t), now)
  }

  /** The record of the run's session afterwards, as the two or three status
      changes of the run. */
  lemma RunRecord(svc: Service, p: Runner, sid: SessionId, query: string, tools: seq<ToolId>,
                  available: set<ToolId>, sdk: SdkRun, now: Timestamp)
    requires sid in svc.sessions
    ensures var r := RunQueryWithSession(svc, p, sid, query, tools, available, sdk, now);
            var running := Transition(svc.sessions[sid], Running, None, None, None, now);
            && sid in r.svc.sessions
            && r.svc.sessions[sid] == (if r.outcome.Failure? then running else CloseRecord(running, r.outcome.value, now))
  {
    var s3 := OpenRun(svc, sid, query, now);
    var q := RunQuery(s3, p.(currentSessionId := Some(sid)), tools, available, sdk, now);
    var r := RunQueryWithSession(svc, p, sid, query, tools, available, sdk, now);
    assert q.svc.sessions == s3.sessions;
    if q.outcome.Success? {
      assert r.svc == CloseRun(q.svc, sid, q.outcome.value, now);
    } else {
      assert r.svc == q.svc;
    }
  }

  /** The event that announces how a run ended. */
  function ClosingEvent(sid: SessionId, res: QueryResult, now: Timestamp): StepEvent {
    match res
    case Succeeded(out, _) => SessionCompletedEvent(sid, out, now)
    case QueryFailed(m, _) => SessionFailedEvent(sid, m, now)
  }

  lemma OpeningEmits(sid: SessionId, query: string, now: Timestamp)
    ensures EmittedEvents(Opening(sid, query, now)) == [UserMessageEvent(sid, query, now), SessionStartedEvent(sid, now)]
  {
    var o := Opening(sid, query, now);
    assert o[1..][1..][1..] == [];
    assert EmittedEvents(o[1..][1..]) == [SessionStartedEvent(sid, now)];
    assert EmittedEvents(o[1..]) == [SessionStartedEvent(sid, now)];
  }

  lemma ClosingEmits(sid: SessionId, res: QueryResult, now: Timestamp)
    ensures EmittedEvents(Closing(sid, res, now)) == [ClosingEvent(sid, res, now)]
  {
    var c := Closing(sid, res, now);
    assert c[1..][1..] == [];
    assert EmittedEvents(c[1..]) == [ClosingEvent(sid, res, now)];
  }

  lemma HookEmits(sid: SessionId, steps: seq<ExecutedStep>, now: Timestamp)
    ensures EmittedEvents(HookLog(Some(sid), steps, now)) == if sid == "" then [] else StepTrail(sid, steps, now)
  {
    if sid != "" {
      EmittedEventsOfEmits(StepTrail(sid, steps, now));
    }
  }

  /** The events one run adds to its session's history, oldest first: the
      user's message and the start announcement, then (unless the tool set
      was rejected) the two events of every executed step and the closing
      announcement.  Steps are not reported for the empty session id. */
  function Transcript(sid: SessionId, query: string, steps: seq<ExecutedStep>,
                      outcome: Result<QueryResult, InvalidToolsError>, now: Timestamp): seq<StepEvent>
  {
    [UserMessageEvent(sid, query, now), SessionStartedEvent(sid, now)]
    + match outcome
      case Failure(_) => []
      case Success(res) => (if sid == "" then [] else StepTrail(sid, steps, now)) + [ClosingEvent(sid, res, now)]
  }

  /** What a completed run's log broadcasts. */
  lemma CompletedLogEmits(sid: SessionId, query: string, steps: seq<ExecutedStep>, res: QueryResult, now: Timestamp)
    ensures EmittedEvents(Opening(sid, query, now) + HookLog(Some(sid), steps, now) + Closing(sid, res, now))
            == Transcript(sid, query, steps, Success(res), now)
  {
    var o := Opening(sid, query, now);
    var h := HookLog(Some(sid), steps, now);
    var c := Closing(sid, res, now);
    EmittedEventsAppend(o + h, c);
    EmittedEventsAppend(o, h);
    OpeningEmits(sid, query, now);
    HookEmits(sid, steps, now);
    ClosingEmits(sid, res, now);
  }

  /** A run broadcasts exactly its transcript. */
  lemma RunEmits(svc: Service, p: Runner, sid: SessionId, query: string, tools: seq<ToolId>,
                 available: set<ToolId>, sdk: SdkRun, now: Timestamp)
    ensures var r := RunQueryWithSession(svc, p, sid, query, tools, available, sdk, now);
            EmittedEvents(r.log) == Transcript(sid, query, sdk.steps, r.outcome, now)
  {
    var r := RunQueryWithSession(svc, p, sid, query, tools, available, sdk, now);
    RunLogParts(svc, p, sid, query, tools, available, sdk, now);
    OpeningEmits(sid, query, now);
    if r.outcome.Success? {
      CompletedLogEmits(sid, query, sdk.steps, r.outcome.value, now);
    }
  }

  /** After a run, the session's history is the most recent events of the
      old history followed by the run's transcript, capped at the limit. */
  lemma RunHistory(svc: Service, p: Runner, sid: SessionId, query: string, tools: seq<ToolId>,
                   available: set<ToolId>, sdk: SdkRun, now: Timestamp)
    requires |History(svc, sid)| <= MAX_EVENTS_PER_SESSION
    ensures var r := RunQueryWithSession(svc, p, sid, query, tools, available, sdk, now);
            History(r.svc, sid) ==
              LastN(History(svc, sid) + Transcript(sid, query, sdk.steps, r.outcome, now), MAX_EVENTS_PER_SESSION)
  {
    var r := RunQueryWithSession(svc, p, sid, query, tools, available, sdk, now);
    RunIsReplay(svc, p, sid, query, tools, available, sdk, now);
    ReplayHistory(svc, sid, r.log, now);
    RunEmits(svc, p, sid, query, tools, available, sdk, now);
  }
}
