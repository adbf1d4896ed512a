# Session backend of portia-agents, modelled in Dafny

The Python backend runs agent queries in the background and streams their
progress to clients as server-sent events. This project models the
server side of that flow as a functional state machine:

- **Session store** (`session_service.dfy`, module `SessionService`). The store holds
  session records and their `pending → running → completed | failed` transitions,
  a history of at most 200 events per session, and the per-session listener sets.
  It also models the bounded client queues, broadcasting with eviction of full
  queues, the "last k events" read, and cleanup. The whole store is one
  immutable `Service` value. `Valid` is the invariant it keeps: no empty
  listener set is stored, every listener has a queue, no history exceeds the cap,
  and every record is stored under its own id.
- **Agent runs** (`portia_service.dfy`, module `PortiaService`). This covers the
  tool-set cache of the agent instance, the step hook that reports every executed
  step, the result shape of one query, and the exact order of status changes and
  broadcasts in one run of a session. Each run also yields its effect log
  (`Action`s). The lemma `RunIsReplay` shows that replaying the log reproduces
  the store.
- **HTTP endpoints** (`sessions_api.dfy`, module `SessionsApi`). These are the
  guards and responses of create, follow-up message, status, events and delete,
  plus the background execution. The event stream is modelled frame by frame:
  subscription, the events that arrive before the history is read, opening
  frames, live frames with heartbeats, and the unsubscribe.
- **Schemas** (`schemas.dfy`, module `Schemas`). These are the request, response
  and event records with their required fields, defaults, minimum lengths and
  literal choices.
- `slicing.dfy` models Python's `xs[start:]` with negative starts.
  `wrappers.dfy` provides `Option` and `Result`.

Abstractions:
- The clock is a `now` timestamp parameter (one reading per operation or per run).
- Fresh `uuid4` ids and fresh queue objects are parameters, assumed fresh.
- The agent SDK is an `SdkRun` input: the steps it executes and how it ends.
- The tool registry is the set `available`. The tool list configured for the
  query type is the parameter `tools`.

Where the comments and the code disagree, the model follows the code:
- The history cap is the constant 200 (`session_service.py:12`). The comments
  at lines 42 and 104 still say 50.
- The `limit` of the events read follows Python slice semantics exactly:
  - `limit = 0` returns the whole history;
  - a negative `limit` drops that many of the oldest events;
  - the endpoint passes `limit` through unchecked.

Status is a four-valued enumeration although the schema types it as text,
because every writer stores one of `pending`, `running`, `completed` and
`failed`.

## Model

| member | source | states |
|---|---|---|
| SessionService.CreateSession | backend/app/services/session_service.py:47-61 | The new record is stored under the fresh id with status pending, the given creation time and every optional field empty. Every other session is unchanged and the store stays valid. |
| SessionService.GetSession | backend/app/services/session_service.py:63-65 | Finds a record exactly when the id is stored, and returns the stored record. |
| SessionService.Transition | backend/app/services/session_service.py:79-88 | A start time is never overwritten once set. Completed and failed stamp the completion time and overwrite result, error and execution time. Any other status leaves result, error, execution time and completion time alone, and only a move to running may touch the start time. |
| SessionService.UpdateSessionStatus | backend/app/services/session_service.py:67-88 | An unknown id leaves the store unchanged. Otherwise only that session's record changes, and the store stays valid. |
| SessionService.FirstRunStampsStart | backend/app/services/session_service.py:82-83 | The first transition to running records the start time. |
| SessionService.TerminalOverwritesOutcome | backend/app/services/session_service.py:84-88 | A later success clears an earlier error. A later failure clears an earlier result and execution time. |
| SessionService.StartedAtWriteOnce | backend/app/services/session_service.py:82-83 | No sequence of status changes and broadcasts alters a start time once it is set. |
| SessionService.AddConnection | backend/app/services/session_service.py:90-92 | The queue joins the session's listeners and no other session's listeners change. |
| SessionService.Disconnect | backend/app/services/session_service.py:94-100 | The queue leaves the session's set. An emptied set is deleted, and the other sessions' entries stay. |
| SessionService.RemoveConnection | backend/app/services/session_service.py:94-100 | The listeners lose the queue, no empty set is stored, other sessions are unchanged, and validity is kept. |
| SessionService.NoEmptyConnectionSet | backend/app/services/session_service.py:98-100 | After a removal, the session has a stored entry exactly when listeners remain. |
| SessionService.GetActiveConnectionsCount | backend/app/services/session_service.py:131-133 | Gives the number of listeners. In a valid store it is positive exactly when the session has a stored entry. |
| SessionService.AppendCapped | backend/app/services/session_service.py:104-108 | The new event is last. Below the cap nothing is dropped. At the cap exactly the oldest entry is dropped and the length stays. The cap of 200 is never exceeded. |
| SessionService.BroadcastEvent | backend/app/services/session_service.py:102-124 | The history gains the event under the cap. Other histories and all records are unchanged, and validity is kept. |
| SessionService.BroadcastDelivery | backend/app/services/session_service.py:110-124 | Every listener with room gets the event at the tail of its queue and stays. Every listener whose queue is full is dropped with its queue untouched. Non-listeners are untouched. |
| SessionService.Broadcast | backend/app/services/session_service.py:102-124 | The loop version runs in two passes: push to each listener and collect the full ones, then remove them one by one. It ends in the same store as `BroadcastEvent`. |
| SessionService.HistoryKeepsMostRecent | backend/app/services/session_service.py:102-108 | After any sequence of broadcasts, the history is the last 200 of the old history followed by the broadcast events, in order. |
| SessionService.ReplayHistory | backend/app/services/session_service.py:102-108 | Replaying any effect log leaves the last 200 of the old history plus every event the log broadcast. |
| SessionService.ReplayKeepsValid | backend/app/services/session_service.py:67-124 | Every effect log (status changes and broadcasts, in any order) keeps the store valid. |
| SessionService.GetSessionEvents | backend/app/services/session_service.py:126-129 | An unknown session gives nothing. `limit >= 1` gives the last `min(limit, n)` events in order. `limit = 0` gives the whole history. A negative `limit` drops the oldest `-limit` events. |
| SessionService.CleanupSession | backend/app/services/session_service.py:135-144 | With listeners it is a no-op. Otherwise the record, the history and the listener entry are all removed, and nothing else changes. |
| SessionService.CleanupRefusedIffConnected | backend/app/services/session_service.py:137-139 | For a stored session, cleanup leaves the store unchanged exactly when it has active listeners. |
| Slicing.SuffixFrom | backend/app/services/session_service.py:129 | `xs[start:]` is a suffix of `xs`. For a non-negative start its length is `n - start`, or 0 when `start >= n`. For a negative start it is `min(-start, n)`. |
| Schemas.ParseQueryType | backend/app/schemas/session.py:16-20 | Only `chat`, `research` and `docs` are accepted, and the parsed value names the given text. |
| Schemas.ValidateCreateRequest | backend/app/schemas/session.py:8-25 | A body is accepted exactly when `query` is present and non-empty and `queryType` is one of the three literals. `repoName` is copied, defaulting to none. A rejected body reports each violated rule and only those. |
| Schemas.ParseSessionStatus | backend/app/schemas/session.py:37-47 | A record is built exactly when `session_id`, `status` and `created_at` are given. The five optional fields default to none, and a failure names each missing required field. |
| Schemas.ParseStepEvent | backend/app/schemas/session.py:50-61 | An event is built exactly when `session_id`, `timestamp`, `event_type` and `status` are given, with any text. The optional fields default to none, and a failure names each missing field. |
| PortiaService.GetInstance | backend/app/services/portia_service.py:117-135 | The same tool set with a cached instance returns that instance without a rebuild. A set that is not a subset of the available tools raises with the requested and available sets. Otherwise a new instance for the set is built and cached. |
| PortiaService.InstanceServesRequestedTools | backend/app/services/portia_service.py:117-133 | Any instance handed out serves exactly the requested tools. The cache stays coherent, and asking again returns the same instance whatever is available then. |
| PortiaService.InstanceFailsIffUnavailable | backend/app/services/portia_service.py:117-135 | The lookup fails exactly when there is no cache hit and some requested tool is unavailable. |
| PortiaService.StepEvents | backend/app/services/portia_service.py:43-71 | A step is reported as `step_update` (running, no output) and then `step_completed` (completed, with the output). Both carry the step's id and tool and its task as name, defaulting to "Unknown Step". |
| PortiaService.StreamStep | backend/app/services/portia_service.py:34-73 | With no current session, or an empty one, the store is unchanged. Otherwise the two step events are appended to the current session's capped history. No record changes, and validity is kept. |
| PortiaService.StepTrail | backend/app/services/portia_service.py:47-71 | The hook over n steps yields 2n events: the update and completion of each step, in step order. |
| PortiaService.RunHooksIsBroadcast | backend/app/services/portia_service.py:34-71 | Running the hook after each step equals broadcasting the step trail to the current session. |
| PortiaService.RunHooksIdle | backend/app/services/portia_service.py:36-38 | With the current session cleared to "", the hook changes nothing. |
| PortiaService.RunQuery | backend/app/services/portia_service.py:137-180 | The query fails exactly when the tool set is rejected, and then nothing has run and nothing has changed. Otherwise an SDK exception becomes an unsuccessful result with its message and time, and a finished run a successful one with its final output and time. Validity is kept. |
| PortiaService.RunQueryWithSession | backend/app/services/portia_service.py:182-286 | The current session is reset to "" on every exit. The run fails exactly when the tool set is rejected. The result mirrors the SDK outcome, no session record is added or removed, and validity is kept. |
| PortiaService.RunProtocol | backend/app/services/portia_service.py:206-282 | The log begins with `user_message` (output = the query), status running, and `session_started`, followed only by step events. A run with a result ends with the terminal status then its announcement (exactly one terminal status). A rejected tool set stops after the three opening effects. |
| PortiaService.RunIsReplay | backend/app/services/portia_service.py:182-286 | The store after a run is the store before it with the run's effect log replayed in order. |
| PortiaService.RunFinalRecord | backend/app/services/portia_service.py:243-270 | After a run the record is completed with result, time and completion stamp, or failed with error and time, or still running when the tool set was rejected. |
| PortiaService.RunRecord | backend/app/services/portia_service.py:206-270 | The session's record after a run is the move to running, followed by the closing status change when the query returned. |
| PortiaService.RunEmits | backend/app/services/portia_service.py:206-280 | The events a run broadcasts are exactly its transcript: user message, start, then (with a result) the step trail and the closing announcement. |
| PortiaService.RunHistory | backend/app/services/portia_service.py:206-280 | After a run, the session's history is the last 200 of the old history followed by the run's transcript. |
| SessionsApi.CreateSessionEndpoint | backend/app/api/sessions.py:31-60 | An invalid body gives 422. Otherwise the new session is pending, the response carries its id, status, creation time and stream URL, the job runs the validated request, and validity is kept. |
| SessionsApi.StreamUrlRoundTrip | backend/app/api/sessions.py:59 | The stream URL `/sessions/{id}/stream` gives back its session id, and every URL of that shape is the stream URL of the id it contains. |
| SessionsApi.AddMessageEndpoint | backend/app/api/sessions.py:86-123 | An invalid body gives 422, an unknown session 404 and a running session 409, each without a change. Otherwise the session is reset to pending with everything else kept. The response says pending, with the original creation time and the session's stream URL. Validity is kept. |
| SessionsApi.AddMessageErrorCodes | backend/app/api/sessions.py:90-103 | Every rejection of a follow-up has code 422, 404 or 409, decided in that order. |
| SessionsApi.FollowUpKeepsStart | backend/app/api/sessions.py:105-116 | A follow-up message and its run keep the session's original start time. |
| SessionsApi.GetSessionStatusEndpoint | backend/app/api/sessions.py:138-149 | An unknown session gives 404. Otherwise the stored record is returned. |
| SessionsApi.GetSessionEventsEndpoint | backend/app/api/sessions.py:229-246 | An unknown session gives 404. Otherwise the events of the `limit` read are returned with their count. A missing `limit` means 50. With `limit >= 1` the count is `min(limit, n)`, and with `limit = 0` the whole history is returned. |
| SessionsApi.DeleteSessionEndpoint | backend/app/api/sessions.py:254-269 | An unknown session gives 404. Otherwise a cleanup is attempted, success is reported, and validity is kept. |
| SessionsApi.DeleteSuccessDoesNotMeanDeleted | backend/app/api/sessions.py:254-269 | A reported delete keeps the session while listeners are connected, and removes it otherwise. |
| SessionsApi.ExecuteSession | backend/app/api/sessions.py:272-289 | A background execution resets the current session, adds or removes no session record, and keeps validity. |
| SessionsApi.ExecutionEndsTerminal | backend/app/api/sessions.py:279-289 | Every execution of a stored session ends completed or failed. It is completed exactly when the tools were accepted and the agent finished. A rejected tool set leaves failed with the exception text and no result. An agent error leaves failed with that error and its time. |
| SessionsApi.ExecutionKeepsStart | backend/app/api/sessions.py:279-289 | An execution never changes a start time once one is recorded. |
| SessionsApi.Subscribe | backend/app/api/sessions.py:170-171 | A connecting stream creates an empty queue of capacity 100 and registers it as a listener. Nothing else changes. |
| SessionsApi.Unsubscribe | backend/app/api/sessions.py:217-218 | A closing stream's queue stops listening. Nothing else changes. |
| SessionsApi.SubscribeUnsubscribeRestores | backend/app/api/sessions.py:169-219 | In a valid store, a stream that comes and goes leaves the listener map exactly as it found it. |
| SessionsApi.OpeningFrames | backend/app/api/sessions.py:174-192 | `connected` comes first, then the last `min(20, n)` stored events in order, flagged historical. |
| SessionsApi.NextFrame | backend/app/api/sessions.py:195-213 | A live frame is the oldest queued event, flagged live and taken off the queue, or a heartbeat when the queue is empty. |
| SessionsApi.OpenStream | backend/app/api/sessions.py:157-192 | An unknown session gives 404. Otherwise the queue is registered, the events that arrive before the history is read are broadcast, and the opening frames are built from the history as it then is: the last 200 of the old history followed by those events. |
| SessionsApi.LiveFrames | backend/app/api/sessions.py:194-213 | Each wait yields one frame, and every live frame is a heartbeat or an event flagged non-historical. |
| SessionsApi.Wait | backend/app/api/sessions.py:195-213 | One wait of a live stream, with events broadcast meanwhile, sends one live frame. The client's queue object stays in the store, though a full queue may have stopped it listening. No record changes, and validity is kept. |
| SessionsApi.StreamSessionEvents | backend/app/api/sessions.py:157-221 | An unknown session gives 404. Otherwise a stream sends one `connected` frame, `min(20, n)` historical frames (n is the history length when it is read) and one frame per wait. At the end the client is no longer a listener, no record has changed, and validity is kept. |
| SessionsApi.StreamFrameOrder | backend/app/api/sessions.py:169-213 | A whole stream sends `connected`, then the most recent (at most 20) events of the history as it is read, in order and flagged historical, then only live events and heartbeats. |
| SessionsApi.LiveStreamIsFifo | backend/app/api/sessions.py:194-201 | While the client's queue has room, at every wait, for the events that arrive during it, the events it was sent, followed by what is still queued, equal what was queued at the start followed by every event broadcast since. Nothing is lost or reordered. |
| SessionsApi.KeepingUpHasRoom | backend/app/api/sessions.py:170-201 | A client that starts with an empty queue and gets at most one event per wait always has room, however long the stream, so such a stream loses nothing. |
| SessionsApi.WaitIsFifo | backend/app/api/sessions.py:195-201 | One wait by a client with room moves the events broadcast meanwhile to the tail of its queue and sends the head, so sent-then-queued equals queued-then-broadcast. |
| SessionService.BroadcastAllQueue | backend/app/services/session_service.py:114-118 | Broadcasts to a listener with room append the events to its queue in order and keep it listening. |
| SessionsApi.ConnectRaceDuplicates | backend/app/api/sessions.py:170-201 | In a whole stream, an event broadcast after the queue is registered but before the history is read is sent twice: as the last historical frame and again as the first live frame. |
| SessionsApi.FirstLiveFrame | backend/app/api/sessions.py:195-201 | The first live frame is the event at the head of the queue, whatever is broadcast during the first wait. |
| SessionService.BroadcastAllKeepsHead | backend/app/services/session_service.py:114-118 | Broadcasts never take an event off a queue, so its head stays the same. |

## Left out

- Transport and concurrency are not modelled:
  - the SSE encoding and JSON dumps of frames;
  - the `connected` frame's message and timestamp;
  - `asyncio` task creation and the thread pool;
  - `request.is_disconnected`.

  The 30-second wait of a live stream is one step: a frame is sent, or a heartbeat if the queue is empty.
- A stream's 404 check and its subscription happen in one step. In the service, the check runs when the request arrives and the subscription only when the generator starts. A session deleted in between is not modelled. The events broadcast between the subscription and the history read are an input (`early`).
- The module-global current session id is a field of `Runner`. The race between concurrent runs sharing it is left out, and runs are sequential.
- Clock readings, `uuid4` and float rounding are left out. `now` is one timestamp per operation or run. `execution_time` is a `real` and is not rounded.
- The agent SDK, `DefaultToolRegistry`, the documentation MCP registry and `config.py` (settings, tool lists and prompt templates) are not modelled. They are inputs: an `SdkRun`, the set `available` and the list `tools`. The query text handed to the SDK (the template filled with the query and the repository name) is not modelled.
- PortiaService.StepEvents: `step.model_dump()` and `output.model_dump()` are not modelled. A step is its id, task and tool, and an output is a `Payload`.
- Errors other than a rejected tool set or an SDK exception are left out, and so are logging and the 500 responses. The `InvalidToolsError` branch of `create_session` (400) is unreachable there and is not modelled.
- SessionsApi.ExecutionEndsTerminal: the text of an `InvalidToolsError` comes from `app/exceptions.py`, which is not part of this model. The error text is the fixed `InvalidToolsError.Text()`.
- The singletons (`get_instance`) are one `Service` and one `Runner` value passed explicitly.
- The `_query` and `_query_type` arguments of `create_session` are unused by the service and are not parameters here.
- Queue items are `StepEvent` values, not their dictionary dumps, and `put_nowait` raising anything but `QueueFull` is not modelled.
- The client-side reconciliation of the event stream (deduplication, ordering and transcript building) lives outside these backend files and is not part of this model.
