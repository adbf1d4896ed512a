/** The in-memory session store: session records, per-session event history
    capped at `MAX_EVENTS_PER_SESSION`, and per-session sets of connected
    client queues that broadcasts are pushed into. */
module SessionService {
  import opened Wrappers
  import opened Slicing
  import opened Schemas

  const MAX_EVENTS_PER_SESSION: nat := 200

  /** Identity of one client queue object. */
  type ClientId = nat

  /** A bounded FIFO of broadcast events waiting to be streamed to one client.
      A `maxsize` of zero means unbounded, as for `asyncio.Queue`. */
  datatype ClientQueue = ClientQueue(items: seq<StepEvent>, maxsize: nat) {
    predicate Full() { maxsize > 0 && |items| >= maxsize }
  }

  /** The whole store.  `queues` holds every client queue that was ever
      created, connected or not; `connections` says which of them listen to
      which session. */
  datatype Service = Service(
    sessions: map<SessionId, SessionStatus>,
    connections: map<SessionId, set<ClientId>>,
    history: map<SessionId, seq<StepEvent>>,
    queues: map<ClientId, ClientQueue>)

  const Initial: Service := Service(map[], map[], map[], map[])

  /** The invariants the store keeps: no empty connection set is stored, every
      connected client has a queue, no history exceeds the cap, and every
      record is stored under its own id. */
  ghost predicate Valid(s: Service) {
    && (forall sid | sid in s.connections :: s.connections[sid] != {})
    && (forall sid, c | sid in s.connections && c in s.connections[sid] :: c in s.queues)
    && (forall sid | sid in s.history :: |s.history[sid]| <= MAX_EVENTS_PER_SESSION)
    && (forall sid | sid in s.sessions :: s.sessions[sid].sessionId == sid)
  }

  lemma InitialValid()
    ensures Valid(Initial)
  {
  }

  /** The stored history of `sid`, empty when there is none. */
  function History(s: Service, sid: SessionId): seq<StepEvent> {
    if sid in s.history then s.history[sid] else []
  }

  /** The clients connected to `sid`, empty when there are none. */
  function Connections(s: Service, sid: SessionId): set<ClientId> {
    if sid in s.connections then s.connections[sid] else {}
  }

  /* ---------------------------------------------------------------------- */
  /* Session records                                                          */
  /* ---------------------------------------------------------------------- */

  function GetSession(s: Service, sid: SessionId): (r: Option<SessionStatus>)
    ensures r.Some? <==> sid in s.sessions
    ensures r.Some? ==> r.value == s.sessions[sid]
  {
    if sid in s.sessions then Some(s.sessions[sid]) else None
  }

  /** Registers a session under `id` (a fresh identifier supplied by the
      caller) as pending, created at `now`, with every optional field empty. */
  function CreateSession(s: Service, id: SessionId, now: Timestamp): (r: (Service, SessionStatus))
    ensures GetSession(r.0, id) == Some(r.1)
    ensures r.1.sessionId == id && r.1.status == Pending && r.1.createdAt == now
    ensures r.1.startedAt.None? && r.1.completedAt.None? && r.1.result.None?
            && r.1.error.None? && r.1.executionTime.None?
    ensures forall other :: other != id ==> GetSession(r.0, other) == GetSession(s, other)
    ensures r.0.connections == s.connections && r.0.history == s.history && r.0.queues == s.queues
    ensures Valid(s) ==> Valid(r.0)
  {
    var record := SessionStatus(id, Pending, now, None, None, None, None, None);
    (s.(sessions := s.sessions[id := record]), record)
  }

  /** Python truthiness of an optional string: present and non-empty. */
  predicate IsSet(o: Option<string>) {
    o.Some? && o.value != ""
  }

  /** The record after a status change.  Entering `Running` stamps
      `startedAt` only if it is not set yet; entering a terminal status stamps
      `completedAt` and overwrites result, error and execution time with the
      arguments; any other change, including a later move to `Running`,
      touches only the status. */
  function Transition(rec: SessionStatus, status: Status, result: Option<Payload>, error: Option<string>,
                      executionTime: Option<Seconds>, now: Timestamp): (r: SessionStatus)
    ensures r.sessionId == rec.sessionId && r.createdAt == rec.createdAt && r.status == status
    ensures IsSet(rec.startedAt) ==> r.startedAt == rec.startedAt
    ensures status.Terminal() ==>
              r.completedAt == Some(now) && r.result == result && r.error == error && r.executionTime == executionTime
    ensures !status.Terminal() ==>
              r.completedAt == rec.completedAt && r.result == rec.result && r.error == rec.error
              && r.executionTime == rec.executionTime
    ensures status != Running ==> r.startedAt == rec.startedAt
  {
    var rec' := rec.(status := status);
    if status == Running && !IsSet(rec.startedAt) then
      rec'.(startedAt := Some(now))
    else if status == Completed || status == Failed then
      rec'.(completedAt := Some(now), result := result, error := error, executionTime := executionTime)
    else
      rec'
  }

  /** Changes the status of a known session; unknown ids are ignored. */
  function UpdateSessionStatus(s: Service, sid: SessionId, status: Status, result: Option<Payload>,
                               error: Option<string>, executionTime: Option<Seconds>, now: Timestamp): (r: Service)
    ensures sid !in s.sessions ==> r == s
    ensures sid in s.sessions ==>
              GetSession(r, sid) == Some(Transition(s.sessions[sid], status, result, error, executionTime, now))
    ensures r.sessions.Keys == s.sessions.Keys
    ensures forall other :: other != sid ==> GetSession(r, other) == GetSession(s, other)
    ensures r.connections == s.connections && r.history == s.history && r.queues == s.queues
    ensures Valid(s) ==> Valid(r)
  {
    if sid !in s.sessions then s
    else s.(sessions := s.sessions[sid := Transition(s.sessions[sid], status, result, error, executionTime, now)])
  }

  /** The first move to `Running` stamps the start time with the clock. */
  lemma FirstRunStampsStart(rec: SessionStatus, now: Timestamp)
    requires !IsSet(rec.startedAt)
    ensures Transition(rec, Running, None, None, None, now).startedAt == Some(now)
  {
  }

  /** A terminal status replaces all outcome fields, so a success following a
      failure leaves no stale error behind, and a failure leaves no stale
      result. */
  lemma TerminalOverwritesOutcome(rec: SessionStatus, result: Payload, seconds: Seconds,
                                  error: string, now1: Timestamp, now2: Timestamp)
    ensures var failed := Transition(rec, Failed, None, Some(error), Some(seconds), now1);
            var done := Transition(failed, Completed, Some(result), None, Some(seconds), now2);
            done.error.None? && done.result == Some(result) && done.completedAt == Some(now2)
    ensures var done := Transition(rec, Completed, Some(result), None, Some(seconds), now1);
            var failed := Transition(done, Failed, None, Some(error), None, now2);
            failed.result.None? && failed.error == Some(error) && failed.executionTime.None?
  {
  }

  /* ---------------------------------------------------------------------- */
  /* Connections                                                              */
  /* ---------------------------------------------------------------------- */

  /** Registers an existing client queue as a listener of `sid`. */
  function AddConnection(s: Service, sid: SessionId, c: ClientId): (r: Service)
    requires c in s.queues
    ensures Connections(r, sid) == Connections(s, sid) + {c}
    ensures forall other :: other != sid ==> Connections(r, other) == Connections(s, other)
    ensures r.connections.Keys == s.connections.Keys + {sid}
    ensures Valid(s) ==> Valid(r)
    ensures r.sessions == s.sessions && r.history == s.history && r.queues == s.queues
  {
    s.(connections := s.connections[sid := Connections(s, sid) + {c}])
  }

  /** `remove_connection` on the bare connection map: drops `c` from the set of
      `sid` and deletes the entry once the set is empty. */
  function Disconnect(conns: map<SessionId, set<ClientId>>, sid: SessionId, c: ClientId): (r: map<SessionId, set<ClientId>>)
    ensures sid in r ==> r[sid] != {}
    ensures (if sid in r then r[sid] else {}) == (if sid in conns then conns[sid] else {}) - {c}
    ensures r.Keys <= conns.Keys
    ensures forall other | other != sid :: other in r <==> other in conns
    ensures forall other | other != sid && other in r :: r[other] == conns[other]
  {
    var rest := (if sid in conns then conns[sid] else {}) - {c};
    if rest == {} then conns - {sid} else conns[sid := rest]
  }

  function RemoveConnection(s: Service, sid: SessionId, c: ClientId): (r: Service)
    ensures Connections(r, sid) == Connections(s, sid) - {c}
    ensures sid in r.connections ==> r.connections[sid] != {}
    ensures forall other :: other != sid ==> Connections(r, other) == Connections(s, other)
    ensures Valid(s) ==> Valid(r)
    ensures r.sessions == s.sessions && r.history == s.history && r.queues == s.queues
  {
    s.(connections := Disconnect(s.connections, sid, c))
  }

  /** After a removal, a session has a stored connection entry exactly when
      it has at least one listener left, so removing the last listener leaves
      no entry behind. */
  lemma NoEmptyConnectionSet(s: Service, sid: SessionId, c: ClientId)
    ensures sid in RemoveConnection(s, sid, c).connections <==> Connections(s, sid) - {c} != {}
  {
  }

  function GetActiveConnectionsCount(s: Service, sid: SessionId): (r: nat)
    ensures Valid(s) ==> (r > 0 <==> sid in s.connections)
    ensures r == |Connections(s, sid)|
  {
    if sid in s.connections then |s.connections[sid]| else 0
  }

  /* ---------------------------------------------------------------------- */
  /* Broadcasting                                                             */
  /* ---------------------------------------------------------------------- */

  /** The history after `e` is appended, dropping the oldest entry when the
      cap is exceeded. */
  function AppendCapped(h: seq<StepEvent>, e: StepEvent): (r: seq<StepEvent>)
    ensures |r| > 0 && r[|r| - 1] == e
    ensures |h| < MAX_EVENTS_PER_SESSION ==> r == h + [e]
    ensures |h| >= MAX_EVENTS_PER_SESSION ==> r == h[1..] + [e] && |r| == |h|
    ensures |h| <= MAX_EVENTS_PER_SESSION ==> |r| <= MAX_EVENTS_PER_SESSION
  {
    var h' := h + [e];
    if |h'| > MAX_EVENTS_PER_SESSION then h'[1..] else h'
  }

  function Put(q: ClientQueue, e: StepEvent): ClientQueue {
    q.(items := q.items + [e])
  }

  /** A listener is dropped when its queue cannot take the event. */
  predicate Rejects(s: Service, c: ClientId) {
    c !in s.queues || s.queues[c].Full()
  }

  /** The listeners of `sid` that a broadcast drops. */
  function Evicted(s: Service, sid: SessionId): set<ClientId> {
    set c | c in Connections(s, sid) && Rejects(s, c)
  }

  /** Every queue after delivery: listeners of `sid` with room receive `e`,
      every other queue is unchanged. */
  function Deliver(s: Service, sid: SessionId, e: StepEvent): map<ClientId, ClientQueue> {
    map c | c in s.queues :: if c in Connections(s, sid) && !s.queues[c].Full() then Put(s.queues[c], e) else s.queues[c]
  }

  /** The connection map after the dropped listeners are removed one by one. */
  function DisconnectAll(conns: map<SessionId, set<ClientId>>, sid: SessionId, gone: set<ClientId>): map<SessionId, set<ClientId>> {
    if gone == {} then conns
    else
      var rest := (if sid in conns then conns[sid] else {}) - gone;
      if rest == {} then conns - {sid} else conns[sid := rest]
  }

  /** Stores `e` in the history of `sid` and pushes it to every listener. */
  function BroadcastEvent(s: Service, sid: SessionId, e: StepEvent): (r: Service)
    ensures History(r, sid) == AppendCapped(History(s, sid), e)
    ensures forall other :: other != sid ==> History(r, other) == History(s, other)
    ensures r.sessions == s.sessions && r.queues.Keys == s.queues.Keys
    ensures Valid(s) ==> Valid(r)
  {
    Service(
      s.sessions,
      DisconnectAll(s.connections, sid, Evicted(s, sid)),
      s.history[sid := AppendCapped(History(s, sid), e)],
      Deliver(s, sid, e))
  }

  /** What a broadcast does to the listeners: each listener with room gets
      `e` at the tail of its queue and stays; each listener whose queue is full
      is dropped with its queue untouched; queues of non-listeners and the
      listeners of other sessions are unchanged. */
  lemma BroadcastDelivery(s: Service, sid: SessionId, e: StepEvent)
    requires Valid(s)
    ensures var r := BroadcastEvent(s, sid, e);
            && r.queues.Keys == s.queues.Keys
            && (forall c | c in Connections(s, sid) && !s.queues[c].Full() ::
                  r.queues[c].items == s.queues[c].items + [e] && c in Connections(r, sid))
            && (forall c | c in Connections(s, sid) && s.queues[c].Full() ::
                  r.queues[c] == s.queues[c] && c !in Connections(r, sid))
            && (forall c | c in s.queues && c !in Connections(s, sid) :: r.queues[c] == s.queues[c])
            && Connections(r, sid) <= Connections(s, sid)
            && (forall other | other != sid :: Connections(r, other) == Connections(s, other))
  {
    var r := BroadcastEvent(s, sid, e);
    assert r.queues == Deliver(s, sid, e);
    EvictedLeave(s, sid, e);
  }

  /** The listeners left after a broadcast are exactly those with room. */
  lemma EvictedLeave(s: Service, sid: SessionId, e: StepEvent)
    ensures var r := BroadcastEvent(s, sid, e);
            && Connections(r, sid) == Connections(s, sid) - Evicted(s, sid)
            && (forall other | other != sid :: Connections(r, other) == Connections(s, other))
  {
  }

  /** The broadcast loop as written: push to each listener in turn, collect
      the ones whose queue is full, then remove those one by one. */
  method Broadcast(s: Service, sid: SessionId, e: StepEvent) returns (r: Service)
    ensures r == BroadcastEvent(s, sid, e)
  {
    var events := History(s, sid) + [e];
    if |events| > MAX_EVENTS_PER_SESSION {
      events := events[1..];
    }
    var listeners := Connections(s, sid);
    var queues := s.queues;
    var disconnected: set<ClientId> := {};
    var todo := listeners;
    while todo != {}
      invariant todo <= listeners
      invariant disconnected == set c | c in listeners - todo && Rejects(s, c)
      invariant queues.Keys == s.queues.Keys
      invariant forall c | c in queues ::
                  queues[c] == if c in listeners - todo && !s.queues[c].Full() then Put(s.queues[c], e) else s.queues[c]
      decreases todo
    {
      var c :| c in todo;
      if c in queues && !queues[c].Full() {
        queues := queues[c := Put(queues[c], e)];
      } else {
        disconnected := disconnected + {c};
      }
      todo := todo - {c};
    }
    assert queues == Deliver(s, sid, e);
    assert listeners - todo == listeners;
    assert disconnected == Evicted(s, sid);
    var connections := s.connections;
    var pending := disconnected;
    while pending != {}
      invariant pending <= disconnected
      invariant connections == DisconnectAll(s.connections, sid, disconnected - pending)
      decreases pending
    {
      var c :| c in pending;
      DisconnectOneMore(s.connections, sid, disconnected - pending, c);
      connections := Disconnect(connections, sid, c);
      assert disconnected - (pending - {c}) == (disconnected - pending) + {c};
      pending := pending - {c};
    }
    assert disconnected - pending == disconnected;
    assert events == AppendCapped(History(s, sid), e);
    r := Service(s.sessions, connections, s.history[sid := events], queues);
  }

  lemma DisconnectOneMore(conns: map<SessionId, set<ClientId>>, sid: SessionId, gone: set<ClientId>, c: ClientId)
    ensures Disconnect(DisconnectAll(conns, sid, gone), sid, c) == DisconnectAll(conns, sid, gone + {c})
  {
    var all := if sid in conns then conns[sid] else {};
    assert all - gone - {c} == all - (gone + {c});
    if gone != {} {
      var rest := all - gone;
      if rest == {} {
        assert DisconnectAll(conns, sid, gone) == conns - {sid};
        assert (conns - {sid}) - {sid} == conns - {sid};
      } else {
        var m := conns[sid := rest];
        assert m - {sid} == conns - {sid};
        assert m[sid := rest - {c}] == conns[sid := rest - {c}];
      }
    } else {
      assert gone + {c} == {c};
      assert DisconnectAll(conns, sid, gone) == conns;
    }
  }

  /** Broadcasts each of `es` in order. */
  function BroadcastAll(s: Service, sid: SessionId, es: seq<StepEvent>): (r: Service)
    ensures r.sessions == s.sessions && r.queues.Keys == s.queues.Keys
    ensures Valid(s) ==> Valid(r)
    decreases |es|
  {
    if es == [] then s else BroadcastAll(BroadcastEvent(s, sid, es[0]), sid, es[1..])
  }

  /** Whatever was broadcast, the history of a session holds the most recent
      `MAX_EVENTS_PER_SESSION` of its events, in broadcast order: nothing is
      dropped below the cap, and only the oldest ones beyond it. */
  lemma {:induction false} HistoryKeepsMostRecent(s: Service, sid: SessionId, es: seq<StepEvent>)
    requires |History(s, sid)| <= MAX_EVENTS_PER_SESSION
    ensures History(BroadcastAll(s, sid, es), sid) == LastN(History(s, sid) + es, MAX_EVENTS_PER_SESSION)
    decreases |es|
  {
    var h := History(s, sid);
    if es == [] {
      assert h + es == h;
    } else {
      var s1 := BroadcastEvent(s, sid, es[0]);
      var h1 := History(s1, sid);
      assert BroadcastAll(s, sid, es) == BroadcastAll(s1, sid, es[1..]);
      AppendCappedIsLastN(h, es[0]);
      assert h1 == LastN(h + [es[0]], MAX_EVENTS_PER_SESSION);
      HistoryKeepsMostRecent(s1, sid, es[1..]);
      assert History(BroadcastAll(s, sid, es), sid) == LastN(h1 + es[1..], MAX_EVENTS_PER_SESSION);
      LastNAbsorbs(h + [es[0]], es[1..], MAX_EVENTS_PER_SESSION);
      SplitFirst(h, es);
    }
  }

  /** A queue with room for all of `extra`. */
  predicate Room(q: ClientQueue, extra: nat) {
    q.maxsize == 0 || |q.items| + extra <= q.maxsize
  }

  /** One broadcast to a listener whose queue is not full. */
  lemma BroadcastToRoomy(s: Service, sid: SessionId, c: ClientId, e: StepEvent)
    requires c in Connections(s, sid) && c in s.queues && !s.queues[c].Full()
    ensures var r := BroadcastEvent(s, sid, e);
            c in r.queues && r.queues[c] == Put(s.queues[c], e) && c in Connections(r, sid)
  {
    assert c !in Evicted(s, sid);
  }

  /** Broadcasting to a listener with room appends the events to its queue
      in order and keeps it connected. */
  lemma {:induction false} BroadcastAllQueue(s: Service, sid: SessionId, c: ClientId, es: seq<StepEvent>)
    requires c in Connections(s, sid) && c in s.queues && Room(s.queues[c], |es|)
    ensures var r := BroadcastAll(s, sid, es);
            && c in Connections(r, sid) && c in r.queues
            && r.queues[c] == s.queues[c].(items := s.queues[c].items + es)
    decreases |es|
  {
    if es == [] {
      assert s.queues[c].items + es == s.queues[c].items;
    } else {
      var q := s.queues[c];
      var s1 := BroadcastEvent(s, sid, es[0]);
      BroadcastToRoomy(s, sid, c, es[0]);
      assert s1.queues[c] == q.(items := q.items + [es[0]]);
      assert Room(s1.queues[c], |es[1..]|);
      BroadcastAllQueue(s1, sid, c, es[1..]);
      assert BroadcastAll(s, sid, es) == BroadcastAll(s1, sid, es[1..]);
      SplitFirst(q.items, es);
    }
  }

  /** Broadcasts never take anything off a queue: a queued event stays at
      its head whatever is broadcast behind it. */
  lemma {:induction false} BroadcastAllKeepsHead(s: Service, sid: SessionId, c: ClientId, es: seq<StepEvent>)
    requires c in s.queues && s.queues[c].items != []
    ensures var r := BroadcastAll(s, sid, es);
            c in r.queues && r.queues[c].items != [] && r.queues[c].items[0] == s.queues[c].items[0]
    decreases |es|
  {
    if es != [] {
      var s1 := BroadcastEvent(s, sid, es[0]);
      assert s1.queues[c].items[0] == s.queues[c].items[0];
      BroadcastAllKeepsHead(s1, sid, c, es[1..]);
    }
  }

  lemma SplitFirst<T>(h: seq<T>, es: seq<T>)
    requires es != []
    ensures h + [es[0]] + es[1..] == h + es
  {
    assert es == [es[0]] + es[1..];
  }

  lemma {:induction false} BroadcastAllAppend(s: Service, sid: SessionId, a: seq<StepEvent>, b: seq<StepEvent>)
    ensures BroadcastAll(s, sid, a + b) == BroadcastAll(BroadcastAll(s, sid, a), sid, b)
    decreases |a|
  {
    if a == [] {
      assert a + b == b;
    } else {
      assert (a + b)[0] == a[0];
      assert (a + b)[1..] == a[1..] + b;
      BroadcastAllAppend(BroadcastEvent(s, sid, a[0]), sid, a[1..], b);
    }
  }

  lemma AppendCappedIsLastN(h: seq<StepEvent>, e: StepEvent)
    requires |h| <= MAX_EVENTS_PER_SESSION
    ensures AppendCapped(h, e) == LastN(h + [e], MAX_EVENTS_PER_SESSION)
  {
  }

  /* ---------------------------------------------------------------------- */
  /* Reading history and cleaning up                                          */
  /* ---------------------------------------------------------------------- */

  /** `events[-limit:]` of the stored history, or nothing when the history is
      empty or unknown.  A positive `limit` gives the last `limit` events, a
      zero `limit` the whole history, a negative one the history without its
      first `-limit` events. */
  function GetSessionEvents(s: Service, sid: SessionId, limit: int): (r: seq<StepEvent>)
    ensures sid !in s.history ==> r == []
    ensures limit >= 1 ==> r == LastN(History(s, sid), limit)
    ensures limit == 0 ==> r == History(s, sid)
    ensures limit < 0 ==> r == History(s, sid)[Min(-limit, |History(s, sid)|)..]
  {
    var events := History(s, sid);
    if events == [] then [] else SuffixFrom(events, -limit)
  }

  /** Removes every trace of `sid`, unless it still has listeners. */
  function CleanupSession(s: Service, sid: SessionId): (r: Service)
    ensures Connections(s, sid) != {} ==> r == s
    ensures Connections(s, sid) == {} ==>
              && sid !in r.sessions && sid !in r.history && sid !in r.connections
              && (forall other :: other != sid ==> GetSession(r, other) == GetSession(s, other))
              && (forall other :: other != sid ==> History(r, other) == History(s, other))
              && (forall other :: other != sid ==> Connections(r, other) == Connections(s, other))
    ensures r.queues == s.queues
    ensures Valid(s) ==> Valid(r)
  {
    if sid in s.connections && s.connections[sid] != {} then s
    else Service(s.sessions - {sid}, s.connections - {sid}, s.history - {sid}, s.queues)
  }

  /** In a valid store, cleanup is a no-op exactly when the session has
      active connections. */
  lemma CleanupRefusedIffConnected(s: Service, sid: SessionId)
    requires Valid(s)
    requires sid in s.sessions
    ensures CleanupSession(s, sid) == s <==> GetActiveConnectionsCount(s, sid) > 0
  {
    if GetActiveConnectionsCount(s, sid) == 0 {
      assert sid !in CleanupSession(s, sid).sessions;
    }
  }

  /* ---------------------------------------------------------------------- */
  /* Effect logs                                                              */
  /* ---------------------------------------------------------------------- */

  /** One effect a run has on the store for its session. */
  datatype Action =
    | Emit(event: StepEvent)
    | SetStatus(status: Status, result: Option<Payload>, error: Option<string>, executionTime: Option<Seconds>)

  function Perform(s: Service, sid: SessionId, a: Action, now: Timestamp): Service {
    match a
    case Emit(e) => BroadcastEvent(s, sid, e)
    case SetStatus(st, res, err, t) => UpdateSessionStatus(s, sid, st, res, err, t, now)
  }

  /** The store after performing `log` in order. */
  function Replay(s: Service, sid: SessionId, log: seq<Action>, now: Timestamp): Service
    decreases |log|
  {
    if log == [] then s else Replay(Perform(s, sid, log[0], now), sid, log[1..], now)
  }

  lemma {:induction false} ReplayAppend(s: Service, sid: SessionId, a: seq<Action>, b: seq<Action>, now: Timestamp)
    ensures Replay(s, sid, a + b, now) == Replay(Replay(s, sid, a, now), sid, b, now)
    decreases |a|
  {
    if a == [] {
      assert a + b == b;
    } else {
      assert (a + b)[0] == a[0];
      assert (a + b)[1..] == a[1..] + b;
      ReplayAppend(Perform(s, sid, a[0], now), sid, a[1..], b, now);
    }
  }

  /** Broadcasting a list of events is replaying their `Emit` actions. */
  lemma {:induction false} BroadcastAllIsReplay(s: Service, sid: SessionId, es: seq<StepEvent>, now: Timestamp)
    ensures BroadcastAll(s, sid, es) == Replay(s, sid, Emits(es), now)
    decreases |es|
  {
    if es != [] {
      assert Emits(es)[0] == Emit(es[0]);
      assert Emits(es)[1..] == Emits(es[1..]);
      BroadcastAllIsReplay(BroadcastEvent(s, sid, es[0]), sid, es[1..], now);
    }
  }

  function Emits(es: seq<StepEvent>): (r: seq<Action>)
    ensures |r| == |es|
    ensures forall i | 0 <= i < |es| :: r[i] == Emit(es[i])
  {
    seq(|es|, i requires 0 <= i < |es| => Emit(es[i]))
  }

  /** Every effect log keeps the store's invariants: status changes and
      broadcasts each preserve them, so any sequence of them does. */
  lemma {:induction false} ReplayKeepsValid(s: Service, sid: SessionId, log: seq<Action>, now: Timestamp)
    requires Valid(s)
    ensures Valid(Replay(s, sid, log, now))
    decreases |log|
  {
    if log != [] {
      ReplayKeepsValid(Perform(s, sid, log[0], now), sid, log[1..], now);
    }
  }

  /** Once a session has a start time, no later effect alters it: later runs
      move the session to running again without restamping. */
  lemma {:induction false} StartedAtWriteOnce(s: Service, sid: SessionId, log: seq<Action>, now: Timestamp)
    requires sid in s.sessions && IsSet(s.sessions[sid].startedAt)
    ensures sid in Replay(s, sid, log, now).sessions
    ensures Replay(s, sid, log, now).sessions[sid].startedAt == s.sessions[sid].startedAt
    decreases |log|
  {
    if log != [] {
      StartedAtWriteOnce(Perform(s, sid, log[0], now), sid, log[1..], now);
    }
  }

  /** The events a log broadcasts, in order. */
  function EmittedEvents(log: seq<Action>): seq<StepEvent>
    decreases |log|
  {
    if log == [] then []
    else (if log[0].Emit? then [log[0].event] else []) + EmittedEvents(log[1..])
  }

  lemma {:induction false} EmittedEventsAppend(a: seq<Action>, b: seq<Action>)
    ensures EmittedEvents(a + b) == EmittedEvents(a) + EmittedEvents(b)
    decreases |a|
  {
    if a == [] {
      assert a + b == b;
    } else {
      assert (a + b)[0] == a[0];
      assert (a + b)[1..] == a[1..] + b;
      EmittedEventsAppend(a[1..], b);
    }
  }

  lemma {:induction false} EmittedEventsOfEmits(es: seq<StepEvent>)
    ensures EmittedEvents(Emits(es)) == es
    decreases |es|
  {
    if es != [] {
      assert Emits(es)[1..] == Emits(es[1..]);
      EmittedEventsOfEmits(es[1..]);
    }
  }

  /** Replaying a log leaves in the history of its session the most recent
      events of the old history followed by everything the log broadcast. */
  lemma {:induction false} ReplayHistory(s: Service, sid: SessionId, log: seq<Action>, now: Timestamp)
    requires |History(s, sid)| <= MAX_EVENTS_PER_SESSION
    ensures History(Replay(s, sid, log, now), sid) == LastN(History(s, sid) + EmittedEvents(log), MAX_EVENTS_PER_SESSION)
    decreases |log|
  {
    var h := History(s, sid);
    if log == [] {
      assert h + [] == h;
    } else {
      var s1 := Perform(s, sid, log[0], now);
      assert Replay(s, sid, log, now) == Replay(s1, sid, log[1..], now);
      var rest := EmittedEvents(log[1..]);
      if log[0].Emit? {
        var e := log[0].event;
        assert EmittedEvents(log) == [e] + rest;
        AppendCappedIsLastN(h, e);
        ReplayHistory(s1, sid, log[1..], now);
        LastNAbsorbs(h + [e], rest, MAX_EVENTS_PER_SESSION);
        ConcatAssoc(h, [e], rest);
      } else {
        assert EmittedEvents(log) == rest;
        assert History(s1, sid) == h;
        ReplayHistory(s1, sid, log[1..], now);
      }
    }
  }

  lemma ConcatAssoc<T>(a: seq<T>, b: seq<T>, c: seq<T>)
    ensures a + b + c == a + (b + c)
  {
  }
}
