/**
  Every run of the daemon: its event loop, the calls it spawns to end sessions, the reclaimer and restarts, in any
  interleaving. Beside the daemon, a world keeps what the server knows: which sessions it has granted, which it has
  reported to be over and about which it has answered an end call.
 */
module DaemonRuns {
  import opened Options
  import opened VpnSession
  import opened Reclaimer
  import opened Daemon

  // A request for a session that the event loop waits for the answer to.
  datatype Ask = Ask(requestId: Uuid, location: Location)

  datatype World = World(
    d: DaemonModel,
    alive: bool,                    // false once the event loop has panicked, until the next start
    asking: Option<Ask>,
    lost: set<Uuid>,                // requests whose answer a restart cut off
    pending: set<SessionInfo>,      // end calls of spawned tasks, not yet answered
    reclaiming: set<SessionInfo>,   // sessions the reclaimer has yet to end in the pass it is in
    used: set<Uuid>,                // request ids drawn so far
    granted: map<Uuid, Uuid>,       // sessions the server has granted, by request
    reported: set<Uuid>,            // of these, reported Failed or Ended while their row was live
    answered: set<Uuid>)            // of these, settled by the answer to an end call

  datatype Event =
    | Connect(location: Location, requestId: Uuid)
    | Answer(reply: NewSessionReply)
    | Disconnect(found: Option<Uuid>, reason: string)
    | ServerStatus(status: VpnSessionStatus)
    | Tunnel(transition: TunnelStateTransition, found: Option<Uuid>, ended: Option<Uuid>, now: Timestamp)
    | EndAnswered(session: SessionInfo, answer: EndAnswer)
    | ReclaimPass
    | ReclaimAnswered(session: SessionInfo, answer: EndAnswer)
    | Restart

  const FRESH := World(DaemonModel(VpnStatus.Disconnected, map[], map[], []), true, None, {}, {}, {}, {}, map[], {}, {})

  // The event loop takes events while it lives and does not wait for an answer.
  predicate Listening(w: World) {
    w.alive && w.asking.None?
  }

  // What can happen next. Request ids are new, the server grants the request it was sent, queries find rows that are
  // there. Tasks, the reclaimer and restarts go on while the event loop waits.
  predicate Allowed(w: World, e: Event) {
    match e
    case Connect(_, id) => Listening(w) && id !in w.used && id !in w.d.rows
    case Answer(reply) => w.alive && w.asking.Some? && (reply.Granted? ==> reply.requestId == w.asking.value.requestId)
    case Disconnect(found, _) => Listening(w) && IsPick(w.d.rows, found)
    case ServerStatus(_) => Listening(w)
    case Tunnel(_, found, ended, _) => Listening(w) && IsPick(w.d.rows, found) && IsPick(w.d.rows, ended)
    case EndAnswered(session, _) => session in w.pending
    case ReclaimPass => w.reclaiming == {}
    case ReclaimAnswered(session, _) => session in w.reclaiming
    case Restart => true
  }

  function Singleton<T>(x: Option<T>): set<T> {
    if x.Some? then {x.value} else {}
  }

  // The server reports the end of a session whose row is live.
  predicate Over(rows: Rows, status: VpnSessionStatus) {
    (status.Failed? || status.Ended?) && Unmarked(rows, status.requestId)
  }

  function Step(w: World, e: Event): World
    requires Allowed(w, e)
  {
    match e
    case Connect(location, id) =>
      var w := w.(used := w.used + {id});
      if InProgress(w.d.status).Some? then w
      else w.(d := AfterAsk(w.d, location, id), asking := Some(Ask(id, location)))
    case Answer(reply) =>
      var Ask(id, location) := w.asking.value;
      w.(d := AfterReply(w.d, location, id, reply), asking := None,
         granted := if reply.Granted? then w.granted[id := reply.uuid] else w.granted)
    case Disconnect(found, reason) =>
      w.(d := AfterDisconnect(w.d, found, reason), pending := w.pending + Singleton(EndedSession(w.d.rows, found)))
    case ServerStatus(status) =>
      var over := if Over(w.d.rows, status) then {status.requestId} else {};
      w.(d := AfterStatus(w.d, status), reported := w.reported + over)
    case Tunnel(transition, found, ended, now) =>
      var after := AfterTunnel(w.d, transition, found, ended, now);
      if after.None? then w.(alive := false)
      else
        var task := if transition.Error? then Singleton(EndedSession(w.d.rows, ended)) else {};
        w.(d := after.value, pending := w.pending + task)
    case EndAnswered(session, answer) =>
      var w := w.(pending := w.pending - {session});
      if answer.Ended? then Settled(w, session.requestId) else w
    case ReclaimPass =>
      w.(reclaiming := ToReclaim(w.d.rows))
    case ReclaimAnswered(session, answer) =>
      var w := w.(reclaiming := w.reclaiming - {session});
      if Settles(answer) then Settled(w, session.requestId) else w
    case Restart =>
      w.(d := DaemonModel(VpnStatus.Disconnected, map[], MarkAll(w.d.rows), w.d.log), alive := true,
         asking := None, lost := w.lost + Waiting(w), pending := {}, reclaiming := {})
  }

  // The request whose answer is waited for.
  function Waiting(w: World): set<Uuid> {
    if w.asking.Some? then {w.asking.value.requestId} else {}
  }

  function Settled(w: World, id: Uuid): World {
    w.(d := w.d.(rows := w.d.rows - {id}), answered := w.answered + {id})
  }

  ghost predicate AllowedRun(w: World, events: seq<Event>)
    decreases |events|
  {
    events == [] || (Allowed(w, events[0]) && AllowedRun(Step(w, events[0]), events[1..]))
  }

  ghost function Run(w: World, events: seq<Event>): World
    requires AllowedRun(w, events)
    decreases |events|
  {
    if events == [] then w else Run(Step(w, events[0]), events[1..])
  }

  // No session is forgotten or invented: the table holds exactly the sessions granted that are neither reported to be
  // over nor settled, each with the uuid the server gave it; beside them, without uuid, the request whose answer is
  // waited for and, marked, those whose answer was cut off.
  ghost predicate Conserved(w: World) {
    && w.d.rows.Keys == (w.granted.Keys - w.reported - w.answered) + Waiting(w) + w.lost
    && (forall id :: id in w.d.rows && id in w.granted ==> w.d.rows[id].sessionUuid == Some(w.granted[id]))
    && (forall id :: id in w.lost ==> w.d.rows[id].markForDeletion && w.d.rows[id].sessionUuid.None?)
    && (w.asking.Some? ==> var Ask(id, location) := w.asking.value; w.alive && w.d.status.Disconnected? && w.d.rows[id] == NewRow(location))
    && w.granted.Keys !! Waiting(w) && w.granted.Keys !! w.lost && Waiting(w) !! w.lost
    && w.granted.Keys + Waiting(w) + w.lost <= w.used && w.reported <= w.granted.Keys && w.answered <= w.granted.Keys
  }

  predicate Known(w: World, session: SessionInfo) {
    session.requestId in w.granted && w.granted[session.requestId] == session.vpnSessionId
  }

  // Calls under way are about sessions the server granted, by the uuid it gave them, and about no live row.
  ghost predicate CallsKnown(w: World) {
    forall session :: session in w.pending || session in w.reclaiming
      ==> Known(w, session) && !Unmarked(w.d.rows, session.requestId)
  }

  // So are the calls made: the server hears only of sessions it granted.
  ghost predicate LogKnown(w: World) {
    && (forall i :: 0 <= i < |w.d.log| && w.d.log[i].ClientConnectedCall? ==> Known(w, w.d.log[i].session))
    && (forall i :: 0 <= i < |w.d.log| && Ends(w.d.log[i])
          ==> Known(w, w.d.log[i].info.value) && !Unmarked(w.d.rows, w.d.log[i].info.value.requestId))
    && (forall i, j :: 0 <= i < j < |w.d.log| && Ends(w.d.log[i]) && Ends(w.d.log[j])
          ==> w.d.log[i].info.value.requestId != w.d.log[j].info.value.requestId)
  }

  predicate Ends(output: Output) {
    output.EndSessionTask? && output.info.Some?
  }

  predicate Underway(status: VpnStatus) {
    !status.Disconnected? && !status.Disconnecting?
  }

  // The status shown and the table agree: at most one row is live, it is at the place shown, there is none when
  // nothing is shown and one while a session is under way.
  ghost predicate StatusAgrees(status: VpnStatus, rows: Rows) {
    && AtMostOneUnmarked(rows)
    && (forall id :: Unmarked(rows, id) ==> !status.Disconnected? && rows[id].location == status.location.(estimate := None))
    && (Underway(status) ==> exists id :: Unmarked(rows, id))
  }

  // While an answer is waited for, its row is the live one.
  ghost predicate Tidy(w: World) {
    && AtMostOneUnmarked(w.d.rows)
    && (w.alive ==> if w.asking.Some? then w.d.status.Disconnected? else StatusAgrees(w.d.status, w.d.rows))
  }

  ghost predicate Safe(w: World) {
    Conserved(w) && CallsKnown(w)
  }

  // An operation that neither adds nor removes rows, keeps the session and the place of each, and takes no mark off.
  ghost predicate Keeps(rows: Rows, after: Rows) {
    && after.Keys == rows.Keys
    && forall id :: id in rows ==>
         && after[id].sessionUuid == rows[id].sessionUuid && after[id].location == rows[id].location
         && (rows[id].markForDeletion ==> after[id].markForDeletion)
  }

  lemma DisconnectKeeps(d: DaemonModel, found: Option<Uuid>, reason: string)
    requires IsPick(d.rows, found)
    ensures Keeps(d.rows, AfterDisconnect(d, found, reason).rows)
    ensures found.Some? ==> !Unmarked(AfterDisconnect(d, found, reason).rows, found.value)
  {
  }

  lemma TunnelKeeps(d: DaemonModel, t: TunnelStateTransition, found: Option<Uuid>, ended: Option<Uuid>, now: Timestamp)
    requires IsPick(d.rows, found) && IsPick(d.rows, ended)
    ensures var after := AfterTunnel(d, t, found, ended, now);
            after.Some? ==>
              && Keeps(d.rows, after.value.rows)
              && (t.Error? && ended.Some? ==> !Unmarked(after.value.rows, ended.value))
  {
  }

  lemma StatusRemoves(d: DaemonModel, status: VpnSessionStatus)
    ensures var after := AfterStatus(d, status).rows;
            if Over(d.rows, status) then after == d.rows - {status.requestId} else Keeps(d.rows, after)
  {
  }

  lemma SafeKeeps(w: World, after: World, ended: Option<SessionInfo>)
    requires Safe(w) && Keeps(w.d.rows, after.d.rows)
    requires w.asking.None? && after.asking.None? && after.lost == w.lost
    requires after.granted == w.granted && after.used == w.used
    requires after.reported == w.reported && after.answered == w.answered
    requires after.pending <= w.pending + Singleton(ended) && after.reclaiming == w.reclaiming
    requires ended.Some? ==>
               && ended.value.requestId in w.d.rows && !Unmarked(after.d.rows, ended.value.requestId)
               && w.d.rows[ended.value.requestId].sessionUuid == Some(ended.value.vpnSessionId)
    ensures Safe(after)
  {
    forall session | session in after.pending || session in after.reclaiming
      ensures Known(after, session) && !Unmarked(after.d.rows, session.requestId)
    {
      if ended == Some(session) {
        assert Known(w, session);
      }
    }
  }

  lemma SafeRemoves(w: World, after: World, id: Uuid)
    requires Safe(w) && id in w.granted && after.d.rows == w.d.rows - {id}
    requires after.asking == w.asking && after.lost == w.lost && after.alive == w.alive
    requires w.asking.Some? ==> after.d.status == w.d.status
    requires after.granted == w.granted && after.used == w.used
    requires after.reported + after.answered == w.reported + w.answered + {id}
    requires after.pending <= w.pending && after.reclaiming <= w.reclaiming
    ensures Safe(after)
  {
    assert after.reported <= after.reported + after.answered && after.answered <= after.reported + after.answered;
  }

  lemma SafeConnect(w: World, location: Location, id: Uuid)
    requires Safe(w) && Allowed(w, Event.Connect(location, id))
    ensures Safe(Step(w, Event.Connect(location, id)))
  {
  }

  lemma SafeAnswer(w: World, reply: NewSessionReply)
    requires Safe(w) && Allowed(w, Answer(reply))
    ensures Safe(Step(w, Answer(reply)))
  {
  }

  lemma SafeSettled(w: World, e: Event)
    requires Safe(w) && Allowed(w, e) && (e.EndAnswered? || e.ReclaimAnswered?)
    ensures Safe(Step(w, e))
  {
    var after := Step(w, e);
    if after.answered != w.answered || after.d != w.d {
      SafeRemoves(w, after, e.session.requestId);
    }
  }

  lemma SafeStep(w: World, e: Event)
    requires Safe(w) && Allowed(w, e)
    ensures Safe(Step(w, e))
  {
    hide AfterDisconnect, AfterTunnel, AfterStatus, Safe;
    match e
    case Connect(location, id) => SafeConnect(w, location, id);
    case Answer(reply) => SafeAnswer(w, reply);
    case Disconnect(found, reason) =>
      DisconnectKeeps(w.d, found, reason);
      SafeKeeps(w, Step(w, e), EndedSession(w.d.rows, found));
    case ServerStatus(status) =>
      StatusRemoves(w.d, status);
      if Over(w.d.rows, status) {
        assert status.requestId in w.granted by { GrantedRow(w, status.requestId); }
        SafeRemoves(w, Step(w, e), status.requestId);
      } else {
        SafeKeeps(w, Step(w, e), None);
      }
    case Tunnel(t, found, ended, now) =>
      TunnelKeeps(w.d, t, found, ended, now);
      SafeKeeps(w, Step(w, e), if Step(w, e).alive && t.Error? then EndedSession(w.d.rows, ended) else None);
    case ReclaimPass => SafeReclaim(w);
    case Restart => SafeRestart(w);
    case _ => SafeSettled(w, e);
  }

  lemma GrantedRow(w: World, id: Uuid)
    requires Safe(w) && w.asking.None? && Unmarked(w.d.rows, id)
    ensures id in w.granted
  {
  }

  lemma SafeReclaim(w: World)
    requires Safe(w) && Allowed(w, ReclaimPass)
    ensures Safe(Step(w, ReclaimPass))
  {
  }

  lemma SafeRestart(w: World)
    requires Safe(w)
    ensures Safe(Step(w, Restart))
  {
  }

  // The tunnel reports that it is down while a session is live.
  predicate TunnelLost(w: World, e: Event) {
    e.Tunnel? && e.transition.Disconnected? && !NoneUnmarked(w.d.rows)
  }

  // Live rows stay at most where they were.
  ghost predicate Shrinks(rows: Rows, after: Rows) {
    forall id :: Unmarked(after, id) ==> Unmarked(rows, id) && after[id].location == rows[id].location
  }

  lemma KeepsShrinks(rows: Rows, after: Rows)
    requires Keeps(rows, after)
    ensures Shrinks(rows, after)
  {
  }

  lemma TidyDisconnect(w: World, found: Option<Uuid>, reason: string)
    requires Tidy(w) && Listening(w) && IsPick(w.d.rows, found)
    ensures StatusAgrees(AfterDisconnect(w.d, found, reason).status, AfterDisconnect(w.d, found, reason).rows)
    ensures NoneUnmarked(AfterDisconnect(w.d, found, reason).rows)
  {
    var after := AfterDisconnect(w.d, found, reason).rows;
    DisconnectKeeps(w.d, found, reason);
    KeepsShrinks(w.d.rows, after);
    NowNone(w.d.rows, after, found);
  }

  // Where the one live row is marked there is none left.
  lemma NowNone(rows: Rows, after: Rows, found: Option<Uuid>)
    requires AtMostOneUnmarked(rows) && IsPick(rows, found) && Shrinks(rows, after)
    requires found.Some? ==> !Unmarked(after, found.value)
    ensures NoneUnmarked(after)
  {
    forall id | id in after
      ensures after[id].markForDeletion
    {
      assert Unmarked(after, id) ==> Unmarked(rows, id);
    }
  }

  lemma TidyStatus(w: World, status: VpnSessionStatus)
    requires Tidy(w) && Listening(w)
    ensures StatusAgrees(AfterStatus(w.d, status).status, AfterStatus(w.d, status).rows)
  {
    var after, id := AfterStatus(w.d, status), status.requestId;
    StatusRemoves(w.d, status);
    if Over(w.d.rows, status) {
      assert Shrinks(w.d.rows, after.rows);
      NowNone(w.d.rows, after.rows, Some(id));
    } else {
      KeepsShrinks(w.d.rows, after.rows);
      if Unmarked(w.d.rows, id) {
        assert Unmarked(after.rows, id);
      } else {
        assert after.rows == w.d.rows;
      }
    }
  }

  lemma TidyTunnel(w: World, t: TunnelStateTransition, found: Option<Uuid>, ended: Option<Uuid>, now: Timestamp)
    requires Tidy(w) && Listening(w) && IsPick(w.d.rows, found) && IsPick(w.d.rows, ended)
    ensures var after := AfterTunnel(w.d, t, found, ended, now);
            if after.None? then t.Disconnecting? || t.Connected?
            else StatusAgrees(after.value.status, after.value.rows) <==> !(t.Disconnected? && !NoneUnmarked(w.d.rows))
  {
    var after := AfterTunnel(w.d, t, found, ended, now);
    TunnelKeeps(w.d, t, found, ended, now);
    if after.Some? {
      KeepsShrinks(w.d.rows, after.value.rows);
      if t.Error? {
        NowNone(w.d.rows, after.value.rows, ended);
      } else if found.Some? {
        assert Unmarked(w.d.rows, found.value) && Unmarked(after.value.rows, found.value);
      }
    }
  }

  // One event keeps the table and the status in agreement, except this one: the tunnel reports that it is down while
  // a session is live. The status is then Disconnected and the row stays.
  lemma TidyStep(w: World, e: Event)
    requires Safe(w) && Tidy(w) && Allowed(w, e)
    ensures Tidy(Step(w, e)) <==> !TunnelLost(w, e)
  {
    hide AfterDisconnect, AfterTunnel, AfterStatus;
    match e
    case Connect(location, id) => TidyConnect(w, location, id);
    case Answer(reply) => TidyAnswer(w, reply);
    case Disconnect(found, reason) => TidyDisconnect(w, found, reason);
    case ServerStatus(status) => TidyStatus(w, status);
    case Tunnel(t, found, ended, now) => TidyTunnel(w, t, found, ended, now);
    case EndAnswered(session, answer) => TidyRemoval(w, Step(w, e), session.requestId);
    case ReclaimPass =>
    case ReclaimAnswered(session, answer) => TidyRemoval(w, Step(w, e), session.requestId);
    case Restart =>
  }

  lemma TidyConnect(w: World, location: Location, id: Uuid)
    requires Safe(w) && Tidy(w) && Allowed(w, Event.Connect(location, id))
    ensures Tidy(Step(w, Event.Connect(location, id)))
  {
    if w.d.status.Disconnected? {
      assert forall live :: live in w.d.rows ==> !Unmarked(w.d.rows, live);
    }
  }

  lemma TidyAnswer(w: World, reply: NewSessionReply)
    requires Safe(w) && Tidy(w) && Allowed(w, Answer(reply))
    ensures Tidy(Step(w, Answer(reply)))
  {
    var id, after := w.asking.value.requestId, Step(w, Answer(reply)).d.rows;
    assert Unmarked(w.d.rows, id);
    assert forall live :: Unmarked(after, live) ==> Unmarked(w.d.rows, live);
    if reply.Granted? {
      assert Unmarked(after, id);
    }
  }

  // Removing a row that is not live touches no live one.
  lemma TidyRemoval(w: World, after: World, id: Uuid)
    requires Tidy(w) && !Unmarked(w.d.rows, id)
    requires after.alive == w.alive && after.d.status == w.d.status && after.asking == w.asking
    requires after.d.rows == w.d.rows || after.d.rows == w.d.rows - {id}
    ensures Tidy(after)
  {
    assert Shrinks(w.d.rows, after.d.rows);
    assert Shrinks(after.d.rows, w.d.rows);
  }

  // A live loop panics on an event in exactly one way: the tunnel says it is disconnecting while no row is live and the
  // status is not Disconnecting. In particular a row is never found without the session that a Connected transition
  // needs.
  lemma PanicExact(w: World, e: Event)
    requires Safe(w) && w.alive && Allowed(w, e)
    ensures !Step(w, e).alive
       <==> e.Tunnel? && e.transition.Disconnecting? && NoneUnmarked(w.d.rows) && !w.d.status.Disconnecting?
  {
    hide AfterDisconnect, AfterStatus;
    if e.Tunnel? {
      FoundHasSession(w, e.found);
    }
  }

  lemma FoundHasSession(w: World, found: Option<Uuid>)
    requires Safe(w) && Listening(w) && IsPick(w.d.rows, found)
    ensures found.Some? ==> w.d.rows[found.value].sessionUuid.Some?
  {
    if found.Some? {
      GrantedRow(w, found.value);
    }
  }

  // Where table and status agree, that is while nothing is shown to be connected.
  lemma PanicTidy(w: World, e: Event)
    requires Safe(w) && Tidy(w) && w.alive && Allowed(w, e)
    ensures !Step(w, e).alive <==> e.Tunnel? && e.transition.Disconnecting? && w.d.status.Disconnected?
  {
    hide Step;
    PanicExact(w, e);
    if e.Tunnel? {
      assert Underway(w.d.status) ==> !NoneUnmarked(w.d.rows);
    }
  }

  // Safety over whole runs.
  lemma {:induction false} RunSafe(w: World, events: seq<Event>)
    requires Safe(w) && AllowedRun(w, events)
    ensures Safe(Run(w, events))
    decreases |events|
  {
    if events != [] {
      SafeStep(w, events[0]);
      RunSafe(Step(w, events[0]), events[1..]);
    }
  }

  // The tunnel never reports that it is down while a session is live.
  ghost predicate NeverLost(w: World, events: seq<Event>)
    requires AllowedRun(w, events)
    decreases |events|
  {
    events == [] || (!TunnelLost(w, events[0]) && NeverLost(Step(w, events[0]), events[1..]))
  }

  lemma {:induction false} RunTidy(w: World, events: seq<Event>)
    requires Safe(w) && Tidy(w) && AllowedRun(w, events) && NeverLost(w, events)
    ensures Tidy(Run(w, events))
    decreases |events|
  {
    hide Tidy, Safe;
    if events != [] {
      SafeStep(w, events[0]);
      TidyStep(w, events[0]);
      RunTidy(Step(w, events[0]), events[1..]);
    }
  }

  // Over every run from a new database, every session the server granted has its row, with its uuid, unless the
  // server has reported it over or answered an end call about it; any other row is of a request that never had an
  // answer; and a marked row is among those to reclaim exactly if its answer was not cut off by a restart.
  lemma NoneForgotten(events: seq<Event>, id: Uuid)
    requires AllowedRun(FRESH, events)
    ensures var w := Run(FRESH, events);
            && (id in w.granted ==>
                  (id in w.d.rows && w.d.rows[id].sessionUuid == Some(w.granted[id])) || id in w.reported || id in w.answered)
            && (id in w.d.rows ==> id in w.granted || id in Waiting(w) || id in w.lost)
            && (id in w.d.rows && w.d.rows[id].markForDeletion ==>
                  (id !in w.lost <==> id in w.granted && SessionInfo(id, w.granted[id]) in ToReclaim(w.d.rows)))
  {
    RunSafe(FRESH, events);
  }

  // A request whose answer was cut off keeps its row, marked and without uuid, over every run: nothing removes it.
  lemma {:induction false} LostForever(w: World, events: seq<Event>, id: Uuid)
    requires Safe(w) && AllowedRun(w, events) && id in w.lost
    ensures var last := Run(w, events);
            id in last.lost && id in last.d.rows && last.d.rows[id].markForDeletion && last.d.rows[id].sessionUuid.None?
    decreases |events|
  {
    hide Step;
    if events != [] {
      SafeStep(w, events[0]);
      LostStays(w, events[0]);
      LostForever(Step(w, events[0]), events[1..], id);
    }
  }

  lemma LostStays(w: World, e: Event)
    requires Allowed(w, e)
    ensures w.lost <= Step(w, e).lost
  {
    hide AfterDisconnect, AfterTunnel, AfterStatus, AfterAsk, AfterReply;
  }

  // A restart while the first request waits for its answer leaves such a row.
  lemma CutOff(place: Location)
    ensures AllowedRun(FRESH, [Event.Connect(place, 0), Restart])
    ensures var w := Run(FRESH, [Event.Connect(place, 0), Restart]);
            && w.d.rows == MarkAll(map[0 := NewRow(place)]) && w.lost == {0}
            && ToReclaim(w.d.rows) == {} && forall answer :: AfterReclaim(w.d.rows, answer) == w.d.rows
  {
    var e := Event.Connect(place, 0);
    var w := Step(FRESH, e);
    assert w.d.rows == map[0 := NewRow(place)];
    RunThen(w, Restart, []);
    RunThen(FRESH, e, [Restart]);
    assert [Restart] + [] == [Restart] && [e] + [Restart] == [e, Restart];
    forall answer: SessionInfo -> EndAnswer
      ensures AfterReclaim(MarkAll(w.d.rows), answer) == MarkAll(w.d.rows)
    {
    }
  }

  // The event loop's connect is the two steps together.
  lemma ConnectInTwoSteps(w: World, location: Location, id: Uuid, reply: NewSessionReply)
    requires Allowed(w, Event.Connect(location, id)) && w.d.status.Disconnected?
    requires Allowed(Step(w, Event.Connect(location, id)), Answer(reply))
    ensures Step(Step(w, Event.Connect(location, id)), Answer(reply)).d == AfterConnect(w.d, location, id, reply)
  {
    hide AfterAsk, AfterReply;
  }

  // At most one row is live at any time, and none while the status is Disconnected but that of a request which waits
  // for its answer.
  lemma OneLiveSession(events: seq<Event>, a: Uuid, b: Uuid)
    requires AllowedRun(FRESH, events) && NeverLost(FRESH, events)
    ensures var w := Run(FRESH, events);
            Unmarked(w.d.rows, a) ==>
              (Unmarked(w.d.rows, b) ==> a == b) && (w.alive && w.d.status.Disconnected? ==> a in Waiting(w))
  {
    RunTidy(FRESH, events);
    RunSafe(FRESH, events);
    var w := Run(FRESH, events);
    if w.asking.Some? {
      assert Unmarked(w.d.rows, w.asking.value.requestId);
    }
  }

  // A second session is asked for beside a live one.
  predicate ConnectsBeside(w: World, e: Event) {
    e.Connect? && w.d.status.Disconnected? && !NoneUnmarked(w.d.rows)
  }

  // Whatever the status shown, an event makes a second row live exactly if it is that.
  lemma SecondLiveExact(w: World, e: Event)
    requires Safe(w) && Allowed(w, e) && AtMostOneUnmarked(w.d.rows)
    ensures AtMostOneUnmarked(Step(w, e).d.rows) <==> !ConnectsBeside(w, e)
  {
    hide AfterDisconnect, AfterTunnel, AfterStatus;
    if e.Connect? {
      SecondLiveConnect(w, e.location, e.requestId);
    } else {
      forall id | Unmarked(Step(w, e).d.rows, id)
        ensures Unmarked(w.d.rows, id)
      {
        if !Unmarked(w.d.rows, id) {
          NotRevived(w, e, id);
        }
      }
    }
  }

  lemma NotRevived(w: World, e: Event, id: Uuid)
    requires Safe(w) && Allowed(w, e) && !e.Connect? && !Unmarked(w.d.rows, id)
    ensures !Unmarked(Step(w, e).d.rows, id)
  {
    hide AfterDisconnect, AfterTunnel, AfterStatus;
    match e
    case Disconnect(found, reason) => DisconnectKeeps(w.d, found, reason);
    case ServerStatus(status) => StatusRemoves(w.d, status);
    case Tunnel(t, found, ended, now) => TunnelKeeps(w.d, t, found, ended, now);
    case _ =>
  }

  lemma SecondLiveConnect(w: World, location: Location, id: Uuid)
    requires Allowed(w, Event.Connect(location, id)) && AtMostOneUnmarked(w.d.rows)
    ensures AtMostOneUnmarked(Step(w, Event.Connect(location, id)).d.rows) <==> !ConnectsBeside(w, Event.Connect(location, id))
  {
    var after := Step(w, Event.Connect(location, id)).d.rows;
    if w.d.status.Disconnected? {
      assert Unmarked(after, id);
      assert forall other :: Unmarked(w.d.rows, other) ==> Unmarked(after, other) && other != id;
      if !NoneUnmarked(w.d.rows) {
        var other :| other in w.d.rows && !w.d.rows[other].markForDeletion;
        assert Unmarked(w.d.rows, other);
      }
    }
  }

  ghost predicate NeverBeside(w: World, events: seq<Event>)
    requires AllowedRun(w, events)
    decreases |events|
  {
    events == [] || (!ConnectsBeside(w, events[0]) && NeverBeside(Step(w, events[0]), events[1..]))
  }

  // So at most one row is live after a run in which that never happens, lost tunnels or not.
  lemma {:induction false} RunOneLive(w: World, events: seq<Event>)
    requires Safe(w) && AllowedRun(w, events) && AtMostOneUnmarked(w.d.rows) && NeverBeside(w, events)
    ensures AtMostOneUnmarked(Run(w, events).d.rows)
    decreases |events|
  {
    hide Step, Allowed, Safe, ConnectsBeside;
    if events != [] {
      SafeStep(w, events[0]);
      SecondLiveExact(w, events[0]);
      RunOneLive(Step(w, events[0]), events[1..]);
    }
  }

  // A row once marked or deleted is never live again.
  lemma DeadStep(w: World, e: Event, id: Uuid)
    requires Safe(w) && Allowed(w, e) && id in w.used && !Unmarked(w.d.rows, id)
    ensures id in Step(w, e).used && !Unmarked(Step(w, e).d.rows, id)
  {
    hide AfterDisconnect, AfterTunnel, AfterStatus;
    if !e.Connect? {
      NotRevived(w, e, id);
    }
  }

  lemma {:induction false} MarksAreFinal(w: World, events: seq<Event>, id: Uuid)
    requires Safe(w) && AllowedRun(w, events)
    requires id in w.d.rows && w.d.rows[id].markForDeletion
    ensures !Unmarked(Run(w, events).d.rows, id)
  {
    DeadForever(w, events, id);
  }

  lemma {:induction false} DeadForever(w: World, events: seq<Event>, id: Uuid)
    requires Safe(w) && AllowedRun(w, events) && id in w.used && !Unmarked(w.d.rows, id)
    ensures !Unmarked(Run(w, events).d.rows, id)
    decreases |events|
  {
    if events != [] {
      SafeStep(w, events[0]);
      DeadStep(w, events[0], id);
      DeadForever(Step(w, events[0]), events[1..], id);
    }
  }

  predicate StartsSession(w: World, e: Event) {
    e.Answer? && e.reply.Granted?
  }

  // What a handler may add to the log, given the rows before and after it.
  ghost predicate Says(rows: Rows, after: Rows, connects: bool, o: Output) {
    && (o == SendTunnelCommand(TunnelCommand.Connect) ==> connects)
    && (o.ClientConnectedCall? ==>
          o.session.requestId in rows && rows[o.session.requestId].sessionUuid == Some(o.session.vpnSessionId))
    && (Ends(o) ==>
          && Unmarked(rows, o.info.value.requestId) && !Unmarked(after, o.info.value.requestId)
          && rows[o.info.value.requestId].sessionUuid == Some(o.info.value.vpnSessionId))
  }

  // The log grows by such outputs, at most one of which ends a session.
  ghost predicate Extends(d: DaemonModel, after: DaemonModel, connects: bool) {
    && d.log <= after.log
    && (forall i :: |d.log| <= i < |after.log| ==> Says(d.rows, after.rows, connects, after.log[i]))
    && (forall i, j :: |d.log| <= i < j < |after.log| ==> !(Ends(after.log[i]) && Ends(after.log[j])))
  }

  lemma AskLog(d: DaemonModel, location: Location, id: Uuid)
    requires id !in d.rows
    ensures Extends(d, AfterAsk(d, location, id), false)
  {
  }

  lemma ReplyLog(d: DaemonModel, location: Location, id: Uuid, reply: NewSessionReply)
    ensures Extends(d, AfterReply(d, location, id, reply), false)
  {
  }

  lemma DisconnectLog(d: DaemonModel, found: Option<Uuid>, reason: string)
    requires IsPick(d.rows, found)
    ensures Extends(d, AfterDisconnect(d, found, reason), false)
  {
  }

  lemma StatusLog(d: DaemonModel, status: VpnSessionStatus)
    ensures Extends(d, AfterStatus(d, status), status.ServerReady? && Unmarked(d.rows, status.requestId))
  {
  }

  // The log of a transition: what it says about the session, then the status.
  lemma TunnelSays(d: DaemonModel, t: TunnelStateTransition, found: Option<Uuid>, ended: Option<Uuid>, now: Timestamp)
    requires IsPick(d.rows, found) && IsPick(d.rows, ended) && AfterTunnel(d, t, found, ended, now).Some?
    ensures var after := AfterTunnel(d, t, found, ended, now).value;
            var status := BroadcastStatus(after.status);
            if t.Error? then
              && after.rows == AfterEndSession(d.rows, ended)
              && exists n :: after.log == d.log + [SendTunnelCommand(TunnelCommand.Disconnect), BroadcastNotification(n),
                                                   EndSessionTask(EndedSession(d.rows, ended), t.cause), status]
            else if t.Connected? && found.Some? then
              && d.rows[found.value].sessionUuid.Some?
              && after.log == d.log + [ClientConnectedCall(SessionInfo(found.value, d.rows[found.value].sessionUuid.value)), status]
            else after.log == d.log + [status]
  {
    var processed := AfterTransition(d.rows, found, t, d.status, now);
    if t.Error? {
      var after, n := AfterTunnel(d, t, found, ended, now).value, processed.notification.value;
      assert after.log == d.log + [SendTunnelCommand(TunnelCommand.Disconnect), BroadcastNotification(n),
                                   EndSessionTask(EndedSession(d.rows, ended), t.cause), BroadcastStatus(after.status)];
    }
  }

  lemma TunnelLog(d: DaemonModel, t: TunnelStateTransition, found: Option<Uuid>, ended: Option<Uuid>, now: Timestamp)
    requires IsPick(d.rows, found) && IsPick(d.rows, ended)
    ensures AfterTunnel(d, t, found, ended, now).Some?
        ==> Extends(d, AfterTunnel(d, t, found, ended, now).value, false)
  {
    hide AfterTunnel, AfterTransition, AfterEndSession, EndedSession, Says;
    if AfterTunnel(d, t, found, ended, now).Some? {
      var after := AfterTunnel(d, t, found, ended, now).value;
      TunnelSays(d, t, found, ended, now);
      OthersSaid(d.rows, after.rows);
      if t.Error? {
        TaskSaid(d.rows, after.rows, ended, t.cause);
      }
    }
  }

  lemma TaskSaid(rows: Rows, after: Rows, ended: Option<Uuid>, reason: string)
    requires IsPick(rows, ended) && after == AfterEndSession(rows, ended)
    ensures Says(rows, after, false, EndSessionTask(EndedSession(rows, ended), reason))
  {
  }

  lemma OthersSaid(rows: Rows, after: Rows)
    ensures Says(rows, after, false, SendTunnelCommand(TunnelCommand.Disconnect))
    ensures forall n :: Says(rows, after, false, BroadcastNotification(n))
    ensures forall s :: Says(rows, after, false, BroadcastStatus(s))
    ensures forall id, uuid :: id in rows && rows[id].sessionUuid == Some(uuid)
              ==> Says(rows, after, false, ClientConnectedCall(SessionInfo(id, uuid)))
  {
  }

  predicate TellsToConnect(w: World, e: Event) {
    e.ServerStatus? && e.status.ServerReady? && Unmarked(w.d.rows, e.status.requestId)
  }

  lemma LogStep(w: World, e: Event)
    requires Safe(w) && Allowed(w, e)
    ensures Extends(w.d, Step(w, e).d, TellsToConnect(w, e))
  {
    hide AfterDisconnect, AfterTunnel, AfterStatus, AfterAsk, AfterReply, Safe, Says;
    match e
    case Connect(location, id) => AskLog(w.d, location, id);
    case Answer(reply) => ReplyLog(w.d, w.asking.value.location, w.asking.value.requestId, reply);
    case Disconnect(found, reason) => DisconnectLog(w.d, found, reason);
    case ServerStatus(status) => StatusLog(w.d, status);
    case Tunnel(t, found, ended, now) => TunnelLog(w.d, t, found, ended, now);
    case _ => assert Step(w, e).d.log == w.d.log;
  }

  // No row is live but the one of a request that waits for its answer.
  ghost predicate Quiet(w: World) {
    forall id :: Unmarked(w.d.rows, id) ==> id in Waiting(w)
  }

  // While it is quiet and no session is granted it stays quiet and the tunnel is not told to connect.
  lemma QuietStep(w: World, e: Event)
    requires Safe(w) && Allowed(w, e) && Quiet(w) && !StartsSession(w, e)
    ensures Quiet(Step(w, e))
    ensures w.d.log <= Step(w, e).d.log && NoTunnelConnect(Step(w, e).d.log[|w.d.log|..])
  {
    hide AfterDisconnect, AfterTunnel, AfterStatus, Extends;
    LogStep(w, e);
    NoConnectAdded(w.d, Step(w, e).d);
    forall id | Unmarked(Step(w, e).d.rows, id)
      ensures id in Waiting(Step(w, e))
    {
      if id in w.used && !Unmarked(w.d.rows, id) {
        DeadStep(w, e, id);
      }
      QuietRow(w, e, id);
    }
  }

  lemma QuietRow(w: World, e: Event, id: Uuid)
    requires Safe(w) && Allowed(w, e) && Quiet(w) && !StartsSession(w, e)
    requires Unmarked(Step(w, e).d.rows, id) && (id in w.used ==> Unmarked(w.d.rows, id))
    ensures id in Waiting(Step(w, e))
  {
    hide AfterDisconnect, AfterTunnel, AfterStatus;
    match e
    case Disconnect(found, reason) => DisconnectKeeps(w.d, found, reason);
    case ServerStatus(status) => StatusRemoves(w.d, status);
    case Tunnel(t, found, ended, now) => TunnelKeeps(w.d, t, found, ended, now);
    case _ =>
  }

  lemma NoConnectAdded(d: DaemonModel, after: DaemonModel)
    requires Extends(d, after, false)
    ensures d.log <= after.log && NoTunnelConnect(after.log[|d.log|..])
  {
  }

  // Over every run: the server is told of granted sessions only, by their uuids, and the event loop ends none twice.
  lemma LogKnownStep(w: World, e: Event)
    requires Safe(w) && LogKnown(w) && Allowed(w, e)
    ensures LogKnown(Step(w, e))
  {
    hide Step, Allowed;
    LogStep(w, e);
    SafeStep(w, e);
    GrantsKept(w, e);
    var next := Step(w, e);
    forall i | 0 <= i < |next.d.log|
      ensures next.d.log[i].ClientConnectedCall? ==> Known(next, next.d.log[i].session)
      ensures Ends(next.d.log[i])
          ==> Known(next, next.d.log[i].info.value) && !Unmarked(next.d.rows, next.d.log[i].info.value.requestId)
    {
      if i < |w.d.log| {
        assert next.d.log[i] == w.d.log[i];
        if Ends(w.d.log[i]) {
          DeadStep(w, e, w.d.log[i].info.value.requestId);
        }
      } else {
        assert Says(w.d.rows, next.d.rows, TellsToConnect(w, e), next.d.log[i]);
      }
    }
    forall i, j | 0 <= i < j < |next.d.log| && Ends(next.d.log[i]) && Ends(next.d.log[j])
      ensures next.d.log[i].info.value.requestId != next.d.log[j].info.value.requestId
    {
      if i < |w.d.log| {
        assert next.d.log[i] == w.d.log[i];
        if j < |w.d.log| {
          assert next.d.log[j] == w.d.log[j];
        } else {
          assert Says(w.d.rows, next.d.rows, TellsToConnect(w, e), next.d.log[j]);
        }
      }
    }
  }

  lemma GrantsKept(w: World, e: Event)
    requires Safe(w) && Allowed(w, e)
    ensures forall id :: id in w.granted ==> id in Step(w, e).granted && Step(w, e).granted[id] == w.granted[id]
  {
  }

  lemma {:induction false} RunLogKnown(w: World, events: seq<Event>)
    requires Safe(w) && LogKnown(w) && AllowedRun(w, events)
    ensures LogKnown(Run(w, events))
    decreases |events|
  {
    hide LogKnown, Safe;
    if events != [] {
      SafeStep(w, events[0]);
      LogKnownStep(w, events[0]);
      RunLogKnown(Step(w, events[0]), events[1..]);
    }
  }

  predicate NoTunnelConnect(log: seq<Output>) {
    forall i :: 0 <= i < |log| ==> log[i] != SendTunnelCommand(TunnelCommand.Connect)
  }

  ghost predicate NoneStarts(w: World, events: seq<Event>)
    requires AllowedRun(w, events)
    decreases |events|
  {
    events == [] || (!StartsSession(w, events[0]) && NoneStarts(Step(w, events[0]), events[1..]))
  }

  lemma {:induction false} QuietRun(w: World, events: seq<Event>)
    requires Safe(w) && AllowedRun(w, events) && Quiet(w) && NoneStarts(w, events)
    ensures w.d.log <= Run(w, events).d.log && NoTunnelConnect(Run(w, events).d.log[|w.d.log|..])
    decreases |events|
  {
    hide Step, Quiet;
    if events != [] {
      var next := Step(w, events[0]);
      SafeStep(w, events[0]);
      QuietStep(w, events[0]);
      QuietRun(next, events[1..]);
      var last := Run(w, events);
      assert last.d.log[|w.d.log|..] == next.d.log[|w.d.log|..] + last.d.log[|next.d.log|..];
    }
  }

  // From a disconnect, a failure of the tunnel or the end of the session on the server until the next session is
  // granted, whatever else happens, the tunnel is never told to connect.
  lemma QuietAfterEnd(w: World, e: Event, events: seq<Event>)
    requires Safe(w) && Tidy(w) && Allowed(w, e)
    requires e.Disconnect? || (e.Tunnel? && e.transition.Error?) || (e.ServerStatus? && Over(w.d.rows, e.status))
    requires AllowedRun(Step(w, e), events) && NoneStarts(Step(w, e), events)
    ensures var from, last := Step(w, e).d.log, Run(Step(w, e), events).d.log;
            from <= last && NoTunnelConnect(last[|from|..])
  {
    SafeStep(w, e);
    EndedIsNone(w, e);
    QuietRun(Step(w, e), events);
  }

  lemma EndedIsNone(w: World, e: Event)
    requires Safe(w) && Tidy(w) && Allowed(w, e)
    requires e.Disconnect? || (e.Tunnel? && e.transition.Error?) || (e.ServerStatus? && Over(w.d.rows, e.status))
    ensures NoneUnmarked(Step(w, e).d.rows)
  {
    hide AfterDisconnect, AfterTunnel, AfterStatus;
    var after := Step(w, e).d.rows;
    match e
    case Disconnect(found, reason) => TidyDisconnect(w, found, reason);
    case Tunnel(t, found, ended, now) =>
      TidyTunnel(w, t, found, ended, now);
      TunnelKeeps(w.d, t, found, ended, now);
      KeepsShrinks(w.d.rows, after);
      NowNone(w.d.rows, after, ended);
    case ServerStatus(status) =>
      StatusRemoves(w.d, status);
      assert Shrinks(w.d.rows, after);
      NowNone(w.d.rows, after, Some(status.requestId));
  }

  // After a restart and one pass of the reclaimer whose every call is settled, the rows left are those of the requests
  // whose answers were cut off, now or before: none exactly if there is no such request.
  ghost predicate AllReclaiming(w: World) {
    forall id :: id in w.d.rows ==> id in w.lost || (id in w.granted && SessionInfo(id, w.granted[id]) in w.reclaiming)
  }

  ghost predicate AllSettle(events: seq<Event>) {
    forall i :: 0 <= i < |events| ==> events[i].ReclaimAnswered? && Settles(events[i].answer)
  }

  lemma {:induction false} RecoveryClears(w: World, events: seq<Event>)
    requires Safe(w)
    requires var ready := Step(Step(w, Restart), ReclaimPass);
             AllowedRun(ready, events) && AllSettle(events) && Run(ready, events).reclaiming == {}
    ensures Run(Step(Step(w, Restart), ReclaimPass), events).d.rows.Keys == w.lost + Waiting(w)
  {
    SafeStep(w, Restart);
    var ready := Step(Step(w, Restart), ReclaimPass);
    SafeStep(Step(w, Restart), ReclaimPass);
    forall id | id in ready.d.rows
      ensures id in ready.lost || (id in ready.granted && SessionInfo(id, ready.granted[id]) in ready.reclaiming)
    {
    }
    Reclaiming(ready, events);
  }

  lemma {:induction false} Reclaiming(w: World, events: seq<Event>)
    requires Safe(w) && AllowedRun(w, events) && AllSettle(events) && AllReclaiming(w)
    ensures var last := Run(w, events);
            Safe(last) && AllReclaiming(last) && last.lost == w.lost
    decreases |events|
  {
    hide Safe;
    if events != [] {
      SafeStep(w, events[0]);
      Reclaiming(Step(w, events[0]), events[1..]);
    }
  }

  // The part of a pass of the reclaimer that is done: of the rows it began with those are gone whose sessions are no
  // longer to come and whose answers settle them.
  ghost predicate PartlyReclaimed(begin: Rows, rows: Rows, left: set<SessionInfo>, answer: SessionInfo -> EndAnswer) {
    && left <= ToReclaim(begin)
    && (forall id :: id in rows <==>
          id in begin && (IsReclaimed(begin, id, answer) ==> SessionInfo(id, begin[id].sessionUuid.value) in left))
    && (forall id :: id in rows ==> rows[id] == begin[id])
  }

  lemma PassStep(w: World, session: SessionInfo, begin: Rows, answer: SessionInfo -> EndAnswer)
    requires session in w.reclaiming && PartlyReclaimed(begin, w.d.rows, w.reclaiming, answer)
    ensures var next := Step(w, ReclaimAnswered(session, answer(session)));
            PartlyReclaimed(begin, next.d.rows, next.reclaiming, answer)
  {
    assert session in ToReclaim(begin);
  }

  // A pass whose answers come with nothing between them leaves what the reclaimer's loop leaves.
  lemma {:induction false} PassIsReclaim(w: World, events: seq<Event>, begin: Rows, answer: SessionInfo -> EndAnswer)
    requires AllowedRun(w, events) && PartlyReclaimed(begin, w.d.rows, w.reclaiming, answer)
    requires forall i :: 0 <= i < |events| ==> events[i].ReclaimAnswered? && events[i].answer == answer(events[i].session)
    requires Run(w, events).reclaiming == {}
    ensures Run(w, events).d.rows == AfterReclaim(begin, answer)
    decreases |events|
  {
    hide Step, AfterReclaim, PartlyReclaimed, IsReclaimed;
    if events == [] {
      PassEnd(begin, w.d.rows, answer);
    } else {
      var e := events[0];
      PassStep(w, e.session, begin, answer);
      PassIsReclaim(Step(w, e), events[1..], begin, answer);
    }
  }

  lemma PassEnd(begin: Rows, rows: Rows, answer: SessionInfo -> EndAnswer)
    requires PartlyReclaimed(begin, rows, {}, answer)
    ensures rows == AfterReclaim(begin, answer)
  {
  }

  // The event loop asks for the end of no session twice, over every run from a new database.
  lemma EndedOnce(events: seq<Event>, i: nat, j: nat)
    requires AllowedRun(FRESH, events)
    requires i < j < |Run(FRESH, events).d.log|
    requires Ends(Run(FRESH, events).d.log[i]) && Ends(Run(FRESH, events).d.log[j])
    ensures var w := Run(FRESH, events);
            && Known(w, w.d.log[i].info.value) && Known(w, w.d.log[j].info.value)
            && w.d.log[i].info.value.requestId != w.d.log[j].info.value.requestId
  {
    RunLogKnown(FRESH, events);
  }

  // A run of one event more, at the front.
  lemma RunThen(w: World, e: Event, events: seq<Event>)
    requires Allowed(w, e) && AllowedRun(Step(w, e), events)
    ensures AllowedRun(w, [e] + events) && Run(w, [e] + events) == Run(Step(w, e), events)
    ensures !TunnelLost(w, e) && NeverLost(Step(w, e), events) ==> NeverLost(w, [e] + events)
  {
    hide Step, Allowed, TunnelLost;
    assert ([e] + events)[1..] == events;
  }

  lemma RunOf(w: World, e0: Event, e1: Event, rest: seq<Event>)
    requires Allowed(w, e0) && Allowed(Step(w, e0), e1) && AllowedRun(Step(Step(w, e0), e1), rest)
    ensures AllowedRun(w, [e0, e1] + rest) && Run(w, [e0, e1] + rest) == Run(Step(Step(w, e0), e1), rest)
    ensures !TunnelLost(w, e0) && !TunnelLost(Step(w, e0), e1) && NeverLost(Step(Step(w, e0), e1), rest)
        ==> NeverLost(w, [e0, e1] + rest)
  {
    hide Step, Allowed, TunnelLost;
    RunThen(Step(w, e0), e1, rest);
    RunThen(w, e0, [e1] + rest);
    assert [e0] + ([e1] + rest) == [e0, e1] + rest;
  }

  // A session is asked for and granted.
  function Start(place: Location, id: Uuid, uuid: Uuid): (r: seq<Event>)
    ensures |r| == 2
  {
    [Event.Connect(place, id), Answer(Granted(id, uuid))]
  }

  lemma Started(w: World, place: Location, id: Uuid, uuid: Uuid)
    requires Listening(w) && id !in w.used && id !in w.d.rows && w.d.status.Disconnected?
    ensures var s, row := Start(place, id, uuid), NewRow(place).(serverStatus := Some(StoredStatus.Accepted), sessionUuid := Some(uuid));
            && Allowed(w, s[0]) && Allowed(Step(w, s[0]), s[1])
            && var next := Step(Step(w, s[0]), s[1]);
               && next.d.rows == w.d.rows[id := row] && next.d.status == VpnStatus.Accepted(place)
               && Listening(next) && next.used == w.used + {id} && Unmarked(next.d.rows, id)
  {
  }

  // Where the rule that TidyStep excepts is broken a second session can be granted beside a live one.
  lemma LostTunnelBreaks(place: Location)
    ensures exists events :: AllowedRun(FRESH, events) && !AtMostOneUnmarked(Run(FRESH, events).d.rows)
  {
    hide Step, Run, AllowedRun, NeverLost;
    Started(FRESH, place, 0, 10);
    var a, b := Start(place, 0, 10), Start(place, 1, 11);
    var w1 := Step(Step(FRESH, a[0]), a[1]);
    var e := Tunnel(TunnelStateTransition.Disconnected, Some(0), Some(0), 0);
    var w2 := Step(w1, e);
    LostStep(w1, e);
    Started(w2, place, 1, 11);
    var w3 := Step(Step(w2, b[0]), b[1]);
    assert Unmarked(w3.d.rows, 0) && Unmarked(w3.d.rows, 1);
    EmptyRun(w3);
    RunOf(w2, b[0], b[1], []);
    RunThen(w1, e, [b[0], b[1]] + []);
    RunOf(FRESH, a[0], a[1], [e] + ([b[0], b[1]] + []));
  }

  lemma EmptyRun(w: World)
    ensures AllowedRun(w, []) && Run(w, []) == w && NeverLost(w, [])
  {
  }

  lemma LostStep(w: World, e: Event)
    requires e.Tunnel? && e.transition.Disconnected? && Allowed(w, e)
    ensures var next := Step(w, e);
            next.d.rows == w.d.rows && next.d.status.Disconnected? && Listening(next) && next.used == w.used
  {
  }

  // The panic can be reached: the tunnel fails while it connects, and then says that it is disconnecting.
  lemma PanicReached(place: Location)
    ensures exists events :: AllowedRun(FRESH, events) && NeverLost(FRESH, events) && !Run(FRESH, events).alive
  {
    hide Step, Run, AllowedRun, NeverLost;
    Started(FRESH, place, 0, 10);
    var a := Start(place, 0, 10);
    var w1 := Step(Step(FRESH, a[0]), a[1]);
    var e1 := Tunnel(TunnelStateTransition.Error("cause"), Some(0), Some(0), 0);
    var e2 := Tunnel(TunnelStateTransition.Disconnecting, None, None, 0);
    FailedStep(w1, e1, e2);
    EmptyRun(Step(Step(w1, e1), e2));
    RunOf(w1, e1, e2, []);
    RunOf(FRESH, a[0], a[1], [e1, e2] + []);
  }

  lemma FailedStep(w: World, e1: Event, e2: Event)
    requires Listening(w) && w.d.rows.Keys == {0} && Unmarked(w.d.rows, 0)
    requires e1 == Tunnel(TunnelStateTransition.Error("cause"), Some(0), Some(0), 0)
    requires e2 == Tunnel(TunnelStateTransition.Disconnecting, None, None, 0)
    ensures Allowed(w, e1) && Allowed(Step(w, e1), e2) && !Step(Step(w, e1), e2).alive
    ensures !TunnelLost(w, e1) && !TunnelLost(Step(w, e1), e2)
  {
    assert NoneUnmarked(Step(w, e1).d.rows);
  }

  // The query behind the tunnel's parameters finds the live row whatever row it finds exactly while no row is marked.
  lemma TunnelServerExact(w: World, live: Uuid)
    requires Tidy(w) && Unmarked(w.d.rows, live)
    ensures (forall found :: IsAnyRow(w.d.rows, found) ==> found == Some(live))
       <==> (forall id :: id in w.d.rows ==> Unmarked(w.d.rows, id))
  {
    if !(forall id :: id in w.d.rows ==> Unmarked(w.d.rows, id)) {
      var id :| id in w.d.rows && !Unmarked(w.d.rows, id);
      assert IsAnyRow(w.d.rows, Some(id));
    }
  }

  // Then the server that was reported ready is the one the tunnel is told to connect to.
  lemma TunnelGetsReadyServer(w: World, e: Event, found: Option<Uuid>)
    requires Safe(w) && Tidy(w) && Allowed(w, e) && TellsToConnect(w, e)
    requires forall id :: id in w.d.rows ==> Unmarked(w.d.rows, id)
    requires IsAnyRow(Step(w, e).d.rows, found)
    ensures TunnelServer(Step(w, e).d.rows, found) == Some(e.status.details)
  {
    var next, id := Step(w, e), e.status.requestId;
    TidyStep(w, e);
    StatusRemoves(w.d, e.status);
    assert Unmarked(next.d.rows, id);
    TunnelServerExact(next, id);
  }

  // A session is granted and cancelled, and while its end call is under way another one is granted.
  function Cancelled(place: Location): seq<Event> {
    Start(place, 0, 10) + [Event.Disconnect(Some(0), "client requested")] + Start(place, 1, 11)
  }

  lemma CancelledRows(place: Location)
    ensures AllowedRun(FRESH, Cancelled(place)) && NeverLost(FRESH, Cancelled(place))
    ensures var w := Run(FRESH, Cancelled(place));
            Listening(w) && 0 in w.d.rows && w.d.rows[0].markForDeletion && w.d.rows[0].details.None? && Unmarked(w.d.rows, 1)
  {
    hide Step, Run, AllowedRun, NeverLost;
    Started(FRESH, place, 0, 10);
    var a, b := Start(place, 0, 10), Start(place, 1, 11);
    var w1 := Step(Step(FRESH, a[0]), a[1]);
    var e := Event.Disconnect(Some(0), "client requested");
    var w2 := Step(w1, e);
    CancelStep(w1, e);
    Started(w2, place, 1, 11);
    var w3 := Step(Step(w2, b[0]), b[1]);
    EmptyRun(w3);
    RunOf(w2, b[0], b[1], []);
    RunThen(w1, e, [b[0], b[1]] + []);
    RunOf(FRESH, a[0], a[1], [e] + ([b[0], b[1]] + []));
    assert Cancelled(place) == [a[0], a[1]] + ([e] + ([b[0], b[1]] + []));
  }

  lemma CancelStep(w: World, e: Event)
    requires Listening(w) && w.d.rows.Keys == {0} && Unmarked(w.d.rows, 0) && w.d.status.Accepted?
    requires e == Event.Disconnect(Some(0), "client requested")
    ensures Allowed(w, e) && !TunnelLost(w, e)
    ensures var next := Step(w, e);
            && next.d.rows == map[0 := w.d.rows[0].(markForDeletion := true)] && next.d.status.Disconnected?
            && Listening(next) && next.used == w.used
  {
  }

  // Once that one is ready the tunnel is told to connect, and may find the first one's row, which has no server.
  lemma TunnelMayFindMarkedRow(place: Location, details: ServerDetails)
    ensures AllowedRun(FRESH, Cancelled(place)) && NeverLost(FRESH, Cancelled(place))
    ensures var w, e := Run(FRESH, Cancelled(place)), ServerStatus(VpnSessionStatus.ServerReady(1, 11, details));
            && Allowed(w, e) && TellsToConnect(w, e)
            && IsAnyRow(Step(w, e).d.rows, Some(0)) && TunnelServer(Step(w, e).d.rows, Some(0)) == None
  {
    hide Run, AllowedRun, NeverLost, Cancelled;
    CancelledRows(place);
  }
}
