/**
  The polls of a watcher between other events of the daemon: what a status sent again would change. A watcher sends a
  status once where a poll brings it several times over, so this is what its silence may cost.
 */
module WatcherRuns {
  import opened Options
  import opened VpnSession
  import opened Daemon
  import opened DaemonRuns
  import Watcher

  // Sending the status now would change nothing.
  predicate Absorbed(d: DaemonModel, s: VpnSessionStatus) {
    Watcher.Same(AfterStatus(d, s), d)
  }

  // Statuses that the daemon shows as its own.
  predicate Shown(s: VpnSessionStatus) {
    s.ServerCreated? || s.ServerRunning? || s.ServerReady?
  }

  // Statuses that leave the same in a live row.
  predicate Alike(s: VpnSessionStatus, t: VpnSessionStatus) {
    match s
    case Accepted(_, _) => t.Accepted?
    case ServerCreated(_, _) => t.ServerCreated?
    case ServerRunning(_, _) => t.ServerRunning?
    case ServerReady(_, _, details) => t.ServerReady? && t.details == details
    case ClientConnected(_, _, _) => t.ClientConnected?
    case _ => false
  }

  // The events that make a repeated status tell. While the row is live: what changes the status shown and does not
  // end this session, another status of this session, and for a session that was only accepted the tunnel's Connected.
  predicate Disturbs(w: World, e: Event, s: VpnSessionStatus) {
    var id := s.requestId;
    && Unmarked(w.d.rows, id)
    && match e
       case Answer(reply) => Shown(s) && reply.Granted?
       case Disconnect(found, _) => Shown(s) && found != Some(id)
       case ServerStatus(t) =>
         if t.requestId == id then !t.Failed? && !t.Ended? && !Alike(s, t)
         else
           var shown := AfterServerStatus(w.d.rows, t).vpnStatus;
           Shown(s) && shown.Some? && shown != Some(w.d.status)
       case Tunnel(t, found, ended, _) =>
         if Shown(s) then !(t.Error? && ended == Some(id)) else s.Accepted? && t.Connected? && found == Some(id)
       case _ => false
  }

  // The row of the session holds the status, and the daemon shows it.
  predicate Holds(row: Row, s: VpnSessionStatus) {
    match s
    case Accepted(_, _) => row.serverStatus == Some(StoredStatus.Accepted)
    case ServerCreated(_, _) => row.serverStatus == Some(StoredStatus.ServerCreated)
    case ServerRunning(_, _) => row.serverStatus == Some(StoredStatus.ServerRunning)
    case ServerReady(_, _, details) => row.serverStatus == Some(StoredStatus.ServerReady) && row.details == Some(details)
    case ClientConnected(_, _, _) => row.serverStatus == Some(StoredStatus.ClientConnected)
    case _ => false
  }

  predicate Shows(status: VpnStatus, location: Location, s: VpnSessionStatus) {
    match s
    case ServerCreated(_, _) => status == VpnStatus.ServerCreated(location)
    case ServerRunning(_, _) => status == VpnStatus.ServerRunning(location)
    case ServerReady(_, _, _) => status == VpnStatus.ServerReady(location)
    case _ => true
  }

  predicate Told(d: DaemonModel, s: VpnSessionStatus) {
    var id := s.requestId;
    Unmarked(d.rows, id) ==> Holds(d.rows[id], s) && Shows(d.status, d.rows[id].location, s)
  }

  lemma AbsorbedMeans(d: DaemonModel, s: VpnSessionStatus)
    ensures Absorbed(d, s) <==> Told(d, s)
  {
    var id := s.requestId;
    if Unmarked(d.rows, id) {
      var after := AfterStatus(d, s);
      if s.Failed? || s.Ended? {
        assert id !in after.rows;
      } else {
        assert after.rows[id].location == d.rows[id].location;
        assert after.rows == d.rows <==> after.rows[id] == d.rows[id];
      }
    }
  }

  // One event leaves a status absorbed if and only if it does not disturb.
  lemma AbsorbedStep(w: World, e: Event, s: VpnSessionStatus)
    requires Safe(w) && Allowed(w, e) && s.requestId in w.used && Absorbed(w.d, s)
    ensures Absorbed(Step(w, e).d, s) <==> !Disturbs(w, e, s)
  {
    hide Absorbed, Safe, AfterDisconnect, AfterTunnel, AfterStatus, Holds, Shows;
    AbsorbedMeans(w.d, s);
    AbsorbedMeans(Step(w, e).d, s);
    if !Unmarked(w.d.rows, s.requestId) {
      DeadStep(w, e, s.requestId);
    } else {
      match e
      case Connect(_, _) => OtherRows(w, e, s);
      case Answer(reply) => HeldAnswer(w, reply, s);
      case Disconnect(found, reason) => HeldDisconnect(w.d, found, reason, s);
      case ServerStatus(t) =>
        if t.requestId == s.requestId {
          HeldStatus(w.d, t, s);
        } else {
          OtherStatus(w.d, t, s);
        }
      case Tunnel(t, found, ended, now) =>
        NoPanic(w, e, s);
        HeldTunnel(w.d, t, found, ended, now, s);
      case _ => OtherRows(w, e, s);
    }
  }

  // Nothing else touches a live row or the status.
  lemma OtherRows(w: World, e: Event, s: VpnSessionStatus)
    requires Safe(w) && Allowed(w, e) && Unmarked(w.d.rows, s.requestId) && Told(w.d, s)
    requires e.Connect? || e.EndAnswered? || e.ReclaimPass? || e.ReclaimAnswered? || e.Restart?
    ensures Told(Step(w, e).d, s)
  {
  }

  lemma HeldAnswer(w: World, reply: NewSessionReply, s: VpnSessionStatus)
    requires Safe(w) && Allowed(w, Answer(reply)) && Unmarked(w.d.rows, s.requestId) && Told(w.d, s)
    ensures Told(Step(w, Answer(reply)).d, s) <==> !(Shown(s) && reply.Granted?)
  {
    assert w.asking.value.requestId != s.requestId;
  }

  lemma HeldDisconnect(d: DaemonModel, found: Option<Uuid>, reason: string, s: VpnSessionStatus)
    requires IsPick(d.rows, found) && Unmarked(d.rows, s.requestId) && Told(d, s)
    ensures Told(AfterDisconnect(d, found, reason), s) <==> !(Shown(s) && found != Some(s.requestId))
  {
  }

  lemma HeldStatus(d: DaemonModel, t: VpnSessionStatus, s: VpnSessionStatus)
    requires t.requestId == s.requestId && Unmarked(d.rows, s.requestId) && Told(d, s)
    ensures Told(AfterStatus(d, t), s) <==> t.Failed? || t.Ended? || Alike(s, t)
  {
  }

  lemma OtherStatus(d: DaemonModel, t: VpnSessionStatus, s: VpnSessionStatus)
    requires t.requestId != s.requestId && Unmarked(d.rows, s.requestId) && Told(d, s)
    ensures var shown := AfterServerStatus(d.rows, t).vpnStatus;
            Told(AfterStatus(d, t), s) <==> !(Shown(s) && shown.Some? && shown != Some(d.status))
  {
    hide Holds;
    var after, id := AfterStatus(d, t), s.requestId;
    assert id in after.rows && after.rows[id] == d.rows[id];
  }

  // A live row of which the event loop hears has its uuid.
  lemma NoPanic(w: World, e: Event, s: VpnSessionStatus)
    requires Safe(w) && Allowed(w, e) && e.Tunnel? && Unmarked(w.d.rows, s.requestId)
    ensures AfterTunnel(w.d, e.transition, e.found, e.ended, e.now).Some?
  {
    GrantedRow(w, e.found.value);
  }

  lemma HeldTunnel(d: DaemonModel, t: TunnelStateTransition, found: Option<Uuid>, ended: Option<Uuid>, now: Timestamp,
                   s: VpnSessionStatus)
    requires IsPick(d.rows, found) && IsPick(d.rows, ended) && Unmarked(d.rows, s.requestId) && Told(d, s)
    requires AfterTunnel(d, t, found, ended, now).Some?
    ensures Told(AfterTunnel(d, t, found, ended, now).value, s)
       <==> if Shown(s) then t.Error? && ended == Some(s.requestId)
            else !(s.Accepted? && t.Connected? && found == Some(s.requestId))
  {
  }

  ghost predicate NoneDisturbs(w: World, events: seq<Event>, s: VpnSessionStatus)
    requires AllowedRun(w, events)
    decreases |events|
  {
    events == [] || (!Disturbs(w, events[0], s) && NoneDisturbs(Step(w, events[0]), events[1..], s))
  }

  lemma {:induction false} StaysAbsorbed(w: World, events: seq<Event>, s: VpnSessionStatus)
    requires Safe(w) && AllowedRun(w, events) && s.requestId in w.used && Absorbed(w.d, s) && NoneDisturbs(w, events, s)
    ensures Absorbed(Run(w, events).d, s)
    decreases |events|
  {
    hide Absorbed, Disturbs, Safe, Step, Allowed;
    if events != [] {
      SafeStep(w, events[0]);
      AbsorbedStep(w, events[0], s);
      UsedStays(w, events[0], s.requestId);
      StaysAbsorbed(Step(w, events[0]), events[1..], s);
    }
  }

  lemma UsedStays(w: World, e: Event, id: Uuid)
    requires Allowed(w, e) && id in w.used
    ensures id in Step(w, e).used
  {
  }

  // A status that a poll brings again after any events of which none disturbs need not be sent again.
  lemma StutterInRuns(w: World, s: VpnSessionStatus, events: seq<Event>)
    requires Safe(w) && Allowed(w, ServerStatus(s)) && s.requestId in w.used
    requires AllowedRun(Step(w, ServerStatus(s)), events) && NoneDisturbs(Step(w, ServerStatus(s)), events, s)
    ensures var last := Run(Step(w, ServerStatus(s)), events);
            Allowed(last, ServerStatus(s)) ==> Watcher.Same(Step(last, ServerStatus(s)).d, last.d)
  {
    hide Safe, NoneDisturbs;
    SafeStep(w, ServerStatus(s));
    Watcher.SameAfter(w.d, w.d, s);
    StaysAbsorbed(Step(w, ServerStatus(s)), events, s);
  }
}
