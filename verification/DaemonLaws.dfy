/**
  What the daemon's outputs and its status say about the events that caused them. Each law holds of every safe world
  and every event that can happen next, and it is exact: an output of its kind is added, or a status taken on, in the
  cases named and in no others.
 */
module DaemonLaws {
  import opened Options
  import opened VpnSession
  import opened Daemon
  import opened DaemonRuns

  // What an event adds to the log.
  ghost function Added(w: World, e: Event): (added: seq<Output>)
    requires Safe(w) && Allowed(w, e)
    ensures Step(w, e).d.log == w.d.log + added
  {
    LogStep(w, e);
    Step(w, e).d.log[|w.d.log|..]
  }

  ghost function Count(w: World, e: Event, o: Output): nat
    requires Safe(w) && Allowed(w, e)
  {
    multiset(Added(w, e))[o]
  }

  // Outputs of one event, in the order in which they are made; each is there or not.
  datatype Parts = Parts(call: Option<Output>, client: Option<Output>, disconnect: Option<Output>, note: Option<Output>,
                         task: Option<Output>, shown: Option<Output>, connect: Option<Output>)

  function One(o: Option<Output>): seq<Output> {
    if o.Some? then [o.value] else []
  }

  function Flat(p: Parts): seq<Output> {
    One(p.call) + One(p.client) + One(p.disconnect) + One(p.note) + One(p.task) + One(p.shown) + One(p.connect)
  }

  const DISCONNECT := SendTunnelCommand(TunnelCommand.Disconnect)
  const CONNECT := SendTunnelCommand(TunnelCommand.Connect)

  predicate Kinds(p: Parts) {
    && (p.call.Some? ==> p.call.value.NewSessionCall?) && (p.client.Some? ==> p.client.value.ClientConnectedCall?)
    && (p.disconnect.Some? ==> p.disconnect.value == DISCONNECT) && (p.note.Some? ==> p.note.value.BroadcastNotification?)
    && (p.task.Some? ==> p.task.value.EndSessionTask?) && (p.shown.Some? ==> p.shown.value.BroadcastStatus?)
    && (p.connect.Some? ==> p.connect.value == CONNECT)
  }

  function PartOf(p: Parts, o: Output): Option<Output> {
    match o
    case NewSessionCall(_, _) => p.call
    case ClientConnectedCall(_) => p.client
    case EndSessionTask(_, _) => p.task
    case SendTunnelCommand(command) => if command.Connect? then p.connect else p.disconnect
    case BroadcastStatus(_) => p.shown
    case BroadcastNotification(_) => p.note
  }

  lemma CountOne(x: Option<Output>, o: Output)
    ensures multiset(One(x))[o] == if x == Some(o) then 1 else 0
  {
  }

  lemma FlatSum(p: Parts, o: Output)
    ensures multiset(Flat(p))[o]
         == multiset(One(p.call))[o] + multiset(One(p.client))[o] + multiset(One(p.disconnect))[o] + multiset(One(p.note))[o]
            + multiset(One(p.task))[o] + multiset(One(p.shown))[o] + multiset(One(p.connect))[o]
  {
    hide One;
  }

  lemma CountFlat(p: Parts, o: Output)
    requires Kinds(p)
    ensures multiset(Flat(p))[o] == if PartOf(p, o) == Some(o) then 1 else 0
  {
    hide One, Flat;
    FlatSum(p, o);
    CountOne(p.call, o);
    CountOne(p.client, o);
    CountOne(p.disconnect, o);
    CountOne(p.note, o);
    CountOne(p.task, o);
    CountOne(p.shown, o);
    CountOne(p.connect, o);
  }

  /* ---------- the causes ---------- */

  // A status of the server about a live row.
  predicate AboutLive(w: World, e: Event) {
    e.ServerStatus? && Unmarked(w.d.rows, e.status.requestId)
  }

  // The server is asked for a session by a connect while the status is Disconnected.
  function CallOf(w: World, e: Event): Option<Output> {
    if e.Connect? && w.d.status.Disconnected? then Some(NewSessionCall(e.requestId, e.location.code)) else None
  }

  // The session of a row: none where it was never accepted.
  function SessionOf(rows: Rows, found: Option<Uuid>): Option<SessionInfo> {
    match found
    case None => None
    case Some(id) =>
      if id !in rows then None
      else
        match rows[id].sessionUuid
        case None => None
        case Some(uuid) => Some(SessionInfo(id, uuid))
  }

  // It is told that the client is connected when the tunnel is, about the live row's session.
  function ClientOf(w: World, e: Event): Option<Output> {
    if e.Tunnel? && e.transition.Connected? && SessionOf(w.d.rows, e.found).Some?
    then Some(ClientConnectedCall(SessionOf(w.d.rows, e.found).value))
    else None
  }

  // The tunnel is told to disconnect when a disconnect comes while a server is ready or the tunnel connects or is
  // connected, and when the tunnel fails.
  predicate EndsTunnel(w: World, e: Event) {
    || (e.Disconnect? && (w.d.status.ServerReady? || w.d.status.Connecting? || w.d.status.Connected?))
    || (e.Tunnel? && e.transition.Error?)
  }

  // A session is ended by one task, for a disconnect and for a failure of the tunnel, with the live row's session and
  // the reason given.
  function TaskOf(w: World, e: Event): Option<Output> {
    if e.Disconnect? then Some(EndSessionTask(SessionOf(w.d.rows, e.found), e.reason))
    else if e.Tunnel? && e.transition.Error? then Some(EndSessionTask(SessionOf(w.d.rows, e.ended), e.transition.cause))
    else None
  }

  function RefusalText(error: VpnSessionError): string {
    match error
    case Server(message) => message
    case Connection => "server is unavailable, please try again later"
    case VpnSessionServiceDown => "daemon is partially up: vpn session service unavailable"
  }

  // A refusal of the server, a failure it reports of a live row and a failure of the tunnel are notified.
  function NotificationOf(w: World, e: Event): Option<Notification> {
    if e.Answer? && e.reply.Denied? && w.asking.Some? then
      Some(Notification(Refused(w.asking.value.requestId), RefusalText(e.reply.error), ServerFailed))
    else if AboutLive(w, e) && e.status.Failed? then
      Some(Notification(NotificationId.Failed(e.status.requestId),
                        "Server could not be provisioned, please try again later", ServerFailed))
    else if e.Tunnel? && e.transition.Error? then
      Some(Notification(if e.found.Some? then ClientError(e.found.value) else Unknown, e.transition.cause, ClientFailed))
    else None
  }

  function NoteOf(w: World, e: Event): Option<Output> {
    if NotificationOf(w, e).Some? then Some(BroadcastNotification(NotificationOf(w, e).value)) else None
  }

  // The status is broadcast by every event that sets it but a grant and a restart.
  predicate Announces(w: World, e: Event)
    requires Allowed(w, e)
  {
    || e.Disconnect?
    || (e.Tunnel? && Step(w, e).alive)
    || (AboutLive(w, e) && !e.status.Accepted? && !e.status.ClientConnected?)
  }

  // The tunnel is told to connect when the server of a live row is reported ready.
  predicate StartsTunnel(w: World, e: Event) {
    AboutLive(w, e) && e.status.ServerReady?
  }

  function PartsOf(w: World, e: Event): Parts
    requires Allowed(w, e)
  {
    Parts(CallOf(w, e), ClientOf(w, e), if EndsTunnel(w, e) then Some(DISCONNECT) else None, NoteOf(w, e), TaskOf(w, e),
          if Announces(w, e) then Some(BroadcastStatus(Step(w, e).d.status)) else None,
          if StartsTunnel(w, e) then Some(CONNECT) else None)
  }

  // All that an event adds, in order: a call for its cause, and so on.
  lemma OutputsExact(w: World, e: Event)
    requires Safe(w) && Allowed(w, e)
    ensures Added(w, e) == Flat(PartsOf(w, e))
    ensures var n, kept := NotificationOf(w, e), Step(w, e).d.notifications;
            n.Some? ==> n.value.id in kept && kept[n.value.id] == n.value
  {
    hide Safe, AfterDisconnect, AfterTunnel, AfterStatus, AfterReply, AfterAsk, RefusalText, Flat;
    FlatFew(w.d.log);
    match e {
      case Connect(location, id) => SaidOnConnect(w, location, id);
      case Answer(reply) => SaidOnAnswer(w.d, w.asking.value.location, w.asking.value.requestId, reply);
      case Disconnect(found, reason) => SaidOnDisconnect(w.d, found, reason);
      case ServerStatus(status) => SaidOnStatus(w.d, status);
      case Tunnel(t, found, ended, now) =>
        if found.Some? {
          GrantedRow(w, found.value);
          KnownSession(w, found.value);
        }
        SaidOnTunnel(w.d, t, found, ended, now);
      case _ =>
    }
    AddedIs(w, e, Flat(PartsOf(w, e)));
  }

  // Where a handler's log is known, so is what it adds.
  lemma AddedIs(w: World, e: Event, added: seq<Output>)
    requires Safe(w) && Allowed(w, e) && Step(w, e).d.log == w.d.log + added
    ensures Added(w, e) == added
  {
    assert (w.d.log + added)[|w.d.log|..] == added;
  }

  // How often an output is among them: once if it has its cause.
  lemma CountExact(w: World, e: Event, o: Output)
    requires Safe(w) && Allowed(w, e)
    ensures Count(w, e, o) == if PartOf(PartsOf(w, e), o) == Some(o) then 1 else 0
  {
    hide Safe, Step, Allowed, Added, CallOf, ClientOf, EndsTunnel, NotificationOf, TaskOf, Announces, StartsTunnel, Flat;
    OutputsExact(w, e);
    CallKinds(w, e);
    CountFlat(PartsOf(w, e), o);
  }

  lemma CallKinds(w: World, e: Event)
    ensures CallOf(w, e).Some? ==> CallOf(w, e).value.NewSessionCall?
    ensures ClientOf(w, e).Some? ==> ClientOf(w, e).value.ClientConnectedCall?
    ensures TaskOf(w, e).Some? ==> TaskOf(w, e).value.EndSessionTask?
  {
  }

  /* ---------- the tunnel is told what it has to be told ---------- */

  // To connect, once, exactly when the server of an unmarked row is reported ready.
  lemma ConnectExact(w: World, e: Event)
    requires Safe(w) && Allowed(w, e)
    ensures Count(w, e, SendTunnelCommand(TunnelCommand.Connect))
         == if e.ServerStatus? && e.status.ServerReady? && Unmarked(w.d.rows, e.status.requestId) then 1 else 0
  {
    hide Safe, Step, Allowed, Count;
    CountExact(w, e, CONNECT);
  }

  // To disconnect, once and before the session is ended.
  lemma DisconnectExact(w: World, e: Event)
    requires Safe(w) && Allowed(w, e)
    ensures Count(w, e, SendTunnelCommand(TunnelCommand.Disconnect))
         == if (e.Disconnect? && (w.d.status.ServerReady? || w.d.status.Connecting? || w.d.status.Connected?))
               || (e.Tunnel? && e.transition.Error?) then 1 else 0
    ensures forall i, j :: (0 <= i < |Added(w, e)| && 0 <= j < |Added(w, e)|
                            && Added(w, e)[i] == SendTunnelCommand(TunnelCommand.Disconnect) && Added(w, e)[j].EndSessionTask?)
              ==> i < j
  {
    hide Safe, Step, Allowed, Count, Added, SessionOf, NotificationOf;
    CountExact(w, e, DISCONNECT);
    OutputsExact(w, e);
    CallKinds(w, e);
    TellsFirst(PartsOf(w, e));
  }

  lemma TellsFirst(p: Parts)
    requires Kinds(p)
    ensures forall i, j :: (0 <= i < |Flat(p)| && 0 <= j < |Flat(p)| && Flat(p)[i] == DISCONNECT && Flat(p)[j].EndSessionTask?) ==> i < j
  {
    hide One;
    var a := One(p.call) + One(p.client) + One(p.disconnect);
    var b := One(p.note) + One(p.task) + One(p.shown) + One(p.connect);
    assert Flat(p) == a + b;
    OneHolds(p.call);
    OneHolds(p.client);
    OneHolds(p.disconnect);
    OneHolds(p.note);
    OneHolds(p.task);
    OneHolds(p.shown);
    OneHolds(p.connect);
    forall k | 0 <= k < |a| ensures !a[k].EndSessionTask? {
      assert a[k] in a;
    }
    forall k | 0 <= k < |b| ensures b[k] != DISCONNECT {
      assert b[k] in b;
    }
    InOrder(a, b);
  }

  lemma OneHolds(x: Option<Output>)
    ensures forall o :: o in One(x) <==> x == Some(o)
  {
  }

  lemma InOrder(a: seq<Output>, b: seq<Output>)
    requires forall k :: 0 <= k < |a| ==> !a[k].EndSessionTask?
    requires forall k :: 0 <= k < |b| ==> b[k] != DISCONNECT
    ensures forall i, j :: (0 <= i < |a + b| && 0 <= j < |a + b| && (a + b)[i] == DISCONNECT && (a + b)[j].EndSessionTask?) ==> i < j
  {
  }

  /* ---------- the status shown ---------- */

  predicate SetsStatus(w: World, e: Event)
    requires Allowed(w, e)
  {
    Announces(w, e) || (e.Answer? && e.reply.Granted?) || e.Restart?
  }

  function Place(w: World, id: Uuid): Option<Location> {
    if id in w.d.rows then Some(w.d.rows[id].location) else None
  }

  // What it takes for an event to set the status to this one.
  predicate Gives(w: World, e: Event, s: VpnStatus) {
    match s
    case Accepted(location) => e.Answer? && e.reply.Granted? && w.asking.Some? && location == w.asking.value.location
    case ServerCreated(location) =>
      AboutLive(w, e) && e.status.ServerCreated? && Place(w, e.status.requestId) == Some(location)
    case ServerRunning(location) =>
      AboutLive(w, e) && e.status.ServerRunning? && Place(w, e.status.requestId) == Some(location)
    case ServerReady(location) =>
      AboutLive(w, e) && e.status.ServerReady? && Place(w, e.status.requestId) == Some(location)
    case Connecting(location) =>
      e.Tunnel? && e.transition.Connecting? && e.found.Some? && Place(w, e.found.value) == Some(location)
    case Connected(location, since) =>
      e.Tunnel? && e.transition.Connected? && e.found.Some? && Place(w, e.found.value) == Some(location) && since == e.now
    case Disconnecting(location) =>
      || (e.Disconnect? && (w.d.status.ServerReady? || w.d.status.Connecting? || w.d.status.Connected? || w.d.status.Disconnecting?)
          && location == w.d.status.location)
      || (e.Tunnel? && e.transition.Disconnecting?
          && if e.found.Some? then Place(w, e.found.value) == Some(location) else w.d.status == VpnStatus.Disconnecting(location))
    case Disconnected =>
      || e.Restart?
      || (e.Disconnect? && (w.d.status.Accepted? || w.d.status.ServerCreated? || w.d.status.ServerRunning? || w.d.status.Disconnected?))
      || (AboutLive(w, e) && (e.status.Failed? || e.status.Ended?))
      || (e.Tunnel? && (e.transition.Disconnected? || e.transition.Error?
                        || ((e.transition.Connecting? || e.transition.Connected?) && e.found.None?)))
  }

  // The status is this one after an event exactly if the event gives it, or leaves the status and it was so before.
  lemma StatusExact(w: World, e: Event, s: VpnStatus)
    requires Safe(w) && Allowed(w, e)
    ensures Step(w, e).d.status == s <==> if SetsStatus(w, e) then Gives(w, e, s) else w.d.status == s
  {
    hide Safe;
    match e
    case Connect(_, _) =>
    case Answer(_) =>
    case Disconnect(_, _) =>
    case ServerStatus(_) =>
    case Tunnel(t, found, ended, now) => StatusOfTunnel(w, e, s);
    case _ =>
  }

  lemma StatusOfTunnel(w: World, e: Event, s: VpnStatus)
    requires Safe(w) && Allowed(w, e) && e.Tunnel?
    ensures Step(w, e).alive <==> !(e.transition.Disconnecting? && e.found.None? && !w.d.status.Disconnecting?)
    ensures Step(w, e).alive ==> (Step(w, e).d.status == s <==> Gives(w, e, s))
    ensures !Step(w, e).alive ==> Step(w, e).d == w.d
  {
    if e.found.Some? {
      GrantedRow(w, e.found.value);
      KnownSession(w, e.found.value);
    }
  }

  /* ---------- the last command and the status ---------- */

  function LastCommand(log: seq<Output>): Option<TunnelCommand> {
    if log == [] then None
    else if log[|log| - 1].SendTunnelCommand? then Some(log[|log| - 1].command)
    else LastCommand(log[..|log| - 1])
  }

  lemma {:induction false} LastOfBoth(a: seq<Output>, b: seq<Output>)
    ensures LastCommand(a + b) == LastOr(LastCommand(b), LastCommand(a))
    decreases |b|
  {
    if b == [] {
      assert a + b == a;
    } else {
      LastOfBoth(a, b[..|b| - 1]);
      assert (a + b)[..|a + b| - 1] == a + b[..|b| - 1];
    }
  }

  lemma LastOfOne(x: Option<Output>)
    ensures LastCommand(One(x)) == if x.Some? && x.value.SendTunnelCommand? then Some(x.value.command) else None
  {
    if x.Some? {
      assert [x.value][..0] == [];
    }
  }

  lemma LastOfParts(log: seq<Output>, p: Parts)
    requires Kinds(p)
    ensures LastCommand(log + Flat(p))
         == if p.connect.Some? then Some(TunnelCommand.Connect)
            else if p.disconnect.Some? then Some(TunnelCommand.Disconnect) else LastCommand(log)
  {
    hide One, LastCommand, LastOr, Flat;
    LastOfOne(p.call);
    LastOfOne(p.client);
    LastOfOne(p.disconnect);
    LastOfOne(p.note);
    LastOfOne(p.task);
    LastOfOne(p.shown);
    LastOfOne(p.connect);
    LastOfFlat(p);
    LastOfBoth(log, Flat(p));
    LastOrSome();
  }

  lemma LastOfFlat(p: Parts)
    ensures LastCommand(Flat(p))
         == LastOr(LastCommand(One(p.connect)), LastOr(LastCommand(One(p.shown)), LastOr(LastCommand(One(p.task)),
              LastOr(LastCommand(One(p.note)), LastOr(LastCommand(One(p.disconnect)),
                LastOr(LastCommand(One(p.client)), LastCommand(One(p.call))))))))
  {
    hide One, LastCommand, LastOr;
    var a := One(p.call) + One(p.client);
    var b := a + One(p.disconnect);
    var c := b + One(p.note);
    var d := c + One(p.task);
    LastOfBoth(One(p.call), One(p.client));
    LastOfBoth(a, One(p.disconnect));
    LastOfBoth(b, One(p.note));
    LastOfBoth(c, One(p.task));
    LastOfBoth(d, One(p.shown));
    LastOfBoth(d + One(p.shown), One(p.connect));
  }

  function LastOr(b: Option<TunnelCommand>, a: Option<TunnelCommand>): Option<TunnelCommand> {
    if b.Some? then b else a
  }

  lemma LastOrSome()
    ensures forall a, b :: LastOr(b, a) == if b.Some? then b else a
  {
  }

  predicate InUse(status: VpnStatus) {
    status.ServerReady? || status.Connecting? || status.Connected?
  }

  // While the last command is to connect, the status is one of a tunnel in use.
  ghost predicate InStep(w: World) {
    LastCommand(w.d.log) == Some(TunnelCommand.Connect) ==> InUse(w.d.status)
  }

  // The events that take the status from under a tunnel told to connect, and tell it nothing: the server's Failed or
  // Ended, or a status of it from before the server was ready; a transition that shows Disconnected or Disconnecting;
  // a restart.
  predicate Outruns(w: World, e: Event) {
    || (AboutLive(w, e) && !e.status.Accepted? && !e.status.ClientConnected? && !e.status.ServerReady?)
    || (e.Tunnel? && (e.transition.Disconnected? || (e.transition.Disconnecting? && e.found.Some?)
                      || ((e.transition.Connecting? || e.transition.Connected?) && e.found.None?)))
    || e.Restart?
  }

  lemma InStepExact(w: World, e: Event)
    requires Safe(w) && Allowed(w, e) && InStep(w)
    ensures InStep(Step(w, e)) <==> !(LastCommand(w.d.log) == Some(TunnelCommand.Connect) && Outruns(w, e))
  {
    hide Safe, Added, SessionOf, NotificationOf, LastCommand, CallOf, ClientOf, TaskOf, Flat, Step, Allowed;
    OutputsExact(w, e);
    CallKinds(w, e);
    LastOfParts(w.d.log, PartsOf(w, e));
    assert Step(w, e).d.log == w.d.log + Added(w, e);
    var s := Step(w, e).d.status;
    StatusExact(w, e, s);
    if e.Answer? {
      NotAsking(w, e);
    }
    if e.Tunnel? {
      StatusOfTunnel(w, e, s);
    }
  }

  lemma NotAsking(w: World, e: Event)
    requires Safe(w) && Allowed(w, e) && e.Answer?
    ensures w.d.status.Disconnected?
  {
  }

  ghost predicate NoneOutruns(w: World, events: seq<Event>)
    requires AllowedRun(w, events)
    decreases |events|
  {
    events == [] || (!Outruns(w, events[0]) && NoneOutruns(Step(w, events[0]), events[1..]))
  }

  // So after every run without such an event the tunnel was last told to connect only if it is in use.
  lemma {:induction false} RunInStep(w: World, events: seq<Event>)
    requires Safe(w) && AllowedRun(w, events) && InStep(w) && NoneOutruns(w, events)
    ensures InStep(Run(w, events))
    decreases |events|
  {
    hide Safe, Step, Allowed, Outruns, InStep;
    if events != [] {
      SafeStep(w, events[0]);
      InStepExact(w, events[0]);
      RunInStep(Step(w, events[0]), events[1..]);
    }
  }

  /* ---------- what was broadcast last ---------- */

  // The last status broadcast is at this place.
  ghost predicate LastShown(log: seq<Output>, i: nat) {
    i < |log| && log[i].BroadcastStatus? && forall j :: i < j < |log| ==> !log[j].BroadcastStatus?
  }

  // A status under way has been broadcast, and none since; one that says Connected directly after the server was told
  // that the client of a granted session is connected. (Listeners hear of Accepted by the answer to their request.)
  ghost predicate Announced(w: World) {
    !w.d.status.Accepted? && !w.d.status.Disconnected? ==> exists i: nat :: AnnouncedAt(w, i)
  }

  ghost predicate AnnouncedAt(w: World, i: nat) {
    var log := w.d.log;
    && i < |log| && LastShown(log, i) && log[i] == BroadcastStatus(w.d.status)
    && (w.d.status.Connected? ==> i > 0 && log[i - 1].ClientConnectedCall? && Known(w, log[i - 1].session))
  }

  lemma AnnouncedStep(w: World, e: Event)
    requires Safe(w) && Allowed(w, e) && Announced(w)
    ensures Announced(Step(w, e))
  {
    hide Safe, Added, SessionOf, NotificationOf, CallOf, ClientOf, TaskOf, Flat, Step, Allowed, Known, LastShown, Kinds;
    var next, s, p := Step(w, e), Step(w, e).d.status, PartsOf(w, e);
    OutputsExact(w, e);
    PartKinds(w, e);
    assert next.d.log == w.d.log + Flat(p);
    StatusExact(w, e, s);
    if !s.Accepted? && !s.Disconnected? {
      if Announces(w, e) {
        var i := ShownLast(w.d.log, p);
        if s.Connected? {
          ClientGranted(w, e);
        }
        assert AnnouncedAt(next, i);
      } else {
        var i: nat :| AnnouncedAt(w, i);
        StillLast(w.d.log, p, i);
        if s.Connected? {
          StillKnown(w, e, w.d.log[i - 1].session);
        }
        assert AnnouncedAt(next, i);
      }
    }
  }

  lemma PartKinds(w: World, e: Event)
    requires Allowed(w, e)
    ensures Kinds(PartsOf(w, e))
  {
    hide Step, Allowed;
  }

  lemma StillKnown(w: World, e: Event, session: SessionInfo)
    requires Safe(w) && Allowed(w, e) && Known(w, session)
    ensures Known(Step(w, e), session)
  {
    hide Step, Allowed;
    GrantsKept(w, e);
  }

  // The tunnel's Connected makes the call, about a granted session, directly before the broadcast.
  lemma ClientGranted(w: World, e: Event)
    requires Safe(w) && Allowed(w, e) && e.Tunnel? && e.transition.Connected? && e.found.Some?
    ensures var p := PartsOf(w, e);
            && p.client.Some? && p.client.value.ClientConnectedCall? && Known(Step(w, e), p.client.value.session)
            && p.disconnect.None? && p.note.None? && p.task.None?
  {
    GrantedRow(w, e.found.value);
    KnownSession(w, e.found.value);
    GrantsKept(w, e);
  }

  function BeforeShown(p: Parts): seq<Output> {
    One(p.call) + One(p.client) + One(p.disconnect) + One(p.note) + One(p.task)
  }

  lemma ShownLast(log: seq<Output>, p: Parts) returns (i: nat)
    requires Kinds(p) && p.shown.Some?
    ensures var all := log + Flat(p);
            && i < |all| && LastShown(all, i) && all[i] == p.shown.value
            && (p.client.Some? && p.disconnect.None? && p.note.None? && p.task.None? ==> i > 0 && all[i - 1] == p.client.value)
  {
    hide One, LastShown, BeforeShown;
    OneShown(p.shown);
    OneHolds(p.connect);
    ClientBefore(p);
    var before := BeforeShown(p);
    i := |log + before|;
    FlatBefore(p);
    AllTogether(log, before, One(p.shown), One(p.connect));
    ShownAt(log + before, p.shown.value, One(p.connect));
  }

  lemma FlatBefore(p: Parts)
    ensures Flat(p) == BeforeShown(p) + One(p.shown) + One(p.connect)
  {
    hide One;
  }

  lemma ClientBefore(p: Parts)
    ensures var before := BeforeShown(p);
            p.client.Some? && p.disconnect.None? && p.note.None? && p.task.None?
            ==> before != [] && before[|before| - 1] == p.client.value
  {
  }

  lemma AllTogether(a: seq<Output>, b: seq<Output>, c: seq<Output>, d: seq<Output>)
    ensures a + (b + c + d) == a + b + c + d
  {
  }

  lemma OneShown(x: Option<Output>)
    ensures One(x) == if x.Some? then [x.value] else []
  {
  }

  lemma ShownAt(front: seq<Output>, shown: Output, rest: seq<Output>)
    requires shown.BroadcastStatus? && forall o :: o in rest ==> !o.BroadcastStatus?
    ensures var all := front + [shown] + rest;
            LastShown(all, |front|) && all[|front|] == shown && (front != [] ==> all[|front| - 1] == front[|front| - 1])
  {
    var all := front + [shown] + rest;
    forall j | |front| < j < |all|
      ensures !all[j].BroadcastStatus?
    {
      assert all[j] in rest;
    }
  }

  lemma StillLast(log: seq<Output>, p: Parts, i: nat)
    requires Kinds(p) && p.shown.None? && LastShown(log, i)
    ensures var all := log + Flat(p); LastShown(all, i) && all[i] == log[i] && (i > 0 ==> all[i - 1] == log[i - 1])
  {
    hide One;
    var b := Flat(p);
    OneHolds(p.call);
    OneHolds(p.client);
    OneHolds(p.disconnect);
    OneHolds(p.note);
    OneHolds(p.task);
    OneHolds(p.shown);
    OneHolds(p.connect);
    assert forall o :: o in b ==> !o.BroadcastStatus?;
    forall j | i < j < |log + b|
      ensures !(log + b)[j].BroadcastStatus?
    {
      if j >= |log| {
        assert (log + b)[j] in b;
      }
    }
  }

  lemma {:induction false} RunAnnounced(w: World, events: seq<Event>)
    requires Safe(w) && AllowedRun(w, events) && Announced(w)
    ensures Announced(Run(w, events))
    decreases |events|
  {
    hide Safe, Step, Allowed, Announced;
    if events != [] {
      SafeStep(w, events[0]);
      AnnouncedStep(w, events[0]);
      RunAnnounced(Step(w, events[0]), events[1..]);
    }
  }

  /* ---------- rows ---------- */

  // A row comes with a connect while the status is Disconnected.
  lemma RowComesExact(w: World, e: Event, id: Uuid)
    requires Safe(w) && Allowed(w, e) && id !in w.d.rows
    ensures id in Step(w, e).d.rows <==> e.Connect? && e.requestId == id && w.d.status.Disconnected?
  {
    hide AfterDisconnect, AfterTunnel, AfterStatus;
    match e
    case Disconnect(found, reason) => DisconnectKeeps(w.d, found, reason);
    case ServerStatus(status) => StatusRemoves(w.d, status);
    case Tunnel(t, found, ended, now) => TunnelKeeps(w.d, t, found, ended, now);
    case _ =>
  }

  // It goes when the server denies the session, reports it failed or ended while the row is live, has ended it for the
  // task, or has answered the reclaimer, be it with an error of its own.
  lemma RowGoesExact(w: World, e: Event, id: Uuid)
    requires Safe(w) && Allowed(w, e) && id in w.d.rows
    ensures id !in Step(w, e).d.rows
       <==> || (e.Answer? && e.reply.Denied? && w.asking.Some? && w.asking.value.requestId == id)
            || (AboutLive(w, e) && e.status.requestId == id && (e.status.Failed? || e.status.Ended?))
            || (e.EndAnswered? && e.session.requestId == id && e.answer.Ended?)
            || (e.ReclaimAnswered? && e.session.requestId == id && (e.answer.Ended? || e.answer.Server?))
  {
    hide AfterDisconnect, AfterTunnel, AfterStatus;
    match e
    case Disconnect(found, reason) => DisconnectKeeps(w.d, found, reason);
    case ServerStatus(status) => StatusRemoves(w.d, status);
    case Tunnel(t, found, ended, now) => TunnelKeeps(w.d, t, found, ended, now);
    case _ =>
  }

  // It is marked by a disconnect or a failure of the tunnel that finds it, and by a restart.
  lemma RowMarkedExact(w: World, e: Event, id: Uuid)
    requires Safe(w) && Allowed(w, e) && Unmarked(w.d.rows, id) && id in Step(w, e).d.rows
    ensures Step(w, e).d.rows[id].markForDeletion
       <==> (e.Disconnect? && e.found == Some(id)) || (e.Tunnel? && e.transition.Error? && e.ended == Some(id)) || e.Restart?
  {
    hide AfterStatus, AfterTunnel, AfterDisconnect;
    match e
    case Disconnect(found, reason) => MarkedByDisconnect(w.d, found, reason, id);
    case ServerStatus(status) => MarkedByStatus(w.d, status, id);
    case Tunnel(t, found, ended, now) => MarkedByTunnel(w.d, t, found, ended, now, id);
    case _ =>
  }

  lemma MarkedByDisconnect(d: DaemonModel, found: Option<Uuid>, reason: string, id: Uuid)
    requires IsPick(d.rows, found) && Unmarked(d.rows, id)
    ensures var after := AfterDisconnect(d, found, reason).rows; id in after && (after[id].markForDeletion <==> found == Some(id))
  {
  }

  lemma MarkedByStatus(d: DaemonModel, status: VpnSessionStatus, id: Uuid)
    requires Unmarked(d.rows, id) && id in AfterStatus(d, status).rows
    ensures !AfterStatus(d, status).rows[id].markForDeletion
  {
  }

  lemma MarkedByTunnel(d: DaemonModel, t: TunnelStateTransition, found: Option<Uuid>, ended: Option<Uuid>, now: Timestamp, id: Uuid)
    requires IsPick(d.rows, found) && IsPick(d.rows, ended) && Unmarked(d.rows, id)
    ensures t.Error? ==> AfterTunnel(d, t, found, ended, now).Some?
    ensures AfterTunnel(d, t, found, ended, now).Some?
        ==> var after := AfterTunnel(d, t, found, ended, now).value.rows;
            id in after && (after[id].markForDeletion <==> t.Error? && ended == Some(id))
  {
  }

  /* ---------- the reply to a connect ---------- */

  // A connect is refused, with the place under way, exactly if the status is not Disconnected; else the reply is the
  // status that it leads to.
  lemma ReplyExact(d: DaemonModel, location: Location, id: Uuid, answer: NewSessionReply)
    requires id !in d.rows
    ensures var reply := ConnectReply(d, location, answer);
            if d.status.Disconnected? then reply == Reply.Ok(AfterConnect(d, location, id, answer).status)
            else reply == Reply.Err(AnotherVpnSessionInProgress(d.status.location)) && AfterConnect(d, location, id, answer) == d
  {
  }

  lemma KnownSession(w: World, id: Uuid)
    requires Safe(w) && id in w.granted && id in w.d.rows
    ensures SessionOf(w.d.rows, Some(id)) == Some(SessionInfo(id, w.granted[id]))
  {
  }

  lemma SaidOnConnect(w: World, location: Location, id: Uuid)
    requires Allowed(w, Event.Connect(location, id))
    ensures Step(w, Event.Connect(location, id)).d.log
         == w.d.log + Flat(NONE.(call := if w.d.status.Disconnected? then Some(NewSessionCall(id, location.code)) else None))
  {
    FlatFew(w.d.log);
  }

  const NONE := Parts(None, None, None, None, None, None, None)

  lemma FlatFew(log: seq<Output>)
    ensures log + [] == log && Flat(NONE) == []
  {
  }

  lemma SaidOnAnswer(d: DaemonModel, location: Location, id: Uuid, reply: NewSessionReply)
    ensures var after := AfterReply(d, location, id, reply);
            if reply.Granted? then after.log == d.log + Flat(NONE)
            else
              var n := Notification(Refused(id), RefusalText(reply.error), ServerFailed);
              && after.log == d.log + Flat(NONE.(note := Some(BroadcastNotification(n))))
              && after.notifications == d.notifications[n.id := n]
  {
    FlatFew(d.log);
  }

  lemma SaidOnDisconnect(d: DaemonModel, found: Option<Uuid>, reason: string)
    requires IsPick(d.rows, found)
    ensures var after := AfterDisconnect(d, found, reason);
            var tells := d.status.ServerReady? || d.status.Connecting? || d.status.Connected?;
            after.log == d.log + Flat(NONE.(disconnect := if tells then Some(DISCONNECT) else None,
                                            task := Some(EndSessionTask(SessionOf(d.rows, found), reason)),
                                            shown := Some(BroadcastStatus(after.status))))
  {
  }

  const NOT_PROVIDED := "Server could not be provisioned, please try again later"

  lemma SaidOnStatus(d: DaemonModel, status: VpnSessionStatus)
    ensures var after := AfterStatus(d, status);
            var shown := NONE.(shown := Some(BroadcastStatus(after.status)));
            var n := Notification(NotificationId.Failed(status.requestId), NOT_PROVIDED, ServerFailed);
            if !Unmarked(d.rows, status.requestId) || status.Accepted? || status.ClientConnected? then
              after.log == d.log + Flat(NONE)
            else if status.Failed? then
              && after.log == d.log + Flat(shown.(note := Some(BroadcastNotification(n))))
              && after.notifications == d.notifications[n.id := n]
            else if status.ServerReady? then after.log == d.log + Flat(shown.(connect := Some(CONNECT)))
            else after.log == d.log + Flat(shown)
  {
    FlatFew(d.log);
  }

  lemma SaidOnTunnel(d: DaemonModel, t: TunnelStateTransition, found: Option<Uuid>, ended: Option<Uuid>, now: Timestamp)
    requires IsPick(d.rows, found) && IsPick(d.rows, ended) && (found.Some? ==> SessionOf(d.rows, found).Some?)
    ensures AfterTunnel(d, t, found, ended, now).None? ==> t.Disconnecting?
    ensures AfterTunnel(d, t, found, ended, now).Some? ==>
              var after := AfterTunnel(d, t, found, ended, now).value;
              var shown := NONE.(shown := Some(BroadcastStatus(after.status)));
              var n := Notification(if found.Some? then ClientError(found.value) else Unknown, if t.Error? then t.cause else "", ClientFailed);
              if t.Error? then
                && after.log == d.log + Flat(shown.(disconnect := Some(DISCONNECT), note := Some(BroadcastNotification(n)),
                                                    task := Some(EndSessionTask(SessionOf(d.rows, ended), t.cause))))
                && after.notifications == d.notifications[n.id := n]
              else if t.Connected? && found.Some? then
                after.log == d.log + Flat(shown.(client := Some(ClientConnectedCall(SessionOf(d.rows, found).value))))
              else after.log == d.log + Flat(shown)
  {
    hide Flat;
    if AfterTunnel(d, t, found, ended, now).Some? {
      var shown := NONE.(shown := Some(BroadcastStatus(AfterTunnel(d, t, found, ended, now).value.status)));
      if t.Error? {
        var processed := AfterTransition(d.rows, found, t, d.status, now);
        assert processed.notification.Some? && processed.endSession == Some(t.cause);
        FlatError(d.log, shown.(disconnect := Some(DISCONNECT), note := Some(BroadcastNotification(processed.notification.value)),
                                task := Some(EndSessionTask(SessionOf(d.rows, ended), t.cause))));
      } else if t.Connected? && found.Some? {
        FlatClient(d.log, shown.(client := Some(ClientConnectedCall(SessionOf(d.rows, found).value))));
      } else {
        FlatShown(d.log, shown);
      }
    }
  }

  lemma FlatShown(log: seq<Output>, p: Parts)
    requires p.shown.Some? && p == NONE.(shown := p.shown)
    ensures log + Flat(p) == log + [p.shown.value]
  {
  }

  lemma FlatClient(log: seq<Output>, p: Parts)
    requires p.client.Some? && p.shown.Some? && p == NONE.(client := p.client, shown := p.shown)
    ensures log + Flat(p) == log + [p.client.value] + [p.shown.value]
  {
  }

  lemma FlatError(log: seq<Output>, p: Parts)
    requires p.disconnect.Some? && p.note.Some? && p.task.Some? && p.shown.Some?
    requires p == NONE.(disconnect := p.disconnect, note := p.note, task := p.task, shown := p.shown)
    ensures log + Flat(p) == log + [p.disconnect.value] + [p.note.value] + [p.task.value] + [p.shown.value]
  {
  }
}
