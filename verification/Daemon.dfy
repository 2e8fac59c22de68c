/**
  The daemon's event loop (daemon.rs) over its state (state.rs) and its table of sessions.

  What a handler does is given twice: as a function from the daemon before the event to the daemon after it, and as
  a method that updates the objects in place, step by step. Everything the daemon does to the world outside (calls,
  tunnel commands, messages to listeners) is appended to one log, so that its order is part of both.
 */
module Daemon {
  import opened Options
  import opened VpnSession

  datatype VpnSessionError = VpnSessionServiceDown | Connection | Server(message: string)

  // The server's answer to a request for a session. An accepting answer names a request, in principle any.
  datatype NewSessionReply = Granted(requestId: Uuid, uuid: Uuid) | Denied(error: VpnSessionError)

  datatype DaemonError = AnotherVpnSessionInProgress(location: Location)

  datatype Reply = Ok(status: VpnStatus) | Err(error: DaemonError)

  datatype Output =
    | NewSessionCall(requestId: Uuid, locationCode: string)
    | ClientConnectedCall(session: SessionInfo)
    | EndSessionTask(info: Option<SessionInfo>, reason: string)
    | SendTunnelCommand(command: TunnelCommand)
    | BroadcastStatus(status: VpnStatus)
    | BroadcastNotification(notification: Notification)

  type Notifications = map<NotificationId, Notification>

  datatype DaemonModel = DaemonModel(status: VpnStatus, notifications: Notifications, rows: Rows, log: seq<Output>)

  const SERVER_UNAVAILABLE := "server is unavailable, please try again later"
  const SERVICE_UNAVAILABLE := "daemon is partially up: vpn session service unavailable"

  function StatusOnDisconnect(status: VpnStatus): VpnStatus {
    match status
    case ServerReady(location) => VpnStatus.Disconnecting(location)
    case Connecting(location) => VpnStatus.Disconnecting(location)
    case Connected(location, _) => VpnStatus.Disconnecting(location)
    case Disconnecting(location) => VpnStatus.Disconnecting(location)
    case _ => VpnStatus.Disconnected
  }

  function InProgress(status: VpnStatus): Option<Location> {
    if status.Disconnected? then None else Some(status.location)
  }

  function RefusalNotification(requestId: Uuid, error: VpnSessionError): Notification {
    var message := match error
      case VpnSessionServiceDown => SERVICE_UNAVAILABLE
      case Connection => SERVER_UNAVAILABLE
      case Server(message) => message;
    Notification(Refused(requestId), message, ServerFailed)
  }

  predicate TunnelInUse(status: VpnStatus) {
    status.ServerReady? || status.Connecting? || status.Connected?
  }

  // The first half of a connect: the row is added and the server asked.
  function AfterAsk(d: DaemonModel, location: Location, requestId: Uuid): DaemonModel
    requires requestId !in d.rows
  {
    d.(rows := d.rows[requestId := NewRow(location)], log := d.log + [NewSessionCall(requestId, location.code)])
  }

  // The second half: the server has answered.
  function AfterReply(d: DaemonModel, location: Location, requestId: Uuid, reply: NewSessionReply): DaemonModel {
    match reply
    case Granted(granted, uuid) =>
      d.(status := VpnStatus.Accepted(location), rows := AfterAccepted(d.rows, granted, uuid))
    case Denied(error) =>
      AfterNotification(d.(rows := d.rows - {requestId}), Some(RefusalNotification(requestId, error)))
  }

  function AfterConnect(d: DaemonModel, location: Location, requestId: Uuid, reply: NewSessionReply): DaemonModel
    requires requestId !in d.rows
  {
    if InProgress(d.status).Some? then d
    else AfterReply(AfterAsk(d, location, requestId), location, requestId, reply)
  }

  function ConnectReply(d: DaemonModel, location: Location, reply: NewSessionReply): Reply {
    if InProgress(d.status).Some? then Err(AnotherVpnSessionInProgress(InProgress(d.status).value))
    else if reply.Granted? then Ok(VpnStatus.Accepted(location))
    else Ok(VpnStatus.Disconnected)
  }

  function AfterEnd(d: DaemonModel, found: Option<Uuid>, reason: string): DaemonModel
    requires IsPick(d.rows, found)
  {
    d.(rows := AfterEndSession(d.rows, found), log := d.log + [EndSessionTask(EndedSession(d.rows, found), reason)])
  }

  function AfterSetStatus(d: DaemonModel, status: VpnStatus): DaemonModel {
    d.(status := status, log := d.log + [BroadcastStatus(status)])
  }

  function AfterNotification(d: DaemonModel, notification: Option<Notification>): DaemonModel {
    match notification
    case None => d
    case Some(n) => d.(notifications := d.notifications[n.id := n], log := d.log + [BroadcastNotification(n)])
  }

  // The tunnel is told first, then the session is ended, then the listeners hear of the status.
  function AfterDisconnect(d: DaemonModel, found: Option<Uuid>, reason: string): DaemonModel
    requires IsPick(d.rows, found)
  {
    var told := if TunnelInUse(d.status) then d.(log := d.log + [SendTunnelCommand(TunnelCommand.Disconnect)]) else d;
    AfterSetStatus(AfterEnd(told, found, reason), StatusOnDisconnect(d.status))
  }

  function AfterStatus(d: DaemonModel, status: VpnSessionStatus): DaemonModel {
    var processed := AfterServerStatus(d.rows, status);
    var notified := AfterNotification(d.(rows := processed.rows), processed.notification);
    match processed.vpnStatus
    case None => notified
    case Some(s) =>
      var set' := AfterSetStatus(notified, s);
      if s.ServerReady? then set'.(log := set'.log + [SendTunnelCommand(TunnelCommand.Connect)]) else set'
  }

  // None is a panic. The two picks are the rows found by the two queries of the handler; the second one is made
  // only if the session is to be ended.
  function AfterTunnel(d: DaemonModel, transition: TunnelStateTransition, found: Option<Uuid>, ended: Option<Uuid>,
                       now: Timestamp): Option<DaemonModel>
    requires IsPick(d.rows, found) && IsPick(d.rows, ended)
  {
    match AfterTransition(d.rows, found, transition, d.status, now)
    case Panicked => None
    case Processed(rows, status, command, endSession, notification, clientConnected) =>
      var d := d.(rows := rows);
      var d := if clientConnected.Some? then d.(log := d.log + [ClientConnectedCall(clientConnected.value)]) else d;
      var d := if command.Some? then d.(log := d.log + [SendTunnelCommand(command.value)]) else d;
      var d := AfterNotification(d, notification);
      var d := if endSession.Some? then AfterEnd(d, ended, endSession.value) else d;
      Some(AfterSetStatus(d, status))
  }

  class DaemonState {
    var vpnStatus: VpnStatus
    var notifications: Notifications

    constructor ()
      ensures vpnStatus.Disconnected? && notifications == map[]
    {
      vpnStatus, notifications := VpnStatus.Disconnected, map[];
    }

    method UpdateStateOnDisconnect() returns (status: VpnStatus)
      modifies this`vpnStatus
      ensures status == vpnStatus == StatusOnDisconnect(old(vpnStatus))
    {
      match vpnStatus {
        case Accepted(_) => status := VpnStatus.Disconnected;
        case ServerCreated(_) => status := VpnStatus.Disconnected;
        case ServerRunning(_) => status := VpnStatus.Disconnected;
        case Disconnected => status := VpnStatus.Disconnected;
        case ServerReady(location) => status := VpnStatus.Disconnecting(location);
        case Connecting(location) => status := VpnStatus.Disconnecting(location);
        case Connected(location, _) => status := VpnStatus.Disconnecting(location);
        case Disconnecting(location) => status := VpnStatus.Disconnecting(location);
      }
      vpnStatus := status;
    }

    method AddNotification(notification: Notification)
      modifies this`notifications
      ensures notifications == old(notifications)[notification.id := notification]
    {
      notifications := notifications[notification.id := notification];
    }
  }

  class Daemon {
    const state: DaemonState
    const storage: VpnSessionStorage
    var log: seq<Output>

    ghost function Model(): DaemonModel
      reads this, state, storage
    {
      DaemonModel(state.vpnStatus, state.notifications, storage.rows, log)
    }

    // At startup every row of an earlier run is marked for deletion (lib.rs) before the daemon is made.
    constructor (storage: VpnSessionStorage)
      modifies storage
      ensures this.storage == storage && fresh(state)
      ensures Model() == DaemonModel(VpnStatus.Disconnected, map[], MarkAll(old(storage.rows)), [])
    {
      this.storage := storage;
      state := new DaemonState();
      log := [];
      new;
      storage.Reclaim();
    }

    method AddNotification(notification: Notification)
      modifies this, state
      ensures Model() == AfterNotification(old(Model()), Some(notification))
    {
      state.AddNotification(notification);
      log := log + [BroadcastNotification(notification)];
    }

    method SetVpnStatus(status: VpnStatus)
      modifies this, state
      ensures Model() == AfterSetStatus(old(Model()), status)
    {
      state.vpnStatus := status;
      log := log + [BroadcastStatus(status)];
    }

    method EndSession(reason: string) returns (found: Option<Uuid>)
      modifies this, storage
      ensures IsPick(old(storage.rows), found)
      ensures Model() == AfterEnd(old(Model()), found, reason)
    {
      var info;
      found, info := storage.EndSession();
      log := log + [EndSessionTask(info, reason)];
    }

    method OnConnectInner(location: Location, requestId: Uuid, answer: NewSessionReply) returns (reply: Reply)
      requires requestId !in storage.rows
      modifies this, state, storage
      ensures Model() == AfterConnect(old(Model()), location, requestId, answer)
      ensures reply == ConnectReply(old(Model()), location, answer)
    {
      if !state.vpnStatus.Disconnected? {
        return Err(AnotherVpnSessionInProgress(state.vpnStatus.location));
      }
      storage.NewSession(requestId, location);
      log := log + [NewSessionCall(requestId, location.code)];
      match answer {
        case Granted(granted, uuid) =>
          storage.UpdateOnAccepted(granted, uuid);
          state.vpnStatus := VpnStatus.Accepted(location);
          reply := Ok(VpnStatus.Accepted(location));
        case Denied(error) =>
          storage.Delete(requestId);
          var notification := RefusalNotification(requestId, error);
          state.AddNotification(notification);
          AddNotification(notification);
          reply := Ok(VpnStatus.Disconnected);
      }
    }

    method OnDisconnectInner(reason: string) returns (status: VpnStatus, found: Option<Uuid>)
      modifies this, state, storage
      ensures IsPick(old(storage.rows), found)
      ensures Model() == AfterDisconnect(old(Model()), found, reason) && status == state.vpnStatus
    {
      match state.vpnStatus {
        case ServerReady(_) => log := log + [SendTunnelCommand(TunnelCommand.Disconnect)];
        case Connecting(_) => log := log + [SendTunnelCommand(TunnelCommand.Disconnect)];
        case Connected(_, _) => log := log + [SendTunnelCommand(TunnelCommand.Disconnect)];
        case _ =>
      }
      found := EndSession(reason);
      status := state.UpdateStateOnDisconnect();
      log := log + [BroadcastStatus(status)];
    }

    method HandleVpnSessionStatus(status: VpnSessionStatus)
      modifies this, state, storage
      ensures Model() == AfterStatus(old(Model()), status)
    {
      var vpnStatus, notification := storage.UpdatedServerStatus(status);
      if notification.Some? {
        AddNotification(notification.value);
      }
      if vpnStatus.Some? {
        SetVpnStatus(vpnStatus.value);
        if vpnStatus.value.ServerReady? {
          log := log + [SendTunnelCommand(TunnelCommand.Connect)];
        }
      }
    }

    method HandleTunnelStateTransition(transition: TunnelStateTransition, now: Timestamp)
        returns (panicked: bool, found: Option<Uuid>, ended: Option<Uuid>)
      modifies this, state, storage
      ensures IsPick(old(storage.rows), found) && IsPick(old(storage.rows), ended)
      ensures var after := AfterTunnel(old(Model()), transition, found, ended, now);
              && (panicked <==> after.None?)
              && Model() == if panicked then old(Model()) else after.value
    {
      var processed;
      found, processed := storage.TunnelTransition(transition, state.vpnStatus, now);
      ended := found;
      if processed.Panicked? {
        return true, found, ended;
      }
      panicked := false;
      if processed.clientConnected.Some? {
        log := log + [ClientConnectedCall(processed.clientConnected.value)];
      }
      if processed.tunnelCommand.Some? {
        log := log + [SendTunnelCommand(processed.tunnelCommand.value)];
      }
      if processed.notification.Some? {
        AddNotification(processed.notification.value);
      }
      if processed.endSession.Some? {
        ended := EndSession(processed.endSession.value);
      }
      SetVpnStatus(processed.vpnStatus);
    }
  }
}
