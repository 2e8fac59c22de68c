/**
  The daemon's table of VPN sessions (vpn_session/storage.rs): one row for every session the daemon has asked the
  server for and has not yet seen the end of, keyed by the id of the request.

  Functions on Rows say what each operation makes of the table; the class is the table itself, updated in place.
  Queries that ask the database for one row of several may get any of them: the row found is a value of its own.
 */
module VpnSession {
  import opened Options

  type Uuid = nat
  type Timestamp = nat

  datatype Location = Location(code: string, country: string, countryCode: string, city: string, cityCode: string,
                               state: Option<string>, stateCode: Option<string>, estimate: Option<nat>)

  datatype VpnStatus =
    | Accepted(location: Location)
    | ServerCreated(location: Location)
    | ServerRunning(location: Location)
    | ServerReady(location: Location)
    | Connecting(location: Location)
    | Connected(location: Location, since: Timestamp)
    | Disconnecting(location: Location)
    | Disconnected

  datatype ServerDetails = ServerDetails(publicKey: string, ipv4Endpoint: string, privateIpv4: string)

  // A status as the server reports it.
  datatype VpnSessionStatus =
    | Accepted(requestId: Uuid, vpnSessionUuid: Uuid)
    | Failed(requestId: Uuid, vpnSessionUuid: Uuid)
    | ServerCreated(requestId: Uuid, vpnSessionUuid: Uuid)
    | ServerRunning(requestId: Uuid, vpnSessionUuid: Uuid)
    | ServerReady(requestId: Uuid, vpnSessionUuid: Uuid, details: ServerDetails)
    | ClientConnected(requestId: Uuid, deviceUniqueId: Uuid, vpnSessionUuid: Uuid)
    | Ended(requestId: Uuid, vpnSessionUuid: Uuid, reason: string)

  // The same status as a row keeps it.
  datatype StoredStatus = Accepted | ServerCreated | ServerRunning | ServerReady | ClientConnected

  datatype Row = Row(location: Location, serverStatus: Option<StoredStatus>, sessionUuid: Option<Uuid>,
                     details: Option<ServerDetails>, markForDeletion: bool)

  type Rows = map<Uuid, Row>

  datatype SessionInfo = SessionInfo(requestId: Uuid, vpnSessionId: Uuid)

  datatype NotificationType = ServerFailed | ClientFailed

  // The ids are texts built from a request id; each way of building them is a constructor.
  datatype NotificationId = Failed(requestId: Uuid) | ClientError(requestId: Uuid) | Refused(requestId: Uuid) | Unknown

  datatype Notification = Notification(id: NotificationId, message: string, notificationType: NotificationType)

  datatype TunnelCommand = Connect | Disconnect

  datatype TunnelStateTransition = Disconnected | Connecting | Connected | Disconnecting | Error(cause: string)

  predicate Unmarked(rows: Rows, id: Uuid) {
    id in rows && !rows[id].markForDeletion
  }

  predicate NoneUnmarked(rows: Rows) {
    forall id :: id in rows ==> rows[id].markForDeletion
  }

  ghost predicate AtMostOneUnmarked(rows: Rows) {
    forall a, b :: Unmarked(rows, a) && Unmarked(rows, b) ==> a == b
  }

  // What a query for one unmarked row may find.
  predicate IsPick(rows: Rows, found: Option<Uuid>) {
    match found
    case None => NoneUnmarked(rows)
    case Some(id) => Unmarked(rows, id)
  }

  // The tunnel's parameters are made of the first row that a query finds, marked or not (tunnel.rs).
  predicate IsAnyRow(rows: Rows, found: Option<Uuid>) {
    match found
    case None => rows == map[]
    case Some(id) => id in rows
  }

  // The server to connect to; None where there is no row or the row found has no server yet, which is an error.
  function TunnelServer(rows: Rows, found: Option<Uuid>): Option<ServerDetails>
    requires IsAnyRow(rows, found)
  {
    if found.Some? then rows[found.value].details else None
  }

  // The row's columns hold everything of a location but its estimate.
  function NewRow(location: Location): Row {
    Row(location.(estimate := None), None, None, None, false)
  }

  function Mark(rows: Rows, id: Uuid): Rows
    requires id in rows
  {
    rows[id := rows[id].(markForDeletion := true)]
  }

  function AfterEndSession(rows: Rows, found: Option<Uuid>): Rows
    requires IsPick(rows, found)
  {
    if found.Some? then Mark(rows, found.value) else rows
  }

  // The session to end on the server: there is none where the found row was never accepted.
  function EndedSession(rows: Rows, found: Option<Uuid>): Option<SessionInfo>
    requires IsPick(rows, found)
  {
    if found.Some? && rows[found.value].sessionUuid.Some?
    then Some(SessionInfo(found.value, rows[found.value].sessionUuid.value))
    else None
  }

  function MarkAll(rows: Rows): Rows {
    map id | id in rows :: rows[id].(markForDeletion := true)
  }

  function ToReclaim(rows: Rows): set<SessionInfo> {
    set id | id in rows && rows[id].markForDeletion && rows[id].sessionUuid.Some?
      :: SessionInfo(id, rows[id].sessionUuid.value)
  }

  function AfterAccepted(rows: Rows, requestId: Uuid, uuid: Uuid): Rows {
    if requestId in rows
    then rows[requestId := rows[requestId].(serverStatus := Some(StoredStatus.Accepted), sessionUuid := Some(uuid))]
    else rows
  }

  datatype StatusProcessed = StatusProcessed(rows: Rows, vpnStatus: Option<VpnStatus>, notification: Option<Notification>)

  const NOT_PROVISIONED := "Server could not be provisioned, please try again later"

  function AfterServerStatus(rows: Rows, status: VpnSessionStatus): StatusProcessed {
    var id := status.requestId;
    if !Unmarked(rows, id) then
      StatusProcessed(rows, None, None)
    else
      var row := rows[id];
      match status
      case Accepted(_, _) =>
        StatusProcessed(rows[id := row.(serverStatus := Some(StoredStatus.Accepted))], None, None)
      case Failed(_, _) =>
        StatusProcessed(rows - {id}, Some(VpnStatus.Disconnected),
                        Some(Notification(NotificationId.Failed(id), NOT_PROVISIONED, ServerFailed)))
      case ServerCreated(_, _) =>
        StatusProcessed(rows[id := row.(serverStatus := Some(StoredStatus.ServerCreated))],
                        Some(VpnStatus.ServerCreated(row.location)), None)
      case ServerRunning(_, _) =>
        StatusProcessed(rows[id := row.(serverStatus := Some(StoredStatus.ServerRunning))],
                        Some(VpnStatus.ServerRunning(row.location)), None)
      case ServerReady(_, _, details) =>
        StatusProcessed(rows[id := row.(serverStatus := Some(StoredStatus.ServerReady), details := Some(details))],
                        Some(VpnStatus.ServerReady(row.location)), None)
      case ClientConnected(_, _, _) =>
        StatusProcessed(rows[id := row.(serverStatus := Some(StoredStatus.ClientConnected))], None, None)
      case Ended(_, _, _) =>
        StatusProcessed(rows - {id}, Some(VpnStatus.Disconnected), None)
  }

  datatype TransitionProcessed =
    | Panicked
    | Processed(rows: Rows, vpnStatus: VpnStatus, tunnelCommand: Option<TunnelCommand>, endSession: Option<string>,
                notification: Option<Notification>, clientConnected: Option<SessionInfo>)

  // The processing panics at a Disconnecting transition that finds neither a row nor the status Disconnecting, and
  // at a Connected transition that finds a row without a session.
  function AfterTransition(rows: Rows, found: Option<Uuid>, transition: TunnelStateTransition,
                           current: VpnStatus, now: Timestamp): TransitionProcessed
    requires IsPick(rows, found)
  {
    var cause := if transition.Error? then transition.cause else "";
    if found.Some? then
      var id, row := found.value, rows[found.value];
      match transition
      case Disconnected => Processed(rows, VpnStatus.Disconnected, None, None, None, None)
      case Connecting => Processed(rows, VpnStatus.Connecting(row.location), None, None, None, None)
      case Connected =>
        if row.sessionUuid.None? then Panicked
        else
          Processed(rows[id := row.(serverStatus := Some(StoredStatus.ClientConnected))],
                    VpnStatus.Connected(row.location, now), None, None, None,
                    Some(SessionInfo(id, row.sessionUuid.value)))
      case Disconnecting => Processed(rows, VpnStatus.Disconnecting(row.location), None, None, None, None)
      case Error(_) =>
        Processed(rows, VpnStatus.Disconnected, Some(TunnelCommand.Disconnect), Some(cause),
                  Some(Notification(ClientError(id), cause, ClientFailed)), None)
    else
      match transition
      case Disconnected => Processed(rows, VpnStatus.Disconnected, None, None, None, None)
      case Connecting => Processed(rows, VpnStatus.Disconnected, None, None, None, None)
      case Connected => Processed(rows, VpnStatus.Disconnected, None, None, None, None)
      case Disconnecting =>
        if current.Disconnecting? then Processed(rows, current, None, None, None, None) else Panicked
      case Error(_) =>
        Processed(rows, VpnStatus.Disconnected, Some(TunnelCommand.Disconnect), Some(cause),
                  Some(Notification(Unknown, cause, ClientFailed)), None)
  }

  class VpnSessionStorage {
    var rows: Rows

    // The table outlives the daemon: it is opened as an earlier run left it.
    constructor (rows: Rows)
      ensures this.rows == rows
    {
      this.rows := rows;
    }

    method FindUnmarked() returns (found: Option<Uuid>)
      ensures IsPick(rows, found)
    {
      if id :| id in rows && !rows[id].markForDeletion {
        found := Some(id);
      } else {
        found := None;
      }
    }

    // Request ids are drawn at random; that they are new is a matter of the caller.
    method NewSession(requestId: Uuid, location: Location)
      requires requestId !in rows
      modifies this
      ensures rows == old(rows)[requestId := NewRow(location)]
    {
      rows := rows[requestId := Row(location.(estimate := None), None, None, None, false)];
    }

    method EndSession() returns (found: Option<Uuid>, info: Option<SessionInfo>)
      modifies this
      ensures IsPick(old(rows), found)
      ensures rows == AfterEndSession(old(rows), found) && info == EndedSession(old(rows), found)
    {
      found := FindUnmarked();
      info := None;
      if found.Some? {
        var row := rows[found.value];
        rows := rows[found.value := row.(markForDeletion := true)];
        if row.sessionUuid.Some? {
          info := Some(SessionInfo(found.value, row.sessionUuid.value));
        }
      }
    }

    method Reclaim()
      modifies this
      ensures rows == MarkAll(old(rows))
    {
      rows := map id | id in rows :: rows[id].(markForDeletion := true);
    }

    // The sessions come in the order of the table's scan, which is not known.
    method SessionsToReclaim() returns (sessions: seq<SessionInfo>)
      ensures forall info :: info in sessions <==> info in ToReclaim(rows)
      ensures forall i, j :: 0 <= i < j < |sessions| ==> sessions[i].requestId != sessions[j].requestId
    {
      sessions := [];
      var rest := rows.Keys;
      while rest != {}
        invariant rest <= rows.Keys
        invariant forall info :: info in sessions <==> info in ToReclaim(rows) && info.requestId !in rest
        invariant forall i, j :: 0 <= i < j < |sessions| ==> sessions[i].requestId != sessions[j].requestId
        decreases |rest|
      {
        var id :| id in rest;
        rest := rest - {id};
        if rows[id].markForDeletion && rows[id].sessionUuid.Some? {
          sessions := sessions + [SessionInfo(id, rows[id].sessionUuid.value)];
        }
      }
    }

    method UpdateOnAccepted(requestId: Uuid, uuid: Uuid)
      modifies this
      ensures rows == AfterAccepted(old(rows), requestId, uuid)
    {
      if requestId in rows {
        rows := rows[requestId := rows[requestId].(serverStatus := Some(StoredStatus.Accepted), sessionUuid := Some(uuid))];
      }
    }

    method Delete(requestId: Uuid)
      modifies this
      ensures rows == old(rows) - {requestId}
    {
      rows := rows - {requestId};
    }

    method UpdatedServerStatus(status: VpnSessionStatus) returns (vpnStatus: Option<VpnStatus>, notification: Option<Notification>)
      modifies this
      ensures StatusProcessed(rows, vpnStatus, notification) == AfterServerStatus(old(rows), status)
    {
      var id := status.requestId;
      vpnStatus, notification := None, None;
      if id !in rows || rows[id].markForDeletion {
        return;
      }
      var row := rows[id];
      var location := row.location;
      match status {
        case Accepted(_, _) =>
          rows := rows[id := row.(serverStatus := Some(StoredStatus.Accepted))];
        case Failed(_, _) =>
          rows := rows - {id};
          vpnStatus := Some(VpnStatus.Disconnected);
          notification := Some(Notification(NotificationId.Failed(id), NOT_PROVISIONED, ServerFailed));
        case ServerCreated(_, _) =>
          rows := rows[id := row.(serverStatus := Some(StoredStatus.ServerCreated))];
          vpnStatus := Some(VpnStatus.ServerCreated(location));
        case ServerRunning(_, _) =>
          rows := rows[id := row.(serverStatus := Some(StoredStatus.ServerRunning))];
          vpnStatus := Some(VpnStatus.ServerRunning(location));
        case ServerReady(_, _, details) =>
          rows := rows[id := row.(serverStatus := Some(StoredStatus.ServerReady), details := Some(details))];
          vpnStatus := Some(VpnStatus.ServerReady(location));
        case ClientConnected(_, _, _) =>
          rows := rows[id := row.(serverStatus := Some(StoredStatus.ClientConnected))];
        case Ended(_, _, _) =>
          rows := rows - {id};
          vpnStatus := Some(VpnStatus.Disconnected);
      }
    }

    // A panic is an outcome of its own; it leaves the table as it was.
    method TunnelTransition(transition: TunnelStateTransition, current: VpnStatus, now: Timestamp)
        returns (found: Option<Uuid>, processed: TransitionProcessed)
      modifies this
      ensures IsPick(old(rows), found)
      ensures processed == AfterTransition(old(rows), found, transition, current, now)
      ensures rows == if processed.Panicked? then old(rows) else processed.rows
    {
      found := FindUnmarked();
      if found.Some? {
        var id, row := found.value, rows[found.value];
        match transition {
          case Disconnected =>
            processed := Processed(rows, VpnStatus.Disconnected, None, None, None, None);
          case Connecting =>
            processed := Processed(rows, VpnStatus.Connecting(row.location), None, None, None, None);
          case Connected =>
            if row.sessionUuid.None? {
              processed := Panicked;
              return;
            }
            rows := rows[id := row.(serverStatus := Some(StoredStatus.ClientConnected))];
            processed := Processed(rows, VpnStatus.Connected(row.location, now), None, None, None,
                                   Some(SessionInfo(id, row.sessionUuid.value)));
          case Disconnecting =>
            processed := Processed(rows, VpnStatus.Disconnecting(row.location), None, None, None, None);
          case Error(cause) =>
            processed := Processed(rows, VpnStatus.Disconnected, Some(TunnelCommand.Disconnect), Some(cause),
                                   Some(Notification(ClientError(id), cause, ClientFailed)), None);
        }
      } else {
        match transition {
          case Disconnecting =>
            if current.Disconnecting? {
              processed := Processed(rows, current, None, None, None, None);
            } else {
              processed := Panicked;
            }
          case Error(cause) =>
            processed := Processed(rows, VpnStatus.Disconnected, Some(TunnelCommand.Disconnect), Some(cause),
                                   Some(Notification(Unknown, cause, ClientFailed)), None);
          case _ =>
            processed := Processed(rows, VpnStatus.Disconnected, None, None, None, None);
        }
      }
    }
  }

  // The same update processed again changes nothing in the table, and asks for the status it asked for before or,
  // its row being gone, for none.
  lemma ServerStatusIdempotent(rows: Rows, status: VpnSessionStatus)
    ensures var once := AfterServerStatus(rows, status);
            var again := AfterServerStatus(once.rows, status);
            && again.rows == once.rows
            && (again.vpnStatus == once.vpnStatus || (again.vpnStatus.None? && status.requestId !in again.rows))
            && again.notification.None?
  {
  }

  // An update about a row that is marked or missing is dropped; any other changes its own row alone, keeps its
  // session, its place and its mark, and removes it exactly when the session is over.
  lemma ServerStatusFrame(rows: Rows, status: VpnSessionStatus)
    ensures var after, id := AfterServerStatus(rows, status), status.requestId;
            && (after.rows - {id} == rows - {id})
            && (!Unmarked(rows, id) ==> after == StatusProcessed(rows, None, None))
            && (Unmarked(rows, id) ==>
                  && (id !in after.rows <==> status.Failed? || status.Ended?)
                  && (id in after.rows ==>
                        && after.rows[id].(serverStatus := None, details := None)
                           == rows[id].(serverStatus := None, details := None)
                        && (!status.ServerReady? ==> after.rows[id].details == rows[id].details)))
  {
  }
}
