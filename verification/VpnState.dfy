/**
  The states of the Android application's orchestrator (VPNState.kt) and how they follow each other.
 */
module VpnState {
  import opened Options
  import S = VpnSession

  datatype Interface = Interface(address: string, dnsServer: string, privateKey: string, mtu: nat)

  datatype Config = Config(interFace: Interface, endpoint: string, publicKey: string, allowedIps: string, keepalive: nat)

  // What the listeners are shown.
  datatype VPNState =
    | Disconnected
    | Requesting(location: S.Location)
    | Accepted(location: S.Location)
    | ServerCreated(location: S.Location)
    | ServerRunning(location: S.Location)
    | ServerReady(location: S.Location)
    | Connecting(location: S.Location)
    | Connected(location: S.Location, time: nat)
    | Disconnecting(location: S.Location)

  function Progress(state: VPNState): nat {
    match state
    case Requesting(_) => 10
    case Accepted(_) => 25
    case ServerCreated(_) => 50
    case ServerRunning(_) => 75
    case ServerReady(_) => 80
    case Connecting(_) => 95
    case Connected(_, _) => 100
    case Disconnecting(_) => 0
    case Disconnected => 0
  }

  // What the orchestrator keeps; session is the last thing the server said of it.
  datatype OrchestratorState =
    | Disconnected
    | Requesting(requestId: S.Uuid, location: S.Location)
    | Accepted(location: S.Location, session: S.SessionInfo, interFace: Interface)
    | ServerCreated(location: S.Location, session: S.SessionInfo, interFace: Interface)
    | ServerRunning(location: S.Location, session: S.SessionInfo, interFace: Interface)
    | ServerReady(location: S.Location, session: S.SessionInfo, config: Config)
    | Connecting(location: S.Location, session: S.SessionInfo, config: Config)
    | Connected(location: S.Location, time: nat, session: S.SessionInfo, config: Config)
    | Disconnecting(location: S.Location)

  predicate IsDisconnectingOrDisconnected(state: OrchestratorState) {
    state.Disconnected? || state.Disconnecting?
  }

  function ToVPNState(state: OrchestratorState): VPNState {
    match state
    case Disconnected => VPNState.Disconnected
    case Requesting(_, location) => VPNState.Requesting(location)
    case Accepted(location, _, _) => VPNState.Accepted(location)
    case ServerCreated(location, _, _) => VPNState.ServerCreated(location)
    case ServerRunning(location, _, _) => VPNState.ServerRunning(location)
    case ServerReady(location, _, _) => VPNState.ServerReady(location)
    case Connecting(location, _, _) => VPNState.Connecting(location)
    case Connected(location, time, _, _) => VPNState.Connected(location, time)
    case Disconnecting(location) => VPNState.Disconnecting(location)
  }

  // The new state, whether to turn the tunnel off, and the request whose session is to be ended.
  datatype Transition = Transition(state: OrchestratorState, turnOff: bool, requestId: Option<S.Uuid>)

  function TransitionOnDisconnect(state: OrchestratorState): Transition {
    match state
    case Disconnected => Transition(OrchestratorState.Disconnected, false, None)
    case Requesting(requestId, _) => Transition(OrchestratorState.Disconnected, false, Some(requestId))
    case Accepted(_, session, _) => Transition(OrchestratorState.Disconnected, false, Some(session.requestId))
    case ServerCreated(_, session, _) => Transition(OrchestratorState.Disconnected, false, Some(session.requestId))
    case ServerRunning(_, session, _) => Transition(OrchestratorState.Disconnected, false, Some(session.requestId))
    case ServerReady(_, session, _) => Transition(OrchestratorState.Disconnected, false, Some(session.requestId))
    case Disconnecting(location) => Transition(OrchestratorState.Disconnecting(location), false, None)
    case Connecting(location, session, _) =>
      Transition(OrchestratorState.Disconnecting(location), true, Some(session.requestId))
    case Connected(location, _, session, _) =>
      Transition(OrchestratorState.Disconnecting(location), true, Some(session.requestId))
  }

  function ToConfig(interFace: Interface, details: S.ServerDetails): Config {
    Config(interFace, details.ipv4Endpoint, details.publicKey, "0.0.0.0/0, ::0/0", 25)
  }

  predicate Provisioning(state: OrchestratorState) {
    state.Accepted? || state.ServerCreated? || state.ServerRunning?
  }

  // None leaves the state alone, and nobody is told.
  function NewStateFromUpdate(state: OrchestratorState, location: S.Location, status: S.VpnSessionStatus): Option<OrchestratorState> {
    match status
    case Accepted(_, _) => if state.Accepted? then Some(state) else None
    case Failed(_, _) => Some(OrchestratorState.Disconnected)
    case ServerCreated(requestId, uuid) =>
      if state.Accepted? then Some(OrchestratorState.ServerCreated(location, S.SessionInfo(requestId, uuid), state.interFace))
      else if state.ServerCreated? then Some(state)
      else None
    case ServerRunning(requestId, uuid) =>
      if state.Accepted? || state.ServerCreated?
      then Some(OrchestratorState.ServerRunning(location, S.SessionInfo(requestId, uuid), state.interFace))
      else if state.ServerRunning? then Some(state)
      else None
    case ServerReady(requestId, uuid, details) =>
      if Provisioning(state)
      then Some(OrchestratorState.ServerReady(location, S.SessionInfo(requestId, uuid), ToConfig(state.interFace, details)))
      else if state.ServerReady? then Some(state)
      else None
    case ClientConnected(_, _, _) => None
    case Ended(_, _, _) => None
  }

  function ToConnecting(state: OrchestratorState): OrchestratorState
    requires state.ServerReady?
  {
    OrchestratorState.Connecting(state.location, state.session, state.config)
  }

  function ToConnected(state: OrchestratorState, now: nat): OrchestratorState
    requires state.Connecting?
  {
    OrchestratorState.Connected(state.location, now, state.session, state.config)
  }

  // An update never takes the state back, except to Disconnected where the session has failed.
  lemma UpdateMovesForward(state: OrchestratorState, location: S.Location, status: S.VpnSessionStatus)
    ensures var after := NewStateFromUpdate(state, location, status);
            after.Some? ==>
              || (status.Failed? && after.value.Disconnected?)
              || Progress(ToVPNState(state)) <= Progress(ToVPNState(after.value))
  {
  }
}
