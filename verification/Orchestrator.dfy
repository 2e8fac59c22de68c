/**
  The orchestrator of the Android application (VPNOrchestrator.kt) over the VPN service that holds the handle of the
  tunnel (VPNService.kt).

  Handlers are given as functions from the phone before to the phone after and as methods that update the objects
  step by step. What they do outside is appended to one journal. Which listeners a message cannot be delivered to is
  a function of the moment: of the length of the journal.
 */
module Orchestrator {
  import opened Options
  import opened VpnState
  import S = VpnSession

  datatype Event = State(state: VPNState) | Notification(message: string) | ListenerRegistered(id: int)

  datatype Output =
    | Sent(event: Event, to: set<int>)
    | StartForeground
    | StopService
    | NewSession(requestId: S.Uuid, location: S.Location)
    | CancelSession
    | DropMessages
    | EndSession(requestId: S.Uuid, reason: string)
    | TurnedOn(handle: int, config: Config)
    | TurnedOff(handle: int)

  datatype Result<T> = Ok(value: T) | Err(message: string)

  type Failing = nat -> set<int>

  datatype Phone = Phone(state: OrchestratorState, handle: int, listeners: set<int>, lastId: int, log: seq<Output>)

  function TunnelsWith(up: set<int>, o: Output): set<int> {
    match o
    case TurnedOn(handle, _) => if handle >= 0 then up + {handle} else up
    case TurnedOff(handle) => up - {handle}
    case _ => up
  }

  function ShownBy(o: Output): seq<VPNState> {
    if o.Sent? && o.event.State? then [o.event.state] else []
  }

  function EndedBy(o: Output): seq<S.Uuid> {
    if o.EndSession? then [o.requestId] else []
  }

  // The tunnels that wireguard-go has up: those turned on with success and not turned off since.
  function Tunnels(log: seq<Output>): set<int> {
    if log == [] then {} else TunnelsWith(Tunnels(log[..|log| - 1]), log[|log| - 1])
  }

  // The states sent to listeners, in order.
  function Shown(log: seq<Output>): seq<VPNState> {
    if log == [] then [] else Shown(log[..|log| - 1]) + ShownBy(log[|log| - 1])
  }

  // The requests whose sessions were asked to be ended, in order.
  function EndCalls(log: seq<Output>): seq<S.Uuid> {
    if log == [] then [] else EndCalls(log[..|log| - 1]) + EndedBy(log[|log| - 1])
  }

  function Say(p: Phone, o: Output): Phone {
    p.(log := p.log + [o])
  }

  lemma Said(p: Phone, o: Output)
    ensures Tunnels(Say(p, o).log) == TunnelsWith(Tunnels(p.log), o)
    ensures Shown(Say(p, o).log) == Shown(p.log) + ShownBy(o)
    ensures EndCalls(Say(p, o).log) == EndCalls(p.log) + EndedBy(o)
  {
    hide TunnelsWith, ShownBy, EndedBy;
    assert (p.log + [o])[..|p.log|] == p.log;
  }

  // A listener that cannot be reached is forgotten.
  function Dispatch(p: Phone, event: Event, failing: Failing): Phone {
    Say(p, Sent(event, p.listeners)).(listeners := p.listeners - failing(|p.log|))
  }

  function Enter(p: Phone, state: OrchestratorState, failing: Failing): Phone {
    Dispatch(p.(state := state), State(ToVPNState(state)), failing)
  }

  function AfterTurnOff(p: Phone, failing: Failing): Phone {
    var off := if p.handle != -1 then Say(p, TurnedOff(p.handle)).(handle := -1) else p;
    Enter(off, OrchestratorState.Disconnected, failing)
  }

  function StopIfIdle(p: Phone): Phone {
    if p.state.Disconnected? && p.listeners == {} then Say(p, StopService) else p
  }

  function AfterDisconnect(p: Phone, reason: string, failing: Failing): Phone {
    if p.state.Disconnected? then
      p
    else
      var t := TransitionOnDisconnect(p.state);
      var p := Enter(Say(p, CancelSession), t.state, failing);
      var p := if t.requestId.Some? then Say(p, EndSession(t.requestId.value, reason)) else p;
      StopIfIdle(if t.turnOff then AfterTurnOff(p, failing) else p)
  }

  function AfterConnect(p: Phone, location: S.Location, permitted: bool, requestId: S.Uuid, failing: Failing): Phone {
    if !p.state.Disconnected? then Dispatch(p, Notification("VPN session is already in progress"), failing)
    else if !permitted then Dispatch(p, Notification("No VPN permission"), failing)
    else
      Say(Enter(Say(p, StartForeground), OrchestratorState.Requesting(requestId, location), failing), NewSession(requestId, location))
  }

  function AfterResponse(p: Phone, location: S.Location, result: Result<(S.SessionInfo, Interface)>, failing: Failing): Phone {
    if IsDisconnectingOrDisconnected(p.state) then
      p
    else
      match result
      case Ok(value) => Enter(p, OrchestratorState.Accepted(location, value.0, value.1), failing)
      case Err(message) => Enter(Dispatch(p, Notification(message), failing), OrchestratorState.Disconnected, failing)
  }

  // What turning the tunnel on meets: the permission, the file descriptor of the interface, the answer of wgTurnOn.
  datatype Device = Device(permitted: bool, permittedToTurnOn: bool, established: bool, handle: int, now: nat)

  function NoPermission(p: Phone, failing: Failing): Phone {
    AfterDisconnect(Dispatch(p, Notification("No VPN permission"), failing), "no vpn perms", failing)
  }

  function AfterTurnOn(p: Phone, device: Device, failing: Failing): Phone
    requires p.state.ServerReady?
  {
    if !device.permittedToTurnOn then
      NoPermission(p, failing)
    else
      var connecting := ToConnecting(p.state);
      var p := Enter(p, connecting, failing);
      var p := if device.established then Say(p, TurnedOn(device.handle, connecting.config)).(handle := device.handle) else p;
      if !device.established || device.handle < 0 then
        var message := TurnOnError(device);
        AfterDisconnect(Dispatch(p, Notification(message), failing), message, failing)
      else
        Enter(p, ToConnected(connecting, device.now), failing)
  }

  function TurnOnError(device: Device): string {
    if !device.established then "Failed to create VPN interface" else "WireGuard activation error"
  }

  function AfterUpdate(p: Phone, location: S.Location, status: S.VpnSessionStatus, device: Device, failing: Failing): Phone {
    if IsDisconnectingOrDisconnected(p.state) then
      p
    else
      var p := if status.Failed? then Dispatch(p, Notification("Can't provision server. Please try again."), failing) else p;
      if !device.permitted then
        NoPermission(p, failing)
      else
        var next := NewStateFromUpdate(p.state, location, status);
        if next.None? then p
        else
          var p := Enter(p, next.value, failing);
          if next.value.ServerReady? then AfterTurnOn(p, device, failing) else p
  }

  // The new listener alone is sent the state and, if it got that, its id; it is kept if it got both.
  function AfterRegister(p: Phone, failing: Failing): Phone {
    var id := p.lastId + 1;
    var told := Say(p.(lastId := id), Sent(State(ToVPNState(p.state)), {id}));
    if id in failing(|p.log|) then told.(listeners := p.listeners - {id})
    else
      var both := Say(told, Sent(ListenerRegistered(id), {id}));
      both.(listeners := if id in failing(|told.log|) then p.listeners - {id} else p.listeners + {id})
  }

  function AfterDeregister(p: Phone, id: int): Phone {
    StopIfIdle(p.(listeners := p.listeners - {id}))
  }

  // The service is destroyed, or the permission revoked: messages under way are dropped first.
  function AfterCleanup(p: Phone, reason: string, failing: Failing): Phone {
    AfterDisconnect(Say(p, DropMessages), reason, failing)
  }

  class Journal {
    var entries: seq<Output>

    constructor ()
      ensures entries == []
    {
      entries := [];
    }
  }

  class VPNService {
    const journal: Journal
    var currentTunnelHandle: int

    constructor (journal: Journal)
      ensures this.journal == journal && currentTunnelHandle == -1
    {
      this.journal := journal;
      currentTunnelHandle := -1;
    }

    method TurnOnVPN(config: Config, device: Device) returns (error: Option<string>)
      modifies this, journal
      ensures error == if device.established && device.handle >= 0 then None else Some(TurnOnError(device))
      ensures if device.established
              then currentTunnelHandle == device.handle && journal.entries == old(journal.entries) + [TurnedOn(device.handle, config)]
              else currentTunnelHandle == old(currentTunnelHandle) && journal.entries == old(journal.entries)
    {
      if !device.established {
        return Some("Failed to create VPN interface");
      }
      currentTunnelHandle := device.handle;
      journal.entries := journal.entries + [TurnedOn(device.handle, config)];
      if currentTunnelHandle < 0 {
        return Some("WireGuard activation error");
      }
      return None;
    }

    method TurnOffVPN()
      modifies this, journal
      ensures currentTunnelHandle == -1
      ensures journal.entries == old(journal.entries) + if old(currentTunnelHandle) != -1 then [TurnedOff(old(currentTunnelHandle))] else []
    {
      if currentTunnelHandle != -1 {
        journal.entries := journal.entries + [TurnedOff(currentTunnelHandle)];
        currentTunnelHandle := -1;
      }
    }
  }

  class VPNOrchestrator {
    const service: VPNService
    const journal: Journal
    var state: OrchestratorState
    var listeners: set<int>
    var listenerId: int

    ghost predicate Valid() {
      service.journal == journal
    }

    ghost function Model(): Phone
      reads this, service, journal
    {
      Phone(state, service.currentTunnelHandle, listeners, listenerId, journal.entries)
    }

    constructor ()
      ensures Valid() && fresh(service) && fresh(journal)
      ensures Model() == Phone(OrchestratorState.Disconnected, -1, {}, 0, [])
    {
      var log := new Journal();
      journal := log;
      service := new VPNService(log);
      state, listeners, listenerId := OrchestratorState.Disconnected, {}, 0;
    }

    method DispatchEvent(event: Event, failing: Failing)
      requires Valid()
      modifies this, journal
      ensures Model() == Dispatch(old(Model()), event, failing)
    {
      var dead := failing(|journal.entries|);
      journal.entries := journal.entries + [Sent(event, listeners)];
      listeners := listeners - dead;
    }

    method DispatchNotification(message: string, failing: Failing)
      requires Valid()
      modifies this, journal
      ensures Model() == Dispatch(old(Model()), Notification(message), failing)
    {
      DispatchEvent(Notification(message), failing);
    }

    method UpdateStateAndNotifyClients(newState: OrchestratorState, failing: Failing)
      requires Valid()
      modifies this, journal
      ensures Model() == Enter(old(Model()), newState, failing)
    {
      state := newState;
      DispatchEvent(State(ToVPNState(newState)), failing);
    }

    method TurnOffVPN(failing: Failing)
      requires Valid()
      modifies this, service, journal
      ensures Model() == AfterTurnOff(old(Model()), failing)
    {
      service.TurnOffVPN();
      UpdateStateAndNotifyClients(OrchestratorState.Disconnected, failing);
    }

    method IfNoListenersAndDisconnectedThenStopService()
      requires Valid()
      modifies journal
      ensures Model() == StopIfIdle(old(Model()))
    {
      if state.Disconnected? && listeners == {} {
        journal.entries := journal.entries + [StopService];
      }
    }

    method OnDisconnect(reason: string, failing: Failing)
      requires Valid()
      modifies this, service, journal
      ensures Model() == AfterDisconnect(old(Model()), reason, failing)
    {
      if state.Disconnected? {
        return;
      }
      journal.entries := journal.entries + [CancelSession];
      var t := TransitionOnDisconnect(state);
      UpdateStateAndNotifyClients(t.state, failing);
      if t.requestId.Some? {
        journal.entries := journal.entries + [EndSession(t.requestId.value, reason)];
      }
      if t.turnOff {
        TurnOffVPN(failing);
      }
      IfNoListenersAndDisconnectedThenStopService();
    }

    method OnConnect(location: S.Location, permitted: bool, requestId: S.Uuid, failing: Failing)
      requires Valid()
      modifies this, service, journal
      ensures Model() == AfterConnect(old(Model()), location, permitted, requestId, failing)
    {
      if !state.Disconnected? {
        DispatchNotification("VPN session is already in progress", failing);
        return;
      }
      if !permitted {
        DispatchNotification("No VPN permission", failing);
        return;
      }
      journal.entries := journal.entries + [StartForeground];
      UpdateStateAndNotifyClients(OrchestratorState.Requesting(requestId, location), failing);
      journal.entries := journal.entries + [NewSession(requestId, location)];
    }

    method OnConnectResponse(location: S.Location, result: Result<(S.SessionInfo, Interface)>, failing: Failing)
      requires Valid()
      modifies this, service, journal
      ensures Model() == AfterResponse(old(Model()), location, result, failing)
    {
      if IsDisconnectingOrDisconnected(state) {
        return;
      }
      match result {
        case Ok(value) =>
          UpdateStateAndNotifyClients(OrchestratorState.Accepted(location, value.0, value.1), failing);
        case Err(message) =>
          DispatchNotification(message, failing);
          UpdateStateAndNotifyClients(OrchestratorState.Disconnected, failing);
      }
    }

    method OnVpnSessionUpdate(location: S.Location, status: S.VpnSessionStatus, device: Device, failing: Failing)
      requires Valid()
      modifies this, service, journal
      ensures Model() == AfterUpdate(old(Model()), location, status, device, failing)
    {
      if IsDisconnectingOrDisconnected(state) {
        return;
      }
      if status.Failed? {
        DispatchNotification("Can't provision server. Please try again.", failing);
      }
      var without := DisconnectAndNotifyIfNoVPNPermission(device.permitted, failing);
      if without {
        return;
      }
      var next := NewStateFromUpdate(state, location, status);
      if next.Some? {
        UpdateStateAndNotifyClients(next.value, failing);
        if next.value.ServerReady? {
          TurnOnVPN(device, failing);
        }
      }
    }

    method DisconnectAndNotifyIfNoVPNPermission(permitted: bool, failing: Failing) returns (without: bool)
      requires Valid()
      modifies this, service, journal
      ensures without == !permitted
      ensures Model() == if permitted then old(Model()) else NoPermission(old(Model()), failing)
    {
      if !permitted {
        DispatchNotification("No VPN permission", failing);
        OnDisconnect("no vpn perms", failing);
      }
      without := !permitted;
    }

    method TurnOnVPN(device: Device, failing: Failing)
      requires Valid() && state.ServerReady?
      modifies this, service, journal
      ensures Model() == AfterTurnOn(old(Model()), device, failing)
    {
      var ready := state;
      var without := DisconnectAndNotifyIfNoVPNPermission(device.permittedToTurnOn, failing);
      if without {
        return;
      }
      var connecting := ToConnecting(ready);
      UpdateStateAndNotifyClients(connecting, failing);
      var error := service.TurnOnVPN(ready.config, device);
      if error.Some? {
        DispatchNotification(error.value, failing);
        OnDisconnect(error.value, failing);
        return;
      }
      UpdateStateAndNotifyClients(ToConnected(connecting, device.now), failing);
    }

    method OnRegisterListener(failing: Failing)
      requires Valid()
      modifies this, journal
      ensures Model() == AfterRegister(old(Model()), failing)
    {
      listenerId := listenerId + 1;
      var id, first := listenerId, |journal.entries|;
      listeners := listeners + {id};
      journal.entries := journal.entries + [Sent(State(ToVPNState(state)), {id})];
      var allSent := id !in failing(first);
      if allSent {
        journal.entries := journal.entries + [Sent(ListenerRegistered(id), {id})];
        allSent := id !in failing(first + 1);
      }
      if !allSent {
        listeners := listeners - {id};
      }
    }

    method OnDeregisterListener(id: int)
      requires Valid()
      modifies this, journal
      ensures Model() == AfterDeregister(old(Model()), id)
    {
      listeners := listeners - {id};
      IfNoListenersAndDisconnectedThenStopService();
    }

    // onDestroy and onRevoke differ in the reason they give.
    method OnDestroyOrRevoke(reason: string, failing: Failing)
      requires Valid()
      modifies this, service, journal
      ensures Model() == AfterCleanup(old(Model()), reason, failing)
    {
      journal.entries := journal.entries + [DropMessages];
      OnDisconnect(reason, failing);
    }
  }
}
