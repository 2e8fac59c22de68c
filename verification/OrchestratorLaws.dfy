/**
  What the Android orchestrator's outputs and states say about the actions that caused them. Each law holds of every
  phone and every action, and is exact: an output of its kind is made in the cases named and in no others.
 */
module OrchestratorLaws {
  import opened Options
  import opened VpnState
  import opened Orchestrator
  import opened OrchestratorRuns
  import S = VpnSession

  /* ---------- states ---------- */

  // What is shown has the name of the state, its place and, once connected, its time.
  lemma ShownIsState(state: OrchestratorState)
    ensures var shown := ToVPNState(state);
            && (shown.Disconnected? <==> state.Disconnected?) && (shown.Requesting? <==> state.Requesting?)
            && (shown.Accepted? <==> state.Accepted?) && (shown.ServerCreated? <==> state.ServerCreated?)
            && (shown.ServerRunning? <==> state.ServerRunning?) && (shown.ServerReady? <==> state.ServerReady?)
            && (shown.Connecting? <==> state.Connecting?) && (shown.Connected? <==> state.Connected?)
            && (shown.Disconnecting? <==> state.Disconnecting?)
            && (!state.Disconnected? ==> shown.location == state.location)
            && (state.Connected? ==> shown.time == state.time)
  {
  }

  // How far a session has come, by what is shown of it; the numbers are those of the progress bar.
  lemma ProgressInOrder(l: S.Location, t: nat)
    ensures Progress(VPNState.Disconnected) == Progress(VPNState.Disconnecting(l)) == 0
    ensures 0 < Progress(VPNState.Requesting(l)) < Progress(VPNState.Accepted(l)) < Progress(VPNState.ServerCreated(l))
              < Progress(VPNState.ServerRunning(l)) < Progress(VPNState.ServerReady(l)) < Progress(VPNState.Connecting(l))
              < Progress(VPNState.Connected(l, t)) == 100
  {
  }

  // The progress that a status of the server stands for.
  function Reported(status: S.VpnSessionStatus): Option<nat> {
    match status
    case Accepted(_, _) => Some(25)
    case ServerCreated(_, _) => Some(50)
    case ServerRunning(_, _) => Some(75)
    case ServerReady(_, _, _) => Some(80)
    case _ => None
  }

  // A status takes a session that has been accepted to just where it reports it, unless it is behind; one that is where
  // the session is already changes nothing.
  lemma UpdateExact(state: OrchestratorState, location: S.Location, status: S.VpnSessionStatus)
    requires !state.Disconnected? && !state.Disconnecting? && Reported(status).Some?
    ensures var after, at, to := NewStateFromUpdate(state, location, status), Progress(ToVPNState(state)), Reported(status).value;
            && (after.Some? <==> 25 <= at <= to && (at == to || to > 25))
            && (after.Some? && at == to ==> after == Some(state))
            && (after.Some? && at < to ==>
                  && Progress(ToVPNState(after.value)) == to && after.value.location == location
                  && after.value.session == S.SessionInfo(status.requestId, status.vpnSessionUuid)
                  && (!status.ServerReady? ==> after.value.interFace == state.interFace)
                  && (status.ServerReady? ==> IsConfig(after.value.config, state.interFace, status.details)))
  {
  }

  // A failure takes every session down; the other statuses none anywhere.
  lemma OtherUpdates(state: OrchestratorState, location: S.Location, status: S.VpnSessionStatus)
    requires Reported(status).None?
    ensures NewStateFromUpdate(state, location, status) == if status.Failed? then Some(OrchestratorState.Disconnected) else None
  {
  }

  // The configuration for a tunnel: the interface granted, and the server as a peer for all traffic.
  predicate IsConfig(config: Config, interFace: Interface, details: S.ServerDetails) {
    && config.interFace == interFace && config.endpoint == details.ipv4Endpoint && config.publicKey == details.publicKey
    && config.allowedIps == "0.0.0.0/0, ::0/0" && config.keepalive == 25
  }

  /* ---------- outputs ---------- */

  // A message, whoever it is sent to.
  function Message(text: string): Output {
    Sent(Notification(text), {})
  }

  function Plainly(o: Output): Output {
    if o.Sent? then Sent(o.event, {}) else o
  }

  // All outputs but the states sent and the ids of listeners.
  predicate Counted(o: Output) {
    o.Sent? ==> o.event.Notification? && o.to == {}
  }

  function Once(b: bool): nat {
    if b then 1 else 0
  }

  // How often an output has been made.
  function Times(o: Output, log: seq<Output>): nat {
    if log == [] then 0 else Times(o, log[..|log| - 1]) + Once(Plainly(log[|log| - 1]) == o)
  }

  lemma SaidOnce(o: Output, p: Phone, said: Output)
    ensures Times(o, Say(p, said).log) == Times(o, p.log) + Once(Plainly(said) == o)
    ensures Say(p, said) == p.(log := Say(p, said).log)
  {
    hide Plainly;
    assert (p.log + [said])[..|p.log|] == p.log;
  }

  lemma DispatchedOnce(o: Output, p: Phone, e: Event, failing: Failing)
    requires Counted(o)
    ensures var after := Dispatch(p, e, failing);
            && Times(o, after.log) == Times(o, p.log) + Once(e.Notification? && o == Message(e.message))
            && after == p.(listeners := after.listeners, log := after.log)
  {
    hide Times;
    SaidOnce(o, p, Sent(e, p.listeners));
  }

  lemma EnteredNone(o: Output, p: Phone, state: OrchestratorState, failing: Failing)
    requires Counted(o)
    ensures var after := Enter(p, state, failing);
            && Times(o, after.log) == Times(o, p.log)
            && after == p.(state := state, listeners := after.listeners, log := after.log)
  {
    hide Times, Dispatch;
    DispatchedOnce(o, p.(state := state), State(ToVPNState(state)), failing);
  }

  // What a disconnect makes of a state, with this handle held, before the service may stop.
  function Down(o: Output, state: OrchestratorState, handle: int, reason: string): nat {
    if state.Disconnected? then 0
    else
      match o
      case CancelSession => 1
      case EndSession(id, why) => Once(RequestOf(state) == Some(id) && why == reason)
      case TurnedOff(h) => Once((state.Connecting? || state.Connected?) && handle != -1 && h == handle)
      case _ => 0
  }

  // The service stops where a session has gone down, or a listener has left, and nobody is left.
  function Stopping(o: Output, went: bool, after: Phone): nat {
    Once(o == StopService && went && after.state.Disconnected? && after.listeners == {})
  }

  lemma DisconnectSays(o: Output, p: Phone, reason: string, failing: Failing)
    requires Counted(o)
    ensures var after := AfterDisconnect(p, reason, failing);
            Times(o, after.log)
            == Times(o, p.log) + Down(o, p.state, p.handle, reason) + Stopping(o, !p.state.Disconnected?, after)
  {
    hide Times, Enter, Say;
    if !p.state.Disconnected? {
      var t := TransitionOnDisconnect(p.state);
      var p0 := Say(p, CancelSession);
      SaidOnce(o, p, CancelSession);
      EnteredNone(o, p0, t.state, failing);
      var p1 := Enter(p0, t.state, failing);
      var p2 := if t.requestId.Some? then Say(p1, EndSession(t.requestId.value, reason)) else p1;
      if t.requestId.Some? {
        SaidOnce(o, p1, EndSession(t.requestId.value, reason));
      }
      var p3 := if t.turnOff then AfterTurnOff(p2, failing) else p2;
      TurnOffSays(o, p2, failing);
      SaidOnce(o, p3, StopService);
    }
  }

  lemma TurnOffSays(o: Output, p: Phone, failing: Failing)
    requires Counted(o)
    ensures Times(o, AfterTurnOff(p, failing).log) == Times(o, p.log) + Once(p.handle != -1 && o == TurnedOff(p.handle))
  {
    hide Times, Enter, Say;
    SaidOnce(o, p, TurnedOff(p.handle));
    var off := if p.handle != -1 then Say(p, TurnedOff(p.handle)).(handle := -1) else p;
    EnteredNone(o, off, OrchestratorState.Disconnected, failing);
  }

  // The outputs in order, whoever messages are sent to.
  function Quiet(log: seq<Output>): seq<Output> {
    seq(|log|, i requires 0 <= i < |log| => Plainly(log[i]))
  }

  function Shows(state: VPNState): Output {
    Sent(State(state), {})
  }

  lemma QuietSaid(p: Phone, o: Output)
    ensures Quiet(Say(p, o).log) == Quiet(p.log) + [Plainly(o)]
    ensures Say(p, o) == p.(log := Say(p, o).log)
  {
    hide Plainly;
  }

  lemma QuietEntered(p: Phone, state: OrchestratorState, failing: Failing)
    ensures var after := Enter(p, state, failing);
            && Quiet(after.log) == Quiet(p.log) + [Shows(ToVPNState(state))]
            && after == p.(state := state, listeners := after.listeners, log := after.log)
  {
    hide Quiet;
    QuietSaid(p.(state := state), Sent(State(ToVPNState(state)), p.listeners));
  }

  lemma QuietOff(p: Phone, failing: Failing)
    ensures Quiet(AfterTurnOff(p, failing).log)
         == Quiet(p.log) + (if p.handle != -1 then [TurnedOff(p.handle)] else []) + [Shows(VPNState.Disconnected)]
    ensures AfterTurnOff(p, failing).state.Disconnected?
  {
    hide Quiet, Enter, Say;
    QuietSaid(p, TurnedOff(p.handle));
    var off := if p.handle != -1 then Say(p, TurnedOff(p.handle)).(handle := -1) else p;
    QuietEntered(off, OrchestratorState.Disconnected, failing);
    assert Quiet(p.log) + [] == Quiet(p.log);
  }

  function DownInTwo(location: S.Location, id: S.Uuid, handle: int, reason: string): seq<Output> {
    [Shows(VPNState.Disconnecting(location)), EndSession(id, reason)]
    + (if handle != -1 then [TurnedOff(handle)] else []) + [Shows(VPNState.Disconnected)]
  }

  // A session goes down in this order: what is under way is cancelled, the listeners are told, the session is ended on
  // the server, and where there may be a tunnel it is turned off and the listeners are told again.
  function GoingDown(state: OrchestratorState, handle: int, reason: string): seq<Output>
    requires !state.Disconnected?
  {
    [CancelSession]
    + match state
      case Disconnecting(location) => [Shows(VPNState.Disconnecting(location))]
      case Connecting(location, session, _) => DownInTwo(location, session.requestId, handle, reason)
      case Connected(location, _, session, _) => DownInTwo(location, session.requestId, handle, reason)
      case Requesting(requestId, _) => [Shows(VPNState.Disconnected), EndSession(requestId, reason)]
      case Accepted(_, session, _) => [Shows(VPNState.Disconnected), EndSession(session.requestId, reason)]
      case ServerCreated(_, session, _) => [Shows(VPNState.Disconnected), EndSession(session.requestId, reason)]
      case ServerRunning(_, session, _) => [Shows(VPNState.Disconnected), EndSession(session.requestId, reason)]
      case ServerReady(_, session, _) => [Shows(VPNState.Disconnected), EndSession(session.requestId, reason)]
  }

  function IfIdle(p: Phone): seq<Output> {
    if p.state.Disconnected? && p.listeners == {} then [StopService] else []
  }

  lemma DisconnectInOrder(p: Phone, reason: string, failing: Failing)
    ensures var after := AfterDisconnect(p, reason, failing);
            if p.state.Disconnected? then after == p
            else Quiet(after.log) == Quiet(p.log) + GoingDown(p.state, p.handle, reason) + IfIdle(after)
  {
    hide Quiet, Enter, Say, AfterTurnOff;
    if !p.state.Disconnected? {
      var t := TransitionOnDisconnect(p.state);
      var p0 := Say(p, CancelSession);
      QuietSaid(p, CancelSession);
      QuietEntered(p0, t.state, failing);
      var p1 := Enter(p0, t.state, failing);
      var p2 := if t.requestId.Some? then Say(p1, EndSession(t.requestId.value, reason)) else p1;
      if t.requestId.Some? {
        QuietSaid(p1, EndSession(t.requestId.value, reason));
      }
      QuietOff(p2, failing);
      var p3 := if t.turnOff then AfterTurnOff(p2, failing) else p2;
      QuietSaid(p3, StopService);
    }
  }

  // A tunnel comes up in this order: the listeners are told, it is turned on, and they are told again; or of the failure,
  // and the session goes down.
  lemma TurnOnInOrder(p: Phone, device: Device, failing: Failing)
    requires p.state.ServerReady?
    ensures var after, place, session, config := AfterTurnOn(p, device, failing), p.state.location, p.state.session, p.state.config;
            var on := if device.established then [TurnedOn(device.handle, config)] else [];
            var held := if device.established then device.handle else p.handle;
            Quiet(after.log)
            == Quiet(p.log)
               + if !device.permittedToTurnOn then
                   [Message("No VPN permission")] + GoingDown(p.state, p.handle, "no vpn perms") + IfIdle(after)
                 else if !device.established then
                   [Shows(VPNState.Connecting(place)), Message("Failed to create VPN interface"), CancelSession]
                   + DownInTwo(place, session.requestId, p.handle, "Failed to create VPN interface") + IfIdle(after)
                 else if device.handle < 0 then
                   [Shows(VPNState.Connecting(place)), TurnedOn(device.handle, config), Message("WireGuard activation error"), CancelSession]
                   + DownInTwo(place, session.requestId, device.handle, "WireGuard activation error") + IfIdle(after)
                 else [Shows(VPNState.Connecting(place)), TurnedOn(device.handle, config), Shows(VPNState.Connected(place, device.now))]
  {
    hide Quiet, Enter, Say, Dispatch, AfterDisconnect, DownInTwo;
    if !device.permittedToTurnOn {
      QuietTold(p, "No VPN permission", failing);
      DisconnectInOrder(Dispatch(p, Notification("No VPN permission"), failing), "no vpn perms", failing);
    } else {
      var connecting := ToConnecting(p.state);
      QuietEntered(p, connecting, failing);
      var p1 := Enter(p, connecting, failing);
      QuietSaid(p1, TurnedOn(device.handle, p.state.config));
      var p2 := if device.established then Say(p1, TurnedOn(device.handle, p.state.config)).(handle := device.handle) else p1;
      if !device.established || device.handle < 0 {
        var message := TurnOnError(device);
        QuietTold(p2, message, failing);
        DisconnectInOrder(Dispatch(p2, Notification(message), failing), message, failing);
      } else {
        QuietEntered(p2, ToConnected(connecting, device.now), failing);
      }
    }
  }

  lemma QuietTold(p: Phone, text: string, failing: Failing)
    ensures var after := Dispatch(p, Notification(text), failing);
            && Quiet(after.log) == Quiet(p.log) + [Message(text)] && after == p.(listeners := after.listeners, log := after.log)
  {
    hide Quiet;
    QuietSaid(p, Sent(Notification(text), p.listeners));
  }

  // A session is asked for in this order: the service comes to the foreground, the listeners are told, the server asked.
  lemma ConnectInOrder(p: Phone, location: S.Location, permitted: bool, id: S.Uuid, failing: Failing)
    ensures Quiet(AfterConnect(p, location, permitted, id, failing).log)
         == Quiet(p.log)
            + if !p.state.Disconnected? then [Message("VPN session is already in progress")]
              else if !permitted then [Message("No VPN permission")]
              else [StartForeground, Shows(VPNState.Requesting(location)), NewSession(id, location)]
  {
    hide Quiet, Enter, Say, Dispatch;
    QuietTold(p, "VPN session is already in progress", failing);
    QuietTold(p, "No VPN permission", failing);
    QuietSaid(p, StartForeground);
    var p1 := Say(p, StartForeground);
    QuietEntered(p1, OrchestratorState.Requesting(id, location), failing);
    QuietSaid(Enter(p1, OrchestratorState.Requesting(id, location), failing), NewSession(id, location));
  }

  /* ---------- what an action says ---------- */

  predicate Up(state: OrchestratorState) {
    !state.Disconnected? && !state.Disconnecting?
  }

  // The server is reported ready to a session that waits for it, so that the tunnel is to be turned on.
  predicate Readies(state: OrchestratorState, a: Action) {
    a.Update? && a.device.permitted && a.status.ServerReady?
    && (state.Accepted? || state.ServerCreated? || state.ServerRunning? || state.ServerReady?)
  }

  // An action takes a session down: the user, the end of the service, a lost permission, or a tunnel that does not
  // come up.
  predicate TakesDownFrom(state: OrchestratorState, a: Action) {
    match a
    case Disconnect(_) => !state.Disconnected?
    case Cleanup(_) => !state.Disconnected?
    case Update(_, _, device) =>
      Up(state) && (!device.permitted || (Readies(state, a) && (!device.permittedToTurnOn || !device.established || device.handle < 0)))
    case _ => false
  }

  // The reason it gives to the server, and what listeners are told.
  function Reason(a: Action): string {
    match a
    case Disconnect(reason) => reason
    case Cleanup(reason) => reason
    case Update(_, _, device) =>
      if !device.permitted || !device.permittedToTurnOn then "no vpn perms"
      else if !device.established then "Failed to create VPN interface" else "WireGuard activation error"
    case _ => ""
  }

  function Complaint(device: Device): string {
    if !device.permitted || !device.permittedToTurnOn then "No VPN permission"
    else if !device.established then "Failed to create VPN interface" else "WireGuard activation error"
  }

  // The request whose session is under way once the update has been taken in.
  function RequestThen(state: OrchestratorState, a: Action): Option<S.Uuid> {
    if Readies(state, a) && !state.ServerReady? then Some(a.status.requestId) else RequestOf(state)
  }

  // The tunnel is turned on with this configuration.
  predicate TurnsOnWith(state: OrchestratorState, a: Action, config: Config) {
    && Readies(state, a) && a.device.permittedToTurnOn && a.device.established
    && if state.ServerReady? then config == state.config else IsConfig(config, state.interFace, a.status.details)
  }

  // The tunnel that goes down with a session: the one held while the session is connecting or connected.
  function HeldThen(state: OrchestratorState, handle: int, a: Action): int {
    if Readies(state, a) then
      if !a.device.permittedToTurnOn then -1 else if a.device.established then a.device.handle else handle
    else if state.Connecting? || state.Connected? then handle else -1
  }

  function DownThen(o: Output, state: OrchestratorState, handle: int, a: Action): nat {
    if !TakesDownFrom(state, a) then 0
    else
      match o
      case CancelSession => 1
      case EndSession(id, why) => Once(RequestThen(state, a) == Some(id) && why == Reason(a))
      case TurnedOff(h) => Once(HeldThen(state, handle, a) != -1 && h == HeldThen(state, handle, a))
      case _ => 0
  }

  // How often an action tells listeners this.
  function Told(text: string, state: OrchestratorState, a: Action): nat {
    match a
    case Connect(_, permitted, _) =>
      if !state.Disconnected? then Once(text == "VPN session is already in progress")
      else Once(!permitted && text == "No VPN permission")
    case Response(_, result) => Once(Up(state) && result.Err? && text == Refusal(result))
    case Update(_, status, device) =>
      Once(Up(state) && status.Failed? && text == "Can't provision server. Please try again.")
      + Once(TakesDownFrom(state, a) && text == Complaint(device))
    case _ => 0
  }

  // How often an action makes an output.
  function Expected(o: Output, w: World, a: Action, after: Phone): nat {
    var state := w.phone.state;
    var down := TakesDownFrom(state, a);
    match o
    case NewSession(id, location) =>
      Once(a.Connect? && state.Disconnected? && a.permitted && id == a.requestId && location == a.location)
    case StartForeground => Once(a.Connect? && state.Disconnected? && a.permitted)
    case DropMessages => Once(a.Cleanup?)
    case TurnedOn(handle, config) => if a.Update? then Once(TurnsOnWith(state, a, config) && handle == a.device.handle) else 0
    case StopService => Stopping(o, down || a.Deregister?, after)
    case Sent(event, _) => if event.Notification? then Told(event.message, state, a) else 0
    case _ => DownThen(o, state, w.phone.handle, a)
  }

  function Refusal(result: Result<(S.SessionInfo, Interface)>): string {
    if result.Err? then result.message else ""
  }

  // Of every output that is no state sent, how often an action makes it: a session is asked for exactly when a connect
  // is allowed, the session under way ended exactly when it goes down, with its own request id, the tunnel turned on
  // exactly when the server is ready, and so on.
  lemma OutputsExact(o: Output, w: World, a: Action, failing: Failing)
    requires Allowed(w, a) && Counted(o)
    ensures Times(o, Step(w, a, failing).phone.log) == Times(o, w.phone.log) + Expected(o, w, a, Step(w, a, failing).phone)
  {
    hide Times, AfterDisconnect, Dispatch, AfterUpdate, AfterConnect, AfterResponse, AfterRegister, AfterDeregister, AfterCleanup, Expected, Down;
    if !a.Update? {
      ExpectedElse(o, w, a, Step(w, a, failing).phone);
    }
    match a
    case Connect(location, permitted, id) => ConnectSays(o, w.phone, location, permitted, id, failing);
    case Response(location, result) => ResponseSays(o, w.phone, location, result, failing);
    case Update(location, status, device) => UpdateSays(o, w, a, failing);
    case Disconnect(reason) => DisconnectSays(o, w.phone, reason, failing);
    case Cleanup(reason) => CleanupSays(o, w.phone, reason, failing);
    case Register => RegisterSays(o, w.phone, failing);
    case Deregister(id) => DeregisterSays(o, w.phone, id);
  }

  lemma CleanupSays(o: Output, p: Phone, reason: string, failing: Failing)
    requires Counted(o)
    ensures var after := AfterCleanup(p, reason, failing);
            Times(o, after.log)
            == Times(o, p.log) + Once(o == DropMessages) + Down(o, p.state, p.handle, reason) + Stopping(o, !p.state.Disconnected?, after)
  {
    hide Times, AfterDisconnect, Down;
    SaidOnce(o, p, DropMessages);
    DisconnectSays(o, Say(p, DropMessages), reason, failing);
  }

  lemma DeregisterSays(o: Output, p: Phone, id: int)
    requires Counted(o)
    ensures var after := AfterDeregister(p, id);
            Times(o, after.log) == Times(o, p.log) + Stopping(o, true, after)
  {
    hide Times;
    SaidOnce(o, p.(listeners := p.listeners - {id}), StopService);
  }

  // What is expected of an action that is no update.
  lemma ExpectedElse(o: Output, w: World, a: Action, after: Phone)
    requires !a.Update? && Counted(o)
    ensures var state := w.phone.state;
            var granted := a.Connect? && state.Disconnected? && a.permitted;
            var down := (a.Disconnect? || a.Cleanup?) && !state.Disconnected?;
            Expected(o, w, a, after)
            == (if a.Connect? then Once(granted && o == StartForeground) + Once(granted && o == NewSession(a.requestId, a.location)) else 0)
               + Once(a.Connect? && !state.Disconnected? && o == Message("VPN session is already in progress"))
               + Once(a.Connect? && state.Disconnected? && !a.permitted && o == Message("No VPN permission"))
               + Once(a.Response? && Up(state) && a.result.Err? && o == Message(Refusal(a.result)))
               + Once(a.Cleanup? && o == DropMessages)
               + (if a.Disconnect? || a.Cleanup? then Down(o, state, w.phone.handle, a.reason) else 0)
               + Stopping(o, down || a.Deregister?, after)
  {
    hide DownThen, Down, Told;
    OnlyTold(o, w.phone.state, w.phone.handle, a);
  }

  // The cases of an action that is no update.
  lemma OnlyTold(o: Output, state: OrchestratorState, handle: int, a: Action)
    requires !a.Update? && Counted(o)
    ensures DownThen(o, state, handle, a) == if a.Disconnect? || a.Cleanup? then Down(o, state, handle, a.reason) else 0
    ensures Counted(o) && o.Sent?
        ==> Told(o.event.message, state, a)
            == Once(a.Connect? && !state.Disconnected? && o == Message("VPN session is already in progress"))
               + Once(a.Connect? && state.Disconnected? && !a.permitted && o == Message("No VPN permission"))
               + Once(a.Response? && Up(state) && a.result.Err? && o == Message(Refusal(a.result)))
    ensures o.Sent? || o.NewSession? || o.StartForeground? || o.DropMessages? || o.TurnedOn? || o.StopService?
        ==> (a.Disconnect? || a.Cleanup? ==> Down(o, state, handle, a.reason) == 0)
  {
    hide RequestOf;
  }

  lemma ConnectSays(o: Output, p: Phone, location: S.Location, permitted: bool, id: S.Uuid, failing: Failing)
    requires Counted(o)
    ensures var granted := p.state.Disconnected? && permitted;
            Times(o, AfterConnect(p, location, permitted, id, failing).log)
            == Times(o, p.log) + Once(granted && o == StartForeground) + Once(granted && o == NewSession(id, location))
               + Once(!p.state.Disconnected? && o == Message("VPN session is already in progress"))
               + Once(p.state.Disconnected? && !permitted && o == Message("No VPN permission"))
  {
    hide Times, Enter, Say, Dispatch;
    DispatchedOnce(o, p, Notification("VPN session is already in progress"), failing);
    DispatchedOnce(o, p, Notification("No VPN permission"), failing);
    SaidOnce(o, p, StartForeground);
    var p1 := Say(p, StartForeground);
    EnteredNone(o, p1, OrchestratorState.Requesting(id, location), failing);
    SaidOnce(o, Enter(p1, OrchestratorState.Requesting(id, location), failing), NewSession(id, location));
  }

  lemma ResponseSays(o: Output, p: Phone, location: S.Location, result: Result<(S.SessionInfo, Interface)>, failing: Failing)
    requires Counted(o)
    ensures Times(o, AfterResponse(p, location, result, failing).log)
         == Times(o, p.log) + Once(Up(p.state) && result.Err? && o == Message(Refusal(result)))
  {
    hide Times, Enter, Say, Dispatch;
    if result.Ok? {
      EnteredNone(o, p, OrchestratorState.Accepted(location, result.value.0, result.value.1), failing);
    } else {
      DispatchedOnce(o, p, Notification(result.message), failing);
      EnteredNone(o, Dispatch(p, Notification(result.message), failing), OrchestratorState.Disconnected, failing);
    }
  }

  lemma RegisterSays(o: Output, p: Phone, failing: Failing)
    requires Counted(o)
    ensures Times(o, AfterRegister(p, failing).log) == Times(o, p.log)
  {
    hide Times;
    var id := p.lastId + 1;
    var p1 := p.(lastId := id);
    var told := Say(p1, Sent(State(ToVPNState(p.state)), {id}));
    SaidOnce(o, p1, Sent(State(ToVPNState(p.state)), {id}));
    SaidOnce(o, told, Sent(ListenerRegistered(id), {id}));
  }

  lemma NoPermissionSays(o: Output, p: Phone, failing: Failing)
    requires Counted(o)
    ensures var after := NoPermission(p, failing);
            Times(o, after.log)
            == Times(o, p.log) + Once(o == Message("No VPN permission")) + Down(o, p.state, p.handle, "no vpn perms")
               + Stopping(o, !p.state.Disconnected?, after)
  {
    hide Times, AfterDisconnect, Down;
    DispatchedOnce(o, p, Notification("No VPN permission"), failing);
    DisconnectSays(o, Dispatch(p, Notification("No VPN permission"), failing), "no vpn perms", failing);
  }

  // The tunnel does not come up.
  lemma TurnOnSays(o: Output, p: Phone, device: Device, failing: Failing)
    requires Counted(o) && p.state.ServerReady?
    ensures var after := AfterTurnOn(p, device, failing);
            var on := if device.established then device.handle else p.handle;
            var connecting := OrchestratorState.Connecting(p.state.location, p.state.session, p.state.config);
            var said := Times(o, p.log) + Once(device.permittedToTurnOn && device.established && o == TurnedOn(device.handle, p.state.config));
            Times(o, after.log)
            == if !device.permittedToTurnOn then
                 said + Once(o == Message("No VPN permission")) + Down(o, p.state, p.handle, "no vpn perms") + Stopping(o, true, after)
               else if !device.established || device.handle < 0 then
                 said + Once(o == Message(TurnOnError(device))) + Down(o, connecting, on, TurnOnError(device)) + Stopping(o, true, after)
               else said
  {
    hide Times, Enter, Say, Dispatch, AfterDisconnect, NoPermission, Down;
    if !device.permittedToTurnOn {
      NoPermissionSays(o, p, failing);
    } else {
      var connecting := ToConnecting(p.state);
      EnteredNone(o, p, connecting, failing);
      var p1 := Enter(p, connecting, failing);
      SaidOnce(o, p1, TurnedOn(device.handle, p.state.config));
      var p2 := if device.established then Say(p1, TurnedOn(device.handle, p.state.config)).(handle := device.handle) else p1;
      if !device.established || device.handle < 0 {
        var message := TurnOnError(device);
        DispatchedOnce(o, p2, Notification(message), failing);
        DisconnectSays(o, Dispatch(p2, Notification(message), failing), message, failing);
      } else {
        EnteredNone(o, p2, ToConnected(connecting, device.now), failing);
      }
    }
  }

  lemma UpdateSays(o: Output, w: World, a: Action, failing: Failing)
    requires a.Update? && Counted(o)
    ensures var after := AfterUpdate(w.phone, a.location, a.status, a.device, failing);
            Times(o, after.log) == Times(o, w.phone.log) + Expected(o, w, a, after)
  {
    hide Times, Enter, Say, Dispatch, AfterDisconnect, NoPermission, AfterTurnOn, Down, DownThen, NewStateFromUpdate, RequestOf,
      Expected, Stopping, TurnOnError, TakesDownFrom, TurnsOnWith, Complaint;
    var p := w.phone;
    var after := AfterUpdate(p, a.location, a.status, a.device, failing);
    ExpectedOnUpdate(o, w, a, after);
    if !IsDisconnectingOrDisconnected(p.state) {
      var failed := Notification("Can't provision server. Please try again.");
      var p1 := if a.status.Failed? then Dispatch(p, failed, failing) else p;
      DispatchedOnce(o, p, failed, failing);
      if !a.device.permitted {
        NoPermissionSays(o, p1, failing);
        DownOnUpdate(o, p.state, p.handle, a);
      } else {
        NextSays(o, p1, a, failing);
      }
    } else {
      StaysUp(o, p.state, p.handle, a, after);
    }
  }

  // The rest of an update, once the permission is there.
  lemma NextSays(o: Output, p: Phone, a: Action, failing: Failing)
    requires a.Update? && Counted(o) && a.device.permitted && Up(p.state)
    ensures var next := NewStateFromUpdate(p.state, a.location, a.status);
            var after := if next.None? then p
                         else
                           var q := Enter(p, next.value, failing);
                           if next.value.ServerReady? then AfterTurnOn(q, a.device, failing) else q;
            var down := TakesDownFrom(p.state, a);
            Times(o, after.log)
            == Times(o, p.log) + Once(o.TurnedOn? && TurnsOnWith(p.state, a, o.config) && o.handle == a.device.handle)
               + Once(down && o == Message(Complaint(a.device))) + DownThen(o, p.state, p.handle, a) + Stopping(o, down, after)
  {
    hide Times, Enter, AfterTurnOn, Down, DownThen, NewStateFromUpdate, RequestOf, Stopping, TurnOnError, Complaint, IsConfig;
    var next := NewStateFromUpdate(p.state, a.location, a.status);
    NextReady(p.state, a);
    StaysUp(o, p.state, p.handle, a, p);
    if next.Some? {
      var q := Enter(p, next.value, failing);
      EnteredNone(o, p, next.value, failing);
      StaysUp(o, p.state, p.handle, a, q);
      if next.value.ServerReady? {
        TurnOnSays(o, q, a.device, failing);
        TurnedOnWith(o, q.state, p.state, a);
        DownOnTurnOn(o, q.state, p.state, p.handle, a);
        StaysUp(o, p.state, p.handle, a, AfterTurnOn(q, a.device, failing));
      }
    }
  }

  lemma ExpectedOnUpdate(o: Output, w: World, a: Action, after: Phone)
    requires a.Update? && Counted(o)
    ensures var state := w.phone.state;
            var down := TakesDownFrom(state, a);
            Expected(o, w, a, after)
            == Once(Up(state) && a.status.Failed? && o == Message("Can't provision server. Please try again."))
               + Once(o.TurnedOn? && TurnsOnWith(state, a, o.config) && o.handle == a.device.handle)
               + Once(down && o == Message(Complaint(a.device))) + DownThen(o, state, w.phone.handle, a) + Stopping(o, down, after)
  {
    hide RequestOf;
  }

  lemma NextReady(state: OrchestratorState, a: Action)
    requires a.Update? && !IsDisconnectingOrDisconnected(state)
    ensures var next := NewStateFromUpdate(state, a.location, a.status);
            && (a.device.permitted ==> (next.Some? && next.value.ServerReady? <==> Readies(state, a)))
            && (Readies(state, a) ==>
                  && RequestOf(next.value) == RequestThen(state, a)
                  && (state.ServerReady? ==> next.value == state)
                  && (!state.ServerReady? ==> IsConfig(next.value.config, state.interFace, a.status.details)))
  {
  }

  lemma StaysUp(o: Output, state: OrchestratorState, handle: int, a: Action, after: Phone)
    requires a.Update?
    ensures !TakesDownFrom(state, a) ==> DownThen(o, state, handle, a) == 0 && Stopping(o, false, after) == 0
    ensures !Up(state) ==> !TakesDownFrom(state, a) && (o.TurnedOn? ==> !TurnsOnWith(state, a, o.config))
  {
  }

  lemma TurnedOnWith(o: Output, ready: OrchestratorState, state: OrchestratorState, a: Action)
    requires Readies(state, a) && ready.ServerReady?
    requires if state.ServerReady? then ready == state else IsConfig(ready.config, state.interFace, a.status.details)
    ensures (a.device.permittedToTurnOn && a.device.established && o == TurnedOn(a.device.handle, ready.config))
       <==> (o.TurnedOn? && TurnsOnWith(state, a, o.config) && o.handle == a.device.handle)
  {
  }

  lemma DownOnUpdate(o: Output, state: OrchestratorState, handle: int, a: Action)
    requires a.Update? && !a.device.permitted && !IsDisconnectingOrDisconnected(state)
    ensures Down(o, state, handle, "no vpn perms") == DownThen(o, state, handle, a)
    ensures Complaint(a.device) == "No VPN permission" && TakesDownFrom(state, a)
    ensures o.TurnedOn? ==> !TurnsOnWith(state, a, o.config)
  {
  }

  lemma DownOnTurnOn(o: Output, ready: OrchestratorState, state: OrchestratorState, handle: int, a: Action)
    requires Readies(state, a) && ready.ServerReady? && RequestOf(ready) == RequestThen(state, a)
    ensures !a.device.permittedToTurnOn
        ==> Down(o, ready, handle, "no vpn perms") == DownThen(o, state, handle, a) && Complaint(a.device) == "No VPN permission"
    ensures var connecting := OrchestratorState.Connecting(ready.location, ready.session, ready.config);
            var on := if a.device.established then a.device.handle else handle;
            a.device.permittedToTurnOn && (!a.device.established || a.device.handle < 0)
            ==> Down(o, connecting, on, TurnOnError(a.device)) == DownThen(o, state, handle, a)
                && Complaint(a.device) == TurnOnError(a.device)
  {
  }

  /* ---------- what goes down, and what comes up ---------- */

  function Ended(request: Option<S.Uuid>): seq<S.Uuid> {
    if request.Some? then [request.value] else []
  }

  lemma DisconnectEnds(v: View)
    ensures DisconnectView(v).ended == v.ended + Ended(RequestOf(v.state)) && RequestOf(DisconnectView(v).state).None?
  {
    hide ToVPNState;
    assert v.ended + [] == v.ended;
  }

  lemma TurnOnEnds(v: View, device: Device)
    requires v.state.ServerReady?
    ensures var after := TurnOnView(v, device);
            if !device.permittedToTurnOn || !device.established || device.handle < 0
            then after.ended == v.ended + Ended(RequestOf(v.state)) && RequestOf(after.state).None?
            else after.ended == v.ended && RequestOf(after.state) == RequestOf(v.state)
  {
    hide ToVPNState, TunnelsWith, DisconnectView, Ended;
    DisconnectEnds(v);
    var next := Show(v, ToConnecting(v.state));
    DisconnectEnds(next);
    DisconnectEnds(if device.established then next.(handle := device.handle, tunnels := TunnelsWith(v.tunnels, TurnedOn(device.handle, v.state.config))) else next);
  }

  lemma UpdateEnds(v: View, a: Action)
    requires a.Update?
    ensures var after := UpdateView(v, a.location, a.status, a.device);
            if TakesDownFrom(v.state, a)
            then after.ended == v.ended + Ended(RequestThen(v.state, a)) && RequestOf(after.state).None?
            else after.ended == v.ended
    ensures Readies(v.state, a) && !TakesDownFrom(v.state, a)
        ==> RequestOf(UpdateView(v, a.location, a.status, a.device).state) == RequestThen(v.state, a)
    ensures !Readies(v.state, a) && !TakesDownFrom(v.state, a)
        ==> UpdateView(v, a.location, a.status, a.device).state
            == if !Up(v.state) || NewStateFromUpdate(v.state, a.location, a.status).None? then v.state
               else NewStateFromUpdate(v.state, a.location, a.status).value
  {
    hide ToVPNState, DisconnectView, TurnOnView, NewStateFromUpdate, RequestOf, Ended;
    DisconnectEnds(v);
    var next := NewStateFromUpdate(v.state, a.location, a.status);
    if Up(v.state) {
      NextReady(v.state, a);
      if next.Some? && next.value.ServerReady? {
        TurnOnEnds(Show(v, next.value), a.device);
      }
    }
  }

  // Every action that takes a session down ends its request on the server, that one and once; no other action ends any.
  lemma EndCallsExact(w: World, a: Action, failing: Failing)
    requires Allowed(w, a)
    ensures EndCalls(Step(w, a, failing).phone.log)
         == EndCalls(w.phone.log)
            + if TakesDownFrom(w.phone.state, a) && RequestThen(w.phone.state, a).Some? then [RequestThen(w.phone.state, a).value] else []
  {
    hide Tunnels, Shown, EndCalls, ToVPNState, DisconnectView, UpdateView, RequestOf, Step;
    SteppedView(w, a, failing);
    DisconnectEnds(ViewOf(w.phone));
    if a.Update? {
      UpdateEnds(ViewOf(w.phone), a);
    }
    NoRequest(w.phone.state);
    assert EndCalls(w.phone.log) + [] == EndCalls(w.phone.log);
  }

  lemma NoRequest(state: OrchestratorState)
    ensures state.Disconnected? || state.Disconnecting? <==> RequestOf(state).None?
  {
  }

  // Listeners see a session that has a tunnel go down in two steps and any other in one.
  lemma DownShown(p: Phone, reason: string, failing: Failing)
    ensures var after := AfterDisconnect(p, reason, failing);
            Shown(after.log)
            == Shown(p.log)
               + if p.state.Connecting? || p.state.Connected? then [VPNState.Disconnecting(p.state.location), VPNState.Disconnected]
                 else if p.state.Disconnecting? then [VPNState.Disconnecting(p.state.location)]
                 else if p.state.Disconnected? then [] else [VPNState.Disconnected]
    ensures !p.state.Disconnecting? ==> AfterDisconnect(p, reason, failing).state.Disconnected?
  {
    hide Tunnels, Shown, EndCalls;
    DisconnectedView(p, reason, failing);
    assert Shown(p.log) + [] == Shown(p.log);
  }

  // A ready server and a tunnel that comes up make the session connected, from that moment and for that request.
  lemma ConnectsExact(w: World, a: Action, failing: Failing)
    requires Allowed(w, a) && !w.phone.state.Connected?
    ensures var after := Step(w, a, failing).phone;
            && (after.state.Connected? <==> Readies(w.phone.state, a) && !TakesDownFrom(w.phone.state, a))
            && (after.state.Connected? ==>
                  && after.state.time == a.device.now && after.handle == a.device.handle
                  && Some(after.state.session.requestId) == RequestThen(w.phone.state, a)
                  && TurnsOnWith(w.phone.state, a, after.state.config))
  {
    hide Tunnels, Shown, EndCalls, ToVPNState, DisconnectView, UpdateView, TurnsOnWith;
    SteppedView(w, a, failing);
    DisconnectEnds(ViewOf(w.phone));
    if a.Update? {
      UpdateConnects(ViewOf(w.phone), a);
    }
  }

  lemma UpdateConnects(v: View, a: Action)
    requires a.Update? && !v.state.Connected?
    ensures var after := UpdateView(v, a.location, a.status, a.device);
            && (after.state.Connected? <==> Readies(v.state, a) && !TakesDownFrom(v.state, a))
            && (after.state.Connected? ==>
                  && after.state.time == a.device.now && after.handle == a.device.handle
                  && Some(after.state.session.requestId) == RequestThen(v.state, a)
                  && TurnsOnWith(v.state, a, after.state.config))
  {
    hide ToVPNState, TunnelsWith;
  }

  /* ---------- no session is abandoned ---------- */

  // A refused request, or one that the server reports failed, is given up without an end call.
  function GivenUp(state: OrchestratorState, a: Action): set<S.Uuid> {
    if Up(state) && RequestOf(state).Some?
       && ((a.Response? && a.result.Err?) || (a.Update? && a.device.permitted && a.status.Failed?))
    then {RequestOf(state).value} else {}
  }

  ghost function Given(w: World, moves: seq<Move>): set<S.Uuid>
    requires AllowedRun(w, moves)
    decreases |moves|
  {
    if moves == [] then {}
    else
      var a := moves[0].action;
      GivenUp(w.phone.state, a) + Given(Step(w, a, moves[0].failing), moves[1..])
  }

  // Each request made is the one under way, or has been ended, or was given up.
  ghost predicate Accounted(w: World, given: set<S.Uuid>) {
    forall id: S.Uuid, location :: Times(NewSession(id, location), w.phone.log) > 0
      ==> RequestOf(w.phone.state) == Some(id) || id in EndCalls(w.phone.log) || id in given
  }

  lemma RequestFate(w: World, c: Channel, a: Action, failing: Failing)
    requires Allowed(w, a) && Fits(c, a) && ChannelMatches(w.phone.state, c) && TunnelMatches(ViewOf(w.phone))
    requires RequestOf(w.phone.state).Some?
    ensures var id, after := RequestOf(w.phone.state).value, Step(w, a, failing).phone;
            RequestOf(after.state) == Some(id) || EndCalls(after.log) == EndCalls(w.phone.log) + [id] || id in GivenUp(w.phone.state, a)
  {
    hide Tunnels, Shown, EndCalls, ToVPNState, DisconnectView, UpdateView, Step;
    var v := ViewOf(w.phone);
    SteppedView(w, a, failing);
    DisconnectEnds(v);
    if a.Update? {
      UpdateEnds(v, a);
      NextRequest(w.phone.state, a);
    }
  }

  // The messages that fit are about the request under way.
  lemma NextRequest(state: OrchestratorState, a: Action)
    requires a.Update? && Provisioning(state) && a.status.requestId == state.session.requestId
    ensures var next := NewStateFromUpdate(state, a.location, a.status);
            next.Some? && !a.status.Failed? ==> RequestOf(next.value) == RequestOf(state)
    ensures RequestThen(state, a) == RequestOf(state)
  {
  }

  lemma AccountedStep(w: World, c: Channel, a: Action, failing: Failing, given: set<S.Uuid>)
    requires Allowed(w, a) && Fits(c, a) && ChannelMatches(w.phone.state, c) && TunnelMatches(ViewOf(w.phone))
    requires Accounted(w, given)
    ensures Accounted(Step(w, a, failing), given + GivenUp(w.phone.state, a))
  {
    hide Tunnels, Shown, EndCalls, ToVPNState, Times, Step, Fits, ChannelMatches, TunnelMatches, GivenUp, RequestOf, Expected;
    var next := Step(w, a, failing);
    EndCallsExact(w, a, failing);
    if RequestOf(w.phone.state).Some? {
      RequestFate(w, c, a, failing);
    }
    forall id: S.Uuid, location | Times(NewSession(id, location), next.phone.log) > 0
      ensures RequestOf(next.phone.state) == Some(id) || id in EndCalls(next.phone.log) || id in given + GivenUp(w.phone.state, a)
    {
      OutputsExact(NewSession(id, location), w, a, failing);
      RequestMade(w, a, failing, id, location);
    }
  }

  // A request made is under way at once.
  lemma RequestMade(w: World, a: Action, failing: Failing, id: S.Uuid, location: S.Location)
    requires Allowed(w, a)
    ensures Expected(NewSession(id, location), w, a, Step(w, a, failing).phone) > 0 ==> RequestOf(Step(w, a, failing).phone.state) == Some(id)
  {
    hide Tunnels, Shown, EndCalls, ToVPNState;
    SteppedView(w, a, failing);
  }

  lemma {:induction false} AccountedRun(w: World, c: Channel, moves: seq<Move>, given: set<S.Uuid>)
    requires AllowedRun(w, moves) && Orderly(w, c, moves)
    requires ChannelMatches(w.phone.state, c) && Inv(CutsTunnel, w) && Inv(Foreign, w) && Accounted(w, given)
    ensures Accounted(Run(w, moves), given + Given(w, moves))
    decreases |moves|
  {
    hide Step, Allowed, ChannelMatches, NextChannel, Fits, StepView, Tunnels, Shown, EndCalls, TunnelMatches, EndsOnce, Accounted, GivenUp, Does;
    if moves == [] {
      assert given + {} == given;
    } else {
      var a, failing := moves[0].action, moves[0].failing;
      AccountedStep(w, c, a, failing, given);
      OrderlyStep(w, c, a, failing);
      var now := given + GivenUp(w.phone.state, a);
      AccountedRun(Step(w, a, failing), NextChannel(c, w.phone.state, a), moves[1..], now);
      assert now + Given(Step(w, a, failing), moves[1..]) == given + Given(w, moves);
    }
  }

  // What an orderly run needs to go on.
  lemma OrderlyStep(w: World, c: Channel, a: Action, failing: Failing)
    requires Allowed(w, a) && Fits(c, a) && ChannelMatches(w.phone.state, c) && Inv(CutsTunnel, w) && Inv(Foreign, w)
    ensures Inv(CutsTunnel, Step(w, a, failing)) && Inv(Foreign, Step(w, a, failing))
    ensures ChannelMatches(Step(w, a, failing).phone.state, NextChannel(c, w.phone.state, a))
  {
    hide Step, Allowed, ChannelMatches, NextChannel, Fits, StepView, Tunnels, Shown, EndCalls, TunnelMatches, EndsOnce, Does;
    FittingIsHarmless(CutsTunnel, w, c, a);
    FittingIsHarmless(Foreign, w, c, a);
    InvStep(CutsTunnel, w, a, failing);
    InvStep(Foreign, w, a, failing);
    ChannelStep(w, c, a);
    SteppedView(w, a, failing);
  }

  // In every orderly run of a phone each request made is the one under way, or has been ended on the server, or was
  // refused or reported failed by it.
  lemma NoneAbandoned(moves: seq<Move>, id: S.Uuid, location: S.Location)
    requires AllowedRun(START, moves) && Orderly(START, Closed, moves)
    ensures var p := Run(START, moves).phone;
            Times(NewSession(id, location), p.log) > 0
            ==> RequestOf(p.state) == Some(id) || id in EndCalls(p.log) || id in Given(START, moves)
  {
    hide AllowedRun, Orderly, Run, Given;
    StartInv(CutsTunnel);
    StartInv(Foreign);
    NothingSaid();
    AccountedRun(START, Closed, moves, {});
    assert {} + Given(START, moves) == Given(START, moves);
  }

  lemma NothingSaid()
    ensures forall o :: Times(o, []) == 0
  {
  }

  /* ---------- what the tunnel is given ---------- */

  // The interface of a session is the one granted to its request.
  ghost predicate GrantedBy(past: seq<Move>, i: nat, id: S.Uuid, interFace: Interface) {
    i < |past| && past[i].action.Response? && past[i].action.result.Ok?
    && past[i].action.result.value.0.requestId == id && past[i].action.result.value.1 == interFace
  }

  // The configuration of a connected session is made of that and of the server reported ready to the same request.
  ghost predicate ConfiguredBy(past: seq<Move>, j: nat, id: S.Uuid, interFace: Interface, config: Config) {
    j < |past| && past[j].action.Update? && past[j].action.status.ServerReady?
    && past[j].action.status.requestId == id && IsConfig(config, interFace, past[j].action.status.details)
  }

  ghost predicate Backed(past: seq<Move>, p: Phone) {
    && (Provisioning(p.state) ==> exists i: nat :: GrantedBy(past, i, p.state.session.requestId, p.state.interFace))
    && (p.state.Connected? ==>
          && (exists i: nat :: GrantedBy(past, i, p.state.session.requestId, p.state.config.interFace))
          && (exists j: nat :: ConfiguredBy(past, j, p.state.session.requestId, p.state.config.interFace, p.state.config))
          && Times(TurnedOn(p.handle, p.state.config), p.log) > 0)
  }

  lemma Remembered(past: seq<Move>, m: Move)
    ensures forall i: nat, id, interFace :: GrantedBy(past, i, id, interFace) ==> GrantedBy(past + [m], i, id, interFace)
    ensures forall j: nat, id, interFace, config ::
              ConfiguredBy(past, j, id, interFace, config) ==> ConfiguredBy(past + [m], j, id, interFace, config)
  {
  }

  lemma BackedStep(past: seq<Move>, w: World, c: Channel, m: Move)
    requires Allowed(w, m.action) && Fits(c, m.action) && ChannelMatches(w.phone.state, c) && TunnelMatches(ViewOf(w.phone))
    requires Backed(past, w.phone)
    ensures Backed(past + [m], Step(w, m.action, m.failing).phone)
  {
    hide Tunnels, Shown, EndCalls, Times, Step, TunnelMatches, GrantedBy, ConfiguredBy, IsConfig;
    var a, now := m.action, past + [m];
    var p, after := w.phone, Step(w, m.action, m.failing).phone;
    Remembered(past, m);
    if Provisioning(after.state) {
      ProvisioningKeeps(w, c, a, m.failing);
      if a.Response? && a.result.Ok? {
        JustGranted(past, m);
      } else {
        var i: nat :| GrantedBy(past, i, p.state.session.requestId, p.state.interFace);
        assert GrantedBy(now, i, after.state.session.requestId, after.state.interFace);
      }
    } else if after.state.Connected? {
      if p.state.Connected? {
        ConnectedKeeps(w, c, a, m.failing);
        OutputsExact(TurnedOn(p.handle, p.state.config), w, a, m.failing);
        var i: nat :| GrantedBy(past, i, p.state.session.requestId, p.state.config.interFace);
        var j: nat :| ConfiguredBy(past, j, p.state.session.requestId, p.state.config.interFace, p.state.config);
        assert GrantedBy(now, i, p.state.session.requestId, p.state.config.interFace);
        assert ConfiguredBy(now, j, p.state.session.requestId, p.state.config.interFace, p.state.config);
      } else {
        NowConnected(past, w, c, m);
      }
    }
  }

  // A session that waits for its server keeps its request and its interface, or has just been granted.
  lemma ProvisioningKeeps(w: World, c: Channel, a: Action, failing: Failing)
    requires Allowed(w, a) && Fits(c, a) && ChannelMatches(w.phone.state, c) && TunnelMatches(ViewOf(w.phone))
    requires Provisioning(Step(w, a, failing).phone.state)
    ensures var before, after := w.phone.state, Step(w, a, failing).phone.state;
            if a.Response? && a.result.Ok?
            then after.session.requestId == a.result.value.0.requestId && after.interFace == a.result.value.1
            else Provisioning(before) && after.session.requestId == before.session.requestId && after.interFace == before.interFace
  {
    hide Tunnels, Shown, EndCalls, ToVPNState, Step, DisconnectView, UpdateView;
    var v := ViewOf(w.phone);
    SteppedView(w, a, failing);
    DisconnectEnds(v);
    if a.Update? {
      UpdateEnds(v, a);
      UpdateState(v, a);
    }
  }

  // Where an update leads to a session that waits for its server.
  lemma UpdateState(v: View, a: Action)
    requires a.Update? && Provisioning(UpdateView(v, a.location, a.status, a.device).state)
    ensures var before, after := v.state, UpdateView(v, a.location, a.status, a.device).state;
            && !Readies(before, a) && Provisioning(before) && after.interFace == before.interFace
            && (a.status.requestId == before.session.requestId ==> after.session.requestId == before.session.requestId)
  {
    hide ToVPNState, TunnelsWith;
  }

  lemma ConnectedKeeps(w: World, c: Channel, a: Action, failing: Failing)
    requires Allowed(w, a) && Fits(c, a) && ChannelMatches(w.phone.state, c) && TunnelMatches(ViewOf(w.phone))
    requires w.phone.state.Connected? && Step(w, a, failing).phone.state.Connected?
    ensures Step(w, a, failing).phone.state == w.phone.state && Step(w, a, failing).phone.handle == w.phone.handle
  {
    hide Tunnels, Shown, EndCalls, ToVPNState, Step;
    SteppedView(w, a, failing);
  }

  lemma JustGranted(past: seq<Move>, m: Move)
    requires m.action.Response? && m.action.result.Ok?
    ensures GrantedBy(past + [m], |past|, m.action.result.value.0.requestId, m.action.result.value.1)
  {
  }

  lemma NowConnected(past: seq<Move>, w: World, c: Channel, m: Move)
    requires Allowed(w, m.action) && Fits(c, m.action) && ChannelMatches(w.phone.state, c) && TunnelMatches(ViewOf(w.phone))
    requires Backed(past, w.phone) && !w.phone.state.Connected? && Step(w, m.action, m.failing).phone.state.Connected?
    ensures Backed(past + [m], Step(w, m.action, m.failing).phone)
  {
    hide Tunnels, Shown, EndCalls, Times, Step, TunnelMatches, GrantedBy, ToVPNState;
    var a, p, after := m.action, w.phone, Step(w, m.action, m.failing).phone;
    ConnectsExact(w, a, m.failing);
    Remembered(past, m);
    WaitsForServer(w);
    var i: nat :| GrantedBy(past, i, p.state.session.requestId, p.state.interFace);
    assert GrantedBy(past + [m], i, p.state.session.requestId, p.state.interFace);
    assert ConfiguredBy(past + [m], |past|, a.status.requestId, p.state.interFace, after.state.config);
    OutputsExact(TurnedOn(after.handle, after.state.config), w, a, m.failing);
  }

  lemma WaitsForServer(w: World)
    requires TunnelMatches(ViewOf(w.phone))
    ensures !w.phone.state.ServerReady?
  {
  }

  lemma {:induction false} BackedRun(past: seq<Move>, w: World, c: Channel, moves: seq<Move>)
    requires AllowedRun(w, moves) && Orderly(w, c, moves)
    requires ChannelMatches(w.phone.state, c) && Inv(CutsTunnel, w) && Inv(Foreign, w) && Backed(past, w.phone)
    ensures Backed(past + moves, Run(w, moves).phone)
    decreases |moves|
  {
    hide Step, Allowed, ChannelMatches, NextChannel, Fits, StepView, Tunnels, Shown, EndCalls, TunnelMatches, EndsOnce, Backed, Does;
    if moves == [] {
      assert past + [] == past;
    } else {
      var a, failing := moves[0].action, moves[0].failing;
      BackedStep(past, w, c, moves[0]);
      OrderlyStep(w, c, a, failing);
      BackedRun(past + [moves[0]], Step(w, a, failing), NextChannel(c, w.phone.state, a), moves[1..]);
      assert past + [moves[0]] + moves[1..] == past + moves;
    }
  }

  // In every orderly run of a phone a connected session has the interface that was granted to its request and the
  // server that was reported ready to it, and its tunnel was turned on with these.
  lemma TunnelIsConfigured(moves: seq<Move>)
    requires AllowedRun(START, moves) && Orderly(START, Closed, moves) && Run(START, moves).phone.state.Connected?
    ensures var p := Run(START, moves).phone;
            var id, interFace := p.state.session.requestId, p.state.config.interFace;
            && (exists i: nat :: GrantedBy(moves, i, id, interFace))
            && (exists j: nat :: ConfiguredBy(moves, j, id, interFace, p.state.config))
            && Times(TurnedOn(p.handle, p.state.config), p.log) > 0
  {
    hide AllowedRun, Orderly, Run, GrantedBy, ConfiguredBy, Times;
    StartInv(CutsTunnel);
    StartInv(Foreign);
    BackedRun([], START, Closed, moves);
    assert [] + moves == moves;
  }

  /* ---------- listeners ---------- */

  // The states that a listener was sent.
  function Heard(log: seq<Output>, id: int): seq<VPNState> {
    if log == [] then []
    else Heard(log[..|log| - 1], id) + if log[|log| - 1].Sent? && id in log[|log| - 1].to then ShownBy(log[|log| - 1]) else []
  }

  lemma HeardSaid(p: Phone, o: Output, id: int)
    ensures Heard(Say(p, o).log, id) == Heard(p.log, id) + if o.Sent? && id in o.to then ShownBy(o) else []
  {
    hide ShownBy;
    assert (p.log + [o])[..|p.log|] == p.log;
  }

  // From one phone to a later one a listener has stayed and has been sent each state that was shown.
  ghost predicate InTouch(p: Phone, q: Phone, id: int) {
    id in q.listeners && exists more :: Shown(q.log) == Shown(p.log) + more && Heard(q.log, id) == Heard(p.log, id) + more
  }

  lemma InTouchStill(p: Phone, id: int)
    requires id in p.listeners
    ensures InTouch(p, p, id)
  {
    hide Shown, Heard;
    assert Shown(p.log) == Shown(p.log) + [] && Heard(p.log, id) == Heard(p.log, id) + [];
  }

  lemma InTouchLater(p: Phone, q: Phone, r: Phone, id: int)
    requires InTouch(p, q, id) && InTouch(q, r, id)
    ensures InTouch(p, r, id)
  {
    hide Shown, Heard;
    var a :| Shown(q.log) == Shown(p.log) + a && Heard(q.log, id) == Heard(p.log, id) + a;
    var b :| Shown(r.log) == Shown(q.log) + b && Heard(r.log, id) == Heard(q.log, id) + b;
    assert Shown(p.log) + a + b == Shown(p.log) + (a + b);
    assert Heard(p.log, id) + a + b == Heard(p.log, id) + (a + b);
  }

  ghost predicate Reachable(failing: Failing, id: int) {
    forall n :: id !in failing(n)
  }

  lemma TouchedBySay(p: Phone, o: Output, id: int)
    requires id in p.listeners && !o.Sent?
    ensures InTouch(p, Say(p, o), id)
  {
    hide Tunnels, Shown, EndCalls, Heard, TunnelsWith, EndedBy;
    Said(p, o);
    HeardSaid(p, o, id);
    assert Shown(p.log) + [] == Shown(p.log) && Heard(p.log, id) + [] == Heard(p.log, id);
  }

  lemma TouchedByDispatch(p: Phone, e: Event, failing: Failing, id: int)
    requires id in p.listeners && Reachable(failing, id)
    ensures InTouch(p, Dispatch(p, e, failing), id)
  {
    hide Tunnels, Shown, EndCalls, Heard, TunnelsWith, EndedBy;
    Said(p, Sent(e, p.listeners));
    HeardSaid(p, Sent(e, p.listeners), id);
  }

  lemma TouchedByEnter(p: Phone, state: OrchestratorState, failing: Failing, id: int)
    requires id in p.listeners && Reachable(failing, id)
    ensures InTouch(p, Enter(p, state, failing), id)
  {
    hide Dispatch, Shown, Heard;
    TouchedByDispatch(p.(state := state), State(ToVPNState(state)), failing, id);
  }

  lemma TouchedByTurnOff(p: Phone, failing: Failing, id: int)
    requires id in p.listeners && Reachable(failing, id)
    ensures InTouch(p, AfterTurnOff(p, failing), id)
  {
    hide Enter, Say, Shown, Heard, Reachable;
    var off := if p.handle != -1 then Say(p, TurnedOff(p.handle)).(handle := -1) else p;
    SaidOnce(StopService, p, TurnedOff(p.handle));
    TouchedBySay(p, TurnedOff(p.handle), id);
    InTouchStill(p, id);
    TouchedByEnter(off, OrchestratorState.Disconnected, failing, id);
    InTouchLater(p, off, AfterTurnOff(p, failing), id);
  }

  lemma TouchedByDisconnect(p: Phone, reason: string, failing: Failing, id: int)
    requires id in p.listeners && Reachable(failing, id)
    ensures InTouch(p, AfterDisconnect(p, reason, failing), id)
  {
    hide Enter, Say, AfterTurnOff, Reachable, InTouch;
    InTouchStill(p, id);
    if !p.state.Disconnected? {
      var t := TransitionOnDisconnect(p.state);
      var p0 := Say(p, CancelSession);
      TouchedBySay(p, CancelSession, id);
      Stays(p, p0, id);
      var p1 := Enter(p0, t.state, failing);
      TouchedByEnter(p0, t.state, failing, id);
      InTouchLater(p, p0, p1, id);
      Stays(p, p1, id);
      var p2 := if t.requestId.Some? then Say(p1, EndSession(t.requestId.value, reason)) else p1;
      if t.requestId.Some? {
        TouchedBySay(p1, EndSession(t.requestId.value, reason), id);
        InTouchLater(p, p1, p2, id);
      }
      Stays(p, p2, id);
      var p3 := if t.turnOff then AfterTurnOff(p2, failing) else p2;
      if t.turnOff {
        TouchedByTurnOff(p2, failing, id);
        InTouchLater(p, p2, p3, id);
      }
      Stays(p, p3, id);
      TouchedBySay(p3, StopService, id);
      InTouchStill(p3, id);
      InTouchLater(p, p3, StopIfIdle(p3), id);
    }
  }

  lemma Stays(p: Phone, q: Phone, id: int)
    requires InTouch(p, q, id)
    ensures id in q.listeners
  {
  }

  lemma TouchedByNoPermission(p: Phone, failing: Failing, id: int)
    requires id in p.listeners && Reachable(failing, id)
    ensures InTouch(p, NoPermission(p, failing), id)
  {
    hide Dispatch, AfterDisconnect, Reachable, InTouch;
    var p1 := Dispatch(p, Notification("No VPN permission"), failing);
    TouchedByDispatch(p, Notification("No VPN permission"), failing, id);
    Stays(p, p1, id);
    TouchedByDisconnect(p1, "no vpn perms", failing, id);
    InTouchLater(p, p1, NoPermission(p, failing), id);
  }

  lemma TouchedByConnect(p: Phone, location: S.Location, permitted: bool, requestId: S.Uuid, failing: Failing, id: int)
    requires id in p.listeners && Reachable(failing, id)
    ensures InTouch(p, AfterConnect(p, location, permitted, requestId, failing), id)
  {
    hide Dispatch, Enter, Say, Reachable, InTouch;
    if !p.state.Disconnected? || !permitted {
      TouchedByDispatch(p, Notification("VPN session is already in progress"), failing, id);
      TouchedByDispatch(p, Notification("No VPN permission"), failing, id);
    } else {
      var p1 := Say(p, StartForeground);
      TouchedBySay(p, StartForeground, id);
      Stays(p, p1, id);
      var p2 := Enter(p1, OrchestratorState.Requesting(requestId, location), failing);
      TouchedByEnter(p1, OrchestratorState.Requesting(requestId, location), failing, id);
      InTouchLater(p, p1, p2, id);
      Stays(p, p2, id);
      TouchedBySay(p2, NewSession(requestId, location), id);
      InTouchLater(p, p2, Say(p2, NewSession(requestId, location)), id);
    }
  }

  lemma TouchedByResponse(p: Phone, location: S.Location, result: Result<(S.SessionInfo, Interface)>, failing: Failing, id: int)
    requires id in p.listeners && Reachable(failing, id)
    ensures InTouch(p, AfterResponse(p, location, result, failing), id)
  {
    hide Dispatch, Enter, Reachable, InTouch;
    InTouchStill(p, id);
    if result.Ok? {
      TouchedByEnter(p, OrchestratorState.Accepted(location, result.value.0, result.value.1), failing, id);
    } else {
      var p1 := Dispatch(p, Notification(result.message), failing);
      TouchedByDispatch(p, Notification(result.message), failing, id);
      Stays(p, p1, id);
      TouchedByEnter(p1, OrchestratorState.Disconnected, failing, id);
      InTouchLater(p, p1, Enter(p1, OrchestratorState.Disconnected, failing), id);
    }
  }

  lemma TouchedByTurnOn(p: Phone, device: Device, failing: Failing, id: int)
    requires p.state.ServerReady? && id in p.listeners && Reachable(failing, id)
    ensures InTouch(p, AfterTurnOn(p, device, failing), id)
  {
    hide Dispatch, Enter, Say, NoPermission, AfterDisconnect, TurnOnError, Reachable, InTouch;
    if !device.permittedToTurnOn {
      TouchedByNoPermission(p, failing, id);
    } else {
      var connecting := ToConnecting(p.state);
      var p1 := Enter(p, connecting, failing);
      TouchedByEnter(p, connecting, failing, id);
      Stays(p, p1, id);
      var on := Say(p1, TurnedOn(device.handle, connecting.config));
      TouchedBySay(p1, TurnedOn(device.handle, connecting.config), id);
      var p2 := if device.established then on.(handle := device.handle) else p1;
      SameTouch(p1, on, p2, device, id);
      InTouchLater(p, p1, p2, id);
      Stays(p, p2, id);
      if !device.established || device.handle < 0 {
        var message := TurnOnError(device);
        var p3 := Dispatch(p2, Notification(message), failing);
        TouchedByDispatch(p2, Notification(message), failing, id);
        InTouchLater(p, p2, p3, id);
        Stays(p, p3, id);
        TouchedByDisconnect(p3, message, failing, id);
        InTouchLater(p, p3, AfterDisconnect(p3, message, failing), id);
      } else {
        TouchedByEnter(p2, ToConnected(connecting, device.now), failing, id);
        InTouchLater(p, p2, Enter(p2, ToConnected(connecting, device.now), failing), id);
      }
    }
  }

  lemma SameTouch(p: Phone, on: Phone, q: Phone, device: Device, id: int)
    requires InTouch(p, on, id) && id in p.listeners && q == if device.established then on.(handle := device.handle) else p
    ensures InTouch(p, q, id)
  {
    hide Shown, Heard;
    InTouchStill(p, id);
  }

  lemma TouchedByUpdate(p: Phone, location: S.Location, status: S.VpnSessionStatus, device: Device, failing: Failing, id: int)
    requires id in p.listeners && Reachable(failing, id)
    ensures InTouch(p, AfterUpdate(p, location, status, device, failing), id)
  {
    hide Dispatch, Enter, NoPermission, AfterTurnOn, NewStateFromUpdate, Reachable, InTouch;
    InTouchStill(p, id);
    if !IsDisconnectingOrDisconnected(p.state) {
      var failed := Notification("Can't provision server. Please try again.");
      var p1 := if status.Failed? then Dispatch(p, failed, failing) else p;
      TouchedByDispatch(p, failed, failing, id);
      Stays(p, p1, id);
      TouchedByNoPermission(p1, failing, id);
      InTouchLater(p, p1, NoPermission(p1, failing), id);
      var next := NewStateFromUpdate(p1.state, location, status);
      if device.permitted && next.Some? {
        var p2 := Enter(p1, next.value, failing);
        TouchedByEnter(p1, next.value, failing, id);
        InTouchLater(p, p1, p2, id);
        Stays(p, p2, id);
        if next.value.ServerReady? {
          EnteredNone(StopService, p1, next.value, failing);
          TouchedByTurnOn(p2, device, failing, id);
          InTouchLater(p, p2, AfterTurnOn(p2, device, failing), id);
        }
      }
    }
  }

  // A listener that can be reached stays, and is sent every state shown to the others, but what a new one is sent alone.
  lemma HearsAllStep(w: World, a: Action, failing: Failing, id: int)
    requires Allowed(w, a) && id in w.phone.listeners && Reachable(failing, id)
    requires !a.Register? && a != Deregister(id)
    ensures InTouch(w.phone, Step(w, a, failing).phone, id)
  {
    hide AfterConnect, AfterResponse, AfterUpdate, AfterDisconnect, Say, Reachable, InTouch;
    var p := w.phone;
    match a
    case Connect(location, permitted, requestId) => TouchedByConnect(p, location, permitted, requestId, failing, id);
    case Response(location, result) => TouchedByResponse(p, location, result, failing, id);
    case Update(location, status, device) => TouchedByUpdate(p, location, status, device, failing, id);
    case Disconnect(reason) => TouchedByDisconnect(p, reason, failing, id);
    case Cleanup(reason) =>
      var p1 := Say(p, DropMessages);
      TouchedBySay(p, DropMessages, id);
      Stays(p, p1, id);
      TouchedByDisconnect(p1, reason, failing, id);
      InTouchLater(p, p1, AfterCleanup(p, reason, failing), id);
    case Deregister(other) =>
      var p1 := p.(listeners := p.listeners - {other});
      LeftAlone(p, p1, id);
      InTouchStill(p1, id);
      TouchedBySay(p1, StopService, id);
      InTouchLater(p, p1, AfterDeregister(p, other), id);
  }

  lemma LeftAlone(p: Phone, q: Phone, id: int)
    requires id in p.listeners && id in q.listeners && q.log == p.log
    ensures InTouch(p, q, id)
  {
    hide Shown, Heard;
    InTouchStill(p, id);
  }

  // Over any run in which nobody else registers.
  lemma {:induction false} HearsAll(w: World, moves: seq<Move>, id: int)
    requires AllowedRun(w, moves) && id in w.phone.listeners
    requires forall k :: 0 <= k < |moves|
               ==> Reachable(moves[k].failing, id) && !moves[k].action.Register? && moves[k].action != Deregister(id)
    ensures InTouch(w.phone, Run(w, moves).phone, id)
    decreases |moves|
  {
    hide Step, Allowed, Reachable, InTouch;
    InTouchStill(w.phone, id);
    if moves != [] {
      var next := Step(w, moves[0].action, moves[0].failing);
      HearsAllStep(w, moves[0].action, moves[0].failing, id);
      Stays(w.phone, next.phone, id);
      HearsAll(next, moves[1..], id);
      InTouchLater(w.phone, next.phone, Run(w, moves).phone, id);
    }
  }

  // A new listener has a new id, hears of the state as it is and then of its id, and stays exactly if it got both.
  lemma RegisterExact(p: Phone, failing: Failing)
    ensures var after, id, first := AfterRegister(p, failing), p.lastId + 1, |p.log|;
            && after.state == p.state && after.handle == p.handle && after.lastId == id
            && p.log < after.log && after.log[first] == Sent(State(ToVPNState(p.state)), {id})
            && (id in after.listeners <==> id !in failing(first) && id !in failing(first + 1))
            && after.listeners - {id} == p.listeners - {id}
            && (id in after.listeners ==> after.log == p.log + [Sent(State(ToVPNState(p.state)), {id}), Sent(ListenerRegistered(id), {id})])
  {
  }

  // A listener that a message cannot reach is forgotten.
  lemma UnreachableForgotten(p: Phone, e: Event, failing: Failing, id: int)
    ensures id in Dispatch(p, e, failing).listeners <==> id in p.listeners && id !in failing(|p.log|)
    ensures Dispatch(p, e, failing).log == p.log + [Sent(e, p.listeners)]
  {
  }
}
