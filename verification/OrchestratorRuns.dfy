/**
  Every run of the Android orchestrator: requests of the user interface, messages of sessions and the end of the
  service, each handled to its end before the next. Messages may come at any time, also those of a session that has
  been cancelled; what has to be known of them for each result is given exactly.
 */
module OrchestratorRuns {
  import opened Options
  import opened VpnState
  import opened Orchestrator
  import S = VpnSession

  datatype World = World(phone: Phone, minted: set<S.Uuid>)

  datatype Action =
    | Connect(location: S.Location, permitted: bool, requestId: S.Uuid)
    | Response(location: S.Location, result: Result<(S.SessionInfo, Interface)>)
    | Update(location: S.Location, status: S.VpnSessionStatus, device: Device)
    | Disconnect(reason: string)
    | Cleanup(reason: string)
    | Register
    | Deregister(id: int)

  const START := World(Phone(OrchestratorState.Disconnected, -1, {}, 0, []), {})

  // Request ids are new.
  predicate Allowed(w: World, a: Action) {
    a.Connect? ==> a.requestId !in w.minted
  }

  function Step(w: World, a: Action, failing: Failing): World
    requires Allowed(w, a)
  {
    match a
    case Connect(location, permitted, id) =>
      World(AfterConnect(w.phone, location, permitted, id, failing), w.minted + {id})
    case Response(location, result) => w.(phone := AfterResponse(w.phone, location, result, failing))
    case Update(location, status, device) => w.(phone := AfterUpdate(w.phone, location, status, device, failing))
    case Disconnect(reason) => w.(phone := AfterDisconnect(w.phone, reason, failing))
    case Cleanup(reason) => w.(phone := AfterCleanup(w.phone, reason, failing))
    case Register => w.(phone := AfterRegister(w.phone, failing))
    case Deregister(id) => w.(phone := AfterDeregister(w.phone, id))
  }

  datatype Move = Move(action: Action, failing: Failing)

  ghost predicate AllowedRun(w: World, moves: seq<Move>)
    decreases |moves|
  {
    moves == [] || (Allowed(w, moves[0].action) && AllowedRun(Step(w, moves[0].action, moves[0].failing), moves[1..]))
  }

  ghost function Run(w: World, moves: seq<Move>): World
    requires AllowedRun(w, moves)
    decreases |moves|
  {
    if moves == [] then w else Run(Step(w, moves[0].action, moves[0].failing), moves[1..])
  }

  // All that the properties below are about.
  datatype View = View(state: OrchestratorState, handle: int, tunnels: set<int>, shown: seq<VPNState>, ended: seq<S.Uuid>)

  function ViewOf(p: Phone): View {
    View(p.state, p.handle, Tunnels(p.log), Shown(p.log), EndCalls(p.log))
  }

  function Show(v: View, state: OrchestratorState): View {
    v.(state := state, shown := v.shown + [ToVPNState(state)])
  }

  function Off(v: View): View {
    v.(handle := -1, tunnels := if v.handle != -1 then v.tunnels - {v.handle} else v.tunnels)
  }

  function End(v: View, id: S.Uuid): View {
    v.(ended := v.ended + [id])
  }

  lemma SayView(p: Phone, o: Output)
    ensures ViewOf(Say(p, o)) == ViewOf(p).(tunnels := TunnelsWith(Tunnels(p.log), o),
                                            shown := Shown(p.log) + ShownBy(o), ended := EndCalls(p.log) + EndedBy(o))
  {
    hide Tunnels, Shown, EndCalls, TunnelsWith, ShownBy, EndedBy;
    Said(p, o);
  }

  predicate Plain(o: Output) {
    o.StartForeground? || o.StopService? || o.NewSession? || o.CancelSession? || o.DropMessages?
  }

  lemma PlainView(p: Phone, o: Output)
    requires Plain(o)
    ensures ViewOf(Say(p, o)) == ViewOf(p)
  {
    hide Tunnels, Shown, EndCalls;
    SayView(p, o);
    assert Shown(p.log) + [] == Shown(p.log) && EndCalls(p.log) + [] == EndCalls(p.log);
  }

  lemma EndView(p: Phone, id: S.Uuid, reason: string)
    ensures ViewOf(Say(p, EndSession(id, reason))) == End(ViewOf(p), id)
  {
    hide Tunnels, Shown, EndCalls;
    SayView(p, EndSession(id, reason));
    assert Shown(p.log) + [] == Shown(p.log);
  }

  lemma TunnelView(p: Phone, o: Output)
    requires o.TurnedOn? || o.TurnedOff?
    ensures ViewOf(Say(p, o)) == ViewOf(p).(tunnels := TunnelsWith(Tunnels(p.log), o))
  {
    hide Tunnels, Shown, EndCalls;
    SayView(p, o);
    assert Shown(p.log) + [] == Shown(p.log) && EndCalls(p.log) + [] == EndCalls(p.log);
  }

  // A message to the listeners other than a state leaves the view alone.
  lemma MessageView(p: Phone, e: Event, failing: Failing)
    requires !e.State?
    ensures ViewOf(Dispatch(p, e, failing)) == ViewOf(p)
  {
    hide Tunnels, Shown, EndCalls;
    SayView(p, Sent(e, p.listeners));
    assert Shown(p.log) + [] == Shown(p.log) && EndCalls(p.log) + [] == EndCalls(p.log);
  }

  lemma EnterView(p: Phone, state: OrchestratorState, failing: Failing)
    ensures ViewOf(Enter(p, state, failing)) == Show(ViewOf(p), state)
  {
    hide Tunnels, Shown, EndCalls;
    SayView(p.(state := state), Sent(State(ToVPNState(state)), p.listeners));
    assert EndCalls(p.log) + [] == EndCalls(p.log);
  }

  lemma TurnOffView(p: Phone, failing: Failing)
    ensures ViewOf(AfterTurnOff(p, failing)) == Show(Off(ViewOf(p)), OrchestratorState.Disconnected)
  {
    hide Tunnels, Shown, EndCalls, Enter, Say;
    var off := if p.handle != -1 then Say(p, TurnedOff(p.handle)).(handle := -1) else p;
    TunnelView(p, TurnedOff(p.handle));
    EnterView(off, OrchestratorState.Disconnected, failing);
  }

  function DisconnectView(v: View): View {
    var t := TransitionOnDisconnect(v.state);
    if v.state.Disconnected? then v
    else
      var next := Show(v, t.state);
      var next := if t.requestId.Some? then End(next, t.requestId.value) else next;
      if t.turnOff then Show(Off(next), OrchestratorState.Disconnected) else next
  }

  lemma DisconnectedView(p: Phone, reason: string, failing: Failing)
    ensures ViewOf(AfterDisconnect(p, reason, failing)) == DisconnectView(ViewOf(p))
  {
    hide Tunnels, Shown, EndCalls, Enter, AfterTurnOff, ToVPNState, TransitionOnDisconnect, Off, Say, Show, End;
    if !p.state.Disconnected? {
      var t := TransitionOnDisconnect(p.state);
      var p0 := Say(p, CancelSession);
      PlainView(p, CancelSession);
      EnterView(p0, t.state, failing);
      var p1 := Enter(p0, t.state, failing);
      var p2 := if t.requestId.Some? then Say(p1, EndSession(t.requestId.value, reason)) else p1;
      if t.requestId.Some? {
        EndView(p1, t.requestId.value, reason);
      }
      TurnOffView(p2, failing);
      var p3 := if t.turnOff then AfterTurnOff(p2, failing) else p2;
      PlainView(p3, StopService);
    }
  }

  lemma NoPermissionView(p: Phone, failing: Failing)
    ensures ViewOf(NoPermission(p, failing)) == DisconnectView(ViewOf(p))
  {
    hide Tunnels, Shown, EndCalls, Dispatch, AfterDisconnect, DisconnectView;
    MessageView(p, Notification("No VPN permission"), failing);
    DisconnectedView(Dispatch(p, Notification("No VPN permission"), failing), "no vpn perms", failing);
  }

  function TurnOnView(v: View, device: Device): View
    requires v.state.ServerReady?
  {
    if !device.permittedToTurnOn then DisconnectView(v)
    else
      var next := Show(v, ToConnecting(v.state));
      var next := if device.established
                  then next.(handle := device.handle, tunnels := TunnelsWith(v.tunnels, TurnedOn(device.handle, v.state.config))) else next;
      if !device.established || device.handle < 0 then DisconnectView(next)
      else Show(next, ToConnected(ToConnecting(v.state), device.now))
  }

  lemma TurnedOnView(p: Phone, device: Device, failing: Failing)
    requires p.state.ServerReady?
    ensures ViewOf(AfterTurnOn(p, device, failing)) == TurnOnView(ViewOf(p), device)
  {
    hide Tunnels, Shown, EndCalls, Enter, ToVPNState, Say, NoPermission, Dispatch, AfterDisconnect, DisconnectView, Show, TunnelsWith, TurnOnError;
    if !device.permittedToTurnOn {
      NoPermissionView(p, failing);
    } else {
      var connecting := ToConnecting(p.state);
      var p1 := Enter(p, connecting, failing);
      EnterView(p, connecting, failing);
      var p2 := if device.established then Say(p1, TurnedOn(device.handle, p.state.config)).(handle := device.handle) else p1;
      TunnelView(p1, TurnedOn(device.handle, p.state.config));
      ShowKeepsTunnels(p, connecting);
      if !device.established || device.handle < 0 {
        var message := TurnOnError(device);
        MessageView(p2, Notification(message), failing);
        DisconnectedView(Dispatch(p2, Notification(message), failing), message, failing);
      } else {
        EnterView(p2, ToConnected(connecting, device.now), failing);
      }
    }
  }

  lemma ShowKeepsTunnels(p: Phone, state: OrchestratorState)
    ensures Show(ViewOf(p), state).tunnels == Tunnels(p.log)
  {
  }

  function UpdateView(v: View, location: S.Location, status: S.VpnSessionStatus, device: Device): View {
    var next := NewStateFromUpdate(v.state, location, status);
    if IsDisconnectingOrDisconnected(v.state) then v
    else if !device.permitted then DisconnectView(v)
    else if next.None? then v
    else if next.value.ServerReady? then TurnOnView(Show(v, next.value), device)
    else Show(v, next.value)
  }

  lemma UpdatedView(p: Phone, location: S.Location, status: S.VpnSessionStatus, device: Device, failing: Failing)
    ensures ViewOf(AfterUpdate(p, location, status, device, failing)) == UpdateView(ViewOf(p), location, status, device)
  {
    hide Tunnels, Shown, EndCalls, Enter, ToVPNState, Say, NoPermission, Dispatch, AfterTurnOn, DisconnectView, TurnOnView, NewStateFromUpdate;
    if !IsDisconnectingOrDisconnected(p.state) {
      var failed := Notification("Can't provision server. Please try again.");
      var p1 := if status.Failed? then Dispatch(p, failed, failing) else p;
      MessageView(p, failed, failing);
      assert ViewOf(p1) == ViewOf(p);
      NoPermissionView(p1, failing);
      var next := NewStateFromUpdate(p1.state, location, status);
      if device.permitted && next.Some? {
        EnterView(p1, next.value, failing);
        if next.value.ServerReady? {
          TurnedOnView(Enter(p1, next.value, failing), device, failing);
        }
      }
    }
  }

  lemma ConnectedView(p: Phone, location: S.Location, permitted: bool, requestId: S.Uuid, failing: Failing)
    ensures ViewOf(AfterConnect(p, location, permitted, requestId, failing))
         == if p.state.Disconnected? && permitted then Show(ViewOf(p), OrchestratorState.Requesting(requestId, location))
            else ViewOf(p)
  {
    hide Tunnels, Shown, EndCalls, Enter, ToVPNState, Say, Dispatch;
    MessageView(p, Notification("VPN session is already in progress"), failing);
    MessageView(p, Notification("No VPN permission"), failing);
    var p1 := Say(p, StartForeground);
    PlainView(p, StartForeground);
    EnterView(p1, OrchestratorState.Requesting(requestId, location), failing);
    PlainView(Enter(p1, OrchestratorState.Requesting(requestId, location), failing), NewSession(requestId, location));
  }

  lemma RespondedView(p: Phone, location: S.Location, result: Result<(S.SessionInfo, Interface)>, failing: Failing)
    ensures ViewOf(AfterResponse(p, location, result, failing))
         == if IsDisconnectingOrDisconnected(p.state) then ViewOf(p)
            else if result.Ok? then Show(ViewOf(p), OrchestratorState.Accepted(location, result.value.0, result.value.1))
            else Show(ViewOf(p), OrchestratorState.Disconnected)
  {
    hide Tunnels, Shown, EndCalls, Enter, ToVPNState, Say, Dispatch;
    if result.Ok? {
      EnterView(p, OrchestratorState.Accepted(location, result.value.0, result.value.1), failing);
    } else {
      MessageView(p, Notification(result.message), failing);
      EnterView(Dispatch(p, Notification(result.message), failing), OrchestratorState.Disconnected, failing);
    }
  }

  // Listeners come and go without changing anything but that a new one is sent the state.
  lemma RegisteredView(p: Phone, failing: Failing)
    ensures ViewOf(AfterRegister(p, failing)) == Show(ViewOf(p), p.state)
  {
    hide Tunnels, Shown, EndCalls;
    var id := p.lastId + 1;
    var p1 := p.(lastId := id);
    var told := Say(p1, Sent(State(ToVPNState(p.state)), {id}));
    SayView(p1, Sent(State(ToVPNState(p.state)), {id}));
    SayView(told, Sent(ListenerRegistered(id), {id}));
    assert EndCalls(p.log) + [] == EndCalls(p.log) && EndCalls(told.log) + [] == EndCalls(told.log);
    assert Shown(told.log) + [] == Shown(told.log);
  }

  lemma DeregisteredView(p: Phone, id: int)
    ensures ViewOf(AfterDeregister(p, id)) == ViewOf(p)
  {
    hide Tunnels, Shown, EndCalls, Say;
    PlainView(p.(listeners := p.listeners - {id}), StopService);
  }

  // What one action makes of the view.
  function StepView(v: View, a: Action): View {
    match a
    case Connect(location, permitted, id) =>
      if v.state.Disconnected? && permitted then Show(v, OrchestratorState.Requesting(id, location)) else v
    case Response(location, result) =>
      if IsDisconnectingOrDisconnected(v.state) then v
      else if result.Ok? then Show(v, OrchestratorState.Accepted(location, result.value.0, result.value.1))
      else Show(v, OrchestratorState.Disconnected)
    case Update(location, status, device) => UpdateView(v, location, status, device)
    case Disconnect(_) => DisconnectView(v)
    case Cleanup(_) => DisconnectView(v)
    case Register => Show(v, v.state)
    case Deregister(_) => v
  }

  lemma SteppedView(w: World, a: Action, failing: Failing)
    requires Allowed(w, a)
    ensures ViewOf(Step(w, a, failing).phone) == StepView(ViewOf(w.phone), a)
    ensures Step(w, a, failing).minted == w.minted + if a.Connect? then {a.requestId} else {}
  {
    hide AfterConnect, AfterResponse, AfterUpdate, AfterDisconnect, AfterRegister, AfterDeregister;
    hide Tunnels, Shown, EndCalls, UpdateView, DisconnectView, Say, ToVPNState;
    var p := w.phone;
    match a
    case Connect(location, permitted, id) => ConnectedView(p, location, permitted, id, failing);
    case Response(location, result) => RespondedView(p, location, result, failing);
    case Update(location, status, device) => UpdatedView(p, location, status, device, failing);
    case Disconnect(reason) => DisconnectedView(p, reason, failing);
    case Cleanup(reason) =>
      PlainView(p, DropMessages);
      DisconnectedView(Say(p, DropMessages), reason, failing);
    case Register => RegisteredView(p, failing);
    case Deregister(id) => DeregisteredView(p, id);
  }

  // Between handlers no state is one of those that a handler only passes through, and a tunnel is up exactly while
  // the state is Connected: the one whose handle the service holds.
  ghost predicate TunnelMatches(v: View) {
    && !v.state.ServerReady? && !v.state.Connecting? && !v.state.Disconnecting?
    && (if v.state.Connected? then v.handle >= 0 && v.tunnels == {v.handle} else v.handle == -1 && v.tunnels == {})
  }

  function RequestOf(state: OrchestratorState): Option<S.Uuid> {
    if state.Requesting? then Some(state.requestId)
    else if IsDisconnectingOrDisconnected(state) then None
    else Some(state.session.requestId)
  }

  // No session is ended twice, nor one that was never asked for, and the one under way has not been ended.
  ghost predicate EndsOnce(request: Option<S.Uuid>, ended: seq<S.Uuid>, minted: set<S.Uuid>) {
    && (forall i, j :: 0 <= i < j < |ended| ==> ended[i] != ended[j])
    && (forall id :: id in ended ==> id in minted)
    && (request.Some? ==> request.value in minted && request.value !in ended)
  }

  predicate IsDown(state: VPNState) {
    state.Disconnecting? || state.Disconnected?
  }

  // Listeners see the session go forward, or down.
  ghost predicate Climbs(shown: seq<VPNState>) {
    forall i :: 0 < i < |shown| ==> IsDown(shown[i]) || Progress(shown[i - 1]) <= Progress(shown[i])
  }

  ghost predicate ShownMatches(state: OrchestratorState, shown: seq<VPNState>) {
    Climbs(shown) && ToVPNState(state) == if shown == [] then VPNState.Disconnected else shown[|shown| - 1]
  }

  // The three ways in which a message can do harm.
  datatype Fault = CutsTunnel | FallsBack | Foreign

  // The request whose session a message puts in the place of the one under way.
  function Adopted(state: OrchestratorState, a: Action): Option<S.Uuid> {
    if IsDisconnectingOrDisconnected(state) then None
    else
      match a
      case Response(_, result) => if result.Ok? then Some(result.value.0.requestId) else None
      case Update(location, status, device) =>
        var next := NewStateFromUpdate(state, location, status);
        if device.permitted && next.Some? then RequestOf(next.value) else None
      case _ => None
  }

  // A response, or a failure, that is handled while a tunnel is up; an acceptance that is handled past acceptance; a
  // message about a request that was never made or has been ended.
  predicate Does(fault: Fault, w: World, a: Action) {
    var state := w.phone.state;
    match fault
    case CutsTunnel => state.Connected? && (a.Response? || (a.Update? && a.status.Failed? && a.device.permitted))
    case FallsBack =>
      a.Response? && a.result.Ok? && !IsDisconnectingOrDisconnected(state) && Progress(ToVPNState(state)) > 25
    case Foreign =>
      var id := Adopted(state, a);
      id.Some? && (id.value !in w.minted || id.value in EndCalls(w.phone.log))
  }

  // What holds between handlers as long as no message does the harm.
  ghost predicate Inv(fault: Fault, w: World) {
    var v := ViewOf(w.phone);
    match fault
    case CutsTunnel => TunnelMatches(v)
    case FallsBack => ShownMatches(v.state, v.shown)
    case Foreign => EndsOnce(RequestOf(v.state), v.ended, w.minted)
  }

  lemma TunnelStep(w: World, a: Action)
    requires TunnelMatches(ViewOf(w.phone))
    ensures TunnelMatches(StepView(ViewOf(w.phone), a)) <==> !Does(CutsTunnel, w, a)
  {
    hide Tunnels, Shown, EndCalls;
  }

  // An action keeps the session, gives it up, adopts another, starts one, or ends it; the one ended is the adopted one
  // if there is one.
  lemma EndsEffect(w: World, a: Action)
    ensures var before, after := RequestOf(w.phone.state), StepView(ViewOf(w.phone), a);
            var request, adopted := RequestOf(after.state), Adopted(w.phone.state, a);
            var own := if adopted.Some? then adopted else before;
            || (after.ended == EndCalls(w.phone.log)
                && (request == own || (request.None? && adopted.None?) || (a.Connect? && request == Some(a.requestId))))
            || (own.Some? && request.None? && after.ended == EndCalls(w.phone.log) + [own.value])
  {
    hide Tunnels, Shown, EndCalls, ToVPNState, TunnelsWith;
  }

  lemma EndsStep(w: World, a: Action)
    requires Allowed(w, a) && EndsOnce(RequestOf(w.phone.state), EndCalls(w.phone.log), w.minted)
    ensures var after, minted := StepView(ViewOf(w.phone), a), w.minted + if a.Connect? then {a.requestId} else {};
            (EndsOnce(RequestOf(after.state), after.ended, minted) <==> !Does(Foreign, w, a))
  {
    hide Tunnels, Shown, EndCalls, StepView, RequestOf, Adopted;
    EndsEffect(w, a);
    ConnectAdoptsNone(w.phone.state, a);
    var ended, after := EndCalls(w.phone.log), StepView(ViewOf(w.phone), a).ended;
    if |after| > |ended| {
      assert after[|ended|] == after[|after| - 1] && after[..|ended|] == ended;
      assert forall id :: id in after <==> id in ended || id == after[|ended|];
    }
  }

  lemma ConnectAdoptsNone(state: OrchestratorState, a: Action)
    ensures a.Connect? ==> Adopted(state, a).None?
  {
  }

  lemma ShowStep(state: OrchestratorState, shown: seq<VPNState>, next: OrchestratorState)
    requires ShownMatches(state, shown)
    ensures ShownMatches(next, shown + [ToVPNState(next)])
       <==> IsDown(ToVPNState(next)) || Progress(ToVPNState(state)) <= Progress(ToVPNState(next))
  {
    var after := shown + [ToVPNState(next)];
    assert forall i :: 0 <= i < |shown| ==> after[i] == shown[i];
    if shown != [] && Climbs(after) {
      assert IsDown(after[|shown|]) || Progress(after[|shown| - 1]) <= Progress(after[|shown|]);
    }
  }

  lemma DisconnectShown(v: View)
    requires ShownMatches(v.state, v.shown)
    ensures ShownMatches(DisconnectView(v).state, DisconnectView(v).shown)
  {
    hide ShownMatches;
    if !v.state.Disconnected? {
      var t := TransitionOnDisconnect(v.state);
      ShowStep(v.state, v.shown, t.state);
      ShowStep(t.state, v.shown + [ToVPNState(t.state)], OrchestratorState.Disconnected);
    }
  }

  lemma TurnOnShown(v: View, device: Device)
    requires v.state.ServerReady? && ShownMatches(v.state, v.shown)
    ensures ShownMatches(TurnOnView(v, device).state, TurnOnView(v, device).shown)
  {
    hide ShownMatches, DisconnectView, TunnelsWith;
    DisconnectShown(v);
    var connecting := ToConnecting(v.state);
    ShowStep(v.state, v.shown, connecting);
    var next := Show(v, connecting);
    var on := next.(handle := device.handle, tunnels := TunnelsWith(v.tunnels, TurnedOn(device.handle, next.state.config)));
    DisconnectShown(next);
    DisconnectShown(on);
    ShowStep(connecting, next.shown, ToConnected(connecting, device.now));
  }

  lemma ShownStep(w: World, a: Action)
    requires ShownMatches(w.phone.state, Shown(w.phone.log))
    ensures ShownMatches(StepView(ViewOf(w.phone), a).state, StepView(ViewOf(w.phone), a).shown) <==> !Does(FallsBack, w, a)
  {
    hide ShownMatches, DisconnectView, TurnOnView, Tunnels, Shown, EndCalls;
    var v := ViewOf(w.phone);
    match a
    case Connect(location, permitted, id) =>
      if v.state.Disconnected? {
        ShowStep(v.state, v.shown, OrchestratorState.Requesting(id, location));
      }
    case Response(location, result) =>
      if result.Ok? {
        ShowStep(v.state, v.shown, OrchestratorState.Accepted(location, result.value.0, result.value.1));
      } else {
        ShowStep(v.state, v.shown, OrchestratorState.Disconnected);
      }
    case Update(location, status, device) =>
      DisconnectShown(v);
      UpdateMovesForward(v.state, location, status);
      var next := NewStateFromUpdate(v.state, location, status);
      if next.Some? {
        ShowStep(v.state, v.shown, next.value);
        if next.value.ServerReady? {
          TurnOnShown(Show(v, next.value), device);
        }
      }
    case Disconnect(_) => DisconnectShown(v);
    case Cleanup(_) => DisconnectShown(v);
    case Register => ShowStep(v.state, v.shown, v.state);
    case Deregister(_) =>
  }

  // Each handler keeps each of the three invariants if and only if the action does not do the harm.
  lemma InvStep(fault: Fault, w: World, a: Action, failing: Failing)
    requires Inv(fault, w) && Allowed(w, a)
    ensures Inv(fault, Step(w, a, failing)) <==> !Does(fault, w, a)
  {
    hide TunnelMatches, EndsOnce, ShownMatches, StepView, Tunnels, Shown, EndCalls, Does, RequestOf, Step, Allowed;
    SteppedView(w, a, failing);
    match fault
    case CutsTunnel => TunnelStep(w, a);
    case FallsBack => ShownStep(w, a);
    case Foreign => EndsStep(w, a);
  }

  // No message of the run does the harm.
  ghost predicate Never(fault: Fault, w: World, moves: seq<Move>)
    requires AllowedRun(w, moves)
    decreases |moves|
  {
    moves == [] || (!Does(fault, w, moves[0].action) && Never(fault, Step(w, moves[0].action, moves[0].failing), moves[1..]))
  }

  lemma {:induction false} RunInv(fault: Fault, w: World, moves: seq<Move>)
    requires Inv(fault, w) && AllowedRun(w, moves) && Never(fault, w, moves)
    ensures Inv(fault, Run(w, moves))
    decreases |moves|
  {
    hide Inv, Step, Allowed, Does;
    if moves != [] {
      InvStep(fault, w, moves[0].action, moves[0].failing);
      RunInv(fault, Step(w, moves[0].action, moves[0].failing), moves[1..]);
    }
  }

  lemma StartInv(fault: Fault)
    ensures Inv(fault, START)
  {
  }

  // Between the handlers of every run in which no response or failure is handled while a tunnel is up, a tunnel is up
  // exactly while the state is Connected, and none is lost.
  lemma TunnelIffConnected(moves: seq<Move>)
    requires AllowedRun(START, moves) && Never(CutsTunnel, START, moves)
    ensures var p := Run(START, moves).phone;
            && (p.state.Connected? <==> p.handle >= 0)
            && Tunnels(p.log) == (if p.state.Connected? then {p.handle} else {})
            && !p.state.ServerReady? && !p.state.Connecting? && !p.state.Disconnecting?
  {
    StartInv(CutsTunnel);
    RunInv(CutsTunnel, START, moves);
  }

  // In every run in which no acceptance is handled past acceptance, from the request of a session until listeners see
  // it go down, its progress never falls.
  lemma {:induction false} ProgressClimbs(moves: seq<Move>, i: nat, j: nat)
    requires AllowedRun(START, moves) && Never(FallsBack, START, moves)
    requires i <= j < |Shown(Run(START, moves).phone.log)|
    requires forall k :: i < k <= j ==> !IsDown(Shown(Run(START, moves).phone.log)[k])
    ensures var shown := Shown(Run(START, moves).phone.log); Progress(shown[i]) <= Progress(shown[j])
    decreases j
  {
    hide Run, AllowedRun, Shown, Never;
    StartInv(FallsBack);
    RunInv(FallsBack, START, moves);
    if i < j {
      ProgressClimbs(moves, i, j - 1);
    }
  }

  // In every run whose messages are about requests made and not ended, each request is ended at most once, and only if
  // it was made.
  lemma EndedAtMostOnce(moves: seq<Move>, i: nat, j: nat)
    requires AllowedRun(START, moves) && Never(Foreign, START, moves)
    requires i < j < |EndCalls(Run(START, moves).phone.log)|
    ensures var w := Run(START, moves);
            EndCalls(w.phone.log)[i] != EndCalls(w.phone.log)[j] && EndCalls(w.phone.log)[i] in w.minted
  {
    hide Run, AllowedRun, EndCalls, Never;
    StartInv(Foreign);
    RunInv(Foreign, START, moves);
  }

  // What can still come of a session: one response, then updates up to a final one.
  datatype Channel =
    | Closed
    | AwaitingResponse(requestId: S.Uuid, location: S.Location)
    | Watching(requestId: S.Uuid, location: S.Location)

  // The watcher's last update (VPNSessionWatcher.kt).
  predicate EndsWatch(status: S.VpnSessionStatus) {
    status.ServerReady? || status.Failed? || status.Ended?
  }

  // A message that the channel has to give, about its own request.
  predicate Fits(c: Channel, a: Action) {
    match a
    case Response(location, result) =>
      c.AwaitingResponse? && location == c.location && (result.Ok? ==> result.value.0.requestId == c.requestId)
    case Update(location, status, _) => c.Watching? && location == c.location && status.requestId == c.requestId
    case _ => true
  }

  // Cancelling a session drops all that has not been handled yet.
  function NextChannel(c: Channel, state: OrchestratorState, a: Action): Channel
    requires Fits(c, a)
  {
    match a
    case Connect(location, permitted, id) => if state.Disconnected? && permitted then AwaitingResponse(id, location) else c
    case Response(_, result) => if result.Ok? then Watching(c.requestId, c.location) else Closed
    case Update(_, status, device) => if EndsWatch(status) || !device.permitted then Closed else c
    case Disconnect(_) => Closed
    case Cleanup(_) => Closed
    case _ => c
  }

  // A run in which cancellation drops what it can and the server echoes the ids of requests.
  ghost predicate Orderly(w: World, c: Channel, moves: seq<Move>)
    requires AllowedRun(w, moves)
    decreases |moves|
  {
    if moves == [] then true
    else
      var a := moves[0].action;
      Fits(c, a) && Orderly(Step(w, a, moves[0].failing), NextChannel(c, w.phone.state, a), moves[1..])
  }

  // The state is that of the session whose messages may still come.
  predicate ChannelMatches(state: OrchestratorState, c: Channel) {
    match c
    case Closed => !state.Requesting?
    case AwaitingResponse(id, location) => state == OrchestratorState.Requesting(id, location)
    case Watching(id, location) => Provisioning(state) && state.session.requestId == id && state.location == location
  }

  lemma ChannelStep(w: World, c: Channel, a: Action)
    requires Fits(c, a) && TunnelMatches(ViewOf(w.phone)) && ChannelMatches(w.phone.state, c)
    ensures ChannelMatches(StepView(ViewOf(w.phone), a).state, NextChannel(c, w.phone.state, a))
  {
    hide Tunnels, Shown, EndCalls;
  }

  lemma FittingIsHarmless(fault: Fault, w: World, c: Channel, a: Action)
    requires Inv(Foreign, w) && Fits(c, a) && ChannelMatches(w.phone.state, c)
    ensures !Does(fault, w, a)
  {
    hide Tunnels, Shown, EndCalls;
  }

  // In an orderly run no message does any harm, so that the three results hold of it.
  lemma {:induction false} OrderlyIsHarmless(fault: Fault, w: World, c: Channel, moves: seq<Move>)
    requires Inv(CutsTunnel, w) && Inv(Foreign, w) && ChannelMatches(w.phone.state, c)
    requires AllowedRun(w, moves) && Orderly(w, c, moves)
    ensures Never(fault, w, moves)
    decreases |moves|
  {
    hide Does, Step, Allowed, ChannelMatches, NextChannel, Fits, StepView, Tunnels, Shown, EndCalls, TunnelMatches, EndsOnce;
    if moves != [] {
      var a, failing := moves[0].action, moves[0].failing;
      FittingIsHarmless(fault, w, c, a);
      FittingIsHarmless(CutsTunnel, w, c, a);
      FittingIsHarmless(Foreign, w, c, a);
      InvStep(CutsTunnel, w, a, failing);
      InvStep(Foreign, w, a, failing);
      ChannelStep(w, c, a);
      SteppedView(w, a, failing);
      OrderlyIsHarmless(fault, Step(w, a, failing), NextChannel(c, w.phone.state, a), moves[1..]);
    }
  }

  // The results above for the runs of a phone that has just started.
  lemma OrderlyRuns(fault: Fault, moves: seq<Move>)
    requires AllowedRun(START, moves) && Orderly(START, Closed, moves)
    ensures Never(fault, START, moves)
  {
    StartInv(CutsTunnel);
    StartInv(Foreign);
    OrderlyIsHarmless(fault, START, Closed, moves);
  }

  // A session under way that the server reports as ended is left as it is if and only if the permission is there, and
  // where nothing more can come of it only a disconnect leads out of the state.
  lemma EndedIsIgnored(w: World, a: Action, failing: Failing)
    requires Allowed(w, a) && a.Update? && a.status.Ended? && !IsDisconnectingOrDisconnected(w.phone.state)
    ensures Step(w, a, failing).phone == w.phone <==> a.device.permitted
    ensures forall c :: Fits(c, a) && ChannelMatches(w.phone.state, c)
              ==> Provisioning(w.phone.state) && NextChannel(c, w.phone.state, a) == Closed
  {
    hide NoPermission, Tunnels, Shown, EndCalls;
    NoPermissionView(w.phone, failing);
  }

  predicate TakesDown(a: Action) {
    a.Disconnect? || a.Cleanup?
  }

  // Where no message can come any more only a disconnect, or the end of the service, leads out of a state.
  lemma ClosedStep(w: World, a: Action, failing: Failing)
    requires Allowed(w, a) && Fits(Closed, a) && !w.phone.state.Disconnected? && !TakesDown(a)
    ensures Step(w, a, failing).phone.state == w.phone.state && NextChannel(Closed, w.phone.state, a) == Closed
  {
    hide Tunnels, Shown, EndCalls;
    SteppedView(w, a, failing);
  }

  lemma {:induction false} ClosedRun(w: World, moves: seq<Move>)
    requires AllowedRun(w, moves) && Orderly(w, Closed, moves) && !w.phone.state.Disconnected?
    requires forall k :: 0 <= k < |moves| ==> !TakesDown(moves[k].action)
    ensures Run(w, moves).phone.state == w.phone.state
    decreases |moves|
  {
    hide Step, Fits, NextChannel, Allowed;
    if moves != [] {
      ClosedStep(w, moves[0].action, moves[0].failing);
      ClosedRun(Step(w, moves[0].action, moves[0].failing), moves[1..]);
    }
  }

  // So a session that the server has reported as ended stays in its state until a disconnect, in every orderly run.
  lemma EndedStays(w: World, c: Channel, a: Action, failing: Failing, moves: seq<Move>)
    requires Allowed(w, a) && a.Update? && a.status.Ended? && a.device.permitted
    requires Fits(c, a) && ChannelMatches(w.phone.state, c)
    requires AllowedRun(Step(w, a, failing), moves) && Orderly(Step(w, a, failing), NextChannel(c, w.phone.state, a), moves)
    requires forall k :: 0 <= k < |moves| ==> !TakesDown(moves[k].action)
    ensures Run(Step(w, a, failing), moves).phone.state == w.phone.state
  {
    hide Step, Orderly, AllowedRun, Run;
    assert Provisioning(w.phone.state);
    EndedIsIgnored(w, a, failing);
    ClosedRun(Step(w, a, failing), moves);
  }

  // A response that is handled after its session was cancelled and the next one requested is taken for that one's: the
  // first request is ended twice and the second never.
  lemma StaleResponse(location: S.Location, uuid: S.Uuid, interFace: Interface, failing: Failing)
    ensures var p := AfterConnect(START.phone, location, true, 1, failing);
            var p := AfterDisconnect(p, "user requested", failing);
            var p := AfterConnect(p, location, true, 2, failing);
            var p := AfterResponse(p, location, Ok((S.SessionInfo(1, uuid), interFace)), failing);
            EndCalls(AfterDisconnect(p, "user requested", failing).log) == [1, 1]
  {
    hide AfterConnect, AfterDisconnect, AfterResponse, Tunnels, Shown, EndCalls;
    var p := START.phone;
    assert EndCalls(p.log) == [] by { NothingEnded(); }
    ConnectedView(p, location, true, 1, failing);
    var p1 := AfterConnect(p, location, true, 1, failing);
    DisconnectedView(p1, "user requested", failing);
    var p2 := AfterDisconnect(p1, "user requested", failing);
    ConnectedView(p2, location, true, 2, failing);
    var p3 := AfterConnect(p2, location, true, 2, failing);
    RespondedView(p3, location, Ok((S.SessionInfo(1, uuid), interFace)), failing);
    var p4 := AfterResponse(p3, location, Ok((S.SessionInfo(1, uuid), interFace)), failing);
    DisconnectedView(p4, "user requested", failing);
    assert [] + [1] + [1] == [1, 1];
  }

  lemma NothingEnded()
    ensures EndCalls([]) == []
  {
  }
}
