/** The room-session logic of the editor page, lifted out of the React
    component into a pure reducer: `Step(state, event)` yields the next state
    and the list of effects (socket emits, toasts, navigation) the handler
    performs, in the order it performs them. Mounting and unmounting are the
    explicit `Init` and `Cleanup` events. */
module EditorPage {
  import opened Wrappers
  import opened Membership

  /** The socket listeners the page registers, one per transport event. */
  datatype Listener =
    | OnConnect | OnDisconnect | OnConnectError | OnConnectFailed
    | OnUserConnected | OnUserDisconnected

  /** Everything the handlers read or write. `code` is the `codeRef`
      (None for its initial `null`); `localUserName` is
      `location.state?.userName` (None for `undefined`); `hasSocket` says
      whether `socketRef.current` is set; `listeners` are the handlers
      currently registered on that socket. */
  datatype State = State(
    connected: bool,
    clients: seq<Client>,
    code: Option<string>,
    localUserName: Option<string>,
    roomId: string,
    hasSocket: bool,
    listeners: set<Listener>)

  /** What can happen to the page. Payloads are taken as well typed; a
      payload name may be absent (None, JavaScript's `undefined`), and nothing
      else about it is checked, as in the source. */
  datatype Event =
    | Init
    | Connect
    | Disconnect
    | ConnectError
    | ConnectFailed
    | UserConnected(clients: seq<Client>, userName: Option<string>, socketId: string)
    | UserDisconnected(socketId: string, userName: Option<string>)
    | CodeChange(code: string)
    | Leave
    | Cleanup

  /** What a handler does to the outside world. `NullSocketAccess` stands for
      the TypeError thrown when the leave button is used before a socket
      exists. */
  datatype Effect =
    | EmitJoin(roomId: string, userName: Option<string>)
    | EmitCodesync(code: string, socketId: string)
    | ToastSuccess(msg: string)
    | ToastError(msg: string)
    | Navigate(path: string)
    | SocketDisconnect
    | NullSocketAccess

  datatype Transition = Transition(next: State, effects: seq<Effect>)

  const AllListeners: set<Listener> :=
    {OnConnect, OnDisconnect, OnConnectError, OnConnectFailed, OnUserConnected, OnUserDisconnected}

  /** The listeners the unmount cleanup removes; the two error handlers are
      not among them. */
  const CleanedListeners: set<Listener> :=
    {OnUserConnected, OnUserDisconnected, OnConnect, OnDisconnect}

  const HomePath: string := "/"
  const ConnectionFailedMsg: string := "Socket connection failed"
  const LeftRoomMsg: string := "You left the room"

  /** JavaScript truthiness of the code reference: null and "" are falsy. */
  predicate Truthy(code: Option<string>) {
    code.Some? && |code.value| > 0
  }

  /** A name as a template literal renders it; an absent name is
      `undefined`. */
  function Render(name: Option<string>): string {
    match name
    case Some(n) => n
    case None => "undefined"
  }

  function JoinedMsg(name: Option<string>): string {
    Render(name) + " joined"
  }

  function LeftMsg(name: Option<string>): string {
    Render(name) + " left"
  }

  /** The page as it is first rendered: disconnected, nobody listed, no code,
      and no socket yet. */
  function Mount(roomId: string, userName: Option<string>): (s: State)
    ensures Valid(s)
    ensures !s.connected && s.clients == [] && s.code == None && s.listeners == {}
    ensures s.roomId == roomId && s.localUserName == userName
  {
    State(false, [], None, userName, roomId, false, {})
  }

  /** The shape every reachable state has: without a socket nothing is
      registered, and with one the error handlers are registered. */
  ghost predicate Valid(s: State) {
    && (!s.hasSocket ==> s.listeners == {})
    && (s.hasSocket ==> OnConnectError in s.listeners && OnConnectFailed in s.listeners)
  }

  /** The body of the async `init`: a fresh socket with all six listeners and
      a single join request for the room under the local name. */
  function InitSession(s: State): (t: Transition)
    ensures t.next.hasSocket && t.next.listeners == AllListeners
    ensures t.effects == [EmitJoin(s.roomId, s.localUserName)]
    ensures t.next.connected == s.connected && t.next.clients == s.clients && t.next.code == s.code
  {
    Transition(s.(hasSocket := true, listeners := AllListeners), [EmitJoin(s.roomId, s.localUserName)])
  }

  function HandleConnect(s: State): (t: Transition)
    ensures t.next.connected
    ensures t.next.(connected := s.connected) == s
    ensures t.effects == []
  {
    Transition(s.(connected := true), [])
  }

  function HandleDisconnect(s: State): (t: Transition)
    ensures !t.next.connected
    ensures t.next.(connected := s.connected) == s
    ensures t.effects == []
  {
    Transition(s.(connected := false), [])
  }

  /** Shared by `connect_error` and `connect_failed`: report and go home,
      leaving the state (including `connected`) alone. */
  function HandleError(s: State): (t: Transition)
    ensures t.next == s
    ensures t.effects == [ToastError(ConnectionFailedMsg), Navigate(HomePath)]
  {
    Transition(s, [ToastError(ConnectionFailedMsg), Navigate(HomePath)])
  }

  /** `user-connected`: maybe announce the newcomer, take the server's list
      as the whole membership, and hand the current code to the newcomer when
      there is any. */
  function HandleUserConnected(s: State, clients: seq<Client>, userName: Option<string>, socketId: string): (t: Transition)
    ensures t.next.clients == clients
    ensures t.next.(clients := s.clients) == s
    ensures ToastSuccess(JoinedMsg(userName)) in t.effects <==> userName != s.localUserName
    ensures (exists e :: e in t.effects && e.EmitCodesync?) <==> Truthy(s.code)
    ensures forall e :: e in t.effects && e.EmitCodesync? ==> e == EmitCodesync(s.code.value, socketId)
    ensures |t.effects| == (if userName != s.localUserName then 1 else 0) + (if Truthy(s.code) then 1 else 0)
  {
    var toast := if userName != s.localUserName then [ToastSuccess(JoinedMsg(userName))] else [];
    var sync := if Truthy(s.code) then [EmitCodesync(s.code.value, socketId)] else [];
    assert Truthy(s.code) ==> (toast + sync)[|toast|] == EmitCodesync(s.code.value, socketId);
    Transition(s.(clients := clients), toast + sync)
  }

  /** `user-disconnected`: always announce the departure, then drop every
      listed entry with that socket id. */
  function HandleUserDisconnected(s: State, socketId: string, userName: Option<string>): (t: Transition)
    ensures t.next.clients == RemoveById(s.clients, socketId)
    ensures forall c :: c in t.next.clients <==> c in s.clients && c.socketId != socketId
    ensures t.next.(clients := s.clients) == s
    ensures t.effects == [ToastSuccess(LeftMsg(userName))]
  {
    Transition(s.(clients := RemoveById(s.clients, socketId)), [ToastSuccess(LeftMsg(userName))])
  }

  /** The editor's `onCodeChange` callback: only the code reference moves. */
  function ChangeCode(s: State, code: string): (t: Transition)
    ensures t.next.code == Some(code)
    ensures t.next.(code := s.code) == s
    ensures t.effects == []
  {
    Transition(s.(code := Some(code)), [])
  }

  /** `socket.disconnect()` runs the page's own `disconnect` listener before
      it returns, when that listener is registered. The library fires it only
      for a connected socket, whose flag is true; otherwise the flag is already
      false. Either way the flag ends false. */
  function DisconnectCall(s: State): (r: State)
    ensures r.connected == (s.connected && OnDisconnect !in s.listeners)
    ensures r.(connected := s.connected) == s
  {
    if OnDisconnect in s.listeners then s.(connected := false) else s
  }

  /** `handleLeave`: disconnect, toast, go home. Without a socket the first
      statement throws and nothing else happens. */
  function HandleLeave(s: State): (t: Transition)
    ensures t.next.connected == (s.connected && !(s.hasSocket && OnDisconnect in s.listeners))
    ensures t.next.(connected := s.connected) == s
    ensures s.hasSocket ==> t.effects == [SocketDisconnect, ToastSuccess(LeftRoomMsg), Navigate(HomePath)]
    ensures !s.hasSocket ==> t.effects == [NullSocketAccess]
  {
    if s.hasSocket then Transition(DisconnectCall(s), [SocketDisconnect, ToastSuccess(LeftRoomMsg), Navigate(HomePath)])
    else Transition(s, [NullSocketAccess])
  }

  /** The effect's cleanup: with a socket, disconnect it (which clears the
      flag through the still-registered `disconnect` listener) and then
      unregister the membership and connect/disconnect listeners; the error
      handlers and the reference itself stay. */
  function CleanupSession(s: State): (t: Transition)
    ensures t.next.listeners == if s.hasSocket then s.listeners - CleanedListeners else s.listeners
    ensures t.next.connected == (s.connected && !(s.hasSocket && OnDisconnect in s.listeners))
    ensures t.next.(listeners := s.listeners, connected := s.connected) == s
    ensures t.effects == (if s.hasSocket then [SocketDisconnect] else [])
  {
    if s.hasSocket then
      Transition(DisconnectCall(s).(listeners := s.listeners - CleanedListeners), [SocketDisconnect])
    else Transition(s, [])
  }

  /** The listener an event is delivered through; None for the events the
      page drives itself. */
  function ListenerFor(e: Event): Option<Listener> {
    match e
    case Connect => Some(OnConnect)
    case Disconnect => Some(OnDisconnect)
    case ConnectError => Some(OnConnectError)
    case ConnectFailed => Some(OnConnectFailed)
    case UserConnected(_, _, _) => Some(OnUserConnected)
    case UserDisconnected(_, _) => Some(OnUserDisconnected)
    case _ => None
  }

  /** One event. A socket event whose listener is not registered does
      nothing. The room and the local name never change. */
  function Step(s: State, e: Event): (t: Transition)
    ensures t.next.roomId == s.roomId && t.next.localUserName == s.localUserName
    ensures ListenerFor(e).Some? && ListenerFor(e).value !in s.listeners ==> t == Transition(s, [])
  {
    if ListenerFor(e).Some? && ListenerFor(e).value !in s.listeners then Transition(s, [])
    else
      match e
      case Init => InitSession(s)
      case Connect => HandleConnect(s)
      case Disconnect => HandleDisconnect(s)
      case ConnectError => HandleError(s)
      case ConnectFailed => HandleError(s)
      case UserConnected(clients, userName, socketId) => HandleUserConnected(s, clients, userName, socketId)
      case UserDisconnected(socketId, userName) => HandleUserDisconnected(s, socketId, userName)
      case CodeChange(code) => ChangeCode(s, code)
      case Leave => HandleLeave(s)
      case Cleanup => CleanupSession(s)
  }

  /** Every step keeps the state well shaped. */
  lemma StepPreservesValid(s: State, e: Event)
    requires Valid(s)
    ensures Valid(Step(s, e).next)
  {
  }

  /** `connect` and `disconnect` set the flag and touch nothing else. */
  lemma ConnectionFlagOnly(s: State)
    requires OnConnect in s.listeners && OnDisconnect in s.listeners
    ensures Step(s, Connect) == Transition(s.(connected := true), [])
    ensures Step(s, Disconnect) == Transition(s.(connected := false), [])
  {
  }

  /** The membership after `user-connected` is the payload whatever it was
      before: two states differing only in their lists end up equal. */
  lemma UserConnectedIsSnapshot(s1: State, s2: State, e: Event)
    requires e.UserConnected?
    requires OnUserConnected in s1.listeners
    requires s2 == s1.(clients := s2.clients)
    ensures Step(s1, e) == Step(s2, e)
    ensures Step(s1, e).next.clients == e.clients
  {
  }

  /** Exactly one "joined" toast when the payload name differs from the local
      name, none when they are equal. */
  lemma JoinedToastCount(s: State, e: Event)
    requires e.UserConnected? && OnUserConnected in s.listeners
    ensures multiset(Step(s, e).effects)[ToastSuccess(JoinedMsg(e.userName))]
      == if e.userName != s.localUserName then 1 else 0
  {
  }

  /** Self-detection is by name: another participant with a different socket
      id who shares the local name is not announced. */
  lemma SameNameIsNotAnnounced(s: State, clients: seq<Client>, socketId: string)
    requires OnUserConnected in s.listeners
    ensures forall e :: e in Step(s, UserConnected(clients, s.localUserName, socketId)).effects ==> !e.ToastSuccess?
  {
  }

  /** The code handoff happens exactly when the stored code is truthy, carries
      that code and targets the newcomer. */
  lemma CodesyncIffTruthy(s: State, e: Event)
    requires e.UserConnected? && OnUserConnected in s.listeners
    ensures Truthy(s.code) ==> multiset(Step(s, e).effects)[EmitCodesync(s.code.value, e.socketId)] == 1
    ensures !Truthy(s.code) ==> forall x :: x in Step(s, e).effects ==> !x.EmitCodesync?
  {
    var t := Step(s, e);
    if Truthy(s.code) {
      var c := EmitCodesync(s.code.value, e.socketId);
      if e.userName != s.localUserName {
        assert t.effects == [ToastSuccess(JoinedMsg(e.userName)), c];
      } else {
        assert t.effects == [c];
      }
    }
  }

  /** A departure is always announced, member or not, and a non-member's
      departure leaves the list as it was. */
  lemma UserDisconnectedAlwaysToasts(s: State, id: string, name: Option<string>)
    requires OnUserDisconnected in s.listeners
    ensures Step(s, UserDisconnected(id, name)).effects == [ToastSuccess(LeftMsg(name))]
    ensures (forall i :: 0 <= i < |s.clients| ==> s.clients[i].socketId != id)
      ==> Step(s, UserDisconnected(id, name)).next == s
  {
    assert Step(s, UserDisconnected(id, name)) == HandleUserDisconnected(s, id, name);
    if forall i :: 0 <= i < |s.clients| ==> s.clients[i].socketId != id {
      RemoveNonMemberIsNoOp(s.clients, id);
    }
  }

  /** A repeated departure changes nothing further. */
  lemma UserDisconnectedIdempotent(s: State, id: string, name: Option<string>)
    requires OnUserDisconnected in s.listeners
    ensures Step(Step(s, UserDisconnected(id, name)).next, UserDisconnected(id, name)).next
      == Step(s, UserDisconnected(id, name)).next
  {
    var e := UserDisconnected(id, name);
    assert Step(s, e) == HandleUserDisconnected(s, id, name);
    var s1 := s.(clients := RemoveById(s.clients, id));
    assert s1.listeners == s.listeners;
    assert Step(s1, e) == HandleUserDisconnected(s1, id, name);
    RemoveIdempotent(s.clients, id);
  }

  /** Both error signals report, go home, and leave `connected` as it was. */
  lemma ErrorsKeepConnected(s: State, e: Event)
    requires e.ConnectError? || e.ConnectFailed?
    requires Valid(s) && s.hasSocket
    ensures Step(s, e).next == s
    ensures Step(s, e).effects == [ToastError(ConnectionFailedMsg), Navigate(HomePath)]
  {
  }

  /** The error handlers outlive the cleanup. */
  lemma ErrorHandlersSurviveCleanup(s: State, e: Event)
    requires e.ConnectError? || e.ConnectFailed?
    requires Valid(s) && s.hasSocket
    ensures Step(Step(s, Cleanup).next, e).effects == [ToastError(ConnectionFailedMsg), Navigate(HomePath)]
  {
  }

  /** Cleaning up a connected page clears its flag: the `disconnect()` call
      runs before the `disconnect` listener is removed. */
  lemma CleanupClearsConnected(s: State)
    requires s.hasSocket && OnDisconnect in s.listeners
    ensures !Step(s, Cleanup).next.connected
    ensures Step(s, Cleanup).next.clients == s.clients
  {
  }

  /** A second cleanup leaves the state as the first did; it disconnects the
      socket once more. */
  lemma CleanupIdempotentOnState(s: State)
    ensures Step(Step(s, Cleanup).next, Cleanup).next == Step(s, Cleanup).next
    ensures s.hasSocket ==> Step(Step(s, Cleanup).next, Cleanup).effects == [SocketDisconnect]
  {
  }
}
