/** The `silk-client` systems: the intermediate client session.  The same
    handshake as `bevy-silk`, but the caller names the signaling server by IP
    and port, the credentials are a `PlayerAuthentication`, the socket reader
    does nothing without a socket, a departing peer also clears the host id,
    and closed channels are not watched.
 */
module SilkClientSystems {
  import opened Fallible
  import opened SilkCommon
  import opened Session

  /** `SilkLoginRequestPayload` of `silk-common`.  Both Rust variants call
      their field `username`; the guest's optional one is `guestName` here. */
  datatype SilkLoginRequestPayload =
    | RegisteredUser(username: string, password: string, mfa: Option<string>)
    | Guest(guestName: Option<string>)

  /** `ConnectionRequest`. */
  datatype ConnectionRequest =
    | Connect(ip: string, port: Port, auth: PlayerAuthentication)
    | Disconnect(reason: Option<string>)

  /** `ClientState`, the session record. */
  datatype ClientState = ClientState(
    addr: Option<ConnectionAddr>,
    auth: Option<PlayerAuthentication>,
    id: Option<PeerId>,
    hostId: Option<PeerId>)

  /** `ClientState::default()`. */
  function DefaultState(): ClientState
  {
    ClientState(None, None, None, None)
  }

  /** What one system did, as in the `bevy-silk` client. */
  datatype Effects = Effects(
    state: ClientState,
    next: Option<ConnectionState>,
    events: seq<ClientEvent>,
    logins: seq<SilkLoginRequestPayload>)

  /** The login request stored credentials turn into. */
  function LoginFor(auth: PlayerAuthentication): SilkLoginRequestPayload
  {
    match auth
    case Registered(username, password, mfa) => RegisteredUser(username, password, mfa)
    case Guest(name) => SilkLoginRequestPayload.Guest(name)
  }

  /** The credentials a login request carries. */
  function CredentialsOf(login: SilkLoginRequestPayload): PlayerAuthentication
  {
    match login
    case RegisteredUser(username, password, mfa) => Registered(username, password, mfa)
    case Guest(name) => PlayerAuthentication.Guest(name)
  }

  /** Username, password and MFA code, or the guest's name, reach the host
      unchanged. */
  lemma LoginCarriesCredentials(auth: PlayerAuthentication)
    ensures CredentialsOf(LoginFor(auth)) == auth
    ensures LoginFor(auth).RegisteredUser? <==> auth.Registered?
  {
  }

  /** `reset_socket`: the whole record is replaced by the default. */
  function ResetSocket(state: ClientState): (r: ClientState)
    ensures r.addr.None? && r.auth.None? && r.id.None? && r.hostId.None?
  {
    DefaultState()
  }

  /** `init_socket`: panics without an address; otherwise opens
      `SilkSocket::new(addr)`, whose room URL is `addr.to_url()`. */
  function InitSocket(state: ClientState): (r: Result<SocketBuilder>)
    ensures r.Fatal? <==> state.addr.None?
    ensures r.Fatal? ==> r.panic == NoConfig
    ensures r.Ok? ==> r.value.roomUrl == ToUrl(state.addr.value)
    ensures r.Ok? ==> r.value.channels == [UnreliableConfig(), ReliableConfig()]
  {
    match state.addr
    case None => Fatal(NoConfig)
    case Some(addr) => Ok(NewSilkSocket(addr))
  }

  /** `connection_event_reader`: only the first request is looked at.
      `Connect` acts only while disconnected, storing `Remote{ip, port}` and
      the credentials and requesting `Establishing`; `Disconnect` always
      requests `Disconnected` and forwards the reason. */
  function ConnectionEventReader(state: ClientState, current: ConnectionState, requests: seq<ConnectionRequest>)
    : (e: Effects)
    ensures e.logins == [] && e.state.id == state.id && e.state.hostId == state.hostId
    ensures |requests| == 0 ==> e == Effects(state, None, [], [])
    ensures |requests| > 0 && requests[0].Connect? && current != Disconnected ==>
              e == Effects(state, None, [], [])
    ensures |requests| > 0 && requests[0].Connect? && current == Disconnected ==>
              e.state.addr == Some(Remote(requests[0].ip, requests[0].port)) &&
              e.state.auth == Some(requests[0].auth) && e.next == Some(Establishing) && e.events == []
    ensures |requests| > 0 && requests[0].Disconnect? ==>
              e.state == state && e.next == Some(Disconnected) &&
              e.events == [DisconnectedFromHost(requests[0].reason)]
  {
    if |requests| == 0 then Effects(state, None, [], [])
    else
      match requests[0]
      case Connect(ip, port, auth) =>
        if current == Disconnected
        then Effects(state.(addr := Some(Remote(ip, port)), auth := Some(auth)), Some(Establishing), [], [])
        else Effects(state, None, [], [])
      case Disconnect(reason) =>
        Effects(state, Some(Disconnected), [DisconnectedFromHost(reason)], [])
  }

  /** One peer update: a connected peer becomes the host and the credentials
      are taken and sent (panicking when none are stored); a departing peer
      clears the host and requests `Disconnected` with "Server reset". */
  function PeerUpdateStep(state: ClientState, next: Option<ConnectionState>, update: PeerUpdate): Result<Effects>
  {
    match update.1
    case PeerConnected =>
      if state.auth.None? then Fatal(NoAuth)
      else Ok(Effects(state.(hostId := Some(update.0), auth := None), next, [], [LoginFor(state.auth.value)]))
    case PeerDisconnected =>
      Ok(Effects(state.(hostId := None), Some(Disconnected), [DisconnectedFromHost(Some(SERVER_RESET))], []))
  }

  /** The host id a peer update leaves: the connected peer, or none. */
  function HostAfter(update: PeerUpdate): Option<PeerId>
  {
    if update.1 == PeerConnected then Some(update.0) else None
  }

  /** The loop over one tick's peer updates.  It panics exactly when the batch
      holds more connected peers than stored credentials; otherwise at most one
      login goes out with the stored credentials, every departed peer adds one
      "Server reset", and the host id is whatever the last update left. */
  function ApplyPeerUpdates(state: ClientState, next: Option<ConnectionState>, updates: seq<PeerUpdate>)
    : (r: Result<Effects>)
    ensures r.Fatal? <==> |PeersIn(updates, PeerConnected)| > (if state.auth.Some? then 1 else 0)
    ensures r.Fatal? ==> r.panic == NoAuth
    ensures r.Ok? ==> r.value.state.addr == state.addr && r.value.state.id == state.id
    ensures r.Ok? ==> |r.value.logins| == |PeersIn(updates, PeerConnected)|
    ensures r.Ok? && |PeersIn(updates, PeerConnected)| == 1 ==>
              r.value.logins == [LoginFor(state.auth.value)] && r.value.state.auth.None?
    ensures r.Ok? && |PeersIn(updates, PeerConnected)| == 0 ==> r.value.state.auth == state.auth
    ensures r.Ok? && |updates| == 0 ==> r.value.state.hostId == state.hostId
    ensures r.Ok? && |updates| > 0 ==> r.value.state.hostId == HostAfter(updates[|updates| - 1])
    ensures r.Ok? ==> AllAre(r.value.events, DisconnectedFromHost(Some(SERVER_RESET)),
                             |PeersIn(updates, PeerDisconnected)|)
    ensures r.Ok? ==> r.value.next == (if |PeersIn(updates, PeerDisconnected)| > 0 then Some(Disconnected) else next)
    decreases |updates|
  {
    if |updates| == 0 then Ok(Effects(state, next, [], []))
    else
      match PeerUpdateStep(state, next, updates[0])
      case Fatal(p) => Fatal(p)
      case Ok(first) =>
        match ApplyPeerUpdates(first.state, first.next, updates[1..])
        case Fatal(p) => Fatal(p)
        case Ok(rest) => Ok(Effects(rest.state, rest.next, first.events + rest.events, first.logins + rest.logins))
  }

  /** What an existing socket reports in one tick. */
  datatype SocketReport = SocketReport(id: Option<PeerId>, peerUpdates: seq<PeerUpdate>)

  /** `socket_reader`: without a socket nothing happens; with one, the local
      id is latched (announced once) and the peer updates are applied. */
  function SocketReader(state: ClientState, next: Option<ConnectionState>, socket: Option<SocketReport>)
    : (r: Result<Effects>)
    ensures socket.None? ==> r == Ok(Effects(state, next, [], []))
    ensures r.Fatal? <==> (socket.Some? &&
              |PeersIn(socket.value.peerUpdates, PeerConnected)| > (if state.auth.Some? then 1 else 0))
    ensures r.Fatal? ==> r.panic == NoAuth
    ensures r.Ok? && socket.Some? ==> r.value.state.id == LatchId(state.id, socket.value.id).id
    ensures r.Ok? && socket.Some? ==>
              (|r.value.events| > 0 && r.value.events[0].IdAssigned? <==> state.id.None? && socket.value.id.Some?)
    ensures r.Ok? && socket.Some? && state.id.None? && socket.value.id.Some? ==>
              r.value.events[0] == IdAssigned(socket.value.id.value) &&
              AllAre(r.value.events[1..], DisconnectedFromHost(Some(SERVER_RESET)),
                     |PeersIn(socket.value.peerUpdates, PeerDisconnected)|)
    ensures r.Ok? && socket.Some? && !(state.id.None? && socket.value.id.Some?) ==>
              AllAre(r.value.events, DisconnectedFromHost(Some(SERVER_RESET)),
                     |PeersIn(socket.value.peerUpdates, PeerDisconnected)|)
    ensures r.Ok? && socket.Some? ==> r.value.state.addr == state.addr
    ensures r.Ok? && socket.Some? ==>
              (if |PeersIn(socket.value.peerUpdates, PeerConnected)| == 1
               then r.value.logins == [LoginFor(state.auth.value)] && r.value.state.auth.None?
               else r.value.logins == [] && r.value.state.auth == state.auth)
    ensures r.Ok? && socket.Some? && |socket.value.peerUpdates| == 0 ==> r.value.state.hostId == state.hostId
    ensures r.Ok? && socket.Some? && |socket.value.peerUpdates| > 0 ==>
              r.value.state.hostId == HostAfter(socket.value.peerUpdates[|socket.value.peerUpdates| - 1])
    ensures r.Ok? && socket.Some? ==>
              r.value.next == (if |PeersIn(socket.value.peerUpdates, PeerDisconnected)| > 0
                               then Some(Disconnected) else next)
  {
    match socket
    case None => Ok(Effects(state, next, [], []))
    case Some(report) =>
      var latch := LatchId(state.id, report.id);
      var announced := if latch.announced.Some? then [IdAssigned(latch.announced.value)] else [];
      match ApplyPeerUpdates(state.(id := latch.id), next, report.peerUpdates)
      case Fatal(p) => Fatal(p)
      case Ok(u) => Ok(Effects(u.state, u.next, announced + u.events, u.logins))
  }

  /** `on_login_accepted` over this tick's responses; the record is not changed. */
  function OnLoginAccepted(state: ClientState, next: Option<ConnectionState>, responses: seq<LoginResponse>)
    : (r: Result<Effects>)
    ensures r.Fatal? <==> state.hostId.None? && AnyAccepted(responses)
    ensures r.Fatal? ==> r.panic == NoHost
    ensures r.Ok? ==> r.value.state == state && r.value.logins == []
    ensures r.Ok? ==> r.value.next == LastRequested(next, responses) && |r.value.events| == |responses|
  {
    match OnLogin(state.hostId, next, responses)
    case Fatal(p) => Fatal(p)
    case Ok((n, events)) => Ok(Effects(state, n, events, []))
  }

  /** The end-of-tick state transition, as in the `bevy-silk` client. */
  function ApplyTransition(current: ConnectionState, next: Option<ConnectionState>, state: ClientState)
    : (r: Result<(ConnectionState, ClientState, SocketCommand)>)
    ensures r.Fatal? <==> next == Some(Establishing) && current != Establishing && state.addr.None?
    ensures r.Ok? ==> r.value.0 == (if next.Some? then next.value else current)
    ensures r.Ok? && next == Some(Disconnected) && current != Disconnected ==>
              r.value.1 == DefaultState() && r.value.2 == CloseSocket
    ensures r.Ok? && next == Some(Establishing) && current != Establishing ==>
              r.value.1 == state && r.value.2 == OpenSocket(InitSocket(state).value)
    ensures r.Ok? && next == Some(Connected) ==> r.value.1 == state && r.value.2 == KeepSocket
    ensures r.Ok? && (next.None? || next == Some(current)) ==> r.value == (current, state, KeepSocket)
    ensures r.Ok? && r.value.2.OpenSocket? ==> next == Some(Establishing) && current != Establishing
    ensures r.Ok? && r.value.2 == CloseSocket ==>
              next == Some(Disconnected) && current != Disconnected && r.value.1 == DefaultState()
  {
    if next.None? || next.value == current then Ok((current, state, KeepSocket))
    else
      match next.value
      case Disconnected => Ok((Disconnected, ResetSocket(state), CloseSocket))
      case Establishing =>
        (match InitSocket(state)
         case Fatal(p) => Fatal(p)
         case Ok(builder) => Ok((Establishing, state, OpenSocket(builder))))
      case Connected => Ok((Connected, state, KeepSocket))
  }

  datatype TickInput = TickInput(
    requests: seq<ConnectionRequest>,
    socket: Option<SocketReport>,
    responses: seq<LoginResponse>)

  datatype TickOutput = TickOutput(
    connection: ConnectionState,
    state: ClientState,
    events: seq<ClientEvent>,
    logins: seq<SilkLoginRequestPayload>,
    command: SocketCommand)

  /** One tick: request reader, socket reader, login reader, then the state
      transition. */
  function Tick(current: ConnectionState, state: ClientState, input: TickInput): (r: Result<TickOutput>)
    ensures r.Ok? && r.value.command.OpenSocket? ==> current != Establishing && r.value.connection == Establishing
    ensures r.Ok? && r.value.command == CloseSocket ==>
              current != Disconnected && r.value.connection == Disconnected && r.value.state == DefaultState()
    ensures r.Ok? && input.socket.None? ==> r.value.logins == []
  {
    var handled := ConnectionEventReader(state, current, input.requests);
    match SocketReader(handled.state, handled.next, input.socket)
    case Fatal(p) => Fatal(p)
    case Ok(read) =>
      match OnLoginAccepted(read.state, read.next, input.responses)
      case Fatal(p) => Fatal(p)
      case Ok(login) =>
        match ApplyTransition(current, login.next, login.state)
        case Fatal(p) => Fatal(p)
        case Ok((connection, after, command)) =>
          Ok(TickOutput(connection, after, handled.events + read.events + login.events, read.logins, command))
  }

  /** A `Connect` while establishing or connected changes nothing. */
  lemma RedundantConnectIgnored(current: ConnectionState, state: ClientState, input: TickInput,
                                ip: string, port: Port, auth: PlayerAuthentication, later: seq<ConnectionRequest>)
    requires current != Disconnected
    requires input.requests == [Connect(ip, port, auth)] + later
    ensures Tick(current, state, input) == Tick(current, state, input.(requests := []))
  {
  }

  /** From `Disconnected`, a `Connect` stores the remote address and the
      credentials and opens a socket on `ws://ip:port/`. */
  lemma ConnectStartsEstablishing(state: ClientState, ip: string, port: Port, auth: PlayerAuthentication)
    ensures var r := Tick(Disconnected, state, TickInput([Connect(ip, port, auth)], None, []));
            r.Ok? && r.value.connection == Establishing &&
            r.value.state.addr == Some(Remote(ip, port)) && r.value.state.auth == Some(auth) &&
            r.value.command == OpenSocket(NewSilkSocket(Remote(ip, port)))
  {
  }

  /** Without a socket and without requests or responses a tick changes nothing. */
  lemma NoSocketNoChange(current: ConnectionState, state: ClientState)
    ensures Tick(current, state, TickInput([], None, [])) == Ok(TickOutput(current, state, [], [], KeepSocket))
  {
    assert ConnectionEventReader(state, current, []) == Effects(state, None, [], []);
    assert SocketReader(state, None, None) == Ok(Effects(state, None, [], []));
    assert OnLoginAccepted(state, None, []) == Ok(Effects(state, None, [], []));
    assert ApplyTransition(current, None, state) == Ok((current, state, KeepSocket));
    var input := TickInput([], None, []);
    assert input.requests == [] && input.socket == None && input.responses == [];
    var none: seq<ClientEvent> := [];
    assert none + none + none == none;
  }

  /** A `Disconnect` emits one event with the caller's reason and, from any
      other state, resets the record and closes the socket. */
  lemma DisconnectTearsDown(current: ConnectionState, state: ClientState, reason: Option<string>)
    ensures var r := Tick(current, state, TickInput([Disconnect(reason)], None, []));
            r.Ok? && r.value.connection == Disconnected &&
            r.value.events == [DisconnectedFromHost(reason)] &&
            (current != Disconnected ==> r.value.state == DefaultState() && r.value.command == CloseSocket)
  {
  }

  /** The host peer connecting sends one login with the stored credentials,
      records the host and consumes the credentials. */
  lemma HostConnectSendsLogin(state: ClientState, auth: PlayerAuthentication, host: PeerId)
    requires state.auth == Some(auth)
    ensures var r := Tick(Establishing, state, TickInput([], Some(SocketReport(None, [(host, PeerConnected)])), []));
            r.Ok? && r.value.logins == [LoginFor(auth)] &&
            r.value.state.hostId == Some(host) && r.value.state.auth.None? && r.value.events == []
  {
    assert PeersIn([(host, PeerConnected)], PeerConnected) == [host];
  }

  /** A departing peer clears the host id even before the reset. */
  lemma PeerLeaveClearsHost(state: ClientState, peer: PeerId)
    ensures var r := ApplyPeerUpdates(state, None, [(peer, PeerDisconnected)]);
            r.Ok? && r.value.state.hostId.None? && r.value.next == Some(Disconnected) &&
            r.value.events == [DisconnectedFromHost(Some(SERVER_RESET))]
  {
  }

  /** `Accepted` connects and announces the host with the accepted username. */
  lemma AcceptedConnects(state: ClientState, host: PeerId, username: string)
    requires state.hostId == Some(host)
    ensures var r := Tick(Establishing, state, TickInput([], None, [Accepted(username)]));
            r.Ok? && r.value.connection == Connected && r.value.events == [ConnectedToHost(host, username)]
  {
  }

  /** `Denied` disconnects, forwarding the reason, and clears the record. */
  lemma DeniedDisconnects(state: ClientState, reason: Option<string>)
    ensures var r := Tick(Establishing, state, TickInput([], None, [Denied(reason)]));
            r.Ok? && r.value.connection == Disconnected && r.value.state == DefaultState() &&
            r.value.events == [DisconnectedFromHost(reason)]
  {
  }

  /** No tick aborts for a missing address. */
  lemma TickNeverLacksConfig(current: ConnectionState, state: ClientState, input: TickInput)
    ensures Tick(current, state, input) != Fatal(NoConfig)
  {
    var handled := ConnectionEventReader(state, current, input.requests);
    assert handled.next == Some(Establishing) ==> handled.state.addr.Some?;
  }

  /** Every panic of a tick is a missing credential or a missing host. */
  lemma TickPanics(current: ConnectionState, state: ClientState, input: TickInput)
    requires Tick(current, state, input).Fatal?
    ensures Tick(current, state, input).panic in {NoAuth, NoHost}
  {
    TickNeverLacksConfig(current, state, input);
  }

  /** While connected a host is known. */
  lemma ConnectedHasHost(current: ConnectionState, state: ClientState, input: TickInput)
    requires current == Connected ==> state.hostId.Some?
    requires Tick(current, state, input).Ok?
    ensures Tick(current, state, input).value.connection == Connected ==>
            Tick(current, state, input).value.state.hostId.Some?
  {
  }
}
