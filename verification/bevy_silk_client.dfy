/** The `bevy-silk` client session: the newest state machine, with the login
    handshake gating `Connected`.

    Each Bevy system becomes a pure function from the session record, the
    state change requested so far in the tick (`NextState`, last write wins)
    and the system's inputs to the changed record, the new request, and the
    events and login requests it emitted.  `Tick` runs the systems in order
    and then applies the requested state change, running the `OnEnter` hook
    of the state entered.
 */
module BevySilkClient {
  import opened Fallible
  import opened SilkCommon
  import opened Session

  /** `protocol::AuthenticationRequest`, supplied with a connection request. */
  datatype AuthenticationRequest =
    | Registered(accessToken: string, character: string)
    | Guest(username: string)

  /** `SilkLoginRequestPayload`, sent reliably to the host. */
  datatype SilkLoginRequestPayload =
    | RegisteredUser(accessToken: string, character: string)
    | Guest(username: string)

  /** `ConnectionRequest`; the address is the signaling URL itself. */
  datatype ConnectionRequest =
    | Connect(addr: string, auth: AuthenticationRequest)
    | Disconnect(reason: Option<string>)

  /** `SilkState`, the session record. */
  datatype SilkState = SilkState(
    addr: Option<string>,
    auth: Option<AuthenticationRequest>,
    id: Option<PeerId>,
    hostId: Option<PeerId>)

  /** `SilkState::default()`. */
  function DefaultState(): SilkState
  {
    SilkState(None, None, None, None)
  }

  /** What one system did: the record it leaves, the state change requested
      so far in the tick, and what it emitted. */
  datatype Effects = Effects(
    state: SilkState,
    next: Option<ConnectionState>,
    events: seq<ClientEvent>,
    logins: seq<SilkLoginRequestPayload>)

  /** The login request a stored authentication turns into. */
  function LoginFor(auth: AuthenticationRequest): (login: SilkLoginRequestPayload)
  {
    match auth
    case Registered(token, character) => RegisteredUser(token, character)
    case Guest(username) => SilkLoginRequestPayload.Guest(username)
  }

  /** The credentials a login request carries. */
  function CredentialsOf(login: SilkLoginRequestPayload): AuthenticationRequest
  {
    match login
    case RegisteredUser(token, character) => AuthenticationRequest.Registered(token, character)
    case Guest(username) => AuthenticationRequest.Guest(username)
  }

  /** The login request carries the stored credentials unchanged: a registered
      user's token and character, a guest's username. */
  lemma LoginCarriesCredentials(auth: AuthenticationRequest)
    ensures CredentialsOf(LoginFor(auth)) == auth
    ensures LoginFor(auth).RegisteredUser? <==> auth.Registered?
  {
  }

  /** `reset_socket`: the whole record is replaced by the default. */
  function ResetSocket(state: SilkState): (r: SilkState)
    ensures r.addr.None? && r.auth.None? && r.id.None? && r.hostId.None?
  {
    DefaultState()
  }

  /** `init_socket`: panics without an address; otherwise opens a socket on
      that URL with the unreliable channel at index 0 and the reliable one at
      index 1. */
  function InitSocket(state: SilkState): (r: Result<SocketBuilder>)
    ensures r.Fatal? <==> state.addr.None?
    ensures r.Fatal? ==> r.panic == NoConfig
    ensures r.Ok? ==> r.value.roomUrl == state.addr.value && |r.value.channels| == 2
    ensures r.Ok? ==> r.value.channels == [UnreliableConfig(), ReliableConfig()]
    ensures r.Ok? ==> NoRetransmit(r.value.channels[UNRELIABLE_CHANNEL_INDEX])
    ensures r.Ok? ==> FullyReliable(r.value.channels[RELIABLE_CHANNEL_INDEX])
  {
    match state.addr
    case None => Fatal(NoConfig)
    case Some(addr) => Ok(WithSilkChannels(addr))
  }

  /** `connection_request_handler`: only the first queued request is looked
      at.  `Connect` acts only while disconnected, storing address and
      credentials and requesting `Establishing`; `Disconnect` always requests
      `Disconnected` and forwards the caller's reason. */
  function ConnectionRequestHandler(state: SilkState, current: ConnectionState, requests: seq<ConnectionRequest>)
    : (e: Effects)
    ensures e.logins == [] && e.state.id == state.id && e.state.hostId == state.hostId
    ensures |requests| == 0 ==> e == Effects(state, None, [], [])
    ensures |requests| > 0 && requests[0].Connect? && current != Disconnected ==>
              e == Effects(state, None, [], [])
    ensures |requests| > 0 && requests[0].Connect? && current == Disconnected ==>
              e.state.addr == Some(requests[0].addr) && e.state.auth == Some(requests[0].auth) &&
              e.next == Some(Establishing) && e.events == []
    ensures |requests| > 0 && requests[0].Disconnect? ==>
              e.state == state && e.next == Some(Disconnected) &&
              e.events == [DisconnectedFromHost(requests[0].reason)]
  {
    if |requests| == 0 then Effects(state, None, [], [])
    else
      match requests[0]
      case Connect(addr, auth) =>
        if current == Disconnected
        then Effects(state.(addr := Some(addr), auth := Some(auth)), Some(Establishing), [], [])
        else Effects(state, None, [], [])
      case Disconnect(reason) =>
        Effects(state, Some(Disconnected), [DisconnectedFromHost(reason)], [])
  }

  /** Requests behind the first have no effect in that tick. */
  lemma OnlyFirstRequestCounts(state: SilkState, current: ConnectionState, requests: seq<ConnectionRequest>)
    ensures ConnectionRequestHandler(state, current, requests) ==
            ConnectionRequestHandler(state, current, requests[..if |requests| == 0 then 0 else 1])
  {
  }

  /** One peer update.  A connected peer becomes the host and the stored
      credentials are taken and sent as a login request (panicking when none
      are stored); a disconnected peer requests `Disconnected` with the fixed
      reason "Server reset". */
  function PeerUpdateStep(state: SilkState, next: Option<ConnectionState>, update: PeerUpdate): Result<Effects>
  {
    match update.1
    case PeerConnected =>
      if state.auth.None? then Fatal(NoAuth)
      else Ok(Effects(state.(hostId := Some(update.0), auth := None), next, [], [LoginFor(state.auth.value)]))
    case PeerDisconnected =>
      Ok(Effects(state, Some(Disconnected), [DisconnectedFromHost(Some(SERVER_RESET))], []))
  }

  /** The loop over one tick's peer updates.  The credentials are consumed by
      the first connected peer, so a batch panics exactly when it holds more
      connected peers than stored credentials; otherwise at most one login
      request goes out, carrying the stored credentials, the host is the
      connected peer, and every disconnected peer adds one "Server reset". */
  function ApplyPeerUpdates(state: SilkState, next: Option<ConnectionState>, updates: seq<PeerUpdate>)
    : (r: Result<Effects>)
    ensures r.Fatal? <==> |PeersIn(updates, PeerConnected)| > (if state.auth.Some? then 1 else 0)
    ensures r.Fatal? ==> r.panic == NoAuth
    ensures r.Ok? ==> r.value.state.addr == state.addr && r.value.state.id == state.id
    ensures r.Ok? ==> |r.value.logins| == |PeersIn(updates, PeerConnected)|
    ensures r.Ok? && |PeersIn(updates, PeerConnected)| == 0 ==> r.value.state == state
    ensures r.Ok? && |PeersIn(updates, PeerConnected)| == 1 ==>
              r.value.logins == [LoginFor(state.auth.value)] && r.value.state.auth.None? &&
              r.value.state.hostId == Some(PeersIn(updates, PeerConnected)[0])
    ensures r.Ok? ==> AllAre(r.value.events, DisconnectedFromHost(Some(SERVER_RESET)),
                             |PeersIn(updates, PeerDisconnected)|)
    ensures r.Ok? ==> r.value.next == (if |PeersIn(updates, PeerDisconnected)| > 0 then Some(Disconnected) else next)
    decreases |updates|
  {
    if |updates| == 0 then Ok(Effects(state, next, [], []))
    else
      match PeerUpdateStep(state, next, updates[0])
      case Fatal(p) => Fatal(p)
      case Ok(first) =>
        match ApplyPeerUpdates(first.state, first.next, updates[1..])
        case Fatal(p) => Fatal(p)
        case Ok(rest) => Ok(Effects(rest.state, rest.next, first.events + rest.events, first.logins + rest.logins))
  }

  /** What the socket reports in one tick.  `peerUpdates` is `None` when
      `try_update_peers` failed, which is only logged. */
  datatype SocketReport = SocketReport(id: Option<PeerId>, peerUpdates: Option<seq<PeerUpdate>>, anyClosed: bool)

  /** The peer updates a report delivers; a failed update delivers none. */
  function Delivered(report: SocketReport): seq<PeerUpdate>
  {
    if report.peerUpdates.Some? then report.peerUpdates.value else []
  }

  /** Where the parts of `client_event_writer`'s output sit: the announcement
      first, then the resets, then the closing event. */
  lemma WriterLayout(announced: seq<ClientEvent>, resets: seq<ClientEvent>, closed: seq<ClientEvent>, left: nat)
    requires |announced| <= 1 && forall i :: 0 <= i < |announced| ==> announced[i].IdAssigned?
    requires AllAre(resets, DisconnectedFromHost(Some(SERVER_RESET)), left)
    requires closed == [] || closed == [DisconnectedFromHost(Some(CONNECTION_CLOSED))]
    ensures var events := announced + resets + closed;
            |events| == |announced| + left + |closed| &&
            AllAre(events[|announced|..|announced| + left], DisconnectedFromHost(Some(SERVER_RESET)), left) &&
            (|events| > 0 && events[0].IdAssigned? <==> |announced| == 1) &&
            (|announced| == 1 ==> events[0] == announced[0]) &&
            (|closed| == 1 ==> events[|events| - 1] == closed[0])
  {
    var events := announced + resets + closed;
    assert events[|announced|..|announced| + left] == resets;
    if |announced| == 0 && |events| > 0 {
      if left > 0 {
        assert events[0] == resets[0];
      } else {
        assert events[0] == closed[0];
      }
    }
  }

  /** `client_event_writer`: latches the local id (announcing it once), applies
      the peer updates, and on a closed channel requests `Disconnected` with
      the fixed reason "Connection closed". */
  function ClientEventWriter(state: SilkState, next: Option<ConnectionState>, report: SocketReport): (r: Result<Effects>)
    ensures r.Fatal? <==> (report.peerUpdates.Some? &&
              |PeersIn(report.peerUpdates.value, PeerConnected)| > (if state.auth.Some? then 1 else 0))
    ensures r.Fatal? ==> r.panic == NoAuth
    ensures r.Ok? ==> r.value.state.id == LatchId(state.id, report.id).id
    ensures r.Ok? ==> r.value.state.addr == state.addr
    ensures r.Ok? ==> (|r.value.events| > 0 && r.value.events[0].IdAssigned? <==>
                       state.id.None? && report.id.Some?)
    ensures r.Ok? && report.anyClosed ==>
              r.value.next == Some(Disconnected) && |r.value.events| > 0 &&
              r.value.events[|r.value.events| - 1] == DisconnectedFromHost(Some(CONNECTION_CLOSED))
    ensures r.Ok? && report.peerUpdates.None? ==> r.value.logins == [] && r.value.state.auth == state.auth
    ensures r.Ok? && state.id.None? && report.id.Some? ==> r.value.events[0] == IdAssigned(report.id.value)
  {
    var latch := LatchId(state.id, report.id);
    var announced := if latch.announced.Some? then [IdAssigned(latch.announced.value)] else [];
    match ApplyPeerUpdates(state.(id := latch.id), next, Delivered(report))
    case Fatal(p) => Fatal(p)
    case Ok(u) =>
      var closed := if report.anyClosed then [DisconnectedFromHost(Some(CONNECTION_CLOSED))] else [];
      WriterLayout(announced, u.events, closed, |PeersIn(Delivered(report), PeerDisconnected)|);
      Ok(Effects(u.state, if report.anyClosed then Some(Disconnected) else u.next,
                 announced + u.events + closed, u.logins))
  }

  /** What `client_event_writer` makes of the delivered peer updates: after
      the announcement, one "Server reset" per departed peer and then the
      closing event, if any.  One connected peer sends one login with the
      stored credentials, consumes them and becomes the host; otherwise no
      login goes out and credentials and host are kept.  Without a closed
      channel a departure requests `Disconnected`, and otherwise the earlier
      request stands. */
  lemma ClientEventWriterFollowsUpdates(state: SilkState, next: Option<ConnectionState>, report: SocketReport)
    requires ClientEventWriter(state, next, report).Ok?
    ensures var r := ClientEventWriter(state, next, report).value;
            var skip := if state.id.None? && report.id.Some? then 1 else 0;
            var left := |PeersIn(Delivered(report), PeerDisconnected)|;
            |r.events| == skip + left + (if report.anyClosed then 1 else 0) &&
            AllAre(r.events[skip..skip + left], DisconnectedFromHost(Some(SERVER_RESET)), left)
    ensures var r := ClientEventWriter(state, next, report).value;
            if |PeersIn(Delivered(report), PeerConnected)| == 1
            then r.logins == [LoginFor(state.auth.value)] && r.state.auth.None? &&
                 r.state.hostId == Some(PeersIn(Delivered(report), PeerConnected)[0])
            else r.logins == [] && r.state.auth == state.auth && r.state.hostId == state.hostId
    ensures var r := ClientEventWriter(state, next, report).value;
            !report.anyClosed ==>
              r.next == (if |PeersIn(Delivered(report), PeerDisconnected)| > 0 then Some(Disconnected) else next)
  {
    var latch := LatchId(state.id, report.id);
    var announced := if latch.announced.Some? then [IdAssigned(latch.announced.value)] else [];
    var u := ApplyPeerUpdates(state.(id := latch.id), next, Delivered(report));
    var closed := if report.anyClosed then [DisconnectedFromHost(Some(CONNECTION_CLOSED))] else [];
    WriterLayout(announced, u.value.events, closed, |PeersIn(Delivered(report), PeerDisconnected)|);
  }

  /** `on_login` over this tick's login responses; the record is not changed. */
  function OnLoginStep(state: SilkState, next: Option<ConnectionState>, responses: seq<LoginResponse>)
    : (r: Result<Effects>)
    ensures r.Fatal? <==> state.hostId.None? && AnyAccepted(responses)
    ensures r.Fatal? ==> r.panic == NoHost
    ensures r.Ok? ==> r.value.state == state && r.value.logins == []
    ensures r.Ok? ==> r.value.next == LastRequested(next, responses) && |r.value.events| == |responses|
  {
    match OnLogin(state.hostId, next, responses)
    case Fatal(p) => Fatal(p)
    case Ok((n, events)) => Ok(Effects(state, n, events, []))
  }

  /** The end-of-tick state transition.  Nothing happens unless a different
      state was requested; entering `Disconnected` closes the socket and
      resets the record, entering `Establishing` opens the socket. */
  function ApplyTransition(current: ConnectionState, next: Option<ConnectionState>, state: SilkState)
    : (r: Result<(ConnectionState, SilkState, SocketCommand)>)
    ensures r.Fatal? <==> next == Some(Establishing) && current != Establishing && state.addr.None?
    ensures r.Ok? ==> r.value.0 == (if next.Some? then next.value else current)
    ensures r.Ok? && next == Some(Disconnected) && current != Disconnected ==>
              r.value.1 == DefaultState() && r.value.2 == CloseSocket
    ensures r.Ok? && next == Some(Establishing) && current != Establishing ==>
              r.value.1 == state && r.value.2 == OpenSocket(InitSocket(state).value)
    ensures r.Ok? && next == Some(Connected) ==> r.value.1 == state && r.value.2 == KeepSocket
    ensures r.Ok? && (next.None? || next == Some(current)) ==> r.value == (current, state, KeepSocket)
    ensures r.Ok? && r.value.2.OpenSocket? ==> next == Some(Establishing) && current != Establishing
    ensures r.Ok? && r.value.2 == CloseSocket ==>
              next == Some(Disconnected) && current != Disconnected && r.value.1 == DefaultState()
  {
    if next.None? || next.value == current then Ok((current, state, KeepSocket))
    else
      match next.value
      case Disconnected => Ok((Disconnected, ResetSocket(state), CloseSocket))
      case Establishing =>
        (match InitSocket(state)
         case Fatal(p) => Fatal(p)
         case Ok(builder) => Ok((Establishing, state, OpenSocket(builder))))
      case Connected => Ok((Connected, state, KeepSocket))
  }

  /** One tick's inputs: queued connection requests, the socket's report when
      a socket exists, and the login responses the router decoded. */
  datatype TickInput = TickInput(
    requests: seq<ConnectionRequest>,
    socket: Option<SocketReport>,
    responses: seq<LoginResponse>)

  datatype TickOutput = TickOutput(
    connection: ConnectionState,
    state: SilkState,
    events: seq<ClientEvent>,
    logins: seq<SilkLoginRequestPayload>,
    command: SocketCommand)

  /** One tick: request handler, socket reader (while a socket exists), login
      reader, then the state transition. */
  function Tick(current: ConnectionState, state: SilkState, input: TickInput): (r: Result<TickOutput>)
    ensures r.Ok? && r.value.command.OpenSocket? ==> current != Establishing && r.value.connection == Establishing
    ensures r.Ok? && r.value.command == CloseSocket ==>
              current != Disconnected && r.value.connection == Disconnected && r.value.state == DefaultState()
    ensures r.Ok? && input.socket.None? ==> r.value.logins == []
  {
    var handled := ConnectionRequestHandler(state, current, input.requests);
    var read := if input.socket.Some? then ClientEventWriter(handled.state, handled.next, input.socket.value)
                else Ok(Effects(handled.state, handled.next, [], []));
    match read
    case Fatal(p) => Fatal(p)
    case Ok(written) =>
      match OnLoginStep(written.state, written.next, input.responses)
      case Fatal(p) => Fatal(p)
      case Ok(login) =>
        match ApplyTransition(current, login.next, login.state)
        case Fatal(p) => Fatal(p)
        case Ok((connection, after, command)) =>
          Ok(TickOutput(connection, after, handled.events + written.events + login.events, written.logins, command))
  }

  /** A `Connect` while establishing or connected changes nothing: the tick
      goes exactly as if the request had not been queued. */
  lemma RedundantConnectIgnored(current: ConnectionState, state: SilkState, input: TickInput,
                                addr: string, auth: AuthenticationRequest, later: seq<ConnectionRequest>)
    requires current != Disconnected
    requires input.requests == [Connect(addr, auth)] + later
    ensures Tick(current, state, input) == Tick(current, state, input.(requests := []))
  {
  }

  /** From `Disconnected`, a `Connect` stores address and credentials, enters
      `Establishing` and opens the socket on that address. */
  lemma ConnectStartsEstablishing(state: SilkState, addr: string, auth: AuthenticationRequest)
    ensures var r := Tick(Disconnected, state, TickInput([Connect(addr, auth)], None, []));
            r.Ok? && r.value.connection == Establishing &&
            r.value.state.addr == Some(addr) && r.value.state.auth == Some(auth) &&
            r.value.command == OpenSocket(WithSilkChannels(addr)) && r.value.events == []
  {
  }

  /** A `Disconnect` request emits exactly one event with the caller's reason;
      from any other state it resets the record and closes the socket. */
  lemma DisconnectTearsDown(current: ConnectionState, state: SilkState, reason: Option<string>)
    ensures var r := Tick(current, state, TickInput([Disconnect(reason)], None, []));
            r.Ok? && r.value.connection == Disconnected &&
            r.value.events == [DisconnectedFromHost(reason)] &&
            (current != Disconnected ==> r.value.state == DefaultState() && r.value.command == CloseSocket)
  {
  }

  /** The host peer connecting while establishing sends exactly one login
      request with the stored credentials, records the host and consumes the
      credentials. */
  lemma HostConnectSendsLogin(state: SilkState, auth: AuthenticationRequest, host: PeerId)
    requires state.auth == Some(auth)
    ensures var r := Tick(Establishing, state,
                          TickInput([], Some(SocketReport(None, Some([(host, PeerConnected)]), false)), []));
            r.Ok? && r.value.connection == Establishing &&
            r.value.logins == [LoginFor(auth)] && r.value.state.hostId == Some(host) &&
            r.value.state.auth.None? && r.value.events == []
  {
  }

  /** A second connected peer in the same batch finds no credentials and panics. */
  lemma DuplicateConnectPanics(state: SilkState, host: PeerId, other: PeerId)
    ensures ApplyPeerUpdates(state, None, [(host, PeerConnected), (other, PeerConnected)]) == Fatal(NoAuth)
  {
    assert PeersIn([(host, PeerConnected), (other, PeerConnected)], PeerConnected) == [host, other];
  }

  /** `Accepted` while establishing connects and announces host and username. */
  lemma AcceptedConnects(state: SilkState, host: PeerId, username: string)
    requires state.hostId == Some(host)
    ensures var r := Tick(Establishing, state, TickInput([], None, [Accepted(username)]));
            r.Ok? && r.value.connection == Connected && r.value.state == state &&
            r.value.events == [ConnectedToHost(host, username)]
  {
  }

  /** `Denied` while establishing disconnects with the host's reason and
      clears the record, host id included. */
  lemma DeniedDisconnects(state: SilkState, reason: Option<string>)
    ensures var r := Tick(Establishing, state, TickInput([], None, [Denied(reason)]));
            r.Ok? && r.value.connection == Disconnected && r.value.state.hostId.None? &&
            r.value.events == [DisconnectedFromHost(reason)] && r.value.command == CloseSocket
  {
  }

  /** The host peer leaving while connected disconnects with "Server reset". */
  lemma HostLeavesServerReset(state: SilkState, host: PeerId)
    ensures var r := Tick(Connected, state,
                          TickInput([], Some(SocketReport(None, Some([(host, PeerDisconnected)]), false)), []));
            r.Ok? && r.value.connection == Disconnected && r.value.state == DefaultState() &&
            r.value.events == [DisconnectedFromHost(Some(SERVER_RESET))]
  {
  }

  /** No tick ever aborts for a missing address: `Establishing` is only ever
      requested together with storing one. */
  lemma TickNeverLacksConfig(current: ConnectionState, state: SilkState, input: TickInput)
    ensures Tick(current, state, input) != Fatal(NoConfig)
  {
    var handled := ConnectionRequestHandler(state, current, input.requests);
    assert handled.next == Some(Establishing) ==> handled.state.addr.Some?;
  }

  /** Every panic of a tick is a missing credential or a missing host. */
  lemma TickPanics(current: ConnectionState, state: SilkState, input: TickInput)
    requires Tick(current, state, input).Fatal?
    ensures Tick(current, state, input).panic in {NoAuth, NoHost}
  {
    TickNeverLacksConfig(current, state, input);
  }

  /** While connected a host is known: the tick that connects needs one, and
      nothing but a reset clears it. */
  lemma ConnectedHasHost(current: ConnectionState, state: SilkState, input: TickInput)
    requires current == Connected ==> state.hostId.Some?
    requires Tick(current, state, input).Ok?
    ensures Tick(current, state, input).value.connection == Connected ==>
            Tick(current, state, input).value.state.hostId.Some?
  {
    var handled := ConnectionRequestHandler(state, current, input.requests);
    if input.socket.Some? {
      var w := ClientEventWriter(handled.state, handled.next, input.socket.value);
      if w.Ok? && w.value.state.hostId.None? {
        assert handled.state.hostId.None?;
      }
    }
  }

  /** A whole guest login, start to finish: connect, the host appears, the
      host accepts. */
  lemma GuestLoginScenario(url: string, host: PeerId, me: PeerId)
    ensures var t1 := Tick(Disconnected, DefaultState(), TickInput([Connect(url, AuthenticationRequest.Guest("alice"))], None, []));
            t1.Ok? && t1.value.connection == Establishing &&
            var t2 := Tick(Establishing, t1.value.state,
                           TickInput([], Some(SocketReport(Some(me), Some([(host, PeerConnected)]), false)), []));
            t2.Ok? && t2.value.logins == [SilkLoginRequestPayload.Guest("alice")] &&
            t2.value.events == [IdAssigned(me)] && t2.value.state.hostId == Some(host) &&
            var t3 := Tick(Establishing, t2.value.state, TickInput([], None, [Accepted("alice")]));
            t3.Ok? && t3.value.connection == Connected && t3.value.events == [ConnectedToHost(host, "alice")]
  {
    var updates: seq<PeerUpdate> := [(host, PeerConnected)];
    assert PeersIn(updates, PeerConnected) == [host];
    assert PeersIn(updates, PeerDisconnected) == [];
  }
}
