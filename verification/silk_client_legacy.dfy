/** The oldest client, `silk-client/src/lib.rs`: no login handshake.  The
    connection state is written directly by the systems (not through
    `NextState`), so a tick is the three systems in turn, each seeing the
    previous one's writes.  A reset keeps the address so that the client can
    reconnect; `Disconnect` is honoured only while connected.
 */
module SilkClientLegacy {
  import opened Fallible
  import opened SilkCommon

  /** `ConnectionState` of this crate. */
  datatype ConnectionState = Disconnected | Connecting | Connected

  /** `SocketState`. */
  datatype SocketState = SocketState(addr: Option<ConnectionAddr>, hostId: Option<PeerId>, id: Option<PeerId>)

  /** `SocketState::default()`. */
  function DefaultState(): SocketState
  {
    SocketState(None, None, None)
  }

  /** `ConnectionRequest`: the signaling server's IP and port, or a disconnect. */
  datatype ConnectionRequest = Connect(ip: string, port: Port) | Disconnect

  /** `SilkSocketEvent`. */
  datatype SocketEvent =
    | IdAssigned(id: PeerId)
    | ConnectedToHost(host: PeerId)
    | DisconnectedFromHost
    | Message(frame: Frame)

  /** `SilkSendEvent`: a packet for the host on one of the two channels. */
  datatype SendEvent = ReliableSend(packet: Packet) | UnreliableSend(packet: Packet)

  /** What one system leaves behind: the connection state, the record, the
      events it wrote, and whether it closed the socket. */
  datatype Step = Step(connection: ConnectionState, state: SocketState, events: seq<SocketEvent>, closeSocket: bool)

  /** `init_socket`: panics without an address, else opens `SilkSocket::new(addr)`. */
  function InitSocket(state: SocketState): (r: Result<SocketBuilder>)
    ensures r.Fatal? <==> state.addr.None?
    ensures r.Fatal? ==> r.panic == NoConfig
    ensures r.Ok? ==> r.value.roomUrl == ToUrl(state.addr.value)
    ensures r.Ok? ==> r.value.channels == [UnreliableConfig(), ReliableConfig()]
  {
    match state.addr
    case None => Fatal(NoConfig)
    case Some(addr) => Ok(NewSilkSocket(addr))
  }

  /** `reset_socket`: the host and the local id are forgotten, the address is kept. */
  function ResetSocket(state: SocketState): (r: SocketState)
    ensures r.addr == state.addr && r.hostId.None? && r.id.None?
  {
    SocketState(state.addr, None, None)
  }

  /** Because the address survives a reset, opening a socket after a reset
      reaches the same signaling server as before, and a second reset
      changes nothing. */
  lemma ResetKeepsReconnect(state: SocketState)
    ensures InitSocket(ResetSocket(state)) == InitSocket(state)
    ensures ResetSocket(ResetSocket(state)) == ResetSocket(state)
  {
  }

  /** `event_reader`: only the first request is looked at.  `Connect` acts
      only while disconnected, storing `Remote{ip, port}` and moving to
      `Connecting`; `Disconnect` acts only while connected, resetting the
      record, closing the socket, emitting `DisconnectedFromHost` and moving
      to `Disconnected`. */
  function EventReader(connection: ConnectionState, state: SocketState, requests: seq<ConnectionRequest>)
    : (r: Step)
    ensures r.connection == connection ==> r == Step(connection, state, [], false)
    ensures r.connection != connection <==>
              |requests| > 0 &&
              ((requests[0].Connect? && connection == Disconnected) ||
               (requests[0].Disconnect? && connection == Connected))
    ensures |requests| > 0 && requests[0].Connect? && connection == Disconnected ==>
              r == Step(Connecting, state.(addr := Some(Remote(requests[0].ip, requests[0].port))), [], false)
    ensures |requests| > 0 && requests[0].Disconnect? && connection == Connected ==>
              r == Step(Disconnected, ResetSocket(state), [DisconnectedFromHost], true)
  {
    if |requests| == 0 then Step(connection, state, [], false)
    else
      match requests[0]
      case Connect(ip, port) =>
        if connection == Disconnected
        then Step(Connecting, state.(addr := Some(Remote(ip, port))), [], false)
        else Step(connection, state, [], false)
      case Disconnect =>
        if connection == Connected
        then Step(Disconnected, ResetSocket(state), [DisconnectedFromHost], true)
        else Step(connection, state, [], false)
  }

  /** Requests after the first wait for a later tick. */
  lemma OnlyFirstRequestCounts(connection: ConnectionState, state: SocketState,
                               first: ConnectionRequest, later: seq<ConnectionRequest>)
    ensures EventReader(connection, state, [first] + later) == EventReader(connection, state, [first])
  {
  }

  /** The event one peer update produces. */
  function PeerEvent(update: PeerUpdate): SocketEvent
  {
    if update.1 == PeerConnected then ConnectedToHost(update.0) else DisconnectedFromHost
  }

  /** The `update_peers` loop of `event_writer`: each connected peer becomes
      the host and moves the client to `Connected`, each departed peer clears
      the host and moves it to `Disconnected`; one event per update, in order.
      The last update therefore decides both the host and the state. */
  function ApplyPeerUpdates(connection: ConnectionState, state: SocketState, updates: seq<PeerUpdate>)
    : (r: Step)
    ensures |r.events| == |updates|
    ensures forall i :: 0 <= i < |updates| ==> r.events[i] == PeerEvent(updates[i])
    ensures r.state.addr == state.addr && r.state.id == state.id && !r.closeSocket
    ensures |updates| == 0 ==> r.connection == connection && r.state.hostId == state.hostId
    ensures |updates| > 0 ==>
              var last := updates[|updates| - 1];
              (last.1 == PeerConnected ==> r.connection == Connected && r.state.hostId == Some(last.0)) &&
              (last.1 == PeerDisconnected ==> r.connection == Disconnected && r.state.hostId.None?)
    decreases |updates|
  {
    if |updates| == 0 then Step(connection, state, [], false)
    else
      var (peer, st) := updates[0];
      var first := if st == PeerConnected
                   then Step(Connected, state.(hostId := Some(peer)), [ConnectedToHost(peer)], false)
                   else Step(Disconnected, state.(hostId := None), [DisconnectedFromHost], false);
      var rest := ApplyPeerUpdates(first.connection, first.state, updates[1..]);
      Step(rest.connection, rest.state, first.events + rest.events, false)
  }

  /** The frames the `Message` events of a batch carry, in order. */
  function Payloads(events: seq<SocketEvent>): seq<Frame>
    decreases |events|
  {
    if |events| == 0 then []
    else (if events[0].Message? then [events[0].frame] else []) + Payloads(events[1..])
  }

  /** Payloads distribute over concatenation. */
  lemma {:induction false} PayloadsAppend(a: seq<SocketEvent>, b: seq<SocketEvent>)
    ensures Payloads(a + b) == Payloads(a) + Payloads(b)
    decreases |a|
  {
    if |a| > 0 {
      assert (a + b)[0] == a[0];
      assert (a + b)[1..] == a[1..] + b;
      PayloadsAppend(a[1..], b);
    } else {
      assert a + b == b;
    }
  }

  /** One `Message` event per received frame, in order. */
  function MessageEvents(frames: seq<Frame>): (r: seq<SocketEvent>)
    ensures |r| == |frames|
    ensures Payloads(r) == frames
    ensures forall i :: 0 <= i < |r| ==> r[i].Message?
    decreases |frames|
  {
    if |frames| == 0 then []
    else
      var rest := MessageEvents(frames[1..]);
      assert ([Message(frames[0])] + rest)[1..] == rest;
      [Message(frames[0])] + rest
  }

  /** Peer events carry no payload. */
  lemma {:induction false} PeerEventsCarryNothing(events: seq<SocketEvent>)
    requires forall i :: 0 <= i < |events| ==> !events[i].Message?
    ensures Payloads(events) == []
    decreases |events|
  {
    if |events| > 0 {
      PeerEventsCarryNothing(events[1..]);
    }
  }

  /** The `IdAssigned` event a latch announces, if any. */
  function Announcement(latch: Latch): (a: seq<SocketEvent>)
    ensures latch.announced.Some? ==> a == [IdAssigned(latch.announced.value)]
    ensures latch.announced.None? ==> a == []
  {
    if latch.announced.Some? then [IdAssigned(latch.announced.value)] else []
  }

  /** Where the parts of `event_writer`'s output sit: the announcement first,
      then one event per peer update, then the messages. */
  lemma EventsLayout(announced: seq<SocketEvent>, peers: seq<SocketEvent>, messages: seq<SocketEvent>,
                     updates: seq<PeerUpdate>)
    requires |announced| <= 1 && forall i :: 0 <= i < |announced| ==> announced[i].IdAssigned?
    requires |peers| == |updates| && forall i :: 0 <= i < |updates| ==> peers[i] == PeerEvent(updates[i])
    requires forall i :: 0 <= i < |messages| ==> messages[i].Message?
    ensures var events := announced + peers + messages;
            (|events| > 0 && events[0].IdAssigned? <==> |announced| == 1) &&
            (|announced| == 1 ==> events[0] == announced[0]) &&
            (forall i :: 0 <= i < |updates| ==> events[|announced| + i] == PeerEvent(updates[i])) &&
            |events| == |announced| + |updates| + |messages| &&
            Payloads(events) == Payloads(messages)
  {
    var events := announced + peers + messages;
    if |announced| == 0 && |events| > 0 {
      if |peers| > 0 {
        assert events[0] == PeerEvent(updates[0]);
      } else {
        assert events[0] == messages[0];
      }
    }
    assert forall i :: 0 <= i < |updates| ==> events[|announced| + i] == peers[i];
    PeerEventsCarryNothing(announced + peers);
    PayloadsAppend(announced + peers, messages);
  }

  /** The events `event_writer` emits around the peer events it is given:
      the announcement first, then the peer events, then every reliable frame
      and after them every unreliable frame as a `Message` event. */
  function InboxEvents(announced: seq<SocketEvent>, peers: seq<SocketEvent>, inbox: Inbox): (events: seq<SocketEvent>)
    requires |announced| <= 1 && forall i :: 0 <= i < |announced| ==> announced[i].IdAssigned?
    requires |peers| == |inbox.peerUpdates|
    requires forall i :: 0 <= i < |inbox.peerUpdates| ==> peers[i] == PeerEvent(inbox.peerUpdates[i])
    ensures |events| > 0 && events[0].IdAssigned? <==> |announced| == 1
    ensures |announced| == 1 ==> events[0] == announced[0]
    ensures |events| == |announced| + |inbox.peerUpdates| + |inbox.reliable| + |inbox.unreliable|
    ensures forall i :: 0 <= i < |inbox.peerUpdates| ==> events[|announced| + i] == PeerEvent(inbox.peerUpdates[i])
    ensures Payloads(events) == inbox.reliable + inbox.unreliable
  {
    var messages := MessageEvents(inbox.reliable + inbox.unreliable);
    EventsLayout(announced, peers, messages, inbox.peerUpdates);
    announced + peers + messages
  }

  /** What `event_writer` does with a socket: the id is latched (announced
      once), then the peer updates are applied, then every reliable frame and
      after them every unreliable frame becomes a `Message` event. */
  function WriteInbox(connection: ConnectionState, state: SocketState, inbox: Inbox): (r: Step)
    ensures !r.closeSocket && r.state.addr == state.addr
    ensures r.state.id == LatchId(state.id, inbox.id).id
    ensures |r.events| > 0 && r.events[0].IdAssigned? <==> state.id.None? && inbox.id.Some?
    ensures state.id.None? && inbox.id.Some? ==> r.events[0] == IdAssigned(inbox.id.value)
    ensures var skip := if state.id.None? && inbox.id.Some? then 1 else 0;
            |r.events| == skip + |inbox.peerUpdates| + |inbox.reliable| + |inbox.unreliable| &&
            forall i :: 0 <= i < |inbox.peerUpdates| ==> r.events[skip + i] == PeerEvent(inbox.peerUpdates[i])
    ensures Payloads(r.events) == inbox.reliable + inbox.unreliable
    ensures |inbox.peerUpdates| == 0 ==> r.connection == connection && r.state.hostId == state.hostId
    ensures |inbox.peerUpdates| > 0 ==>
              var last := inbox.peerUpdates[|inbox.peerUpdates| - 1];
              (last.1 == PeerConnected ==> r.connection == Connected && r.state.hostId == Some(last.0)) &&
              (last.1 == PeerDisconnected ==> r.connection == Disconnected && r.state.hostId.None?)
  {
    var latch := LatchId(state.id, inbox.id);
    var announced := Announcement(latch);
    var peers := ApplyPeerUpdates(connection, state.(id := latch.id), inbox.peerUpdates);
    assert |announced| == if state.id.None? && inbox.id.Some? then 1 else 0;
    assert |announced| == 1 ==> announced[0] == IdAssigned(inbox.id.value);
    Step(peers.connection, peers.state, InboxEvents(announced, peers.events, inbox), false)
  }

  /** `event_writer`: without a socket nothing happens; with one, the inbox
      is written out by `WriteInbox`. */
  function EventWriter(connection: ConnectionState, state: SocketState, socket: Option<Inbox>): (r: Step)
    ensures socket.None? ==> r == Step(connection, state, [], false)
    ensures socket.Some? ==> r == WriteInbox(connection, state, socket.value)
    ensures !r.closeSocket && r.state.addr == state.addr
  {
    match socket
    case None => Step(connection, state, [], false)
    case Some(inbox) => WriteInbox(connection, state, inbox)
  }

  /** Received frames never change the connection state or the record. */
  lemma MessagesDoNotSteer(connection: ConnectionState, state: SocketState, inbox: Inbox)
    ensures var a := EventWriter(connection, state, Some(inbox));
            var b := EventWriter(connection, state, Some(inbox.(reliable := [], unreliable := [])));
            a.connection == b.connection && a.state == b.state
  {
  }

  /** The channel a send event asks for. */
  function ChannelOf(send: SendEvent): nat
  {
    if send.ReliableSend? then RELIABLE_CHANNEL_INDEX else UNRELIABLE_CHANNEL_INDEX
  }

  /** `event_sender`: with a socket, the first queued send event (only) goes
      to the host on its channel, panicking when no host is known. */
  function EventSender(state: SocketState, socketPresent: bool, sends: seq<SendEvent>): (r: Result<seq<Outbound>>)
    ensures !socketPresent || |sends| == 0 ==> r == Ok([])
    ensures r.Fatal? <==> socketPresent && |sends| > 0 && state.hostId.None?
    ensures r.Fatal? ==> r.panic == NoHost
    ensures r.Ok? ==> |r.value| <= 1
    ensures r.Ok? ==> forall o :: o in r.value ==>
              o.peer == state.hostId.value && o.packet == sends[0].packet &&
              (o.channel == RELIABLE_CHANNEL_INDEX <==> sends[0].ReliableSend?) &&
              (o.channel == UNRELIABLE_CHANNEL_INDEX <==> sends[0].UnreliableSend?)
    ensures socketPresent && |sends| > 0 && state.hostId.Some? ==> |r.value| == 1
  {
    if !socketPresent || |sends| == 0 then Ok([])
    else if state.hostId.None? then Fatal(NoHost)
    else Ok([Outbound(ChannelOf(sends[0]), state.hostId.value, sends[0].packet)])
  }

  /** Later send events of a tick are never sent by that tick. */
  lemma OnlyFirstSendCounts(state: SocketState, socketPresent: bool, first: SendEvent, later: seq<SendEvent>)
    ensures EventSender(state, socketPresent, [first] + later) == EventSender(state, socketPresent, [first])
  {
  }

  datatype TickInput = TickInput(requests: seq<ConnectionRequest>, socket: Option<Inbox>, sends: seq<SendEvent>)

  datatype TickOutput = TickOutput(
    connection: ConnectionState,
    state: SocketState,
    events: seq<SocketEvent>,
    outbound: seq<Outbound>,
    closeSocket: bool)

  /** One tick: `event_reader`, `event_writer`, then `event_sender`.  A socket
      closed by the reader is still present until the tick's commands apply. */
  function Tick(connection: ConnectionState, state: SocketState, input: TickInput): (r: Result<TickOutput>)
    ensures r.Fatal? ==> r.panic == NoHost && input.socket.Some? && |input.sends| > 0
    ensures r.Ok? ==> |r.value.outbound| <= 1 && (input.socket.None? ==> r.value.outbound == [])
    ensures r.Ok? && r.value.closeSocket ==>
              connection == Connected && |input.requests| > 0 && input.requests[0].Disconnect?
    ensures r.Ok? && input.socket.None? ==>
              r.value.state.hostId == (if r.value.closeSocket then None else state.hostId)
  {
    var read := EventReader(connection, state, input.requests);
    var written := EventWriter(read.connection, read.state, input.socket);
    match EventSender(written.state, input.socket.Some?, input.sends)
    case Fatal(p) => Fatal(p)
    case Ok(outbound) =>
      Ok(TickOutput(written.connection, written.state, read.events + written.events, outbound, read.closeSocket))
  }

  /** Whether the record agrees with the connection state: a host is known
      exactly while connected. */
  predicate Consistent(connection: ConnectionState, state: SocketState)
  {
    state.hostId.Some? <==> connection == Connected
  }

  /** Every tick keeps the record consistent with the connection state. */
  lemma TickKeepsConsistent(connection: ConnectionState, state: SocketState, input: TickInput)
    requires Consistent(connection, state)
    requires Tick(connection, state, input).Ok?
    ensures Consistent(Tick(connection, state, input).value.connection, Tick(connection, state, input).value.state)
  {
  }

  /** The default record is consistent with the initial state. */
  lemma StartConsistent()
    ensures Consistent(Disconnected, DefaultState())
  {
  }

  /** A `Connect` while connecting or connected changes nothing. */
  lemma RedundantConnectIgnored(connection: ConnectionState, state: SocketState, input: TickInput,
                                ip: string, port: Port, later: seq<ConnectionRequest>)
    requires connection != Disconnected
    requires input.requests == [Connect(ip, port)] + later
    ensures Tick(connection, state, input) == Tick(connection, state, input.(requests := []))
  {
  }

  /** A `Disconnect` while not connected changes nothing. */
  lemma EarlyDisconnectIgnored(connection: ConnectionState, state: SocketState, input: TickInput,
                               later: seq<ConnectionRequest>)
    requires connection != Connected
    requires input.requests == [Disconnect] + later
    ensures Tick(connection, state, input) == Tick(connection, state, input.(requests := []))
  {
  }

  /** From `Disconnected`, a `Connect` stores the remote address and moves
      to `Connecting`; nothing else happens in that tick. */
  lemma ConnectStartsConnecting(state: SocketState, ip: string, port: Port)
    ensures Tick(Disconnected, state, TickInput([Connect(ip, port)], None, [])) ==
            Ok(TickOutput(Connecting, state.(addr := Some(Remote(ip, port))), [], [], false))
  {
    var none: seq<SocketEvent> := [];
    assert none + none == none;
  }

  /** While connected, a `Disconnect` emits one event, closes the socket and
      keeps only the address. */
  lemma DisconnectKeepsAddress(state: SocketState)
    ensures Tick(Connected, state, TickInput([Disconnect], None, [])) ==
            Ok(TickOutput(Disconnected, SocketState(state.addr, None, None), [DisconnectedFromHost], [], true))
  {
    assert [DisconnectedFromHost] + [] == [DisconnectedFromHost];
  }

  /** The host peer connecting records the host, connects and announces it. */
  lemma HostConnects(state: SocketState, host: PeerId)
    ensures Tick(Connecting, state, TickInput([], Some(Inbox(None, [(host, PeerConnected)], [], [])), [])) ==
            Ok(TickOutput(Connected, state.(hostId := Some(host)), [ConnectedToHost(host)], [], false))
  {
    var w := EventWriter(Connecting, state, Some(Inbox(None, [(host, PeerConnected)], [], [])));
    assert w.events == [ConnectedToHost(host)];
    assert [] + w.events == w.events;
  }

  /** Once a host is known, a reliable send goes to it on channel 1. */
  lemma ReliableSendReachesHost(state: SocketState, host: PeerId, packet: Packet)
    requires state.hostId == Some(host)
    ensures var r := Tick(Connected, state, TickInput([], Some(Inbox(None, [], [], [])), [ReliableSend(packet)]));
            r.Ok? && r.value.outbound == [Outbound(1, host, packet)]
  {
  }

  /** Sending before any host is known panics. */
  lemma SendWithoutHostPanics(state: SocketState, inbox: Inbox, send: SendEvent)
    requires state.hostId.None? && |inbox.peerUpdates| == 0
    ensures Tick(Connecting, state, TickInput([], Some(inbox), [send])) == Fatal(NoHost)
  {
  }
}
