/** The `silk-server` plugin: it opens one socket at startup, translates
    what the socket reports into server events every fixed tick, and fans
    the game's broadcast requests out to the connected peers on the right
    channel.  The game's own systems, which run between the two, are a
    parameter of the tick.
 */
module SilkServer {
  import opened Fallible
  import opened SilkCommon

  /** `SocketState`: the signaling server's address and the id it gave us. */
  datatype SocketState = SocketState(addr: ConnectionAddr, id: Option<PeerId>)

  /** `SilkServerEvent`. */
  datatype ServerEvent =
    | IdAssigned(id: PeerId)
    | PeerJoined(peer: PeerId)
    | PeerLeft(peer: PeerId)
    | Message(frame: Frame)

  /** `SilkBroadcastEvent`. */
  datatype BroadcastEvent =
    | UnreliableSendAll(packet: Packet)
    | UnreliableSend(peer: PeerId, packet: Packet)
    | ReliableSendAll(packet: Packet)
    | ReliableSend(peer: PeerId, packet: Packet)

  /** The startup state: the configured address, no id yet. */
  function StartState(addr: ConnectionAddr): (s: SocketState)
    ensures s.addr == addr && s.id.None?
  {
    SocketState(addr, None)
  }

  /** `init_socket`: the builder of `SilkSocket::new(addr)`; the server never
      lacks an address. */
  function InitSocket(state: SocketState): (b: SocketBuilder)
    ensures b.roomUrl == ToUrl(state.addr)
    ensures b.channels == [UnreliableConfig(), ReliableConfig()]
  {
    NewSilkSocket(state.addr)
  }

  /** The server's signaling address can be read back from its room URL. */
  lemma InitSocketReachesSignaler(state: SocketState)
    ensures SplitUrl(InitSocket(state).roomUrl) == Some((HostOf(state.addr), state.addr.port))
  {
    SplitUrlOfToUrl(state.addr);
  }

  // ---------------------------------------------------------------------
  // socket_reader

  /** The event one peer update produces. */
  function PeerEvent(update: PeerUpdate): (e: ServerEvent)
    ensures e.PeerJoined? || e.PeerLeft?
  {
    if update.1 == PeerConnected then PeerJoined(update.0) else PeerLeft(update.0)
  }

  /** The peer update a peer event reports, if it is one. */
  function UpdateOf(e: ServerEvent): Option<PeerUpdate>
  {
    match e
    case PeerJoined(peer) => Some((peer, PeerConnected))
    case PeerLeft(peer) => Some((peer, PeerDisconnected))
    case _ => None
  }

  /** A peer event says exactly what its update said. */
  lemma PeerEventRoundTrip(update: PeerUpdate)
    ensures UpdateOf(PeerEvent(update)) == Some(update)
  {
  }

  /** The peer updates a batch of events reports, in order. */
  function PeerUpdatesOf(events: seq<ServerEvent>): seq<PeerUpdate>
    decreases |events|
  {
    if |events| == 0 then []
    else (match UpdateOf(events[0]) case Some(u) => [u] case None => []) + PeerUpdatesOf(events[1..])
  }

  /** The frames the `Message` events of a batch carry, in order. */
  function Payloads(events: seq<ServerEvent>): seq<Frame>
    decreases |events|
  {
    if |events| == 0 then []
    else (if events[0].Message? then [events[0].frame] else []) + Payloads(events[1..])
  }

  /** How many `IdAssigned` events a batch holds. */
  function IdAnnouncements(events: seq<ServerEvent>): nat
    decreases |events|
  {
    if |events| == 0 then 0
    else (if events[0].IdAssigned? then 1 else 0) + IdAnnouncements(events[1..])
  }

  /** The three projections distribute over concatenation. */
  lemma {:induction false} ProjectionsAppend(a: seq<ServerEvent>, b: seq<ServerEvent>)
    ensures PeerUpdatesOf(a + b) == PeerUpdatesOf(a) + PeerUpdatesOf(b)
    ensures Payloads(a + b) == Payloads(a) + Payloads(b)
    ensures IdAnnouncements(a + b) == IdAnnouncements(a) + IdAnnouncements(b)
    decreases |a|
  {
    if |a| > 0 {
      assert (a + b)[0] == a[0];
      assert (a + b)[1..] == a[1..] + b;
      ProjectionsAppend(a[1..], b);
    } else {
      assert a + b == b;
    }
  }

  /** The peer events of the `update_peers` loop: one per update, in order. */
  function PeerEvents(updates: seq<PeerUpdate>): (r: seq<ServerEvent>)
    ensures |r| == |updates|
    ensures forall i :: 0 <= i < |r| ==> r[i] == PeerEvent(updates[i])
    ensures PeerUpdatesOf(r) == updates
    ensures Payloads(r) == [] && IdAnnouncements(r) == 0
    decreases |updates|
  {
    if |updates| == 0 then []
    else
      var rest := PeerEvents(updates[1..]);
      assert ([PeerEvent(updates[0])] + rest)[1..] == rest;
      [PeerEvent(updates[0])] + rest
  }

  /** One `Message` event per received frame, in order. */
  function MessageEvents(frames: seq<Frame>): (r: seq<ServerEvent>)
    ensures |r| == |frames|
    ensures forall i :: 0 <= i < |r| ==> r[i] == Message(frames[i])
    ensures Payloads(r) == frames
    ensures PeerUpdatesOf(r) == [] && IdAnnouncements(r) == 0
    decreases |frames|
  {
    if |frames| == 0 then []
    else
      var rest := MessageEvents(frames[1..]);
      assert ([Message(frames[0])] + rest)[1..] == rest;
      [Message(frames[0])] + rest
  }

  /** Where the parts of `socket_reader`'s output sit: the announcement
      first, then one event per peer update, then one per frame. */
  lemma EventsLayout(announced: seq<ServerEvent>, peers: seq<ServerEvent>, messages: seq<ServerEvent>,
                     updates: seq<PeerUpdate>, frames: seq<Frame>)
    requires |peers| == |updates| && forall i :: 0 <= i < |updates| ==> peers[i] == PeerEvent(updates[i])
    requires |messages| == |frames| && forall i :: 0 <= i < |frames| ==> messages[i] == Message(frames[i])
    ensures var events := announced + peers + messages;
            (forall i :: 0 <= i < |updates| ==> events[|announced| + i] == PeerEvent(updates[i])) &&
            (forall i :: 0 <= i < |frames| ==> events[|announced| + |updates| + i] == Message(frames[i]))
  {
    var events := announced + peers + messages;
    assert forall i :: 0 <= i < |updates| ==> events[|announced| + i] == peers[i];
    assert forall i :: 0 <= i < |frames| ==> events[|announced| + |updates| + i] == messages[i];
  }

  /** `socket_reader`: the id is latched and announced once, every peer
      update becomes one `PeerJoined`/`PeerLeft` for the same peer in the
      same order, and every reliable frame and then every unreliable frame
      becomes a `Message` event. */
  function SocketReader(state: SocketState, inbox: Inbox): (r: (SocketState, seq<ServerEvent>))
    ensures r.0.addr == state.addr
    ensures r.0.id == LatchId(state.id, inbox.id).id
    ensures IdAnnouncements(r.1) == (if state.id.None? && inbox.id.Some? then 1 else 0)
    ensures |r.1| > 0 && r.1[0].IdAssigned? <==> state.id.None? && inbox.id.Some?
    ensures state.id.None? && inbox.id.Some? ==> r.1[0] == IdAssigned(inbox.id.value)
    ensures PeerUpdatesOf(r.1) == inbox.peerUpdates
    ensures Payloads(r.1) == inbox.reliable + inbox.unreliable
    ensures |r.1| == IdAnnouncements(r.1) + |inbox.peerUpdates| + |inbox.reliable| + |inbox.unreliable|
  {
    var latch := LatchId(state.id, inbox.id);
    var announced := if latch.announced.Some? then [IdAssigned(latch.announced.value)] else [];
    var peers := PeerEvents(inbox.peerUpdates);
    var messages := MessageEvents(inbox.reliable + inbox.unreliable);
    ProjectionsAppend(announced, peers);
    ProjectionsAppend(announced + peers, messages);
    (state.(id := latch.id), announced + peers + messages)
  }

  /** The layout of `socket_reader`'s events: after the announcement, if any,
      one event per peer update in order, then one `Message` per reliable and
      then per unreliable frame. */
  lemma SocketReaderLayout(state: SocketState, inbox: Inbox)
    ensures var events := SocketReader(state, inbox).1;
            var skip := if state.id.None? && inbox.id.Some? then 1 else 0;
            (forall i :: 0 <= i < |inbox.peerUpdates| ==> events[skip + i] == PeerEvent(inbox.peerUpdates[i])) &&
            (forall i :: 0 <= i < |inbox.reliable| + |inbox.unreliable| ==>
               events[skip + |inbox.peerUpdates| + i] == Message((inbox.reliable + inbox.unreliable)[i]))
  {
    var latch := LatchId(state.id, inbox.id);
    var announced := if latch.announced.Some? then [IdAssigned(latch.announced.value)] else [];
    var peers := PeerEvents(inbox.peerUpdates);
    var messages := MessageEvents(inbox.reliable + inbox.unreliable);
    assert SocketReader(state, inbox).1 == announced + peers + messages;
    EventsLayout(announced, peers, messages, inbox.peerUpdates, inbox.reliable + inbox.unreliable);
  }

  /** Once the id is stored, later ticks never announce or change it. */
  lemma IdStaysPut(state: SocketState, inbox: Inbox)
    requires state.id.Some?
    ensures SocketReader(state, inbox).0 == state
    ensures IdAnnouncements(SocketReader(state, inbox).1) == 0
  {
  }

  // ---------------------------------------------------------------------
  // broadcast

  /** One copy of a packet for each peer, in the peers' order, on one channel. */
  function FanOut(channel: nat, peers: seq<PeerId>, packet: Packet): (r: seq<Outbound>)
    ensures |r| == |peers|
    ensures forall i :: 0 <= i < |r| ==> r[i] == Outbound(channel, peers[i], packet)
    decreases |peers|
  {
    if |peers| == 0 then []
    else [Outbound(channel, peers[0], packet)] + FanOut(channel, peers[1..], packet)
  }

  /** No peer is listed twice. */
  predicate NoDuplicates(peers: seq<PeerId>)
  {
    forall i, j :: 0 <= i < j < |peers| ==> peers[i] != peers[j]
  }

  /** The sends of a batch addressed to one peer. */
  function SendsTo(out: seq<Outbound>, peer: PeerId): nat
    decreases |out|
  {
    if |out| == 0 then 0
    else (if out[0].peer == peer then 1 else 0) + SendsTo(out[1..], peer)
  }

  /** Over distinct connected peers, a fan-out reaches every one of them
      exactly once and nobody else. */
  lemma {:induction false} FanOutExactlyOnce(channel: nat, peers: seq<PeerId>, packet: Packet, peer: PeerId)
    requires NoDuplicates(peers)
    ensures SendsTo(FanOut(channel, peers, packet), peer) == (if peer in peers then 1 else 0)
    decreases |peers|
  {
    if |peers| > 0 {
      var rest := FanOut(channel, peers[1..], packet);
      assert FanOut(channel, peers, packet)[1..] == rest;
      FanOutExactlyOnce(channel, peers[1..], packet, peer);
      assert peer in peers <==> peer == peers[0] || peer in peers[1..];
      if peer == peers[0] {
        assert peer !in peers[1..] by {
          forall k | 0 <= k < |peers[1..]|
            ensures peers[1..][k] != peer
          {
            assert peers[1..][k] == peers[k + 1];
          }
        }
      }
    }
  }

  /** What one broadcast event sends: the `*SendAll` kinds one copy per
      connected peer, the single-peer kinds one packet to that peer; the
      `Reliable*` kinds on the reliable channel, the others on the
      unreliable one. */
  function BroadcastOne(event: BroadcastEvent, connected: seq<PeerId>): (r: seq<Outbound>)
    ensures forall o :: o in r ==> o.packet == event.packet
    ensures forall o :: o in r ==>
              (o.channel == RELIABLE_CHANNEL_INDEX <==> event.ReliableSendAll? || event.ReliableSend?) &&
              (o.channel == UNRELIABLE_CHANNEL_INDEX <==> event.UnreliableSendAll? || event.UnreliableSend?)
    ensures (event.UnreliableSend? || event.ReliableSend?) ==>
              |r| == 1 && r[0].peer == event.peer
    ensures (event.UnreliableSendAll? || event.ReliableSendAll?) ==>
              |r| == |connected| && forall i :: 0 <= i < |r| ==> r[i].peer == connected[i]
  {
    match event
    case UnreliableSendAll(packet) => FanOut(UNRELIABLE_CHANNEL_INDEX, connected, packet)
    case UnreliableSend(peer, packet) => [Outbound(UNRELIABLE_CHANNEL_INDEX, peer, packet)]
    case ReliableSendAll(packet) => FanOut(RELIABLE_CHANNEL_INDEX, connected, packet)
    case ReliableSend(peer, packet) => [Outbound(RELIABLE_CHANNEL_INDEX, peer, packet)]
  }

  /** A single-peer send does not depend on who is connected. */
  lemma SingleSendIgnoresConnected(peer: PeerId, packet: Packet, a: seq<PeerId>, b: seq<PeerId>)
    ensures BroadcastOne(ReliableSend(peer, packet), a) == BroadcastOne(ReliableSend(peer, packet), b)
    ensures BroadcastOne(UnreliableSend(peer, packet), a) == BroadcastOne(UnreliableSend(peer, packet), b)
  {
  }

  /** A `*SendAll` over distinct connected peers reaches each exactly once. */
  lemma SendAllReachesEachOnce(event: BroadcastEvent, connected: seq<PeerId>, peer: PeerId)
    requires event.UnreliableSendAll? || event.ReliableSendAll?
    requires NoDuplicates(connected)
    ensures SendsTo(BroadcastOne(event, connected), peer) == (if peer in connected then 1 else 0)
  {
    if event.UnreliableSendAll? {
      FanOutExactlyOnce(UNRELIABLE_CHANNEL_INDEX, connected, event.packet, peer);
    } else {
      FanOutExactlyOnce(RELIABLE_CHANNEL_INDEX, connected, event.packet, peer);
    }
  }

  /** `broadcast`: every queued event in arrival order, each event's sends
      after those of the events before it. */
  function Broadcast(events: seq<BroadcastEvent>, connected: seq<PeerId>): seq<Outbound>
    decreases |events|
  {
    if |events| == 0 then []
    else BroadcastOne(events[0], connected) + Broadcast(events[1..], connected)
  }

  /** Broadcasting two batches is broadcasting the first, then the second. */
  lemma {:induction false} BroadcastAppend(a: seq<BroadcastEvent>, b: seq<BroadcastEvent>, connected: seq<PeerId>)
    ensures Broadcast(a + b, connected) == Broadcast(a, connected) + Broadcast(b, connected)
    decreases |a|
  {
    if |a| == 0 {
      assert a + b == b;
    } else {
      assert (a + b)[0] == a[0];
      assert (a + b)[1..] == a[1..] + b;
      BroadcastAppend(a[1..], b, connected);
    }
  }

  /** The `for_each` over the connected peers: one send per peer, in order. */
  method FanOutLoop(channel: nat, connected: seq<PeerId>, packet: Packet) returns (sent: seq<Outbound>)
    ensures sent == FanOut(channel, connected, packet)
  {
    sent := [];
    var k := 0;
    while k < |connected|
      invariant 0 <= k <= |connected|
      invariant sent == FanOut(channel, connected[..k], packet)
    {
      FanOutSnoc(channel, connected[..k], connected[k], packet);
      assert connected[..k + 1] == connected[..k] + [connected[k]];
      sent := sent + [Outbound(channel, connected[k], packet)];
      k := k + 1;
    }
    assert connected[..k] == connected;
  }

  /** Broadcast as the system performs it: a loop over the queued events,
      with an inner loop over the connected peers for the `*SendAll` kinds. */
  method BroadcastSystem(events: seq<BroadcastEvent>, connected: seq<PeerId>) returns (out: seq<Outbound>)
    ensures out == Broadcast(events, connected)
  {
    out := [];
    var i := 0;
    while i < |events|
      invariant 0 <= i <= |events|
      invariant out == Broadcast(events[..i], connected)
    {
      var event := events[i];
      var sent: seq<Outbound>;
      match event {
        case UnreliableSendAll(packet) =>
          sent := FanOutLoop(UNRELIABLE_CHANNEL_INDEX, connected, packet);
        case UnreliableSend(peer, packet) =>
          sent := [Outbound(UNRELIABLE_CHANNEL_INDEX, peer, packet)];
        case ReliableSendAll(packet) =>
          sent := FanOutLoop(RELIABLE_CHANNEL_INDEX, connected, packet);
        case ReliableSend(peer, packet) =>
          sent := [Outbound(RELIABLE_CHANNEL_INDEX, peer, packet)];
      }
      BroadcastSnoc(events[..i], event, connected);
      assert events[..i + 1] == events[..i] + [event];
      out := out + sent;
      i := i + 1;
    }
    assert events[..i] == events;
  }

  /** Broadcasting one more event appends that event's sends. */
  lemma BroadcastSnoc(events: seq<BroadcastEvent>, event: BroadcastEvent, connected: seq<PeerId>)
    ensures Broadcast(events + [event], connected) == Broadcast(events, connected) + BroadcastOne(event, connected)
  {
    BroadcastAppend(events, [event], connected);
    assert [event][1..] == [];
  }

  /** Fanning out to one more peer appends one send. */
  lemma {:induction false} FanOutSnoc(channel: nat, peers: seq<PeerId>, peer: PeerId, packet: Packet)
    ensures FanOut(channel, peers + [peer], packet) == FanOut(channel, peers, packet) + [Outbound(channel, peer, packet)]
    decreases |peers|
  {
    if |peers| == 0 {
      assert peers + [peer] == [peer];
    } else {
      assert (peers + [peer])[0] == peers[0];
      assert (peers + [peer])[1..] == peers[1..] + [peer];
      FanOutSnoc(channel, peers[1..], peer, packet);
    }
  }

  // ---------------------------------------------------------------------
  // The fixed tick

  /** The plugin's chained system sets, in the order they run. */
  datatype Phase = ReadSocket | ProcessIncomingEvents | UpdateWorldState | ProcessOutgoingEvents | WriteSocket

  const PHASES: seq<Phase> := [ReadSocket, ProcessIncomingEvents, UpdateWorldState, ProcessOutgoingEvents, WriteSocket]

  /** Where a phase runs within the tick. */
  function PhaseIndex(p: Phase): (i: nat)
    ensures i < |PHASES| && PHASES[i] == p
  {
    match p
    case ReadSocket => 0
    case ProcessIncomingEvents => 1
    case UpdateWorldState => 2
    case ProcessOutgoingEvents => 3
    case WriteSocket => 4
  }

  /** Every phase runs exactly once per tick, reading first and writing last. */
  lemma PhasesChain()
    ensures forall i, j :: 0 <= i < j < |PHASES| ==> PHASES[i] != PHASES[j]
    ensures forall p: Phase :: p in PHASES
    ensures PHASES[0] == ReadSocket && PHASES[|PHASES| - 1] == WriteSocket
  {
    forall p: Phase ensures p in PHASES {
      assert PHASES[PhaseIndex(p)] == p;
    }
  }

  /** One fixed tick: `socket_reader` (ReadSocket), the game's systems (the
      three middle phases, a parameter from this tick's events to its
      broadcast requests), then `broadcast` (WriteSocket). */
  function ServerTick(state: SocketState, inbox: Inbox, connected: seq<PeerId>,
                      game: seq<ServerEvent> -> seq<BroadcastEvent>): (r: (SocketState, seq<ServerEvent>, seq<Outbound>))
    ensures r.0 == SocketReader(state, inbox).0
    ensures PeerUpdatesOf(r.1) == inbox.peerUpdates
    ensures Payloads(r.1) == inbox.reliable + inbox.unreliable
    ensures game(r.1) == [] ==> r.2 == []
  {
    var (after, events) := SocketReader(state, inbox);
    (after, events, Broadcast(game(events), connected))
  }
}
