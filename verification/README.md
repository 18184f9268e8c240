# bevy-rtc (silk) networking core, modelled in Dafny

This project models the core of the silk networking layer of bevy-rtc in
Dafny and proves properties of the model. Silk is a client–server layer over
a two-channel matchbox WebRTC socket. The model covers:

- **Three client session state machines**, one per generation of the client:
  - `bevy-silk` (module `BevySilkClient`): the newest client. It has a login
    handshake with a host peer.
  - the `silk-client` systems (module `SilkClientSystems`): the same handshake,
    with `PlayerAuthentication` credentials and an IP/port address.
  - the `silk-client` plugin of `lib.rs` (module `SilkClientLegacy`): the
    oldest client, with no handshake.

  Each Bevy system is a pure function of the session record and one tick's
  inputs. A tick composes the systems in a fixed order. A `panic!` or
  `Option::unwrap` on `None` becomes a `Fatal` result that names the panic
  (module `Fallible`).
- **The typed message router** (modules `ClientRouter` and `ServerReceive`):
  - registering a payload type;
  - the per-type incoming queue, which is flushed and refilled with the decodable
    frames each tick.
- **The server plugin** (module `SilkServer`):
  - translating what the socket reports into server events;
  - fanning broadcast requests out to peers and channels;
  - the chained phases of the fixed tick.
- **The shared socket configuration** (module `SilkCommon`): the channel indices
  and policies, `ConnectionAddr::to_url`, and the local-id latch that every
  socket reader uses.

Module `Session` holds what the two handshake clients share: the connection
states, the client events, the login responses, and `on_login`. The two
clients' `on_login` and `on_login_accepted` are identical.

Modelling conventions:

- **The socket is abstract.** Each tick it reports:
  - the local id, if the signaling server has assigned one;
  - the drained peer updates;
  - the frames received on the reliable and the unreliable channel;
  - for `bevy-silk`, whether a channel closed.

  What the model emits towards the socket:
  - `Outbound(channel, peer, packet)` values;
  - login payloads queued for the host;
  - a `SocketCommand`: keep, open with a builder, or close.
- **Payload decoding** (`M::from_packet`) is a parameter: any function from
  packets to `Option<M>`.
- **`NextState::set` is last write wins** (the two handshake clients). The
  requested state is carried through the tick's systems, and each write
  replaces the previous one. At the end of the tick the transition is applied.
  The `OnEnter` hooks run only when the state actually changes:
  - entering `Establishing` runs `init_socket`;
  - entering `Disconnected` runs `reset_socket`.
- **The legacy client writes `State` directly.** Each system sees the previous
  system's writes at once. No `OnEnter` hook is part of its tick, so its
  `init_socket` is a separate operation.
- **System order within a tick** (the plugin files are not part of this model):
  - handshake clients: request handler, then socket reader, then login reader;
  - legacy client: `event_reader`, then `event_writer`, then `event_sender`.

## Model

| member | source | states |
|---|---|---|
| Fallible.MessageNamesPanic | bevy-silk/src/client/systems.rs:35 | Each panic site aborts with its own message: two panics give the same message exactly when they are the same panic. This covers the missing config, the missing auth, unwrapping an empty host id and the duplicate registration, which also names the type. |
| SilkCommon.WithSilkChannels | silk-common/src/lib.rs:41-46 | The builder has exactly two channels. Channel 0 is ordered and never retransmits; channel 1 is fully reliable. |
| SilkCommon.NewSilkSocket | silk-common/src/lib.rs:39-49 | `SilkSocket::new(addr)` builds on the room URL `addr.to_url()`, with the two Silk channels in index order. |
| SilkCommon.AddChannel | silk-common/src/lib.rs:42-46 | Each added channel takes the next free index; earlier channels and the room URL are kept. |
| SilkCommon.ChannelsDistinct | silk-common/src/lib.rs:33-35 | The unreliable index 0 and the reliable index 1 differ, and the channels at those indices have opposite policies. |
| SilkCommon.ToUrl | silk-common/src/lib.rs:84-93 | Every room URL starts with `ws://` and ends with `/`. |
| SilkCommon.ToUrlShape | silk-common/src/lib.rs:85-92 | `Local{port}` renders as `ws://0.0.0.0:<port>/` and `Remote{ip, port}` as `ws://<ip>:<port>/`. |
| SilkCommon.LocalIsAnyAddress | silk-common/src/lib.rs:86-91 | A local address gives the same URL as the remote address `0.0.0.0` on the same port. |
| SilkCommon.Decimal | silk-common/src/lib.rs:87 | A port is rendered in decimal: non-empty, digits only, no leading zero. |
| SilkCommon.ParseDecimalOfDecimal | silk-common/src/lib.rs:87 | Reading the decimal rendering back gives the number. |
| SilkCommon.SplitUrlOfToUrl | silk-common/src/lib.rs:84-93 | `to_url` loses nothing: host and port can be read back from the URL. |
| SilkCommon.ToUrlInjective | silk-common/src/lib.rs:84-93 | Two addresses give the same URL exactly when they have the same host and port. |
| SilkCommon.LatchId | silk-client/src/lib.rs:160-165 | The id is announced exactly when none was stored and the socket reports one. The announced id is the reported one and becomes the stored id. A stored id is never replaced; with none stored, the reported id (or none) is kept. |
| SilkCommon.LatchFiresOnce | silk-server/src/lib.rs:75-80 | Over any run of ticks the id is announced at most once, never once stored, and a stored id never changes. |
| ServerReceive.Flush | crates/silk-server/src/router/receive.rs:13-18 | After `flush` the queue is empty. |
| ServerReceive.ReadSystem | crates/silk-server/src/router/receive.rs:20-34 | The loop appends the sender-tagged decodable messages, in event order, after the existing contents. The `read` counter equals the number of decodable packets, which is also how much the queue grew. |
| ServerReceive.DecodedMembership | crates/silk-server/src/router/receive.rs:25-29 | A `(peer, m)` is queued exactly when some event came from `peer` and decodes to `m`. |
| ServerReceive.DecodedLength | crates/silk-server/src/router/receive.rs:24-31 | One message per decodable packet, none for the rest. |
| ServerReceive.DecodedAppend | crates/silk-server/src/router/receive.rs:25-28 | Decoding two batches in turn is decoding their concatenation: order is preserved. |
| ServerReceive.UndecodableIgnored | crates/silk-server/src/router/receive.rs:26 | Packets that decode to nothing are skipped silently. |
| ServerReceive.OneTickOfHistory | crates/silk-server/src/router/receive.rs:13-34 | Flush followed by read leaves exactly this tick's decodable messages, whatever the queue held before. |
| ClientRouter.AddNetworkMessage | bevy-silk/src/client/router/mod.rs:17-31 | Registration panics exactly when either resource of the type exists. Otherwise the incoming queue and both outgoing queues start empty, and every other type's resources are unchanged. |
| ClientRouter.RegisterTwiceFails | bevy-silk/src/client/router/mod.rs:22-26 | Registering the same type a second time always panics. |
| ClientRouter.RegisterAllSucceeds | bevy-silk/src/client/router/mod.rs:22-31 | Registering a list of types succeeds exactly when no name repeats and none was registered before. Every listed type then has an empty queue. |
| ClientRouter.RegisteredStays | bevy-silk/src/client/router/mod.rs:27-31 | Registering other types never disturbs an existing incoming queue. |
| ClientRouter.InboundTick | bevy-silk/src/client/router/mod.rs:32-40 | Without a socket resource the queue is untouched. With one, flush and then decode leave exactly the decodable frames the common reader produced. |
| ClientRouter.InboundPhase | bevy-silk/src/client/router/mod.rs:32-46 | The inbound phase touches every registered type's incoming queue and no outgoing queue. |
| ClientRouter.InboundForgetsPreviousTick | bevy-silk/src/client/router/mod.rs:35-38 | With a socket, a queue after the inbound phase does not depend on what it held before. |
| Session.PeersIn | bevy-silk/src/client/systems.rs:105-137 | The peers a batch reports in one state are exactly those its updates pair with that state, never more than there are updates. |
| Session.OnLogin | bevy-silk/src/client/systems.rs:153-178 | Panics exactly when a response is `Accepted` and no host is stored. The last response decides the requested state. There is one event per response, in order: `ConnectedToHost{host, username}` for `Accepted` and `DisconnectedFromHost{reason}` for `Denied`. |
| BevySilkClient.LoginCarriesCredentials | bevy-silk/src/client/systems.rs:112-127 | `Registered{access_token, character}` becomes `RegisteredUser` with the same fields, and `Guest{username}` becomes `Guest{username}`. The credentials can be read back unchanged. |
| BevySilkClient.ResetSocket | bevy-silk/src/client/systems.rs:40-46 | The whole record is cleared. |
| BevySilkClient.InitSocket | bevy-silk/src/client/systems.rs:18-37 | Panics exactly when no address is stored. Otherwise it builds on that URL string with exactly two channels, the unreliable one first: channel 0 never retransmits and channel 1 is reliable. |
| BevySilkClient.ConnectionRequestHandler | bevy-silk/src/client/systems.rs:49-82 | Only the first request is read. `Connect` stores address and credentials and requests `Establishing` only while `Disconnected`, and is a no-op otherwise. `Disconnect` requests `Disconnected` from any state and emits one event with the caller's reason. |
| BevySilkClient.OnlyFirstRequestCounts | bevy-silk/src/client/systems.rs:56 | Requests behind the first have no effect in that tick. |
| BevySilkClient.ApplyPeerUpdates | bevy-silk/src/client/systems.rs:105-137 | Panics exactly when the batch holds more connected peers than stored credentials (none or one). Otherwise one login is queued per connected peer, the credentials are consumed, the host is recorded, and each departed peer adds one "Server reset" disconnect. |
| BevySilkClient.ClientEventWriter | bevy-silk/src/client/systems.rs:85-150 | Panics exactly when the delivered updates hold more connected peers than stored credentials, with "no auth set". The id is latched, and a newly assigned id is announced first with the reported value. A closed channel requests `Disconnected` and ends the events with "Connection closed". An error reading peer updates skips them, so no login goes out and the credentials stay. |
| BevySilkClient.ClientEventWriterFollowsUpdates | bevy-silk/src/client/systems.rs:100-150 | After the announcement come one "Server reset" per departed peer and then the closing event, if any. One connected peer sends one login with the stored credentials, consumes them and becomes the host; otherwise no login goes out and credentials and host are kept. Without a closed channel, a departure requests `Disconnected`, and otherwise the earlier request stands. |
| BevySilkClient.OnLoginStep | bevy-silk/src/client/systems.rs:153-178 | Leaves the record unchanged, panics exactly on an `Accepted` without a host, and the last response decides the requested state. |
| BevySilkClient.ApplyTransition | bevy-silk/src/client/systems.rs:18-46 | Nothing happens without a real change of state. Entering `Disconnected` clears the record and closes the socket. Entering `Establishing` keeps the record and opens the socket `init_socket` builds, panicking without an address. Entering `Connected` keeps the record and the socket. Conversely, a socket is opened only on entering `Establishing` and closed only on entering `Disconnected`. |
| BevySilkClient.Tick | bevy-silk/src/client/systems.rs:18-177 | One tick runs request handler, event writer and login reader in that assumed order, then the state change. It opens a socket only on entering `Establishing`, closes one only on entering `Disconnected` with the default record, and sends no login without a socket. |
| BevySilkClient.RedundantConnectIgnored | bevy-silk/src/client/systems.rs:57-69 | A `Connect` while establishing or connected leaves the whole tick as if it were absent. |
| BevySilkClient.ConnectStartsEstablishing | bevy-silk/src/client/systems.rs:57-69 | From `Disconnected`, `Connect` stores address and credentials, enters `Establishing` and opens a socket on that URL. |
| BevySilkClient.DisconnectTearsDown | bevy-silk/src/client/systems.rs:70-79 | `Disconnect` emits exactly one event with the caller's reason. From any other state it clears the record and closes the socket. |
| BevySilkClient.HostConnectSendsLogin | bevy-silk/src/client/systems.rs:107-127 | The host connecting sends exactly one login with the stored credentials, records the host and consumes the credentials. |
| BevySilkClient.DuplicateConnectPanics | bevy-silk/src/client/systems.rs:109-111 | A second connected peer in one batch finds no credentials and panics with "no auth set". |
| BevySilkClient.AcceptedConnects | bevy-silk/src/client/systems.rs:161-168 | `Accepted` connects and announces the stored host with the accepted username. |
| BevySilkClient.DeniedDisconnects | bevy-silk/src/client/systems.rs:169-175 | `Denied` disconnects with the host's reason unchanged and clears the record. |
| BevySilkClient.HostLeavesServerReset | bevy-silk/src/client/systems.rs:129-135 | The host leaving disconnects with the fixed reason "Server reset". |
| BevySilkClient.TickNeverLacksConfig | bevy-silk/src/client/systems.rs:35 | No tick panics for a missing address, because `Establishing` is only requested together with an address. |
| BevySilkClient.TickPanics | bevy-silk/src/client/systems.rs:109-111 | Every panic a tick can raise is a missing credential or an empty host id. |
| BevySilkClient.ConnectedHasHost | bevy-silk/src/client/systems.rs:161-168 | A tick that ends `Connected` has a host, given that the tick started with one whenever it was already connected. |
| BevySilkClient.GuestLoginScenario | bevy-silk/src/client/systems.rs:49-178 | A full guest login: connect, the host appears and receives the guest login, the host accepts. The client ends connected with the right events. |
| SilkClientSystems.LoginCarriesCredentials | silk-client/src/systems.rs:100-116 | `Registered{username, password, mfa}` becomes `RegisteredUser` with identical fields, and a guest keeps its optional name. |
| SilkClientSystems.ResetSocket | silk-client/src/systems.rs:30-36 | The whole record is restored to the default. |
| SilkClientSystems.InitSocket | silk-client/src/systems.rs:14-27 | Panics exactly without an address. Otherwise it builds `SilkSocket::new(addr)` on `addr.to_url()`, with the unreliable and the reliable channel in that order. |
| SilkClientSystems.ConnectionEventReader | silk-client/src/systems.rs:39-74 | While `Disconnected`, `Connect` stores `Remote{ip, port}` and the credentials and requests `Establishing`, and otherwise changes nothing. `Disconnect` is unconditional and forwards the reason. |
| SilkClientSystems.ApplyPeerUpdates | silk-client/src/systems.rs:95-126 | Panics exactly when connected peers outnumber stored credentials. The last update decides the host id: a departure clears it. Each departure adds one "Server reset". |
| SilkClientSystems.SocketReader | silk-client/src/systems.rs:77-128 | Without a socket nothing happens. With one, it panics exactly when the updates hold more connected peers than stored credentials. The id is latched, and a newly assigned id is announced first with the reported value, followed by one "Server reset" per departed peer. One connected peer sends one login with the stored credentials and consumes them; otherwise none goes out. The host id is the one the last update leaves. A departure requests `Disconnected`, and otherwise the earlier request stands. |
| SilkClientSystems.OnLoginAccepted | silk-client/src/systems.rs:131-156 | Leaves the record unchanged, panics exactly on an `Accepted` without a host, and the last response decides the requested state. |
| SilkClientSystems.ApplyTransition | silk-client/src/systems.rs:14-36 | Nothing happens without a real change of state. Entering `Disconnected` restores the default record and closes the socket. Entering `Establishing` keeps the record and opens the socket `init_socket` builds. Entering `Connected` keeps the record and the socket. Conversely, a socket is opened only on entering `Establishing` and closed only on entering `Disconnected`. |
| SilkClientSystems.Tick | silk-client/src/systems.rs:14-155 | One tick runs request reader, socket reader and login reader in that assumed order, then the state change. It opens a socket only on entering `Establishing`, closes one only on entering `Disconnected` with the default record, and sends no login without a socket. |
| SilkClientSystems.RedundantConnectIgnored | silk-client/src/systems.rs:47-61 | A `Connect` while not disconnected leaves the tick as if it were absent. |
| SilkClientSystems.ConnectStartsEstablishing | silk-client/src/systems.rs:47-61 | From `Disconnected`, `Connect` stores `Remote{ip, port}` and the credentials and opens a socket on `ws://ip:port/`. |
| SilkClientSystems.NoSocketNoChange | silk-client/src/systems.rs:85 | Without a socket, requests or responses, a tick changes nothing and emits nothing. |
| SilkClientSystems.DisconnectTearsDown | silk-client/src/systems.rs:62-71 | `Disconnect` emits one event with the caller's reason. From any other state it resets and closes the socket. |
| SilkClientSystems.HostConnectSendsLogin | silk-client/src/systems.rs:97-116 | The host connecting sends exactly one login with the stored credentials, records the host and takes the credentials. |
| SilkClientSystems.PeerLeaveClearsHost | silk-client/src/systems.rs:118-124 | A departing peer clears the host id, requests `Disconnected` and emits "Server reset". |
| SilkClientSystems.AcceptedConnects | silk-client/src/systems.rs:139-146 | `Accepted` connects and announces the host with the accepted username. |
| SilkClientSystems.DeniedDisconnects | silk-client/src/systems.rs:147-153 | `Denied` disconnects, forwarding the reason, and the record is reset. |
| SilkClientSystems.TickNeverLacksConfig | silk-client/src/systems.rs:25 | No tick panics for a missing address. |
| SilkClientSystems.TickPanics | silk-client/src/systems.rs:99-143 | Every panic a tick can raise is a missing credential or an empty host id. |
| SilkClientSystems.ConnectedHasHost | silk-client/src/systems.rs:139-146 | A tick that ends `Connected` has a host, given that the tick started with one whenever it was already connected. |
| SilkClientLegacy.InitSocket | silk-client/src/lib.rs:60-70 | Panics exactly when no address is stored. Otherwise it opens `SilkSocket::new(addr)` on `addr.to_url()`, with the unreliable and the reliable channel in that order. |
| SilkClientLegacy.ResetSocket | silk-client/src/lib.rs:73-83 | The host and the local id are cleared and the address is kept. |
| SilkClientLegacy.ResetKeepsReconnect | silk-client/src/lib.rs:78-82 | After a reset, opening the socket reaches the same signaling server; resetting twice is resetting once. |
| SilkClientLegacy.EventReader | silk-client/src/lib.rs:113-148 | The state changes exactly on a first request of `Connect` while `Disconnected` or `Disconnect` while `Connected`. `Connect` from `Disconnected` enters `Connecting` with `Remote{ip, port}` stored, the rest of the record kept, no event and no close. `Disconnect` from `Connected` enters `Disconnected` with the reset record, emits exactly one `DisconnectedFromHost` and closes the socket. In every other case the whole step is unchanged. |
| SilkClientLegacy.OnlyFirstRequestCounts | silk-client/src/lib.rs:120 | Requests behind the first have no effect in that tick. |
| SilkClientLegacy.ApplyPeerUpdates | silk-client/src/lib.rs:168-181 | One event per update, in order. The last update decides the state and the host: a connected peer becomes the host with `Connected`; a departure clears it with `Disconnected`. |
| SilkClientLegacy.MessageEvents | silk-client/src/lib.rs:192-197 | One `Message` event per frame, carrying exactly those frames in order. |
| SilkClientLegacy.EventWriter | silk-client/src/lib.rs:151-156 | Without a socket nothing happens. It never closes the socket and always keeps the address. |
| SilkClientLegacy.WriteInbox | silk-client/src/lib.rs:157-199 | The id is latched, and a newly assigned id is announced first with the reported value. The peer events follow in update order, and the payloads are all reliable frames then all unreliable frames. The last peer update decides the state and the host: a connected peer gives `Connected` with that peer as host, a departure gives `Disconnected` with the host cleared. With no peer update both are kept. It never closes the socket and keeps the address. |
| SilkClientLegacy.MessagesDoNotSteer | silk-client/src/lib.rs:184-197 | Received frames never change the connection state or the record. |
| SilkClientLegacy.EventSender | silk-client/src/lib.rs:86-110 | With a socket, only the first send event is sent: `ReliableSend` on channel 1 and `UnreliableSend` on channel 0, to the host. It panics exactly when no host is known. Without a socket nothing is sent. |
| SilkClientLegacy.OnlyFirstSendCounts | silk-client/src/lib.rs:92 | Send events behind the first are never sent by that tick. |
| SilkClientLegacy.Tick | silk-client/src/lib.rs:20-37 | One tick runs `event_reader`, `event_writer` and `event_sender` in an assumed order. It panics only when a send finds no host, and sends at most one packet, none without a socket. It closes the socket only for a first `Disconnect` while connected. Without a socket the host id is kept, unless that close forgot it. |
| SilkClientLegacy.TickKeepsConsistent | silk-client/src/lib.rs:121-180 | Every tick preserves "a host is known exactly while `Connected`". |
| SilkClientLegacy.StartConsistent | silk-client/src/lib.rs:12-18 | The default record agrees with the initial `Disconnected` state. |
| SilkClientLegacy.RedundantConnectIgnored | silk-client/src/lib.rs:121-134 | `Connect` while connecting or connected leaves the tick as if it were absent. |
| SilkClientLegacy.EarlyDisconnectIgnored | silk-client/src/lib.rs:135-145 | `Disconnect` while not connected leaves the tick as if it were absent. |
| SilkClientLegacy.ConnectStartsConnecting | silk-client/src/lib.rs:121-134 | From `Disconnected`, `Connect` stores the remote address and enters `Connecting`, and nothing else happens. |
| SilkClientLegacy.DisconnectKeepsAddress | silk-client/src/lib.rs:135-145 | While connected, `Disconnect` emits one event, closes the socket and keeps only the address. |
| SilkClientLegacy.HostConnects | silk-client/src/lib.rs:170-174 | The host connecting records the host, connects and announces it. |
| SilkClientLegacy.ReliableSendReachesHost | silk-client/src/lib.rs:93-99 | Once a host is known, a reliable send goes to it on channel 1. |
| SilkClientLegacy.SendWithoutHostPanics | silk-client/src/lib.rs:94 | Sending before a host is known panics. |
| SilkServer.StartState | silk-server/src/lib.rs:28-31 | The server starts with its configured address and no id. |
| SilkServer.InitSocket | silk-server/src/lib.rs:59-66 | The startup socket is built on `to_url(addr)` with the unreliable and reliable channels in that order. |
| SilkServer.InitSocketReachesSignaler | silk-server/src/lib.rs:64 | The configured signaling host and port can be read back from the room URL. |
| SilkServer.PeerEventRoundTrip | silk-server/src/lib.rs:83-92 | A peer event reports exactly its update: `Connected` maps to `PeerJoined` and `Disconnected` to `PeerLeft`, for the same peer. |
| SilkServer.PeerEvents | silk-server/src/lib.rs:83-92 | One event per peer update, same peer, same order. Projecting the events back gives the updates. |
| SilkServer.MessageEvents | silk-server/src/lib.rs:103-108 | One `Message` event per frame, in order. |
| SilkServer.ProjectionsAppend | silk-server/src/lib.rs:74-108 | Peer updates, payloads and id announcements of concatenated event batches are those of the batches, in order. |
| SilkServer.SocketReaderLayout | silk-server/src/lib.rs:74-108 | The events are laid out as the id announcement (if any), then one peer event per update in order, then one `Message` per frame, reliable frames before unreliable ones. |
| SilkServer.SocketReader | silk-server/src/lib.rs:69-109 | The id is latched, and a newly assigned id is announced first with the reported value. The peer events give back exactly the peer updates. The payloads are all reliable frames then all unreliable frames, so the message count is the sum of the two. |
| SilkServer.IdStaysPut | silk-server/src/lib.rs:75-80 | Once the id is stored it is never announced again or changed. |
| SilkServer.FanOut | silk-server/src/lib.rs:119-125 | One copy of the packet per connected peer, in the peers' order, on the given channel. |
| SilkServer.FanOutExactlyOnce | silk-server/src/lib.rs:119-125 | Over distinct connected peers, a fan-out reaches each of them exactly once and nobody else. |
| SilkServer.BroadcastOne | silk-server/src/lib.rs:117-144 | Each event keeps its packet. The `Reliable*` kinds go on channel 1 and the others on channel 0. `*SendAll` reaches every connected peer; a single-peer send goes to exactly that peer. |
| SilkServer.SingleSendIgnoresConnected | silk-server/src/lib.rs:127-130 | A single-peer send does not depend on who is connected. |
| SilkServer.SendAllReachesEachOnce | silk-server/src/lib.rs:131-139 | `*SendAll` over distinct connected peers reaches each exactly once. |
| SilkServer.BroadcastAppend | silk-server/src/lib.rs:116 | Queued events are processed in arrival order: two batches broadcast as the first, then the second. |
| SilkServer.BroadcastSnoc | silk-server/src/lib.rs:116-145 | One more queued event appends exactly that event's sends. |
| SilkServer.FanOutSnoc | silk-server/src/lib.rs:120-125 | One more peer appends exactly one send to it. |
| SilkServer.FanOutLoop | silk-server/src/lib.rs:119-125 | The peer loop produces the fan-out. |
| SilkServer.BroadcastSystem | silk-server/src/lib.rs:112-146 | The `while let` loop over the queued events sends exactly the broadcast of all of them, in order. |
| SilkServer.PhaseIndex | silk-server/src/lib.rs:33-42 | Each phase has its place in the chain. |
| SilkServer.PhasesChain | silk-server/src/lib.rs:33-42 | The five phases run once each, from `ReadSocket` first to `WriteSocket` last. |
| SilkServer.ServerTick | silk-server/src/lib.rs:44-54 | Reading precedes the game, which precedes writing. The tick's events carry this tick's peer updates and frames, and with no game request nothing is sent. |

## Left out

- `silk-client/src/main.rs`: the async demo loop with timers and `select!`. It is I/O and concurrency, not session logic.
- `bevy_rtc/src/server/mod.rs`: module declarations and re-exports only.
- The matchbox/WebRTC socket is not modelled: `open_socket`, `close_socket`, the builder's `build`/`into_parts`, real sends and receives, ICE and signaling. Its per-tick report is an input, and sends and socket commands are outputs.
- Bevy plugin wiring and the scheduler: `add_systems`, `configure_sets`, run conditions, `FixedTime` and the float `tick_rate`.
  - Each tick is a fixed call order. That order for the clients is an assumption, stated above.
  - `OnEnter` hooks are assumed to run only on a real change of state. Bevy can run them even when `NextState` is set to the current state; the model then drops the repeated `reset_socket` and socket close of a `Disconnect` while already `Disconnected`.
  - The legacy client's direct writes to `State` are assumed not to trigger hooks.
- `OutgoingMessages::send_payloads` and the router's `send.rs` are not part of this model. The outgoing queues are only created empty at registration.
- `bevy-silk`'s own `receive_payloads` is not part of this model. `ClientRouter.InboundTick` assumes it behaves like the server's `read_system`.
- Payload serialisation, the `Payload` derive and `reflect_name` are not modelled. Decoding is a parameter, and a type name is an opaque string.
- `IpAddr` display formatting is not modelled: an IP is an opaque string inside the URL.
- Logging (`debug!`, `info!`, `error!`, `trace!`) has no effect and is not modelled. So the error message of a failed `try_update_peers` is dropped.
- Matchbox's `connected_peers()` is a parameter of the server's broadcast. The model does not derive it from earlier peer updates, and its iteration order is the order of the given sequence.
- The legacy client's `init_socket` never runs from `SilkClientLegacy.Tick`. It is registered for entering `Connecting`, but the systems write `State` directly, and such writes run no `OnEnter` hooks. So the model never opens that client's socket; `SilkClientLegacy.InitSocket` models the hook on its own.
- The plugin registration of `bevy-silk` and of the `silk-client` systems is not part of this model. `BevySilkClient.Tick` and `SilkClientSystems.Tick` assume the order handler, socket reader, login reader.
- `SilkServer.ServerTick`: the game systems in the three middle phases are a function parameter, so the tick states only what the plugin's own two systems guarantee.
- `BevySilkClient.ConnectedHasHost`, `SilkClientSystems.ConnectedHasHost`: only "connected implies a host" is proved. "Connected implies credentials consumed" does not hold for arbitrary inputs, because a `Connect` and an `Accepted` can arrive in one tick, so it is not stated.

## Notes on the code's behaviour

Points where the three clients' code behaves in ways a reader might not expect:

- **Repeated connected peer.** In both handshake clients the first connected peer takes the stored credentials. A second connected peer in the same session finds them already taken and panics with "no auth set". This holds even within one batch (`BevySilkClient.DuplicateConnectPanics`).
- **`Disconnect` in the newest clients.** It is honoured in every state, including `Disconnected`, so it always emits an event. The legacy client honours it only while `Connected`.
- **Departing host in the intermediate client.** The departing peer clears the host id before the reset. The newest client keeps the host id until `reset_socket`.
- **Host id in the legacy client.** Any departing peer clears it, and any connecting peer takes it. The last update of a batch decides.
