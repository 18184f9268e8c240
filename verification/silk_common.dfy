/** The pieces of `silk-common` the session layer depends on: the two fixed
    transport channels and their configuration, the signaling address and its
    URL, the authentication record, and the transport-facing vocabulary
    (peer ids, packets, peer updates, outbound sends) shared by the clients
    and the server.
 */
module SilkCommon {
  import opened Fallible

  /** matchbox's `PeerId`, a wrapper around a UUID. */
  datatype PeerId = PeerId(uuid: nat)

  newtype byte = x: int | 0 <= x < 256

  /** matchbox's `Packet`, a boxed byte slice. */
  type Packet = seq<byte>

  /** A frame as `receive()` hands it over: the sender and the bytes. */
  type Frame = (PeerId, Packet)

  /** matchbox's `PeerState`, as reported by `update_peers`. */
  datatype PeerState = PeerConnected | PeerDisconnected

  type PeerUpdate = (PeerId, PeerState)

  /** A Rust `u16` port. */
  type Port = p: nat | p < 0x1_0000

  // ---------------------------------------------------------------------
  // Channel policy

  const UNRELIABLE_CHANNEL_INDEX: nat := 0
  const RELIABLE_CHANNEL_INDEX: nat := 1

  /** matchbox's `ChannelConfig`; `None` retransmits means "until delivered". */
  datatype ChannelConfig = ChannelConfig(ordered: bool, maxRetransmits: Option<nat>)

  /** matchbox's `ChannelConfig::reliable()`. */
  function ReliableConfig(): ChannelConfig
  {
    ChannelConfig(true, None)
  }

  /** The configuration added first: ordered, never retransmitted. */
  function UnreliableConfig(): ChannelConfig
  {
    ChannelConfig(true, Some(0))
  }

  /** Datagram semantics: nothing is ever resent. */
  predicate NoRetransmit(c: ChannelConfig)
  {
    c.maxRetransmits == Some(0)
  }

  /** Retransmitted until delivered, in order. */
  predicate FullyReliable(c: ChannelConfig)
  {
    c.ordered && c.maxRetransmits.None?
  }

  /** matchbox's `WebRtcSocketBuilder`: the room URL and the channels added so far. */
  datatype SocketBuilder = SocketBuilder(roomUrl: string, channels: seq<ChannelConfig>)

  /** `WebRtcSocket::builder(url)`: no channels yet. */
  function Builder(roomUrl: string): (b: SocketBuilder)
    ensures b.roomUrl == roomUrl && |b.channels| == 0
  {
    SocketBuilder(roomUrl, [])
  }

  /** `add_channel`: the new channel takes the next free index. */
  function AddChannel(b: SocketBuilder, c: ChannelConfig): (r: SocketBuilder)
    ensures r.roomUrl == b.roomUrl
    ensures |r.channels| == |b.channels| + 1
    ensures r.channels[|b.channels|] == c
    ensures r.channels[..|b.channels|] == b.channels
  {
    b.(channels := b.channels + [c])
  }

  /** The two Silk channels added, in index order, to a fresh builder. */
  function WithSilkChannels(roomUrl: string): (b: SocketBuilder)
    ensures b.roomUrl == roomUrl
    ensures |b.channels| == 2
    ensures b.channels[UNRELIABLE_CHANNEL_INDEX].ordered
    ensures NoRetransmit(b.channels[UNRELIABLE_CHANNEL_INDEX])
    ensures FullyReliable(b.channels[RELIABLE_CHANNEL_INDEX])
  {
    AddChannel(AddChannel(Builder(roomUrl), UnreliableConfig()), ReliableConfig())
  }

  /** `SilkSocket::new`: the builder for the address's room URL. */
  function NewSilkSocket(config: ConnectionAddr): (b: SocketBuilder)
    ensures b.roomUrl == ToUrl(config)
    ensures |b.channels| == 2
    ensures b.channels[UNRELIABLE_CHANNEL_INDEX].ordered
    ensures NoRetransmit(b.channels[UNRELIABLE_CHANNEL_INDEX])
    ensures FullyReliable(b.channels[RELIABLE_CHANNEL_INDEX])
  {
    WithSilkChannels(ToUrl(config))
  }

  /** The two channel indices name different channels with opposite policies. */
  lemma ChannelsDistinct(config: ConnectionAddr)
    ensures UNRELIABLE_CHANNEL_INDEX != RELIABLE_CHANNEL_INDEX
    ensures !FullyReliable(NewSilkSocket(config).channels[UNRELIABLE_CHANNEL_INDEX])
    ensures !NoRetransmit(NewSilkSocket(config).channels[RELIABLE_CHANNEL_INDEX])
  {
  }

  /** One packet handed to the transport: channel index, destination, bytes. */
  datatype Outbound = Outbound(channel: nat, peer: PeerId, packet: Packet)

  /** What a two-channel socket yields in one tick: the id the signaling
      server reports (if any yet), the drained peer updates, and the frames
      drained from the reliable and the unreliable channel. */
  datatype Inbox = Inbox(
    id: Option<PeerId>,
    peerUpdates: seq<PeerUpdate>,
    reliable: seq<Frame>,
    unreliable: seq<Frame>)

  // ---------------------------------------------------------------------
  // Authentication record used by the `silk-client` crate

  /** `PlayerAuthentication`.  Both Rust variants call their field `username`;
      Dafny needs distinct names for fields of different types, so the guest's
      optional name is `guestName` here. */
  datatype PlayerAuthentication =
    | Registered(username: string, password: string, mfa: Option<string>)
    | Guest(guestName: Option<string>)

  // ---------------------------------------------------------------------
  // Signaling address

  /** `ConnectionAddr`; the IP address is kept as the text it displays as. */
  datatype ConnectionAddr =
    | Local(port: Port)
    | Remote(ip: string, port: Port)

  /** The host part of the URL an address resolves to. */
  function HostOf(addr: ConnectionAddr): string
  {
    match addr
    case Local(_) => "0.0.0.0"
    case Remote(ip, _) => ip
  }

  const SCHEME := "ws://"

  /** `ConnectionAddr::to_url`. */
  function ToUrl(addr: ConnectionAddr): (url: string)
    ensures |url| > |SCHEME| && url[..|SCHEME|] == SCHEME && url[|url| - 1] == '/'
  {
    match addr
    case Local(port) => SCHEME + "0.0.0.0:" + Decimal(port) + "/"
    case Remote(ip, port) => SCHEME + ip + ":" + Decimal(port) + "/"
  }

  /** Every address renders as `ws://<host>:<port>/`. */
  lemma ToUrlShape(addr: ConnectionAddr)
    ensures ToUrl(addr) == "ws://" + HostOf(addr) + ":" + Decimal(addr.port) + "/"
  {
  }

  /** A local address is the remote address `0.0.0.0` on the same port. */
  lemma LocalIsAnyAddress(port: Port)
    ensures ToUrl(Local(port)) == ToUrl(Remote("0.0.0.0", port))
  {
  }

  // ---------------------------------------------------------------------
  // Decimal rendering of a port, as Rust's `Display` for integers

  predicate IsDigit(c: char)
  {
    '0' <= c <= '9'
  }

  predicate AllDigits(s: string)
  {
    forall i :: 0 <= i < |s| ==> IsDigit(s[i])
  }

  function DigitChar(d: nat): (c: char)
    requires d < 10
    ensures IsDigit(c)
  {
    ('0' as int + d) as char
  }

  function DigitValue(c: char): (d: nat)
    requires IsDigit(c)
    ensures d < 10
  {
    c as int - '0' as int
  }

  /** The shortest decimal numeral of `n`: digits only, no leading zero. */
  function Decimal(n: nat): (s: string)
    ensures |s| > 0 && AllDigits(s)
    ensures s[0] == '0' ==> n == 0
    decreases n
  {
    if n < 10 then [DigitChar(n)] else Decimal(n / 10) + [DigitChar(n % 10)]
  }

  /** The value of a numeral. */
  function ParseDecimal(s: string): nat
    requires AllDigits(s)
    decreases |s|
  {
    if |s| == 0 then 0 else ParseDecimal(s[..|s| - 1]) * 10 + DigitValue(s[|s| - 1])
  }

  lemma {:induction false} ParseDecimalOfDecimal(n: nat)
    ensures ParseDecimal(Decimal(n)) == n
    decreases n
  {
    if n >= 10 {
      var s := Decimal(n);
      assert s[..|s| - 1] == Decimal(n / 10);
      ParseDecimalOfDecimal(n / 10);
    }
  }

  // ---------------------------------------------------------------------
  // Reading a room URL back

  /** The position of the last `c` in `s`. */
  function LastIndexOf(s: string, c: char): (r: Option<nat>)
    ensures r.Some? ==> r.value < |s| && s[r.value] == c
    ensures r.Some? ==> forall j :: r.value < j < |s| ==> s[j] != c
    ensures r.None? ==> forall j :: 0 <= j < |s| ==> s[j] != c
    decreases |s|
  {
    if |s| == 0 then None
    else if s[|s| - 1] == c then Some(|s| - 1)
    else LastIndexOf(s[..|s| - 1], c)
  }

  /** Splits `ws://<host>:<port>/` into host and port; the port is what follows
      the last colon, so an IPv6 host keeps its own colons. */
  function SplitUrl(url: string): Option<(string, Port)>
  {
    if |url| <= |SCHEME| || url[..|SCHEME|] != SCHEME || url[|url| - 1] != '/' then None
    else
      var body := url[|SCHEME|..|url| - 1];
      match LastIndexOf(body, ':')
      case None => None
      case Some(k) =>
        var digits := body[k + 1..];
        if |digits| == 0 || !AllDigits(digits) then None
        else
          var port := ParseDecimal(digits);
          if port < 0x1_0000 then Some((body[..k], port)) else None
  }

  /** `to_url` loses nothing: host and port can be read back from the URL. */
  lemma SplitUrlOfToUrl(addr: ConnectionAddr)
    ensures SplitUrl(ToUrl(addr)) == Some((HostOf(addr), addr.port))
  {
    var url := ToUrl(addr);
    var host := HostOf(addr);
    var digits := Decimal(addr.port);
    ToUrlShape(addr);
    var body := url[|SCHEME|..|url| - 1];
    assert body == host + ":" + digits;
    assert body[|host|] == ':';
    forall j | |host| < j < |body|
      ensures body[j] != ':'
    {
      assert body[j] == digits[j - |host| - 1];
    }
    var r := LastIndexOf(body, ':');
    assert r.Some?;
    assert r.value == |host|;
    assert body[|host| + 1..] == digits;
    assert body[..|host|] == host;
    ParseDecimalOfDecimal(addr.port);
  }

  /** Two addresses share a room URL exactly when they share host and port. */
  lemma ToUrlInjective(a: ConnectionAddr, b: ConnectionAddr)
    ensures ToUrl(a) == ToUrl(b) <==> HostOf(a) == HostOf(b) && a.port == b.port
  {
    SplitUrlOfToUrl(a);
    SplitUrlOfToUrl(b);
    ToUrlShape(a);
    ToUrlShape(b);
  }

  // ---------------------------------------------------------------------
  // The local-id latch shared by every socket reader

  /** What one tick's id check leaves behind: the stored id and the id an
      `IdAssigned` event announces, if any. */
  datatype Latch = Latch(id: Option<PeerId>, announced: Option<PeerId>)

  /** `if let Some(id) = socket.id() { if state.id.is_none() { ... } }`. */
  function LatchId(stored: Option<PeerId>, reported: Option<PeerId>): (l: Latch)
    ensures l.announced.Some? <==> stored.None? && reported.Some?
    ensures l.announced.Some? ==> l.id == l.announced && l.announced == reported
    ensures stored.Some? ==> l.id == stored
    ensures stored.None? ==> l.id == reported
  {
    if stored.None? && reported.Some? then Latch(reported, reported) else Latch(stored, None)
  }

  /** The stored id after a run of ticks and the number of `IdAssigned` events. */
  function LatchRun(stored: Option<PeerId>, reports: seq<Option<PeerId>>): (Option<PeerId>, nat)
    decreases |reports|
  {
    if |reports| == 0 then (stored, 0)
    else
      var l := LatchId(stored, reports[0]);
      var (id, n) := LatchRun(l.id, reports[1..]);
      (id, n + if l.announced.Some? then 1 else 0)
  }

  /** Over any run of ticks the id is announced at most once, never once it
      is stored, and a stored id never changes. */
  lemma {:induction false} LatchFiresOnce(stored: Option<PeerId>, reports: seq<Option<PeerId>>)
    ensures LatchRun(stored, reports).1 <= 1
    ensures stored.Some? ==> LatchRun(stored, reports) == (stored, 0)
    ensures LatchRun(stored, reports).1 == 1 ==> LatchRun(stored, reports).0.Some?
    decreases |reports|
  {
    if |reports| > 0 {
      var l := LatchId(stored, reports[0]);
      LatchFiresOnce(l.id, reports[1..]);
    }
  }
}
