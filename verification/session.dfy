/** Vocabulary shared by the two handshake-based clients (`bevy-silk` and the
    `silk-client` systems): the connection state, the events the client emits,
    the host's login response, and the translation of login responses into
    events (`on_login` / `on_login_accepted`, which are the same in both).
 */
module Session {
  import opened Fallible
  import opened SilkCommon

  datatype ConnectionState = Disconnected | Establishing | Connected

  datatype ClientEvent =
    | IdAssigned(id: PeerId)
    | ConnectedToHost(host: PeerId, username: string)
    | DisconnectedFromHost(reason: Option<string>)

  /** `SilkLoginResponsePayload`, received from the host on the reliable channel. */
  datatype LoginResponse =
    | Accepted(username: string)
    | Denied(reason: Option<string>)

  /** The fixed reasons the socket reader reports. */
  const SERVER_RESET := "Server reset"
  const CONNECTION_CLOSED := "Connection closed"

  /** What a tick asks of the socket. */
  datatype SocketCommand = KeepSocket | OpenSocket(builder: SocketBuilder) | CloseSocket

  /** The peers that a batch of peer updates reports in state `st`, in order. */
  function PeersIn(updates: seq<PeerUpdate>, st: PeerState): (peers: seq<PeerId>)
    ensures |peers| <= |updates|
    ensures forall p :: p in peers <==> (p, st) in updates
    decreases |updates|
  {
    if |updates| == 0 then []
    else (if updates[0].1 == st then [updates[0].0] else []) + PeersIn(updates[1..], st)
  }

  /** `n` copies of one event. */
  predicate AllAre(events: seq<ClientEvent>, e: ClientEvent, n: nat)
  {
    |events| == n && forall i :: 0 <= i < |events| ==> events[i] == e
  }

  /** Whether any response accepts the login. */
  predicate AnyAccepted(responses: seq<LoginResponse>)
  {
    exists i :: 0 <= i < |responses| && responses[i].Accepted?
  }

  /** The state the last response asks for; earlier ones are overwritten. */
  function LastRequested(next: Option<ConnectionState>, responses: seq<LoginResponse>): Option<ConnectionState>
  {
    if |responses| == 0 then next
    else Some(if responses[|responses| - 1].Accepted? then Connected else Disconnected)
  }

  /** `on_login`: each response in order requests a state (the last one wins)
      and emits one event.  `Accepted` requests `Connected` and announces the
      stored host with the accepted username, panicking when no host is
      stored; `Denied` requests `Disconnected` and forwards the reason. */
  function OnLogin(host: Option<PeerId>, next: Option<ConnectionState>, responses: seq<LoginResponse>)
    : (r: Result<(Option<ConnectionState>, seq<ClientEvent>)>)
    ensures r.Fatal? <==> host.None? && AnyAccepted(responses)
    ensures r.Fatal? ==> r.panic == NoHost
    ensures r.Ok? ==> r.value.0 == LastRequested(next, responses)
    ensures r.Ok? ==> |r.value.1| == |responses|
    ensures r.Ok? ==> forall i :: 0 <= i < |responses| ==>
              match responses[i]
              case Accepted(u) => r.value.1[i] == ConnectedToHost(host.value, u)
              case Denied(reason) => r.value.1[i] == DisconnectedFromHost(reason)
    decreases |responses|
  {
    if |responses| == 0 then Ok((next, []))
    else
      match responses[0]
      case Accepted(username) =>
        if host.None? then Fatal(NoHost)
        else
          (match OnLogin(host, Some(Connected), responses[1..])
           case Fatal(p) => Fatal(p)
           case Ok(rest) => Ok((rest.0, [ConnectedToHost(host.value, username)] + rest.1)))
      case Denied(reason) =>
        match OnLogin(host, Some(Disconnected), responses[1..])
        case Fatal(p) => Fatal(p)
        case Ok(rest) => Ok((rest.0, [DisconnectedFromHost(reason)] + rest.1))
  }
}
