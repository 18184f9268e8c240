/** The client's typed message router: `add_network_message` registers a
    payload type by creating its incoming queue and its pair of outgoing
    queues, and schedules the inbound systems for every tick.

    Bevy's world, which stores one resource per Rust type, becomes a pair of
    maps keyed by the payload type's name.  All payload types share one value
    universe `M`; each type brings its own decoder.
 */
module ClientRouter {
  import opened Fallible
  import opened SilkCommon
  import opened ServerReceive

  /** A payload type's name (`M::reflect_name()`), which identifies its resources. */
  type TypeTag = string

  /** `OutgoingMessages<M>`: what the application queued for the host this tick. */
  datatype OutgoingMessages<M> = OutgoingMessages(reliableToHost: seq<M>, unreliableToHost: seq<M>)

  /** The router resources present in the world. */
  datatype Router<M> = Router(
    incoming: map<TypeTag, IncomingMessages<M>>,
    outgoing: map<TypeTag, OutgoingMessages<M>>)

  /** Whether a payload type already has either of its resources. */
  predicate Registered<M>(router: Router<M>, tag: TypeTag)
  {
    tag in router.incoming || tag in router.outgoing
  }

  /** `add_network_message::<M>()`: panics when either resource exists;
      otherwise inserts an empty incoming queue and empty outgoing queues and
      leaves every other type's resources as they were. */
  function AddNetworkMessage<M>(router: Router<M>, tag: TypeTag): (r: Result<Router<M>>)
    ensures r.Fatal? <==> Registered(router, tag)
    ensures r.Fatal? ==> r.panic == AlreadyRegistered(tag)
    ensures r.Ok? ==> tag in r.value.incoming && r.value.incoming[tag].messages == []
    ensures r.Ok? ==> tag in r.value.outgoing && r.value.outgoing[tag] == OutgoingMessages([], [])
    ensures r.Ok? ==> forall t :: t != tag ==>
              (t in r.value.incoming <==> t in router.incoming) &&
              (t in r.value.outgoing <==> t in router.outgoing)
    ensures r.Ok? ==> forall t :: t != tag && t in router.incoming ==> r.value.incoming[t] == router.incoming[t]
    ensures r.Ok? ==> forall t :: t != tag && t in router.outgoing ==> r.value.outgoing[t] == router.outgoing[t]
  {
    if Registered(router, tag) then Fatal(AlreadyRegistered(tag))
    else Ok(Router(router.incoming[tag := IncomingMessages([])],
                   router.outgoing[tag := OutgoingMessages([], [])]))
  }

  /** Registering the same payload type a second time is always rejected. */
  lemma RegisterTwiceFails<M>(router: Router<M>, tag: TypeTag)
    requires AddNetworkMessage(router, tag).Ok?
    ensures AddNetworkMessage(AddNetworkMessage(router, tag).value, tag) == Fatal(AlreadyRegistered(tag))
  {
  }

  /** Registration is the only way a type gets resources: types registered one
      after another all end up registered, each exactly once. */
  function RegisterAll<M>(router: Router<M>, tags: seq<TypeTag>): Result<Router<M>>
    decreases |tags|
  {
    if |tags| == 0 then Ok(router)
    else
      match AddNetworkMessage(router, tags[0])
      case Fatal(p) => Fatal(p)
      case Ok(next) => RegisterAll(next, tags[1..])
  }

  /** Registering a list of types succeeds exactly when no name repeats and
      none was registered before; then every listed type has empty queues. */
  lemma {:induction false} RegisterAllSucceeds<M>(router: Router<M>, tags: seq<TypeTag>)
    ensures RegisterAll(router, tags).Ok? <==>
              (forall i, j :: 0 <= i < j < |tags| ==> tags[i] != tags[j]) &&
              (forall i :: 0 <= i < |tags| ==> !Registered(router, tags[i]))
    ensures RegisterAll(router, tags).Ok? ==> forall i :: 0 <= i < |tags| ==>
              tags[i] in RegisterAll(router, tags).value.incoming &&
              RegisterAll(router, tags).value.incoming[tags[i]].messages == []
    decreases |tags|
  {
    if |tags| > 0 {
      var first := AddNetworkMessage(router, tags[0]);
      if first.Ok? {
        RegisterAllSucceeds(first.value, tags[1..]);
        var rest := tags[1..];
        assert forall i :: 0 <= i < |rest| ==> rest[i] == tags[i + 1];
        if RegisterAll(router, tags).Ok? {
          var done := RegisterAll(router, tags).value;
          forall i | 0 <= i < |tags|
            ensures tags[i] in done.incoming && done.incoming[tags[i]].messages == []
          {
            if i == 0 {
              RegisteredStays(first.value, rest, tags[0]);
            }
          }
        }
      }
    }
  }

  /** A type that is registered stays registered, with its incoming queue
      untouched, while other types are added. */
  lemma {:induction false} RegisteredStays<M>(router: Router<M>, tags: seq<TypeTag>, tag: TypeTag)
    requires tag in router.incoming
    requires RegisterAll(router, tags).Ok?
    ensures tag in RegisterAll(router, tags).value.incoming
    ensures RegisterAll(router, tags).value.incoming[tag] == router.incoming[tag]
    decreases |tags|
  {
    if |tags| > 0 {
      RegisteredStays(AddNetworkMessage(router, tags[0]).value, tags[1..], tag);
    }
  }

  /** One tick's inbound systems for one registered type: they run only while
      a socket resource exists, and then `flush` runs before the decoding
      system, which runs after the common socket reader produced `frames`. */
  function InboundTick<M>(socketPresent: bool, queue: IncomingMessages<M>, frames: seq<Frame>,
                          fromPacket: Packet -> Option<M>): (r: IncomingMessages<M>)
    ensures !socketPresent ==> r == queue
    ensures socketPresent ==> r.messages == Decoded(frames, fromPacket)
  {
    if socketPresent then FlushThenRead(queue, frames, fromPacket) else queue
  }

  /** The inbound phase over every registered type at once: each incoming
      queue holds exactly this tick's frames that decode as its type, and no
      outgoing queue is touched. */
  function InboundPhase<M>(router: Router<M>, socketPresent: bool, frames: seq<Frame>,
                           decoders: TypeTag -> (Packet -> Option<M>)): (r: Router<M>)
    ensures r.outgoing == router.outgoing
    ensures r.incoming.Keys == router.incoming.Keys
    ensures forall t :: t in r.incoming ==>
              r.incoming[t] == InboundTick(socketPresent, router.incoming[t], frames, decoders(t))
  {
    Router(map t | t in router.incoming :: InboundTick(socketPresent, router.incoming[t], frames, decoders(t)),
           router.outgoing)
  }

  /** With a socket, a type's queue after the inbound phase never depends on
      what it held before: data not drained in the tick it arrived is lost. */
  lemma InboundForgetsPreviousTick<M>(a: Router<M>, b: Router<M>, frames: seq<Frame>,
                                      decoders: TypeTag -> (Packet -> Option<M>), tag: TypeTag)
    requires tag in a.incoming && tag in b.incoming
    ensures InboundPhase(a, true, frames, decoders).incoming[tag] == InboundPhase(b, true, frames, decoders).incoming[tag]
  {
  }
}
