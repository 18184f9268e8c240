/** `IncomingMessages<M>`: the per-payload-type inbound queue.

    Each tick the queue is flushed and then refilled from the socket's
    receive events with exactly the packets that decode as `M`, tagged with
    their sender.  Decoding (`M::from_packet`) is generated by a derive macro
    that is not part of this model, so it is a parameter: any function from
    packets to `Option<M>`.
 */
module ServerReceive {
  import opened Fallible
  import opened SilkCommon

  datatype IncomingMessages<M> = IncomingMessages(messages: seq<(PeerId, M)>)

  /** The messages one receive event contributes: one if it decodes, none otherwise. */
  function DecodeFrame<M>(frame: Frame, fromPacket: Packet -> Option<M>): seq<(PeerId, M)>
  {
    match fromPacket(frame.1)
    case Some(m) => [(frame.0, m)]
    case None => []
  }

  /** The decodable receive events as sender-tagged messages, in event order. */
  function Decoded<M>(events: seq<Frame>, fromPacket: Packet -> Option<M>): seq<(PeerId, M)>
    decreases |events|
  {
    if |events| == 0 then []
    else DecodeFrame(events[0], fromPacket) + Decoded(events[1..], fromPacket)
  }

  /** Whether a receive event decodes as `M`. */
  predicate Decodes<M>(frame: Frame, fromPacket: Packet -> Option<M>)
  {
    fromPacket(frame.1).Some?
  }

  /** How many receive events decode as `M`. */
  function CountDecodable<M>(events: seq<Frame>, fromPacket: Packet -> Option<M>): nat
    decreases |events|
  {
    if |events| == 0 then 0
    else (if Decodes(events[0], fromPacket) then 1 else 0) + CountDecodable(events[1..], fromPacket)
  }

  /** Decoding distributes over concatenation: the events of a later batch come
      after those of an earlier one, each batch in its own order. */
  lemma {:induction false} DecodedAppend<M>(a: seq<Frame>, b: seq<Frame>, fromPacket: Packet -> Option<M>)
    ensures Decoded(a + b, fromPacket) == Decoded(a, fromPacket) + Decoded(b, fromPacket)
    decreases |a|
  {
    if |a| > 0 {
      assert (a + b)[0] == a[0];
      assert (a + b)[1..] == a[1..] + b;
      DecodedAppend(a[1..], b, fromPacket);
    } else {
      assert a + b == b;
    }
  }

  /** One message per decodable event, none for the rest. */
  lemma {:induction false} DecodedLength<M>(events: seq<Frame>, fromPacket: Packet -> Option<M>)
    ensures |Decoded(events, fromPacket)| == CountDecodable(events, fromPacket)
    decreases |events|
  {
    if |events| > 0 {
      DecodedLength(events[1..], fromPacket);
    }
  }

  /** A tagged message is in the result exactly when some receive event came
      from that peer and decodes to that message. */
  lemma {:induction false} DecodedMembership<M>(events: seq<Frame>, fromPacket: Packet -> Option<M>, msg: (PeerId, M))
    ensures msg in Decoded(events, fromPacket) <==>
            exists i :: 0 <= i < |events| && events[i].0 == msg.0 && fromPacket(events[i].1) == Some(msg.1)
    decreases |events|
  {
    if |events| > 0 {
      DecodedMembership(events[1..], fromPacket, msg);
      if msg in Decoded(events[1..], fromPacket) {
        var i :| 0 <= i < |events[1..]| && events[1..][i].0 == msg.0 && fromPacket(events[1..][i].1) == Some(msg.1);
        assert events[i + 1] == events[1..][i];
      }
      if exists i :: 0 <= i < |events| && events[i].0 == msg.0 && fromPacket(events[i].1) == Some(msg.1) {
        var i :| 0 <= i < |events| && events[i].0 == msg.0 && fromPacket(events[i].1) == Some(msg.1);
        if i > 0 {
          assert events[1..][i - 1] == events[i];
        }
      }
    }
  }

  /** When nothing decodes, nothing is queued. */
  lemma {:induction false} UndecodableIgnored<M>(events: seq<Frame>, fromPacket: Packet -> Option<M>)
    requires forall i :: 0 <= i < |events| ==> fromPacket(events[i].1).None?
    ensures Decoded(events, fromPacket) == []
    decreases |events|
  {
    if |events| > 0 {
      assert fromPacket(events[0].1).None?;
      UndecodableIgnored(events[1..], fromPacket);
    }
  }

  /** `IncomingMessages::flush`: the queue is emptied. */
  function Flush<M>(incoming: IncomingMessages<M>): (r: IncomingMessages<M>)
    ensures |r.messages| == 0
  {
    IncomingMessages([])
  }

  /** `IncomingMessages::read_system`: pushes every decodable event, in order,
      after what the queue already holds; `read` counts the pushes. */
  method ReadSystem<M>(incoming: IncomingMessages<M>, events: seq<Frame>, fromPacket: Packet -> Option<M>)
    returns (r: IncomingMessages<M>, read: nat)
    ensures r.messages == incoming.messages + Decoded(events, fromPacket)
    ensures read == CountDecodable(events, fromPacket)
    ensures |r.messages| == |incoming.messages| + read
  {
    var messages := incoming.messages;
    read := 0;
    var i := 0;
    while i < |events|
      invariant 0 <= i <= |events|
      invariant messages == incoming.messages + Decoded(events[..i], fromPacket)
      invariant read == |Decoded(events[..i], fromPacket)|
    {
      DecodedAppend(events[..i], [events[i]], fromPacket);
      assert events[..i + 1] == events[..i] + [events[i]];
      var decoded := fromPacket(events[i].1);
      if decoded.Some? {
        messages := messages + [(events[i].0, decoded.value)];
        read := read + 1;
      }
      i := i + 1;
    }
    assert events[..i] == events;
    DecodedLength(events, fromPacket);
    r := IncomingMessages(messages);
  }

  /** The tick's composition of the two systems, as a function. */
  function FlushThenRead<M>(incoming: IncomingMessages<M>, events: seq<Frame>, fromPacket: Packet -> Option<M>): IncomingMessages<M>
  {
    IncomingMessages(Flush(incoming).messages + Decoded(events, fromPacket))
  }

  /** After flush then read the queue holds exactly this tick's decodable
      messages with their senders, whatever it held before. */
  lemma OneTickOfHistory<M>(incoming: IncomingMessages<M>, events: seq<Frame>, fromPacket: Packet -> Option<M>)
    ensures FlushThenRead(incoming, events, fromPacket).messages == Decoded(events, fromPacket)
    ensures FlushThenRead(incoming, [], fromPacket).messages == []
  {
  }
}
