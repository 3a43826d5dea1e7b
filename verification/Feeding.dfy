/** Feeding bytes to a session: the result does not depend on how the stream was cut into
    chunks, and feeding encoded packets is handling them one by one. */
module Feeding {
  import opened Bytes
  import opened Packets
  import opened Decoding
  import opened RoundTrip
  import opened Range
  import opened Framing
  import opened Sessions
  import opened SessionFacts

  /** The session after feeding, the packets received and sent, the bytes kept for later, and
      the exception that ended the feeding, if any. */
  datatype Fed = Fed(session: Session, received: seq<Packet>, sent: seq<Packet>, rest: seq<byte>, error: Option<Error>)

  /** An outcome as `feed_bytes` sees it: a packet no one handles is a protocol error. */
  function ErrorOf(status: Status): Option<Error> {
    match status
    case Done => None
    case Unhandled => Some(ProtocolError)
    case Raised(error) => Some(error)
  }

  /** The loop of `feed_bytes` over the bytes in the inbound buffer. */
  function Drain(s: Session, data: seq<byte>): Fed
    decreases |data|
  {
    if data == [] then Fed(s, [], [], [], None)
    else
      match DecodePacket(data)
      case Err(error) => Fed(s, [], [], data, if error == InsufficientData then None else Some(error))
      case Ok(rest, p) =>
        var o := HandlePacket(s, p);
        if o.status != Done then Fed(o.session, [], o.sent, data, ErrorOf(o.status))
        else
          var fed := Drain(o.session, rest);
          Fed(fed.session, [p] + fed.received, o.sent + fed.sent, fed.rest, fed.error)
  }

  function Before(received: seq<Packet>, sent: seq<Packet>, fed: Fed): Fed {
    fed.(received := received + fed.received, sent := sent + fed.sent)
  }

  /** Feed chunks one after the other, each behind what the ones before it left over, up to the
      first that raises. */
  function FeedChunks(s: Session, buffer: seq<byte>, chunks: seq<seq<byte>>): Fed
    decreases |chunks|
  {
    if chunks == [] then Fed(s, [], [], buffer, None)
    else
      var fed := Drain(s, buffer + chunks[0]);
      if fed.error.Some? then fed
      else Before(fed.received, fed.sent, FeedChunks(fed.session, fed.rest, chunks[1..]))
  }

  function Flatten(chunks: seq<seq<byte>>): seq<byte> {
    if chunks == [] then [] else chunks[0] + Flatten(chunks[1..])
  }

  /** Two feedings agree: the same session, received and sent packets and exception, and the
      same bytes left over unless an exception lost them. */
  ghost predicate SameFed(a: Fed, b: Fed) {
    && a.session == b.session
    && a.received == b.received
    && a.sent == b.sent
    && a.error == b.error
    && (a.error.None? ==> a.rest == b.rest)
  }

  /** Draining a buffer whose tail arrives later. */
  lemma {:induction false} DrainSplit(s: Session, a: seq<byte>, b: seq<byte>)
    ensures var first := Drain(s, a);
            SameFed(Drain(s, a + b),
                    if first.error.Some? then first
                    else Before(first.received, first.sent, Drain(first.session, first.rest + b)))
    decreases |a|
  {
    if a == [] {
      assert a + b == b == [] + b;
      BeforeNothing(Drain(s, b));
    } else if DecodePacket(a) == Err(InsufficientData) {
      BeforeNothing(Drain(s, a + b));
    } else {
      PacketStable(a, b);
      if DecodePacket(a).Ok? {
        var p, rest := DecodePacket(a).value, DecodePacket(a).rest;
        var o := HandlePacket(s, p);
        if o.status == Done {
          DrainSplit(o.session, rest, b);
          var inner := Drain(o.session, rest);
          if inner.error.None? {
            BeforeTwice([p], o.sent, inner.received, inner.sent, Drain(inner.session, inner.rest + b));
          }
        }
      }
    }
  }

  lemma BeforeNothing(fed: Fed)
    ensures Before([], [], fed) == fed
  {
    assert [] + fed.received == fed.received && [] + fed.sent == fed.sent;
  }

  lemma BeforeTwice(r1: seq<Packet>, s1: seq<Packet>, r2: seq<Packet>, s2: seq<Packet>, fed: Fed)
    ensures Before(r1, s1, Before(r2, s2, fed)) == Before(r1 + r2, s1 + s2, fed)
  {
    Assoc(r1, r2, fed.received);
    Assoc(s1, s2, fed.sent);
  }

  /** Every way of cutting a byte stream into chunks has the same effect as feeding the whole
      stream at once; one raises exactly if the other does, at the same packet. */
  lemma {:induction false} ChunkingInvariance(s: Session, buffer: seq<byte>, chunks: seq<seq<byte>>)
    requires Drain(s, buffer) == Fed(s, [], [], buffer, None)
    ensures SameFed(FeedChunks(s, buffer, chunks), Drain(s, buffer + Flatten(chunks)))
    decreases |chunks|
  {
    if chunks == [] {
      assert buffer + Flatten(chunks) == buffer;
    } else {
      var tail := Flatten(chunks[1..]);
      var fed := Drain(s, buffer + chunks[0]);
      Assoc(buffer, chunks[0], tail);
      DrainSplit(s, buffer + chunks[0], tail);
      if fed.error.None? {
        RestIsPartial(s, buffer + chunks[0]);
        ChunkingInvariance(fed.session, fed.rest, chunks[1..]);
      }
    }
  }

  /** A call of `feed_bytes`, with what it returns. */
  function FeedBytes(s: Session, data: seq<byte>): Fed {
    var fed := Drain(s, data);
    fed.(received := Returned(fed.received, fed.error.Some?))
  }

  /** Everything that the calls return which feed the chunks, up to the first that raises. */
  function ReturnedByAll(s: Session, buffer: seq<byte>, chunks: seq<seq<byte>>): seq<Packet>
    decreases |chunks|
  {
    if chunks == [] then []
    else
      var fed := FeedBytes(s, buffer + chunks[0]);
      if fed.error.Some? then fed.received
      else fed.received + ReturnedByAll(fed.session, fed.rest, chunks[1..])
  }

  lemma {:induction false} ReturnedAndHandled(s: Session, buffer: seq<byte>, chunks: seq<seq<byte>>)
    ensures var fed := FeedChunks(s, buffer, chunks);
            && ReturnedByAll(s, buffer, chunks) <= fed.received
            && (fed.error.None? ==> ReturnedByAll(s, buffer, chunks) == fed.received)
    decreases |chunks|
  {
    if chunks != [] {
      var fed := Drain(s, buffer + chunks[0]);
      if fed.error.None? {
        ReturnedAndHandled(fed.session, fed.rest, chunks[1..]);
      }
    }
  }

  /** Fed in chunks or at once, a stream that raises nothing has the same packets returned. If it
      raises, feeding it at once returns nothing, and feeding it in chunks has returned the first
      of the packets handled. */
  lemma ChunksReturn(s: Session, buffer: seq<byte>, chunks: seq<seq<byte>>)
    requires Drain(s, buffer) == Fed(s, [], [], buffer, None)
    ensures var all, returned := buffer + Flatten(chunks), ReturnedByAll(s, buffer, chunks);
            if Drain(s, all).error.None? then returned == FeedBytes(s, all).received
            else FeedBytes(s, all).received == [] && returned <= Drain(s, all).received
  {
    ChunkingInvariance(s, buffer, chunks);
    ReturnedAndHandled(s, buffer, chunks);
  }

  /** What a feeding leaves over holds no complete frame. */
  lemma {:induction false} RestIsPartial(s: Session, data: seq<byte>)
    requires Drain(s, data).error.None?
    ensures var fed := Drain(s, data);
            fed.rest == [] || DecodePacket(fed.rest) == Err(InsufficientData)
    ensures forall s' :: Drain(s', Drain(s, data).rest) == Fed(s', [], [], Drain(s, data).rest, None)
    decreases |data|
  {
    if data != [] && DecodePacket(data).Ok? {
      RestIsPartial(HandlePacket(s, DecodePacket(data).value).session, DecodePacket(data).rest);
    }
  }

  // ---------- Encoded packets ----------

  /** Handle packets one by one, up to the first that raises. */
  function HandleAll(s: Session, ps: seq<Packet>): Fed
    decreases |ps|
  {
    if ps == [] then Fed(s, [], [], [], None)
    else
      var o := HandlePacket(s, ps[0]);
      if o.status != Done then Fed(o.session, [], o.sent, [], ErrorOf(o.status))
      else Before([ps[0]], o.sent, HandleAll(o.session, ps[1..]))
  }

  /** Bytes that hold no complete frame. */
  ghost predicate Partial(part: seq<byte>) {
    part == [] || DecodePacket(part) == Err(InsufficientData)
  }

  lemma DrainPartial(s: Session, part: seq<byte>)
    requires Partial(part)
    ensures Drain(s, part) == Fed(s, [], [], part, None)
  {
  }

  lemma DrainPacket(s: Session, p: Packet, data: seq<byte>)
    requires PacketOk(p) && WireSafe(p)
    ensures var o := HandlePacket(s, Settled(p));
            SameFed(Drain(s, Encode(p) + data),
                    if o.status != Done then Fed(o.session, [], o.sent, [], ErrorOf(o.status))
                    else Before([Settled(p)], o.sent, Drain(o.session, data)))
  {
    PacketRoundTrip(p, data);
  }

  /** Feeding encoded packets and the beginning of another is handling the packets one by one;
      the beginning is kept. */
  lemma {:induction false} FeedEncoded(s: Session, ps: seq<Packet>, part: seq<byte>)
    requires AllSafe(ps) && Partial(part)
    ensures SameFed(Drain(s, EncodeAll(ps) + part), HandleAll(s, SettledAll(ps)).(rest := part))
    decreases |ps|
  {
    if ps == [] {
      assert EncodeAll(ps) + part == part;
      DrainPartial(s, part);
    } else {
      var p, tail := ps[0], ps[1..];
      assert PacketOk(p) && WireSafe(p);
      Assoc(Encode(p), EncodeAll(tail), part);
      DrainPacket(s, p, EncodeAll(tail) + part);
      FeedEncoded(HandlePacket(s, Settled(p)).session, tail, part);
    }
  }

  /** Feeding encoded packets that raise nothing, and more bytes. */
  lemma {:induction false} FeedBehind(s: Session, ps: seq<Packet>, more: seq<byte>)
    requires AllSafe(ps) && HandleAll(s, SettledAll(ps)).error.None?
    ensures var fed := HandleAll(s, SettledAll(ps));
            SameFed(Drain(s, EncodeAll(ps) + more), Before(fed.received, fed.sent, Drain(fed.session, more)))
    decreases |ps|
  {
    if ps == [] {
      assert EncodeAll(ps) + more == more;
      BeforeNothing(Drain(s, more));
    } else {
      var p, tail := ps[0], ps[1..];
      assert PacketOk(p) && WireSafe(p) && SettledAll(ps)[1..] == SettledAll(tail);
      Assoc(Encode(p), EncodeAll(tail), more);
      DrainPacket(s, p, EncodeAll(tail) + more);
      var o := HandlePacket(s, Settled(p));
      FeedBehind(o.session, tail, more);
      var fed := HandleAll(o.session, SettledAll(tail));
      BeforeTwice([Settled(p)], o.sent, fed.received, fed.sent, Drain(fed.session, more));
    }
  }

  /** What raises behind good packets. Bytes that cannot be decoded raise the decoder's error, and a
      packet that is refused raises what handling it raises, or ProtocolError if the session does not
      handle such packets at all. Nothing is returned; what was handled before stays handled. */
  lemma FeedRaises(s: Session, ps: seq<Packet>, bad: seq<byte>)
    requires AllSafe(ps) && HandleAll(s, SettledAll(ps)).error.None? && bad != []
    ensures var before, fed := HandleAll(s, SettledAll(ps)), FeedBytes(s, EncodeAll(ps) + bad);
            match DecodePacket(bad)
            case Err(error) =>
              error != InsufficientData ==>
                && fed.error == Some(error) && fed.received == []
                && fed.session == before.session && fed.sent == before.sent
            case Ok(_, p) =>
              var o := HandlePacket(before.session, p);
              o.status != Done ==>
                && fed.error == Some(if o.status == Unhandled then ProtocolError else o.status.error)
                && fed.session == o.session && fed.sent == before.sent + o.sent && fed.received == []
  {
    FeedBehind(s, ps, bad);
    var before := HandleAll(s, SettledAll(ps));
    assert before.sent + [] == before.sent;
  }

  /** The first bytes of encoded packets are whole packets and the beginning of the next. */
  lemma {:induction false} FirstBytes(ps: seq<Packet>, n: nat) returns (k: nat, part: seq<byte>)
    requires AllOk(ps) && n <= |EncodeAll(ps)|
    ensures k <= |ps| && Partial(part) && AllOk(ps[..k])
    ensures EncodeAll(ps)[..n] == EncodeAll(ps[..k]) + part
    decreases |ps|
  {
    k, part := 0, EncodeAll(ps)[..n];
    assert ps[..0] == [] && [] + part == part;
    if ps != [] {
      assert PacketOk(ps[0]);
      var bytes, tail := Encode(ps[0]), EncodeAll(ps[1..]);
      FirstOfTwo(bytes, tail, n);
      if n < |bytes| {
        StrictPrefix(ps[0], n);
      } else {
        k, part := FirstBytes(ps[1..], n - |bytes|);
        OneMorePacket(ps, k);
        Assoc(bytes, EncodeAll(ps[1..][..k]), part);
        k := k + 1;
      }
    }
  }

  lemma FirstOfTwo(a: seq<byte>, b: seq<byte>, n: nat)
    requires n <= |a| + |b|
    ensures (a + b)[..n] == if n < |a| then a[..n] else a + b[..n - |a|]
  {
  }

  lemma OneMorePacket(ps: seq<Packet>, k: nat)
    requires k < |ps| && AllOk(ps)
    ensures AllOk(ps[..k + 1]) && AllOk(ps[1..][..k]) && PacketOk(ps[0])
    ensures EncodeAll(ps[..k + 1]) == Encode(ps[0]) + EncodeAll(ps[1..][..k])
  {
    assert ps[..k + 1][1..] == ps[1..][..k];
  }

  /** Whatever part of a stream of encoded packets has arrived, in whatever chunks, exactly the
      complete packets have been handled, in order. */
  lemma StreamOfPackets(s: Session, ps: seq<Packet>, chunks: seq<seq<byte>>) returns (k: nat, part: seq<byte>)
    requires AllSafe(ps) && Flatten(chunks) <= EncodeAll(ps)
    ensures k <= |ps| && Partial(part) && AllOk(ps[..k])
    ensures Flatten(chunks) == EncodeAll(ps[..k]) + part
    ensures SameFed(FeedChunks(s, [], chunks), HandleAll(s, SettledAll(ps[..k])).(rest := part))
  {
    ChunkingInvariance(s, [], chunks);
    var n := |Flatten(chunks)|;
    k, part := FirstBytes(ps, n);
    assert [] + Flatten(chunks) == EncodeAll(ps)[..n] == EncodeAll(ps[..k]) + part;
    FeedEncoded(s, ps[..k], part);
  }

  // ---------- What feeding keeps ----------

  lemma {:induction false} DrainValid(s: Session, data: seq<byte>)
    requires SessionValid(s)
    ensures var fed := Drain(s, data);
            SessionValid(fed.session) && AllOk(fed.sent) && |fed.rest| <= |data|
    decreases |data|
  {
    if data != [] && DecodePacket(data).Ok? {
      var p := DecodePacket(data).value;
      PacketRange(data);
      HandleValid(s, p);
      DrainValid(HandlePacket(s, p).session, DecodePacket(data).rest);
    }
  }
}
