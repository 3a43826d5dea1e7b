/** Encoding a packet and decoding the bytes: exactly which packets survive. */
module RoundTrip {
  import opened Bytes
  import opened Wire
  import opened Properties
  import opened Subscriptions
  import opened Packets
  import opened Decoding

  // ---------- Dictionaries ----------

  /** Equality of dictionaries, which ignores the order of entries. */
  ghost predicate SameDict<K(!new), V(!new)>(a: seq<(K, V)>, b: seq<(K, V)>) {
    forall k :: Get(a, k) == Get(b, k)
  }

  lemma {:induction false} GetMeans<K, V>(entries: seq<(K, V)>, k: K)
    ensures Get(entries, k).Some? <==> HasKey(entries, k)
    ensures Get(entries, k).Some? ==> (k, Get(entries, k).value) in entries
  {
    if entries != [] {
      HasKeyCons(entries);
      GetMeans(entries[1..], k);
    }
  }

  lemma {:induction false} GetAppend<K, V>(a: seq<(K, V)>, b: seq<(K, V)>, k: K)
    ensures Get(a + b, k) == if Get(a, k).Some? then Get(a, k) else Get(b, k)
  {
    if a == [] {
      assert a + b == b;
    } else {
      GetAppend(a[1..], b, k);
      assert (a + b)[1..] == a[1..] + b;
    }
  }

  lemma DistinctTail<K, V>(entries: seq<(K, V)>)
    requires entries != [] && DistinctKeys(entries)
    ensures DistinctKeys(entries[1..]) && forall e :: e in entries[1..] ==> e.0 != entries[0].0
  {
  }

  lemma DistinctCons<K, V>(first: (K, V), rest: seq<(K, V)>)
    requires DistinctKeys(rest) && forall e :: e in rest ==> e.0 != first.0
    ensures DistinctKeys([first] + rest)
  {
    var all := [first] + rest;
    forall i, j | 0 <= i < j < |all| ensures all[i].0 != all[j].0 {
      assert all[j] == rest[j - 1] && rest[j - 1] in rest;
    }
  }

  lemma {:induction false} RemoveMeans<K, V>(entries: seq<(K, V)>, key: K)
    ensures forall e :: e in Remove(entries, key) ==> e in entries && e.0 != key
    ensures DistinctKeys(entries) ==> DistinctKeys(Remove(entries, key))
  {
    if entries != [] {
      RemoveMeans(entries[1..], key);
      if DistinctKeys(entries) && entries[0].0 != key {
        DistinctTail(entries);
        DistinctCons(entries[0], Remove(entries[1..], key));
      }
    }
  }

  lemma {:induction false} RemoveAbsent<K, V>(entries: seq<(K, V)>, key: K)
    requires !HasKey(entries, key)
    ensures Remove(entries, key) == entries
  {
    if entries != [] {
      HasKeyCons(entries);
      RemoveAbsent(entries[1..], key);
    }
  }

  lemma {:induction false} RemoveGet<K, V>(entries: seq<(K, V)>, key: K, k: K)
    ensures Get(Remove(entries, key), k) == if k == key then None else Get(entries, k)
  {
    if entries != [] {
      RemoveGet(entries[1..], key, k);
    }
  }

  /** Popping the payload format indicator and setting it again leaves the same dictionary. */
  lemma SettleSame(known: seq<Entry>, payload: Payload)
    requires Marked(known, payload) && Unmarked(known, payload)
    ensures SameDict(Settle(known, payload.TextPayload?), known)
    ensures SaysText(known) == payload.TextPayload?
  {
    var key := PAYLOAD_FORMAT_INDICATOR;
    GetMeans(known, key);
    forall k: nat ensures Get(Settle(known, payload.TextPayload?), k) == Get(known, k) {
      RemoveGet(known, key, k);
      GetAppend(Remove(known, key), if payload.TextPayload? then [MARK] else [], k);
    }
  }

  // ---------- Packets up to the order of their dictionaries ----------

  ghost predicate SameProps(a: Props, b: Props) {
    SameDict(a.known, b.known) && SameDict(a.user, b.user)
  }

  function PropsOf(p: Packet): Props {
    match p
    case ConnectPacket(_, _, _, _, _, _, props) => props
    case ConnAckPacket(_, _, props) => props
    case PublishPacket(publish) => publish.props
    case AckPacket(_, _, _, props) => props
    case SubscribePacket(_, _, props) => props
    case CodesPacket(_, _, _, props) => props
    case UnsubscribePacket(_, _, props) => props
    case PingReqPacket => NO_PROPS
    case PingRespPacket => NO_PROPS
    case DisconnectPacket(_, props) => props
    case AuthPacket(_, props) => props
  }

  function WillPropsOf(p: Packet): Props {
    if p.ConnectPacket? && p.will.Some? then p.will.value.props else NO_PROPS
  }

  function BareWill(will: Option<Will>): Option<Will> {
    if will.Some? then Some(will.value.(props := NO_PROPS)) else None
  }

  /** All fields of a packet except its property dictionaries. */
  function Bare(p: Packet): Packet {
    match p
    case ConnectPacket(id, will, user, pass, clean, keepAlive, _) =>
      ConnectPacket(id, BareWill(will), user, pass, clean, keepAlive, NO_PROPS)
    case ConnAckPacket(reason, present, _) => ConnAckPacket(reason, present, NO_PROPS)
    case PublishPacket(publish) => PublishPacket(publish.(props := NO_PROPS))
    case AckPacket(kind, id, reason, _) => AckPacket(kind, id, reason, NO_PROPS)
    case SubscribePacket(id, subs, _) => SubscribePacket(id, subs, NO_PROPS)
    case CodesPacket(kind, id, codes, _) => CodesPacket(kind, id, codes, NO_PROPS)
    case UnsubscribePacket(id, patterns, _) => UnsubscribePacket(id, patterns, NO_PROPS)
    case PingReqPacket => p
    case PingRespPacket => p
    case DisconnectPacket(reason, _) => DisconnectPacket(reason, NO_PROPS)
    case AuthPacket(reason, _) => AuthPacket(reason, NO_PROPS)
  }

  /** `==` on packets: all fields equal, property dictionaries in any order. */
  ghost predicate SamePacket(a: Packet, b: Packet) {
    && Bare(a) == Bare(b)
    && SameProps(PropsOf(a), PropsOf(b))
    && SameProps(WillPropsOf(a), WillPropsOf(b))
  }

  function SettleProps(props: Props, payload: Payload): Props {
    Props(Settle(props.known, payload.TextPayload?), props.user)
  }

  function SettlePublish(p: Publish): Publish {
    p.(props := SettleProps(p.props, p.payload))
  }

  /** The packet with a payload format indicator moved to the end of its dictionary. */
  function Settled(p: Packet): Packet {
    match p
    case ConnectPacket(_, will, _, _, _, _, _) =>
      p.(will := if will.None? then None
                 else Some(will.value.(props := SettleProps(will.value.props, will.value.payload))))
    case PublishPacket(publish) => PublishPacket(SettlePublish(publish))
    case _ => p
  }

  lemma SettledSame(p: Packet)
    requires PacketOk(p) && WireSafe(p)
    ensures SamePacket(Settled(p), p)
  {
    match p
    case ConnectPacket(_, will, _, _, _, _, _) =>
      if will.Some? {
        SettleSame(will.value.props.known, will.value.payload);
      }
    case PublishPacket(publish) => SettleSame(publish.props.known, publish.payload);
    case _ =>
  }

  // ---------- Round trips by packet type ----------

  lemma ByteRoundTrip(b: byte, r: seq<byte>)
    ensures DecodeByte([b] + r) == Ok(r, b)
  {
    assert ([b] + r)[..1] == [b] && ([b] + r)[1..] == r;
    assert [b][..0] == [];
    assert BigEndian([b]) == b;
  }

  lemma TwoBytesRoundTrip(n: U16, r: seq<byte>)
    ensures DecodeU16(TwoBytes(n) + r) == Ok(r, n)
  {
    Powers();
    FixedRoundTrip(n, 2, r);
  }

  lemma PropsRoundTripAtEnd(allowed: set<nat>, p: Props)
    requires PropsFit(p) && PropsAllowed(allowed, p) && USER_PROPERTY in allowed
    ensures DecodeProps(allowed, EncodeProps(p)) == Ok([], p)
    ensures EncodeProps(p) != []
  {
    PropsRoundTrip(allowed, p, []);
    assert EncodeProps(p) + [] == EncodeProps(p);
  }

  lemma ReasonRoundTrip(allowed: set<ReasonCode>, code: ReasonCode, r: seq<byte>)
    requires code in allowed
    ensures DecodeReason(allowed, [code] + r) == Ok(r, code)
  {
    ByteRoundTrip(code, r);
  }

  lemma WillPayloadRoundTrip(w: Will, r: seq<byte>)
    requires WillOk(w)
    ensures DecodeWillPayload(w.payload.TextPayload?, Binary(PayloadBytes(w.payload)) + r) == Ok(r, w.payload)
  {
    match w.payload
    case TextPayload(text) => Utf8RoundTrip(text, r);
    case BinaryPayload(bytes) => BinaryRoundTrip(bytes, r);
  }

  lemma ConnectFlagBits(p: Packet)
    requires p.ConnectPacket?
    ensures var flags := ConnectFlags(p);
            && HasBit(flags, 2) == p.cleanStart
            && HasBit(flags, 4) == p.will.Some?
            && HasBit(flags, 64) == p.password.Some?
            && HasBit(flags, 128) == p.username.Some?
            && (p.will.Some? ==> HasBit(flags, 32) == p.will.value.retain && flags / 8 % 4 == p.will.value.qos)
  {
  }

  lemma WillRoundTrip(p: Packet, r: seq<byte>)
    requires p.ConnectPacket? && PacketOk(p) && WireSafe(p)
    ensures DecodeWill(ConnectFlags(p), EncodeWill(p.will) + r) == Ok(r, Settled(p).will)
  {
    ConnectFlagBits(p);
    if p.will.None? {
      assert EncodeWill(p.will) + r == r;
    } else {
      var w := p.will.value;
      var payload := Binary(PayloadBytes(w.payload));
      PropsRoundTrip(WILL_KINDS, w.props, Binary(w.topic) + (payload + r));
      Utf8RoundTrip(w.topic, payload + r);
      SettleSame(w.props.known, w.payload);
      WillPayloadRoundTrip(w, r);
      Assoc(EncodeProps(w.props), Binary(w.topic) + payload, r);
      Assoc(Binary(w.topic), payload, r);
    }
  }

  lemma OptionalTextRoundTrip(text: Option<Text>, r: seq<byte>)
    requires OptionalTextFits(text)
    ensures DecodeOptionalText(text.Some?, EncodeOptionalText(text) + r) == Ok(r, text)
  {
    if text.None? {
      assert EncodeOptionalText(text) + r == r;
    } else {
      Utf8RoundTrip(text.value, r);
    }
  }

  lemma ConnectPayloadRoundTrip(p: Packet)
    requires p.ConnectPacket? && PacketOk(p) && WireSafe(p)
    ensures DecodeConnectPayload(ConnectFlags(p), p.keepAlive, p.props, EncodeConnectPayload(p)) == Ok([], Settled(p))
  {
    var user, pass := EncodeOptionalText(p.username), EncodeOptionalText(p.password);
    ConnectFlagBits(p);
    Utf8RoundTrip(p.clientId, EncodeWill(p.will) + (user + pass));
    WillRoundTrip(p, user + pass);
    OptionalTextRoundTrip(p.username, pass);
    OptionalTextRoundTrip(p.password, []);
    assert pass + [] == pass;
  }

  lemma ConnectRoundTrip(p: Packet)
    requires p.ConnectPacket? && PacketOk(p) && WireSafe(p)
    ensures DecodeConnect(EncodeConnect(p)) == Ok([], Settled(p))
  {
    var payload := EncodeConnectPayload(p);
    var d3 := EncodeProps(p.props) + payload;
    var d2 := TwoBytes(p.keepAlive) + d3;
    var d1 := [ConnectFlags(p)] + d2;
    Utf8RoundTrip(MQTT, [5] + d1);
    ByteRoundTrip(5, d1);
    ByteRoundTrip(ConnectFlags(p), d2);
    TwoBytesRoundTrip(p.keepAlive, d3);
    PropsRoundTrip(CONNECT_KINDS, p.props, payload);
    ConnectPayloadRoundTrip(p);
  }

  lemma ConnAckRoundTrip(reason: ReasonCode, present: bool, props: Props)
    requires reason in CONNACK_CODES && PropsFit(props) && PropsAllowed(CONNACK_KINDS, props)
    ensures DecodeConnAck([Bit(present, 1)] + ([reason] + EncodeProps(props)))
         == Ok([], ConnAckPacket(reason, present, props))
  {
    var block := EncodeProps(props);
    assert HasBit(Bit(present, 1), 1) == present;
    ByteRoundTrip(Bit(present, 1), [reason] + block);
    ReasonRoundTrip(CONNACK_CODES, reason, block);
    PropsRoundTripAtEnd(CONNACK_KINDS, props);
  }

  lemma PublishFlagBits(p: Publish)
    ensures var flags := PublishFlags(p);
            && HasBit(flags, 1) == p.retain
            && flags / 2 % 4 == p.qos
            && HasBit(flags, 8) == p.duplicate
  {
  }

  lemma OptionalIdRoundTrip(id: Option<PacketId>, r: seq<byte>)
    ensures DecodeOptionalId(id.Some?, EncodeId(id) + r) == Ok(r, id)
  {
    if id.None? {
      assert EncodeId(id) + r == r;
    } else {
      TwoBytesRoundTrip(id.value, r);
    }
  }

  lemma PublishFields(flags: nat, data: seq<byte>, topic: Decoded<Text>, id: Decoded<Option<PacketId>>,
                      props: Decoded<Props>, payload: Payload)
    requires flags / 2 % 4 < 3
    requires topic == DecodeUtf8(data) && topic.Ok?
    requires id == DecodeOptionalId(flags / 2 % 4 > 0, topic.rest) && id.Ok?
    requires props == DecodeProps(PUBLISH_KINDS, id.rest) && props.Ok?
    requires DecodePayload(SaysText(props.value.known), props.rest) == Ok([], payload)
    ensures DecodePublish(flags, data)
         == Ok([], PublishPacket(
                 Publish(topic.value, payload, id.value, HasBit(flags, 1), flags / 2 % 4, HasBit(flags, 8),
                         Props(Settle(props.value.known, SaysText(props.value.known)), props.value.user))))
  {
  }

  lemma PayloadRoundTrip(payload: Payload)
    requires payload.TextPayload? ==> ValidUtf8(payload.text)
    ensures DecodePayload(payload.TextPayload?, PayloadBytes(payload)) == Ok([], payload)
  {
  }

  lemma PublishParts(p: Publish, flags: nat)
    requires PublishOk(p) && WireSafe(PublishPacket(p))
    requires flags / 2 % 4 == p.qos
    ensures DecodePublish(flags, EncodePublish(p))
         == Ok([], PublishPacket(SettlePublish(p).(retain := HasBit(flags, 1), duplicate := HasBit(flags, 8))))
  {
    var payload := PayloadBytes(p.payload);
    var d2 := EncodeProps(p.props) + payload;
    Utf8RoundTrip(p.topic, EncodeId(p.packetId) + d2);
    OptionalIdRoundTrip(p.packetId, d2);
    PropsRoundTrip(PUBLISH_KINDS, p.props, payload);
    SettleSame(p.props.known, p.payload);
    PayloadRoundTrip(p.payload);
    PublishFields(flags, EncodePublish(p), Ok(EncodeId(p.packetId) + d2, p.topic), Ok(d2, p.packetId),
                  Ok(payload, p.props), p.payload);
  }

  lemma PublishRoundTrip(p: Publish)
    requires PublishOk(p) && WireSafe(PublishPacket(p))
    ensures DecodePublish(PublishFlags(p), EncodePublish(p)) == Ok([], PublishPacket(SettlePublish(p)))
  {
    PublishFlagBits(p);
    PublishParts(p, PublishFlags(p));
  }

  lemma AckRoundTrip(kind: AckKind, id: PacketId, reason: ReasonCode, props: Props)
    requires reason in AckCodes(kind) && PropsFit(props) && PropsAllowed(ACK_KINDS, props)
    ensures DecodeAck(kind, TwoBytes(id) + ([reason] + EncodeProps(props)))
         == Ok([], AckPacket(kind, id, reason, props))
  {
    var block := EncodeProps(props);
    TwoBytesRoundTrip(id, [reason] + block);
    ReasonRoundTrip(AckCodes(kind), reason, block);
    PropsRoundTripAtEnd(ACK_KINDS, props);
  }

  lemma OptionBits(s: Subscription)
    ensures var options := OptionsOf(s);
            && options % 4 == s.maxQos
            && HasBit(options, 4) == s.noLocal
            && HasBit(options, 8) == s.retainAsPublished
            && options / 16 % 4 == s.retainHandling
  {
  }

  lemma SubscriptionRoundTrip(s: Subscription, r: seq<byte>)
    requires SubscriptionOk(s)
    ensures DecodeSubscription(EncodeSubscription(s) + r) == Ok(r, s)
  {
    Assoc(Binary(s.pattern), [OptionsOf(s)], r);
    Utf8RoundTrip(s.pattern, [OptionsOf(s)] + r);
    ByteRoundTrip(OptionsOf(s), r);
    OptionBits(s);
  }

  lemma {:induction false} SubscriptionsRoundTrip(subs: seq<Subscription>)
    requires forall s :: s in subs ==> SubscriptionOk(s)
    ensures DecodeSubscriptions(EncodeSubscriptions(subs)) == Ok([], subs)
  {
    if subs != [] {
      assert SubscriptionOk(subs[0]);
      assert subs == [subs[0]] + subs[1..];
      SubscriptionRoundTrip(subs[0], EncodeSubscriptions(subs[1..]));
      SubscriptionsRoundTrip(subs[1..]);
    }
  }

  lemma SubscribeRoundTrip(id: PacketId, subs: seq<Subscription>, props: Props)
    requires subs != [] && (forall s :: s in subs ==> SubscriptionOk(s))
    requires PropsFit(props) && PropsAllowed(SUBSCRIBE_KINDS, props)
    ensures DecodeSubscribe(TwoBytes(id) + (EncodeProps(props) + EncodeSubscriptions(subs)))
         == Ok([], SubscribePacket(id, subs, props))
  {
    var tail := EncodeSubscriptions(subs);
    TwoBytesRoundTrip(id, EncodeProps(props) + tail);
    PropsRoundTrip(SUBSCRIBE_KINDS, props, tail);
    SubscriptionsRoundTrip(subs);
  }

  lemma {:induction false} CodesRoundTrip(allowed: set<ReasonCode>, codes: seq<ReasonCode>)
    requires forall c :: c in codes ==> c in allowed
    ensures DecodeCodes(allowed, codes) == Ok([], codes)
  {
    if codes != [] {
      assert codes == [codes[0]] + codes[1..];
      ReasonRoundTrip(allowed, codes[0], codes[1..]);
      CodesRoundTrip(allowed, codes[1..]);
    }
  }

  lemma CodesPacketRoundTrip(kind: CodesKind, id: PacketId, codes: seq<ReasonCode>, props: Props)
    requires forall c :: c in codes ==> c in CodesCodes(kind)
    requires PropsFit(props) && PropsAllowed(ACK_KINDS, props)
    ensures DecodeCodesPacket(kind, TwoBytes(id) + (EncodeProps(props) + codes))
         == Ok([], CodesPacket(kind, id, codes, props))
  {
    TwoBytesRoundTrip(id, EncodeProps(props) + codes);
    PropsRoundTrip(ACK_KINDS, props, codes);
    CodesRoundTrip(CodesCodes(kind), codes);
  }

  lemma {:induction false} PatternsRoundTrip(patterns: seq<Text>)
    requires forall t :: t in patterns ==> TextFits(t)
    ensures DecodePatterns(EncodePatterns(patterns)) == Ok([], patterns)
  {
    if patterns != [] {
      assert TextFits(patterns[0]);
      assert patterns == [patterns[0]] + patterns[1..];
      Utf8RoundTrip(patterns[0], EncodePatterns(patterns[1..]));
      PatternsRoundTrip(patterns[1..]);
    }
  }

  lemma UnsubscribeRoundTrip(id: PacketId, patterns: seq<Text>, props: Props)
    requires patterns != [] && (forall t :: t in patterns ==> TextFits(t))
    requires PropsFit(props) && PropsAllowed(UNSUBSCRIBE_KINDS, props)
    ensures DecodeUnsubscribe(TwoBytes(id) + (EncodeProps(props) + EncodePatterns(patterns)))
         == Ok([], UnsubscribePacket(id, patterns, props))
  {
    var tail := EncodePatterns(patterns);
    TwoBytesRoundTrip(id, EncodeProps(props) + tail);
    PropsRoundTrip(UNSUBSCRIBE_KINDS, props, tail);
    PatternsRoundTrip(patterns);
  }

  lemma DisconnectRoundTrip(reason: ReasonCode, props: Props)
    requires reason in DISCONNECT_CODES && PropsFit(props) && PropsAllowed(DISCONNECT_KINDS, props)
    ensures DecodeDisconnect([reason] + EncodeProps(props)) == Ok([], DisconnectPacket(reason, props))
  {
    ReasonRoundTrip(DISCONNECT_CODES, reason, EncodeProps(props));
    PropsRoundTripAtEnd(DISCONNECT_KINDS, props);
  }

  lemma AuthRoundTrip(reason: ReasonCode, props: Props)
    requires reason in AUTH_CODES && PropsFit(props) && PropsAllowed(AUTH_KINDS, props)
    ensures DecodeAuth([reason] + EncodeProps(props)) == Ok([], AuthPacket(reason, props))
  {
    ReasonRoundTrip(AUTH_CODES, reason, EncodeProps(props));
    PropsRoundTripAtEnd(AUTH_KINDS, props);
  }

  /** The decoder that `decode_packet` picks for a packet's type. */
  ghost function DecodeLike(p: Packet, body: seq<byte>): Decoded<Packet> {
    match p
    case ConnectPacket(_, _, _, _, _, _, _) => DecodeConnect(body)
    case ConnAckPacket(_, _, _) => DecodeConnAck(body)
    case PublishPacket(publish) => DecodePublish(PublishFlags(publish), body)
    case AckPacket(kind, _, _, _) => DecodeAck(kind, body)
    case SubscribePacket(_, _, _) => DecodeSubscribe(body)
    case CodesPacket(kind, _, _, _) => DecodeCodesPacket(kind, body)
    case UnsubscribePacket(_, _, _) => DecodeUnsubscribe(body)
    case PingReqPacket => Ok(body, PingReqPacket)
    case PingRespPacket => Ok(body, PingRespPacket)
    case DisconnectPacket(_, _) => DecodeDisconnect(body)
    case AuthPacket(_, _) => DecodeAuth(body)
  }

  lemma Dispatch(p: Packet, body: seq<byte>)
    ensures DecodeBody(TypeOf(p), FlagsOf(p), body) == DecodeLike(p, body)
  {
    var kind := TypeOf(p);
    if kind <= 3 {
      assert p.ConnectPacket? || p.ConnAckPacket? || p.PublishPacket?;
    } else if kind <= 7 {
      assert p.AckPacket?;
    } else if kind <= 11 {
      assert p.SubscribePacket? || p.UnsubscribePacket? || p.CodesPacket?;
    } else {
      assert p.PingReqPacket? || p.PingRespPacket? || p.DisconnectPacket? || p.AuthPacket?;
    }
  }

  lemma LikeRoundTrip(p: Packet)
    requires PacketOk(p) && WireSafe(p)
    ensures DecodeLike(p, Body(p)) == Ok([], Settled(p))
  {
    match p
    case ConnectPacket(_, _, _, _, _, _, _) => ConnectRoundTrip(p);
    case ConnAckPacket(reason, present, props) => ConnAckRoundTrip(reason, present, props);
    case PublishPacket(publish) => PublishRoundTrip(publish);
    case AckPacket(kind, id, reason, props) => AckRoundTrip(kind, id, reason, props);
    case SubscribePacket(id, subs, props) => SubscribeRoundTrip(id, subs, props);
    case CodesPacket(kind, id, codes, props) => CodesPacketRoundTrip(kind, id, codes, props);
    case UnsubscribePacket(id, patterns, props) => UnsubscribeRoundTrip(id, patterns, props);
    case PingReqPacket =>
    case PingRespPacket =>
    case DisconnectPacket(reason, props) => DisconnectRoundTrip(reason, props);
    case AuthPacket(reason, props) => AuthRoundTrip(reason, props);
  }

  lemma BodyRoundTrip(p: Packet)
    requires PacketOk(p) && WireSafe(p)
    ensures DecodeBody(TypeOf(p), FlagsOf(p), Body(p)) == Ok([], Settled(p))
  {
    LikeRoundTrip(p);
    Dispatch(p, Body(p));
  }

  lemma FirstByte(p: Packet)
    ensures ReservedBitsOk(TypeOf(p), FlagsOf(p))
  {
  }

  lemma Cut<T>(a: seq<T>, b: seq<T>)
    ensures (a + b)[..|a|] == a && (a + b)[|a|..] == b
  {
  }

  lemma FrameParts(first: byte, body: seq<byte>, r: seq<byte>)
    ensures (Frame(first, body) + r)[1..] == VarInt(|body|) + (body + r)
    ensures |Frame(first, body) + r| >= 2 && (Frame(first, body) + r)[0] == first
  {
    Assoc(VarInt(|body|), body, r);
    Assoc([first], VarInt(|body|) + body, r);
    Cut([first], VarInt(|body|) + (body + r));
  }

  lemma DecodeParts(first: byte, body: seq<byte>, r: seq<byte>, q: Packet)
    requires first >= 16 && DecodeWhole(first / 16, first % 16, body) == Ok([], q)
    ensures DecodeRest(first, |body|, body + r) == Ok(r, q)
  {
    Cut(body, r);
  }

  /** Decoding a frame with more bytes after it. */
  lemma DecodeFrame(kind: nat, flags: nat, body: seq<byte>, r: seq<byte>, q: Packet)
    requires 1 <= kind <= 15 && flags < 16
    requires DecodeWhole(kind, flags, body) == Ok([], q)
    ensures DecodePacket(Frame(HeaderByte(flags, kind), body) + r) == Ok(r, q)
  {
    var first := HeaderByte(flags, kind);
    FrameParts(first, body, r);
    VarIntRoundTrip(|body|, body + r);
    DecodeParts(first, body, r, q);
  }

  lemma WholeRoundTrip(p: Packet)
    requires PacketOk(p) && WireSafe(p)
    ensures DecodeWhole(TypeOf(p), FlagsOf(p), Body(p)) == Ok([], Settled(p))
  {
    FirstByte(p);
    BodyRoundTrip(p);
  }

  lemma FrameRoundTrip(p: Packet, r: seq<byte>)
    requires PacketOk(p) && WireSafe(p)
    ensures DecodePacket(Encode(p) + r) == Ok(r, Settled(p))
  {
    WholeRoundTrip(p);
    DecodeFrame(TypeOf(p), FlagsOf(p), Body(p), r, Settled(p));
  }

  /** A packet that is safe for the wire is decoded as itself, whatever bytes follow it; only a
      payload format indicator moves to the end of its dictionary. */
  lemma PacketRoundTrip(p: Packet, r: seq<byte>)
    requires PacketOk(p) && WireSafe(p)
    ensures DecodePacket(Encode(p) + r) == Ok(r, Settled(p))
    ensures SamePacket(Settled(p), p)
  {
    FrameRoundTrip(p, r);
    SettledSame(p);
  }
}
