/** The decoders of the control packets, and `decode_packet` (section 2.1 of MQTT Version 5.0). */
module Decoding {
  import opened Bytes
  import opened Wire
  import opened Properties
  import opened Subscriptions
  import opened Packets

  /** `bool(flags & weight)` for a power of two. */
  predicate HasBit(flags: nat, weight: nat)
    requires weight > 0
  {
    flags / weight % 2 == 1
  }

  /** `dict.pop(key, None)` without its result. */
  function Remove<K(==), V>(entries: seq<(K, V)>, key: K): seq<(K, V)> {
    if entries == [] then []
    else if entries[0].0 == key then Remove(entries[1..], key)
    else [entries[0]] + Remove(entries[1..], key)
  }

  function DecodeQoS(value: nat): Decoded<QoS> {
    if value <= 2 then Ok([], value) else Err(DecodeError)
  }

  function DecodeU16(data: seq<byte>): (r: Decoded<U16>)
    ensures r.Ok? ==> |r.rest| < |data|
  {
    Powers();
    DecodeFixedInteger(data, 2)
  }

  function DecodeByte(data: seq<byte>): (r: Decoded<byte>)
    ensures r.Ok? ==> |r.rest| < |data|
  {
    Powers();
    DecodeFixedInteger(data, 1)
  }

  function DecodeReason(allowed: set<ReasonCode>, data: seq<byte>): (r: Decoded<ReasonCode>)
    ensures r.Ok? ==> |r.rest| < |data| && r.value in allowed
  {
    var (d, code) :- DecodeByte(data);
    if code in allowed then Ok(d, code) else Err(DecodeError)
  }

  // ---------- Payload format ----------

  /** Whether the popped payload format indicator announces text. */
  predicate SaysText(known: seq<Entry>) {
    var v := Get(known, PAYLOAD_FORMAT_INDICATOR);
    v.Some? && v.value != Number(0)
  }

  const MARK: Entry := (PAYLOAD_FORMAT_INDICATOR, Number(1))

  /** The known properties after popping the indicator and, for a text payload, after the
      constructor sets it again. */
  function Settle(known: seq<Entry>, text: bool): seq<Entry> {
    Remove<nat, Value>(known, PAYLOAD_FORMAT_INDICATOR) + (if text then [MARK] else [])
  }

  function DecodeWillPayload(text: bool, data: seq<byte>): Decoded<Payload> {
    if text then
      var (d, t) :- DecodeUtf8(data);
      Ok(d, TextPayload(t))
    else
      var (d, b) :- DecodeBinary(data);
      Ok(d, BinaryPayload(b))
  }

  // ---------- Decoders by packet type ----------

  function DecodeWill(flags: nat, data: seq<byte>): Decoded<Option<Will>> {
    if !HasBit(flags, 4) then Ok(data, None)
    else
      var (d, props) :- DecodeProps(WILL_KINDS, data);
      var (d, topic) :- DecodeUtf8(d);
      var text := SaysText(props.known);
      var (d, payload) :- DecodeWillPayload(text, d);
      var (_, qos) :- DecodeQoS(flags / 8 % 4);
      Ok(d, Some(Will(topic, payload, HasBit(flags, 32), qos, Props(Settle(props.known, text), props.user))))
  }

  function DecodeOptionalText(present: bool, data: seq<byte>): Decoded<Option<Text>> {
    if !present then Ok(data, None)
    else
      var (d, text) :- DecodeUtf8(data);
      Ok(d, Some(text))
  }

  function DecodeConnectPayload(flags: nat, keepAlive: U16, props: Props, data: seq<byte>): Decoded<Packet> {
    var (d, clientId) :- DecodeUtf8(data);
    var (d, will) :- DecodeWill(flags, d);
    var (d, username) :- DecodeOptionalText(HasBit(flags, 128), d);
    var (d, password) :- DecodeOptionalText(HasBit(flags, 64), d);
    Ok(d, ConnectPacket(clientId, will, username, password, HasBit(flags, 2), keepAlive, props))
  }

  function DecodeConnect(data: seq<byte>): Decoded<Packet> {
    var (d, name) :- DecodeUtf8(data);
    if name != MQTT then Err(ProtocolError)
    else
      var (d, version) :- DecodeByte(d);
      if version != 5 then Err(ProtocolError)
      else
        var (d, flags) :- DecodeByte(d);
        var (d, keepAlive) :- DecodeU16(d);
        var (d, props) :- DecodeProps(CONNECT_KINDS, d);
        DecodeConnectPayload(flags, keepAlive, props, d)
  }

  function DecodeConnAck(data: seq<byte>): Decoded<Packet> {
    var (d, flags) :- DecodeByte(data);
    var (d, reason) :- DecodeReason(CONNACK_CODES, d);
    var (d, props) :- DecodeProps(CONNACK_KINDS, d);
    Ok(d, ConnAckPacket(reason, HasBit(flags, 1), props))
  }

  function DecodeOptionalId(present: bool, data: seq<byte>): Decoded<Option<PacketId>> {
    if !present then Ok(data, None)
    else
      var (d, id) :- DecodeU16(data);
      Ok(d, Some(id))
  }

  /** The payload is what is left of the body, as text if the properties say so. */
  function DecodePayload(text: bool, data: seq<byte>): Decoded<Payload> {
    if !text then Ok([], BinaryPayload(data))
    else if !ValidUtf8(data) then Err(DecodeError)
    else Ok([], TextPayload(data))
  }

  function DecodePublish(flags: nat, data: seq<byte>): Decoded<Packet> {
    var (_, qos) :- DecodeQoS(flags / 2 % 4);
    var (d, topic) :- DecodeUtf8(data);
    var (d, id) :- DecodeOptionalId(qos > 0, d);
    var (d, props) :- DecodeProps(PUBLISH_KINDS, d);
    var text := SaysText(props.known);
    var (d, payload) :- DecodePayload(text, d);
    Ok(d, PublishPacket(Publish(topic, payload, id, HasBit(flags, 1), qos, HasBit(flags, 8),
                                Props(Settle(props.known, text), props.user))))
  }

  /** A reason code and a property block, either of which may be missing at the end. */
  function DecodeAck(kind: AckKind, data: seq<byte>): Decoded<Packet> {
    var (d, id) :- DecodeU16(data);
    if d == [] then Ok(d, AckPacket(kind, id, SUCCESS, NO_PROPS))
    else
      var (d, reason) :- DecodeReason(AckCodes(kind), d);
      if d == [] then Ok(d, AckPacket(kind, id, reason, NO_PROPS))
      else
        var (d, props) :- DecodeProps(ACK_KINDS, d);
        Ok(d, AckPacket(kind, id, reason, props))
  }

  function DecodeSubscription(data: seq<byte>): (r: Decoded<Subscription>)
    ensures r.Ok? ==> |r.rest| < |data|
  {
    var (d, pattern) :- DecodeUtf8(data);
    var (d, options) :- DecodeByte(d);
    var (_, qos) :- DecodeQoS(options % 4);
    if options / 16 % 4 == 3 then Err(DecodeError)
    else if !ValidFilter(pattern) then Err(InvalidPattern)
    else Ok(d, Subscription(pattern, qos, HasBit(options, 4), HasBit(options, 8), options / 16 % 4))
  }

  function DecodeSubscriptions(data: seq<byte>): (r: Decoded<seq<Subscription>>)
    ensures r.Ok? ==> r.rest == []
    decreases |data|
  {
    if data == [] then Ok([], [])
    else
      var (d, sub) :- DecodeSubscription(data);
      var (d, subs) :- DecodeSubscriptions(d);
      Ok(d, [sub] + subs)
  }

  function DecodeSubscribe(data: seq<byte>): Decoded<Packet> {
    var (d, id) :- DecodeU16(data);
    var (d, props) :- DecodeProps(SUBSCRIBE_KINDS, d);
    var (d, subs) :- DecodeSubscriptions(d);
    if subs == [] then Err(ProtocolError) else Ok(d, SubscribePacket(id, subs, props))
  }

  function DecodeCodes(allowed: set<ReasonCode>, data: seq<byte>): (r: Decoded<seq<ReasonCode>>)
    ensures r.Ok? ==> r.rest == []
    decreases |data|
  {
    if data == [] then Ok([], [])
    else
      var (d, code) :- DecodeReason(allowed, data);
      var (d, codes) :- DecodeCodes(allowed, d);
      Ok(d, [code] + codes)
  }

  function DecodeCodesPacket(kind: CodesKind, data: seq<byte>): Decoded<Packet> {
    var (d, id) :- DecodeU16(data);
    var (d, props) :- DecodeProps(ACK_KINDS, d);
    var (d, codes) :- DecodeCodes(CodesCodes(kind), d);
    Ok(d, CodesPacket(kind, id, codes, props))
  }

  function DecodePatterns(data: seq<byte>): (r: Decoded<seq<Text>>)
    ensures r.Ok? ==> r.rest == []
    decreases |data|
  {
    if data == [] then Ok([], [])
    else
      var (d, pattern) :- DecodeUtf8(data);
      var (d, patterns) :- DecodePatterns(d);
      Ok(d, [pattern] + patterns)
  }

  function DecodeUnsubscribe(data: seq<byte>): Decoded<Packet> {
    var (d, id) :- DecodeU16(data);
    var (d, props) :- DecodeProps(UNSUBSCRIBE_KINDS, d);
    var (d, patterns) :- DecodePatterns(d);
    if patterns == [] then Err(ProtocolError) else Ok(d, UnsubscribePacket(id, patterns, props))
  }

  function DecodeDisconnect(data: seq<byte>): Decoded<Packet> {
    if data == [] then Ok(data, DisconnectPacket(SUCCESS, NO_PROPS))
    else
      var (d, reason) :- DecodeReason(DISCONNECT_CODES, data);
      if d == [] then Ok(d, DisconnectPacket(reason, NO_PROPS))
      else
        var (d, props) :- DecodeProps(DISCONNECT_KINDS, d);
        Ok(d, DisconnectPacket(reason, props))
  }

  function DecodeAuth(data: seq<byte>): Decoded<Packet> {
    var (d, reason) :- DecodeReason(AUTH_CODES, data);
    var (d, props) :- DecodeProps(AUTH_KINDS, d);
    Ok(d, AuthPacket(reason, props))
  }

  /** `packet_cls.decode(data, flags)` for the class of a packet type. */
  function DecodeBody(kind: nat, flags: nat, data: seq<byte>): Decoded<Packet>
    requires 1 <= kind <= 15
  {
    match kind
    case 1 => DecodeConnect(data)
    case 2 => DecodeConnAck(data)
    case 3 => DecodePublish(flags, data)
    case 4 => DecodeAck(PubAck, data)
    case 5 => DecodeAck(PubRec, data)
    case 6 => DecodeAck(PubRel, data)
    case 7 => DecodeAck(PubComp, data)
    case 8 => DecodeSubscribe(data)
    case 9 => DecodeCodesPacket(SubAck, data)
    case 10 => DecodeUnsubscribe(data)
    case 11 => DecodeCodesPacket(UnsubAck, data)
    case 12 => Ok(data, PingReqPacket)
    case 13 => Ok(data, PingRespPacket)
    case 14 => DecodeDisconnect(data)
    case _ => DecodeAuth(data)
  }

  /** CONNECT and PUBLISH use the four low bits or ignore them, PUBREL, SUBSCRIBE and
      UNSUBSCRIBE require 2, all others 0. */
  predicate ReservedBitsOk(kind: nat, flags: nat) {
    if kind == CONNECT || kind == PUBLISH then true
    else if kind == PUBREL || kind == SUBSCRIBE || kind == UNSUBSCRIBE then flags == 2
    else flags == 0
  }

  /** A whole body must decode to a packet and nothing else. */
  function DecodeWhole(kind: nat, flags: nat, body: seq<byte>): (r: Decoded<Packet>)
    requires 1 <= kind <= 15
    ensures r.Err? ==> r.error != InsufficientData
  {
    if !ReservedBitsOk(kind, flags) then Err(ProtocolError)
    else
      match DecodeBody(kind, flags, body)
      case Err(error) => Err(if error == InsufficientData then ShortBody else error)
      case Ok(leftover, packet) => if leftover != [] then Err(DecodeError) else Ok([], packet)
  }

  /** The body of a frame, once its first byte and its length are known. */
  function DecodeRest(first: byte, length: nat, data: seq<byte>): (r: Decoded<Packet>)
    requires first >= 16
    ensures r.Ok? ==> |r.rest| <= |data|
    ensures r == Err(InsufficientData) <==> |data| < length
  {
    if |data| < length then Err(InsufficientData)
    else
      var (_, packet) :- DecodeWhole(first / 16, first % 16, data[..length]);
      Ok(data[length..], packet)
  }

  /** `decode_packet` without a size limit. */
  function DecodePacket(data: seq<byte>): (r: Decoded<Packet>)
    ensures r.Ok? ==> |r.rest| < |data|
  {
    if |data| < 2 then Err(InsufficientData)
    else if data[0] < 16 then Err(ProtocolError)
    else
      var (d, length) :- DecodeVarInt(data[1..]);
      DecodeRest(data[0], length, d)
  }

  // ---------- The loops as the source runs them ----------

  method DecodeSubscriptionList(data: seq<byte>) returns (r: Decoded<seq<Subscription>>)
    ensures r == DecodeSubscriptions(data)
  {
    var view, subs := data, [];
    PrependNothing(DecodeSubscriptions(data));
    while view != []
      invariant DecodeSubscriptions(data) == Prepend(subs, DecodeSubscriptions(view))
      decreases |view|
    {
      var item := DecodeSubscription(view);
      if item.Err? {
        return Err(item.error);
      }
      ghost var tail := DecodeSubscriptions(item.rest);
      if tail.Ok? {
        Assoc(subs, [item.value], tail.value);
      }
      view, subs := item.rest, subs + [item.value];
    }
    assert subs + [] == subs;
    return Ok([], subs);
  }

  method DecodeCodeList(allowed: set<ReasonCode>, data: seq<byte>) returns (r: Decoded<seq<ReasonCode>>)
    ensures r == DecodeCodes(allowed, data)
  {
    var view, codes := data, [];
    PrependNothing(DecodeCodes(allowed, data));
    while view != []
      invariant DecodeCodes(allowed, data) == Prepend(codes, DecodeCodes(allowed, view))
      decreases |view|
    {
      var item := DecodeReason(allowed, view);
      if item.Err? {
        return Err(item.error);
      }
      ghost var tail := DecodeCodes(allowed, item.rest);
      if tail.Ok? {
        Assoc(codes, [item.value], tail.value);
      }
      view, codes := item.rest, codes + [item.value];
    }
    assert codes + [] == codes;
    return Ok([], codes);
  }

  method DecodePatternList(data: seq<byte>) returns (r: Decoded<seq<Text>>)
    ensures r == DecodePatterns(data)
  {
    var view, patterns := data, [];
    PrependNothing(DecodePatterns(data));
    while view != []
      invariant DecodePatterns(data) == Prepend(patterns, DecodePatterns(view))
      decreases |view|
    {
      var item := DecodeUtf8(view);
      if item.Err? {
        return Err(item.error);
      }
      ghost var tail := DecodePatterns(item.rest);
      if tail.Ok? {
        Assoc(patterns, [item.value], tail.value);
      }
      view, patterns := item.rest, patterns + [item.value];
    }
    assert patterns + [] == patterns;
    return Ok([], patterns);
  }

  ghost function Prepend<T>(items: seq<T>, r: Decoded<seq<T>>): Decoded<seq<T>> {
    if r.Err? then r else Ok(r.rest, items + r.value)
  }

  lemma PrependNothing<T>(r: Decoded<seq<T>>)
    ensures Prepend([], r) == r
  {
    if r.Ok? {
      assert [] + r.value == r.value;
    }
  }
}
