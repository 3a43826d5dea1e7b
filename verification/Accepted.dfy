/** Exactly which bytes decode to which packet: `decode_packet` accepts the frames whose body stands
    for a packet, and no others. */
module Accepted {
  import opened Bytes
  import opened Wire
  import opened Properties
  import opened Subscriptions
  import opened Packets
  import opened Decoding
  import opened Grammar

  // ---------- Which properties and reason codes stand where ----------

  /** The places of a property kind: packet types by their numbers, and 0 for the Will of a CONNECT
      (table 2-4 of MQTT Version 5.0). */
  predicate KindAllowed(place: nat, kind: nat) {
    match kind
    case 0x01 => place in {0, 3}
    case 0x02 => place in {0, 3}
    case 0x03 => place in {0, 3}
    case 0x08 => place in {0, 3}
    case 0x09 => place in {0, 3}
    case 0x0B => place in {3, 8}
    case 0x11 => place in {1, 2, 14}
    case 0x12 => place == 2
    case 0x13 => place == 2
    case 0x15 => place in {1, 2, 15}
    case 0x16 => place in {1, 2, 15}
    case 0x17 => place == 1
    case 0x18 => place == 0
    case 0x19 => place == 1
    case 0x1A => place == 2
    case 0x1C => place in {2, 14}
    case 0x1F => place in {2, 4, 5, 6, 7, 9, 11, 14, 15}
    case 0x21 => place in {1, 2}
    case 0x22 => place in {1, 2}
    case 0x23 => place == 3
    case 0x24 => place == 2
    case 0x25 => place == 2
    case 0x26 => true
    case 0x27 => place in {1, 2}
    case 0x28 => place == 2
    case 0x29 => place == 2
    case 0x2A => place == 2
    case _ => false
  }

  /** The packet types that may carry a reason code. */
  predicate CodeAllowed(kind: nat, code: byte) {
    match code
    case 0x00 => kind in {2, 4, 5, 6, 7, 9, 11, 14, 15}
    case 0x01 => kind == 9
    case 0x02 => kind == 9
    case 0x04 => kind == 14
    case 0x10 => kind in {4, 5}
    case 0x11 => kind == 11
    case 0x18 => kind == 15
    case 0x19 => kind == 15
    case 0x80 => kind in {2, 4, 5, 9, 11, 14}
    case 0x81 => kind in {2, 14}
    case 0x82 => kind in {2, 14}
    case 0x83 => kind in {2, 4, 5, 9, 11, 14}
    case 0x84 => kind == 2
    case 0x85 => kind == 2
    case 0x86 => kind == 2
    case 0x87 => kind in {2, 4, 5, 9, 11, 14}
    case 0x88 => kind == 2
    case 0x89 => kind in {2, 14}
    case 0x8A => kind == 2
    case 0x8B => kind == 14
    case 0x8C => kind == 2
    case 0x8E => kind == 14
    case 0x8F => kind in {9, 11, 14}
    case 0x90 => kind in {2, 4, 5, 14}
    case 0x91 => kind in {4, 5, 9, 11}
    case 0x92 => kind in {6, 7}
    case 0x93 => kind == 14
    case 0x94 => kind == 14
    case 0x95 => kind in {2, 14}
    case 0x96 => kind == 14
    case 0x97 => kind in {2, 4, 5, 9, 14}
    case 0x98 => kind == 14
    case 0x99 => kind in {2, 4, 5, 14}
    case 0x9A => kind in {2, 14}
    case 0x9B => kind in {2, 14}
    case 0x9C => kind in {2, 14}
    case 0x9D => kind in {2, 14}
    case 0x9E => kind in {9, 14}
    case 0x9F => kind in {2, 14}
    case 0xA0 => kind == 14
    case 0xA1 => kind in {9, 14}
    case 0xA2 => kind in {9, 14}
    case _ => false
  }

  function Kinds(place: nat): set<nat> {
    set kind: nat | kind < 0x80 && KindAllowed(place, kind)
  }

  lemma ConnectTables()
    ensures WILL_KINDS == Kinds(0) && CONNECT_KINDS == Kinds(1)
  {
  }

  lemma ConnAckTable()
    ensures CONNACK_KINDS == Kinds(2)
  {
  }

  lemma PublishTable()
    ensures PUBLISH_KINDS == Kinds(3)
  {
  }

  lemma AckTable(place: nat)
    requires place in {4, 5, 6, 7, 9, 11}
    ensures ACK_KINDS == Kinds(place)
  {
  }

  lemma RequestTables()
    ensures SUBSCRIBE_KINDS == Kinds(8) && UNSUBSCRIBE_KINDS == Kinds(10)
  {
  }

  lemma LastTables()
    ensures DISCONNECT_KINDS == Kinds(14) && AUTH_KINDS == Kinds(15)
  {
  }

  lemma CodeTables(code: byte)
    ensures code in CONNACK_CODES <==> CodeAllowed(2, code)
    ensures code in PUBLISH_CODES <==> CodeAllowed(4, code)
    ensures code in PUBLISH_CODES <==> CodeAllowed(5, code)
    ensures code in RELEASE_CODES <==> CodeAllowed(6, code)
    ensures code in RELEASE_CODES <==> CodeAllowed(7, code)
    ensures code in SUBACK_CODES <==> CodeAllowed(9, code)
    ensures code in UNSUBACK_CODES <==> CodeAllowed(11, code)
    ensures code in DISCONNECT_CODES <==> CodeAllowed(14, code)
    ensures code in AUTH_CODES <==> CodeAllowed(15, code)
  {
  }

  // ---------- Acknowledgements ----------

  /** The packet type of an acknowledgement. */
  function TypeOfAck(kind: AckKind): nat {
    match kind case PubAck => 4 case PubRec => 5 case PubRel => 6 case PubComp => 7
  }

  const NOTHING := Props([], [])

  /** A reason code and a block, either of which may be missing at the end: then they stand for
      success and for no properties. */
  ghost predicate TailSays(place: nat, tail: seq<byte>, reason: byte, props: Props) {
    || (tail == [] && reason == 0x00 && props == NOTHING)
    || (tail == [reason] && CodeAllowed(place, reason) && props == NOTHING)
    || (CodeAllowed(place, reason) && exists block :: IsBlock(Kinds(place), block, props) && tail == [reason] + block)
  }

  ghost predicate AckSays(kind: AckKind, body: seq<byte>, p: Packet) {
    && p.AckPacket? && p.kind == kind
    && exists tail :: TailSays(TypeOfAck(kind), tail, p.reason, p.props) && body == Two(p.packetId) + tail
  }

  lemma BlockLong(allowed: set<nat>, block: seq<byte>, p: Props)
    requires IsBlock(allowed, block, p)
    ensures block != []
  {
  }

  lemma BlockWhole(allowed: set<nat>, data: seq<byte>, p: Props)
    ensures DecodeProps(allowed, data) == Ok([], p) <==> IsBlock(allowed, data, p)
  {
    PropsMeans(allowed, data, p, []);
    assert data + [] == data;
    if BlockAt(allowed, data, p, []) {
      var block :| IsBlock(allowed, block, p) && data == block + [];
      assert block == data;
    }
  }

  /** The common part of the decoders that read such a tail. */
  function DecodeTail(codes: set<ReasonCode>, kinds: set<nat>, data: seq<byte>): Decoded<(ReasonCode, Props)> {
    if data == [] then Ok([], (SUCCESS, NO_PROPS))
    else
      var (d, reason) :- DecodeReason(codes, data);
      if d == [] then Ok([], (reason, NO_PROPS))
      else
        var (d, props) :- DecodeProps(kinds, d);
        Ok(d, (reason, props))
  }

  lemma TailMeans(place: nat, codes: set<ReasonCode>, kinds: set<nat>, tail: seq<byte>, reason: byte, props: Props)
    requires kinds == Kinds(place) && (forall c: byte :: c in codes <==> CodeAllowed(place, c))
    requires CodeAllowed(place, 0x00)
    ensures DecodeTail(codes, kinds, tail) == Ok([], (reason, props)) <==> TailSays(place, tail, reason, props)
  {
    if tail != [] {
      ByteMeans(tail, tail[0], tail[1..]);
      assert tail == [tail[0]] + tail[1..];
      BlockWhole(kinds, tail[1..], props);
      if block :| IsBlock(Kinds(place), block, props) && tail == [reason] + block {
        BlockLong(Kinds(place), block, props);
        assert tail[1..] == block;
      }
    }
  }

  lemma AckTail(kind: AckKind, tail: seq<byte>, reason: byte, props: Props)
    ensures DecodeTail(AckCodes(kind), ACK_KINDS, tail) == Ok([], (reason, props))
       <==> TailSays(TypeOfAck(kind), tail, reason, props)
  {
    var place := TypeOfAck(kind);
    AckTable(place);
    forall c: byte ensures c in AckCodes(kind) <==> CodeAllowed(place, c) {
      CodeTables(c);
    }
    TailMeans(place, AckCodes(kind), ACK_KINDS, tail, reason, props);
  }

  /** The tail of an acknowledgement decides. */
  lemma AckByTail(kind: AckKind, id: PacketId, tail: seq<byte>)
    ensures var d := DecodeTail(AckCodes(kind), ACK_KINDS, tail);
            DecodeAck(kind, Two(id) + tail) ==
              if d.Err? then Err(d.error) else Ok(d.rest, AckPacket(kind, id, d.value.0, d.value.1))
  {
    TwoMeans(Two(id) + tail, id, tail);
  }

  lemma AckMeans(kind: AckKind, body: seq<byte>, p: Packet)
    ensures DecodeAck(kind, body) == Ok([], p) <==> AckSays(kind, body, p)
  {
    if DecodeAck(kind, body) == Ok([], p) {
      var id := DecodeU16(body);
      TwoMeans(body, id.value, id.rest);
      AckByTail(kind, id.value, id.rest);
      AckTail(kind, id.rest, p.reason, p.props);
    }
    if AckSays(kind, body, p) {
      var tail :| TailSays(TypeOfAck(kind), tail, p.reason, p.props) && body == Two(p.packetId) + tail;
      AckByTail(kind, p.packetId, tail);
      AckTail(kind, tail, p.reason, p.props);
    }
  }

  // ---------- DISCONNECT, AUTH and CONNACK ----------

  ghost predicate DisconnectSays(body: seq<byte>, p: Packet) {
    p.DisconnectPacket? && TailSays(14, body, p.reason, p.props)
  }

  lemma DisconnectMeans(body: seq<byte>, p: Packet)
    ensures DecodeDisconnect(body) == Ok([], p) <==> DisconnectSays(body, p)
  {
    LastTables();
    forall c: byte ensures c in DISCONNECT_CODES <==> CodeAllowed(14, c) {
      CodeTables(c);
    }
    if p.DisconnectPacket? {
      TailMeans(14, DISCONNECT_CODES, DISCONNECT_KINDS, body, p.reason, p.props);
    }
  }

  ghost predicate AuthSays(body: seq<byte>, p: Packet) {
    && p.AuthPacket? && CodeAllowed(15, p.reason)
    && exists block :: IsBlock(Kinds(15), block, p.props) && body == [p.reason] + block
  }

  lemma AuthMeans(body: seq<byte>, p: Packet)
    ensures DecodeAuth(body) == Ok([], p) <==> AuthSays(body, p)
  {
    LastTables();
    if body != [] {
      CodeTables(body[0]);
      ByteMeans(body, body[0], body[1..]);
      assert body == [body[0]] + body[1..];
      if p.AuthPacket? {
        BlockWhole(AUTH_KINDS, body[1..], p.props);
        if block :| IsBlock(Kinds(15), block, p.props) && body == [p.reason] + block {
          assert body[1..] == block;
        }
      }
    }
  }

  /** All bits of the first byte but the lowest are ignored. */
  ghost predicate ConnAckSays(body: seq<byte>, p: Packet) {
    && p.ConnAckPacket? && CodeAllowed(2, p.reason)
    && exists flags: byte, block ::
         && IsBlock(Kinds(2), block, p.props) && (p.sessionPresent <==> flags % 2 == 1)
         && body == [flags, p.reason] + block
  }

  lemma ConnAckMeans(body: seq<byte>, p: Packet)
    ensures DecodeConnAck(body) == Ok([], p) <==> ConnAckSays(body, p)
  {
    ConnAckTable();
    if body != [] {
      ByteMeans(body, body[0], body[1..]);
      assert body == [body[0]] + body[1..];
    }
    if |body| >= 2 {
      CodeTables(body[1]);
      ByteMeans(body[1..], body[1], body[2..]);
      assert body[1..] == [body[1]] + body[2..] && body == [body[0], body[1]] + body[2..];
      if p.ConnAckPacket? {
        BlockWhole(CONNACK_KINDS, body[2..], p.props);
        if flags: byte, block :| IsBlock(Kinds(2), block, p.props) && body == [flags, p.reason] + block {
          assert body[2..] == block;
        }
      }
    }
  }

  // ---------- SUBACK and UNSUBACK ----------

  function TypeOfCodes(kind: CodesKind): nat {
    match kind case SubAck => 9 case UnsubAck => 11
  }

  ghost predicate CodesSay(kind: CodesKind, body: seq<byte>, p: Packet) {
    && p.CodesPacket? && p.codesKind == kind && (forall c :: c in p.reasonCodes ==> CodeAllowed(TypeOfCodes(kind), c))
    && exists block ::
         IsBlock(Kinds(TypeOfCodes(kind)), block, p.props) && body == Two(p.packetId) + (block + p.reasonCodes)
  }

  lemma {:induction false} CodesMean(allowed: set<ReasonCode>, data: seq<byte>, codes: seq<ReasonCode>)
    ensures DecodeCodes(allowed, data) == Ok([], codes) <==> data == codes && forall c :: c in codes ==> c in allowed
    decreases |data|
  {
    if data != [] {
      ByteMeans(data, data[0], data[1..]);
      assert data == [data[0]] + data[1..];
      CodesMean(allowed, data[1..], data[1..]);
      if codes != [] {
        CodesMean(allowed, data[1..], codes[1..]);
        assert codes == [codes[0]] + codes[1..];
      }
      assert forall c :: c in data <==> c == data[0] || c in data[1..];
    }
  }

  lemma CodesPacketMeans(kind: CodesKind, body: seq<byte>, p: Packet)
    ensures DecodeCodesPacket(kind, body) == Ok([], p) <==> CodesSay(kind, body, p)
  {
    var place := TypeOfCodes(kind);
    AckTable(place);
    forall c: byte ensures c in CodesCodes(kind) <==> CodeAllowed(place, c) {
      CodeTables(c);
    }
    if DecodeCodesPacket(kind, body) == Ok([], p) {
      var id := DecodeU16(body);
      TwoMeans(body, id.value, id.rest);
      var props := DecodeProps(ACK_KINDS, id.rest);
      PropsMeans(ACK_KINDS, id.rest, props.value, props.rest);
      CodesMean(CodesCodes(kind), props.rest, p.reasonCodes);
    }
    if CodesSay(kind, body, p) {
      var block :| IsBlock(Kinds(place), block, p.props) && body == Two(p.packetId) + (block + p.reasonCodes);
      TwoMeans(body, p.packetId, block + p.reasonCodes);
      PropsMeans(ACK_KINDS, block + p.reasonCodes, p.props, p.reasonCodes);
      assert BlockAt(ACK_KINDS, block + p.reasonCodes, p.props, p.reasonCodes);
      CodesMean(CodesCodes(kind), p.reasonCodes, p.reasonCodes);
    }
  }

  // ---------- SUBSCRIBE and UNSUBSCRIBE ----------

  /** The option byte of a subscription; its two high bits are ignored. */
  predicate OptionsSay(options: byte, sub: Subscription) {
    && options % 4 == sub.maxQos
    && (options / 4 % 2 == 1 <==> sub.noLocal)
    && (options / 8 % 2 == 1 <==> sub.retainAsPublished)
    && options / 16 % 4 == sub.retainHandling
  }

  ghost predicate SubscriptionAt(data: seq<byte>, sub: Subscription, rest: seq<byte>) {
    && IsText(sub.pattern) && CharacterRule(sub.pattern)
    && exists options: byte :: OptionsSay(options, sub) && data == Prefixed(sub.pattern) + ([options] + rest)
  }

  /** What the decoder makes of an option byte. */
  lemma OptionsMean(options: byte, pattern: Text, qos: QoS, retainHandling: RetainHandling)
    requires options % 4 == qos && options / 16 % 4 == retainHandling
    ensures forall sub: Subscription :: sub.pattern == pattern && OptionsSay(options, sub) <==>
              sub == Subscription(pattern, qos, HasBit(options, 4), HasBit(options, 8), retainHandling)
  {
  }

  lemma SubscriptionMeans(data: seq<byte>, sub: Subscription, rest: seq<byte>)
    ensures DecodeSubscription(data) == Ok(rest, sub) <==> SubscriptionAt(data, sub, rest)
  {
    FilterRule(sub.pattern);
    if DecodeSubscription(data) == Ok(rest, sub) {
      var d := DecodeUtf8(data);
      TextMeans(data, sub.pattern, d.rest);
      var options := DecodeByte(d.rest);
      ByteMeans(d.rest, options.value, rest);
      OptionsMean(options.value, sub.pattern, sub.maxQos, sub.retainHandling);
    }
    if SubscriptionAt(data, sub, rest) {
      var options: byte :| OptionsSay(options, sub) && data == Prefixed(sub.pattern) + ([options] + rest);
      TextMeans(data, sub.pattern, [options] + rest);
      ByteMeans([options] + rest, options, rest);
      OptionsMean(options, sub.pattern, sub.maxQos, sub.retainHandling);
    }
  }

  ghost predicate SpellsSubscriptions(bytes: seq<byte>, subs: seq<Subscription>)
    decreases |subs|
  {
    if subs == [] then bytes == []
    else exists rest :: SubscriptionAt(bytes, subs[0], rest) && SpellsSubscriptions(rest, subs[1..])
  }

  lemma {:induction false} SubscriptionsMean(data: seq<byte>, subs: seq<Subscription>)
    ensures DecodeSubscriptions(data) == Ok([], subs) <==> SpellsSubscriptions(data, subs)
    decreases |data|
  {
    if data != [] {
      var d := DecodeSubscription(data);
      if subs != [] {
        if d.Ok? {
          SubscriptionMeans(data, d.value, d.rest);
          SubscriptionsMean(d.rest, subs[1..]);
          assert subs == [subs[0]] + subs[1..];
          if DecodeSubscriptions(d.rest).Ok? {
            assert ([d.value] + DecodeSubscriptions(d.rest).value)[1..] == DecodeSubscriptions(d.rest).value;
          }
        }
        forall rest | SubscriptionAt(data, subs[0], rest) ensures d == Ok(rest, subs[0]) {
          SubscriptionMeans(data, subs[0], rest);
        }
      }
    } else if subs != [] {
      forall rest ensures !SubscriptionAt(data, subs[0], rest) {
      }
    }
  }

  ghost predicate SubscribeSays(body: seq<byte>, p: Packet) {
    && p.SubscribePacket? && p.subscriptions != []
    && exists block, list ::
         && IsBlock(Kinds(8), block, p.props) && SpellsSubscriptions(list, p.subscriptions)
         && body == Two(p.packetId) + (block + list)
  }

  lemma SubscribeMeans(body: seq<byte>, p: Packet)
    ensures DecodeSubscribe(body) == Ok([], p) <==> SubscribeSays(body, p)
  {
    RequestTables();
    if DecodeSubscribe(body) == Ok([], p) {
      var id := DecodeU16(body);
      TwoMeans(body, id.value, id.rest);
      var props := DecodeProps(SUBSCRIBE_KINDS, id.rest);
      PropsMeans(SUBSCRIBE_KINDS, id.rest, props.value, props.rest);
      SubscriptionsMean(props.rest, p.subscriptions);
    }
    if SubscribeSays(body, p) {
      var block, list :|
        && IsBlock(Kinds(8), block, p.props) && SpellsSubscriptions(list, p.subscriptions)
        && body == Two(p.packetId) + (block + list);
      TwoMeans(body, p.packetId, block + list);
      PropsMeans(SUBSCRIBE_KINDS, block + list, p.props, list);
      assert BlockAt(SUBSCRIBE_KINDS, block + list, p.props, list);
      SubscriptionsMean(list, p.subscriptions);
    }
  }

  /** The patterns of an UNSUBSCRIBE need not be valid filters. */
  ghost predicate SpellsPatterns(bytes: seq<byte>, patterns: seq<Text>)
    decreases |patterns|
  {
    if patterns == [] then bytes == []
    else
      && IsText(patterns[0])
      && exists rest :: bytes == Prefixed(patterns[0]) + rest && SpellsPatterns(rest, patterns[1..])
  }

  lemma {:induction false} PatternsMean(data: seq<byte>, patterns: seq<Text>)
    ensures DecodePatterns(data) == Ok([], patterns) <==> SpellsPatterns(data, patterns)
    decreases |data|
  {
    if data != [] && patterns != [] {
      var d := DecodeUtf8(data);
      if d.Ok? {
        TextMeans(data, d.value, d.rest);
        PatternsMean(d.rest, patterns[1..]);
        assert patterns == [patterns[0]] + patterns[1..];
        if DecodePatterns(d.rest).Ok? {
          assert ([d.value] + DecodePatterns(d.rest).value)[1..] == DecodePatterns(d.rest).value;
        }
      }
      forall rest | IsText(patterns[0]) && data == Prefixed(patterns[0]) + rest ensures d == Ok(rest, patterns[0]) {
        TextMeans(data, patterns[0], rest);
      }
    }
  }

  ghost predicate UnsubscribeSays(body: seq<byte>, p: Packet) {
    && p.UnsubscribePacket? && p.patterns != []
    && exists block, list ::
         && IsBlock(Kinds(10), block, p.props) && SpellsPatterns(list, p.patterns)
         && body == Two(p.packetId) + (block + list)
  }

  lemma UnsubscribeMeans(body: seq<byte>, p: Packet)
    ensures DecodeUnsubscribe(body) == Ok([], p) <==> UnsubscribeSays(body, p)
  {
    RequestTables();
    if DecodeUnsubscribe(body) == Ok([], p) {
      var id := DecodeU16(body);
      TwoMeans(body, id.value, id.rest);
      var props := DecodeProps(UNSUBSCRIBE_KINDS, id.rest);
      PropsMeans(UNSUBSCRIBE_KINDS, id.rest, props.value, props.rest);
      PatternsMean(props.rest, p.patterns);
    }
    if UnsubscribeSays(body, p) {
      var block, list :|
        && IsBlock(Kinds(10), block, p.props) && SpellsPatterns(list, p.patterns)
        && body == Two(p.packetId) + (block + list);
      TwoMeans(body, p.packetId, block + list);
      PropsMeans(UNSUBSCRIBE_KINDS, block + list, p.props, list);
      assert BlockAt(UNSUBSCRIBE_KINDS, block + list, p.props, list);
      PatternsMean(list, p.patterns);
    }
  }

  // ---------- PUBLISH ----------

  /** A payload format indicator other than 0 announces text. */
  ghost predicate MarksText(known: seq<Entry>) {
    Get(known, 0x01).Some? && Get(known, 0x01).value != Number(0)
  }

  function Others(known: seq<Entry>): seq<Entry> {
    if known == [] then []
    else (if known[0].0 == 0x01 then [] else [known[0]]) + Others(known[1..])
  }

  /** The properties that a message has: the indicator is taken out, and set to 1 for text. */
  ghost function MessageProps(q: Props): Props {
    Props(Others(q.known) + (if MarksText(q.known) then [(0x01, Number(1))] else []), q.user)
  }

  lemma {:induction false} OthersMean(known: seq<Entry>)
    ensures Remove(known, 0x01) == Others(known)
  {
    if known != [] {
      OthersMean(known[1..]);
    }
  }

  lemma SettleMeans(q: Props)
    ensures SaysText(q.known) <==> MarksText(q.known)
    ensures Props(Settle(q.known, SaysText(q.known)), q.user) == MessageProps(q)
  {
    OthersMean(q.known);
  }

  ghost predicate PayloadSays(text: bool, bytes: seq<byte>, payload: Payload) {
    if text then payload == TextPayload(bytes) && ValidUtf8(bytes) else payload == BinaryPayload(bytes)
  }

  function IdBytes(id: Option<PacketId>): seq<byte> {
    if id.Some? then Two(id.value) else []
  }

  ghost predicate FlagsSay(flags: nat, m: Publish) {
    && flags / 2 % 4 == m.qos && (m.retain <==> flags % 2 == 1) && (m.duplicate <==> flags / 8 % 2 == 1)
    && (m.packetId.Some? <==> m.qos > 0)
  }

  ghost predicate PublishPieces(block: seq<byte>, q: Props, payload: seq<byte>, m: Publish) {
    && IsBlock(Kinds(3), block, q)
    && PayloadSays(MarksText(q.known), payload, m.payload) && m.props == MessageProps(q)
  }

  /** The packet id is there exactly with QoS above 0, and the payload is what is left. */
  ghost predicate PublishSays(flags: nat, body: seq<byte>, p: Packet) {
    && p.PublishPacket? && FlagsSay(flags, p.publish) && IsText(p.publish.topic)
    && exists block, q, payload ::
         && PublishPieces(block, q, payload, p.publish)
         && body == Prefixed(p.publish.topic) + (IdBytes(p.publish.packetId) + (block + payload))
  }

  lemma OptionalIdMeans(present: bool, data: seq<byte>, id: Option<PacketId>, rest: seq<byte>)
    ensures DecodeOptionalId(present, data) == Ok(rest, id) <==> (id.Some? <==> present) && data == IdBytes(id) + rest
  {
    if present && id.Some? {
      TwoMeans(data, id.value, rest);
    }
    assert [] + rest == rest;
  }

  lemma PublishFlagsDecoded(flags: nat, body: seq<byte>, p: Packet)
    requires DecodePublish(flags, body) == Ok([], p)
    ensures p.PublishPacket? && FlagsSay(flags, p.publish)
  {
  }

  lemma PublishDecoded(flags: nat, body: seq<byte>, p: Packet)
    requires DecodePublish(flags, body) == Ok([], p)
    ensures PublishSays(flags, body, p)
  {
    hide IsBlock;
    PublishFlagsDecoded(flags, body, p);
    PublishTable();
    var m := p.publish;
    var topic := DecodeUtf8(body);
    TextMeans(body, m.topic, topic.rest);
    var id := DecodeOptionalId(m.qos > 0, topic.rest);
    OptionalIdMeans(m.qos > 0, topic.rest, m.packetId, id.rest);
    var props := DecodeProps(PUBLISH_KINDS, id.rest);
    PropsMeans(PUBLISH_KINDS, id.rest, props.value, props.rest);
    var block :| IsBlock(PUBLISH_KINDS, block, props.value) && id.rest == block + props.rest;
    SettleMeans(props.value);
    assert PublishPieces(block, props.value, props.rest, m);
  }

  lemma PublishReadable(flags: nat, body: seq<byte>, p: Packet)
    requires PublishSays(flags, body, p)
    ensures DecodePublish(flags, body) == Ok([], p)
  {
    hide DecodeProps, DecodeUtf8, DecodeOptionalId, IsBlock;
    PublishTable();
    var m := p.publish;
    var block, q, payload :|
      PublishPieces(block, q, payload, m) && body == Prefixed(m.topic) + (IdBytes(m.packetId) + (block + payload));
    TextMeans(body, m.topic, IdBytes(m.packetId) + (block + payload));
    OptionalIdMeans(m.qos > 0, IdBytes(m.packetId) + (block + payload), m.packetId, block + payload);
    PropsMeans(PUBLISH_KINDS, block + payload, q, payload);
    assert BlockAt(PUBLISH_KINDS, block + payload, q, payload);
    SettleMeans(q);
  }

  lemma PublishMeans(flags: nat, body: seq<byte>, p: Packet)
    ensures DecodePublish(flags, body) == Ok([], p) <==> PublishSays(flags, body, p)
  {
    if DecodePublish(flags, body) == Ok([], p) {
      PublishDecoded(flags, body, p);
    }
    if PublishSays(flags, body, p) {
      PublishReadable(flags, body, p);
    }
  }

  // ---------- CONNECT ----------

  ghost predicate OptionalSays(bytes: seq<byte>, text: Option<Text>) {
    if text.None? then bytes == [] else IsText(text.value) && bytes == Prefixed(text.value)
  }

  lemma OptionalMeans(present: bool, data: seq<byte>, text: Option<Text>, rest: seq<byte>)
    ensures DecodeOptionalText(present, data) == Ok(rest, text)
       <==> (text.Some? <==> present) && exists bytes :: OptionalSays(bytes, text) && data == bytes + rest
  {
    assert [] + rest == rest;
    if present && text.Some? {
      TextMeans(data, text.value, rest);
      if IsText(text.value) {
        assert forall bytes :: OptionalSays(bytes, text) <==> bytes == Prefixed(text.value);
      }
    } else if text.None? {
      assert OptionalSays([], text);
    }
  }

  ghost predicate WillPayloadSays(text: bool, bytes: seq<byte>, payload: Payload) {
    if text then payload.TextPayload? && IsText(payload.text) && bytes == Prefixed(payload.text)
    else payload.BinaryPayload? && |payload.bytes| < 0x1_0000 && bytes == Prefixed(payload.bytes)
  }

  ghost predicate WillParts(block: seq<byte>, q: Props, payload: seq<byte>, w: Will) {
    && IsBlock(Kinds(0), block, q)
    && WillPayloadSays(MarksText(q.known), payload, w.payload) && w.props == MessageProps(q)
  }

  /** A Will: its own properties, its topic and its payload; retain flag and QoS stand in the flags. */
  ghost predicate WillSays(flags: nat, bytes: seq<byte>, will: Option<Will>) {
    if will.None? then bytes == []
    else
      var w := will.value;
      && flags / 8 % 4 == w.qos && (w.retain <==> flags / 32 % 2 == 1) && IsText(w.topic)
      && exists block, q, payload ::
           WillParts(block, q, payload, w) && bytes == block + (Prefixed(w.topic) + payload)
  }

  ghost predicate WillAt(flags: nat, data: seq<byte>, will: Option<Will>, rest: seq<byte>) {
    (will.Some? <==> flags / 4 % 2 == 1) && exists bytes :: WillSays(flags, bytes, will) && data == bytes + rest
  }

  lemma WillPayloadDecoded(text: bool, data: seq<byte>) returns (bytes: seq<byte>)
    requires DecodeWillPayload(text, data).Ok?
    ensures var r := DecodeWillPayload(text, data); WillPayloadSays(text, bytes, r.value) && data == bytes + r.rest
  {
    var r := DecodeWillPayload(text, data);
    if text {
      TextMeans(data, r.value.text, r.rest);
      bytes := Prefixed(r.value.text);
    } else {
      PrefixedMeans(data, r.value.bytes, r.rest);
      bytes := Prefixed(r.value.bytes);
    }
  }

  lemma WillPayloadReadable(text: bool, bytes: seq<byte>, payload: Payload, rest: seq<byte>)
    requires WillPayloadSays(text, bytes, payload)
    ensures DecodeWillPayload(text, bytes + rest) == Ok(rest, payload)
  {
    if text {
      TextMeans(bytes + rest, payload.text, rest);
    } else {
      PrefixedMeans(bytes + rest, payload.bytes, rest);
    }
  }

  /** A Will put together from its parts. */
  lemma WillAssembled(flags: nat, data: seq<byte>, w: Will, rest: seq<byte>,
                      block: seq<byte>, q: Props, payload: seq<byte>)
    requires flags / 4 % 2 == 1 && flags / 8 % 4 == w.qos && (w.retain <==> flags / 32 % 2 == 1) && IsText(w.topic)
    requires WillParts(block, q, payload, w) && data == block + (Prefixed(w.topic) + (payload + rest))
    ensures WillAt(flags, data, Some(w), rest)
  {
    var bytes := block + (Prefixed(w.topic) + payload);
    Assoc(Prefixed(w.topic), payload, rest);
    Assoc(block, Prefixed(w.topic) + payload, rest);
    assert WillSays(flags, bytes, Some(w)) && data == bytes + rest;
  }

  /** Reading it off again, part by part. */
  lemma WillTaken(flags: nat, block: seq<byte>, q: Props, payload: seq<byte>, w: Will, rest: seq<byte>)
    requires flags / 4 % 2 == 1 && flags / 8 % 4 == w.qos && (w.retain <==> flags / 32 % 2 == 1) && IsText(w.topic)
    requires WillParts(block, q, payload, w)
    ensures DecodeWill(flags, block + (Prefixed(w.topic) + (payload + rest))) == Ok(rest, Some(w))
  {
    ConnectTables();
    var tail := Prefixed(w.topic) + (payload + rest);
    PropsMeans(WILL_KINDS, block + tail, q, tail);
    assert BlockAt(WILL_KINDS, block + tail, q, tail);
    TextMeans(tail, w.topic, payload + rest);
    SettleMeans(q);
    WillPayloadReadable(MarksText(q.known), payload, w.payload, rest);
  }

  lemma WillDecoded(flags: nat, data: seq<byte>)
    requires DecodeWill(flags, data).Ok?
    ensures WillAt(flags, data, DecodeWill(flags, data).value, DecodeWill(flags, data).rest)
  {
    var r := DecodeWill(flags, data);
    if r.value.None? {
      assert WillSays(flags, [], r.value) && data == [] + r.rest;
    } else {
      var block, q, payload := WillPartsDecoded(flags, data);
      WillAssembled(flags, data, r.value.value, r.rest, block, q, payload);
    }
  }

  lemma WillPartsDecoded(flags: nat, data: seq<byte>) returns (block: seq<byte>, q: Props, payload: seq<byte>)
    requires DecodeWill(flags, data).Ok? && DecodeWill(flags, data).value.Some?
    ensures var r, w := DecodeWill(flags, data), DecodeWill(flags, data).value.value;
            && flags / 4 % 2 == 1 && flags / 8 % 4 == w.qos && (w.retain <==> flags / 32 % 2 == 1) && IsText(w.topic)
            && WillParts(block, q, payload, w) && data == block + (Prefixed(w.topic) + (payload + r.rest))
  {
    ConnectTables();
    var r, w := DecodeWill(flags, data), DecodeWill(flags, data).value.value;
    var props := DecodeProps(WILL_KINDS, data);
    PropsMeans(WILL_KINDS, data, props.value, props.rest);
    q := props.value;
    block :| IsBlock(WILL_KINDS, block, q) && data == block + props.rest;
    var topic := DecodeUtf8(props.rest);
    TextMeans(props.rest, w.topic, topic.rest);
    SettleMeans(q);
    payload := WillPayloadDecoded(SaysText(q.known), topic.rest);
  }

  lemma WillReadable(flags: nat, data: seq<byte>, will: Option<Will>, rest: seq<byte>)
    requires WillAt(flags, data, will, rest)
    ensures DecodeWill(flags, data) == Ok(rest, will)
  {
    var bytes :| WillSays(flags, bytes, will) && data == bytes + rest;
    if will.None? {
      assert data == rest;
    } else {
      var w := will.value;
      var block, q, payload :| WillParts(block, q, payload, w) && bytes == block + (Prefixed(w.topic) + payload);
      Assoc(Prefixed(w.topic), payload, rest);
      Assoc(block, Prefixed(w.topic) + payload, rest);
      WillTaken(flags, block, q, payload, w, rest);
    }
  }

  ghost predicate ConnectFlagsSay(flags: nat, p: Packet)
    requires p.ConnectPacket?
  {
    && (p.cleanStart <==> flags / 2 % 2 == 1)
    && (p.will.Some? <==> flags / 4 % 2 == 1)
    && (p.password.Some? <==> flags / 64 % 2 == 1)
    && (p.username.Some? <==> flags / 128 % 2 == 1)
  }

  ghost predicate ConnectParts(flags: nat, will: seq<byte>, username: seq<byte>, password: seq<byte>, p: Packet)
    requires p.ConnectPacket?
  {
    WillSays(flags, will, p.will) && OptionalSays(username, p.username) && OptionalSays(password, p.password)
  }

  /** What follows the property block: client id, Will, user name and password. */
  ghost predicate ConnectPayloadSays(flags: nat, bytes: seq<byte>, p: Packet)
    requires p.ConnectPacket?
  {
    && ConnectFlagsSay(flags, p) && IsText(p.clientId)
    && exists will, username, password ::
         && ConnectParts(flags, will, username, password, p)
         && bytes == Prefixed(p.clientId) + (will + (username + password))
  }

  lemma ConnectPayloadDecoded(flags: nat, keepAlive: U16, props: Props, data: seq<byte>, p: Packet)
    requires DecodeConnectPayload(flags, keepAlive, props, data) == Ok([], p)
    ensures p.ConnectPacket? && p.keepAlive == keepAlive && p.props == props && ConnectPayloadSays(flags, data, p)
  {
    hide DecodeUtf8, DecodeWill, WillSays;
    var id := DecodeUtf8(data);
    TextMeans(data, p.clientId, id.rest);
    var w := DecodeWill(flags, id.rest);
    WillDecoded(flags, id.rest);
    var will :| WillSays(flags, will, p.will) && id.rest == will + w.rest;
    var u := DecodeOptionalText(HasBit(flags, 128), w.rest);
    OptionalMeans(HasBit(flags, 128), w.rest, p.username, u.rest);
    var username :| OptionalSays(username, p.username) && w.rest == username + u.rest;
    OptionalMeans(HasBit(flags, 64), u.rest, p.password, []);
    var password :| OptionalSays(password, p.password) && u.rest == password + [];
    assert password + [] == password;
    assert ConnectParts(flags, will, username, password, p);
  }

  lemma ConnectPayloadReadable(flags: nat, data: seq<byte>, p: Packet)
    requires p.ConnectPacket? && 0 <= p.keepAlive < 0x1_0000 && ConnectPayloadSays(flags, data, p)
    ensures DecodeConnectPayload(flags, p.keepAlive, p.props, data) == Ok([], p)
  {
    var will, username, password :|
      && ConnectParts(flags, will, username, password, p)
      && data == Prefixed(p.clientId) + (will + (username + password));
    TextMeans(data, p.clientId, will + (username + password));
    assert WillAt(flags, will + (username + password), p.will, username + password);
    WillReadable(flags, will + (username + password), p.will, username + password);
    OptionalMeans(HasBit(flags, 128), username + password, p.username, password);
    assert password == password + [];
    OptionalMeans(HasBit(flags, 64), password, p.password, []);
  }

  ghost predicate ConnectHead(flags: byte, block: seq<byte>, payload: seq<byte>, p: Packet)
    requires p.ConnectPacket?
  {
    IsBlock(Kinds(1), block, p.props) && ConnectPayloadSays(flags, payload, p)
  }

  /** Ten bytes, the properties, and the payload. Bit 0 of the flags is ignored. */
  ghost predicate ConnectSays(body: seq<byte>, p: Packet) {
    && p.ConnectPacket? && 0 <= p.keepAlive < 0x1_0000
    && exists flags: byte, block, payload ::
         ConnectHead(flags, block, payload, p) && body == HeadBytes(flags, p.keepAlive) + (block + payload)
  }

  lemma NameMeans(data: seq<byte>, rest: seq<byte>)
    ensures DecodeUtf8(data) == Ok(rest, [0x4D, 0x51, 0x54, 0x54])
       <==> data == [0x00, 0x04, 0x4D, 0x51, 0x54, 0x54] + rest
  {
    var name: Text := [0x4D, 0x51, 0x54, 0x54];
    assert name[1..][1..][1..][1..] == [] && ValidUtf8(name[1..][1..][1..]) && ValidUtf8(name[1..][1..]);
    assert ValidUtf8(name[1..]);
    TextMeans(data, name, rest);
    assert Prefixed(name) == [0x00, 0x04, 0x4D, 0x51, 0x54, 0x54];
  }

  /** What is left to decode behind the ten bytes. */
  ghost function DecodeBehind(flags: byte, keepAlive: U16, data: seq<byte>): Decoded<Packet> {
    var props := DecodeProps(CONNECT_KINDS, data);
    if props.Err? then Err(props.error) else DecodeConnectPayload(flags, keepAlive, props.value, props.rest)
  }

  lemma HeadDecodes(flags: byte, keepAlive: U16, data: seq<byte>)
    ensures DecodeConnect(HeadBytes(flags, keepAlive) + data) == DecodeBehind(flags, keepAlive, data)
  {
    var tail := Two(keepAlive) + data;
    var body := HeadBytes(flags, keepAlive) + data;
    assert body == [0x00, 0x04, 0x4D, 0x51, 0x54, 0x54] + ([0x05] + ([flags] + tail));
    NameMeans(body, [0x05] + ([flags] + tail));
    ByteMeans([0x05] + ([flags] + tail), 5, [flags] + tail);
    ByteMeans([flags] + tail, flags, tail);
    TwoMeans(tail, keepAlive, data);
  }

  lemma HeadParts(body: seq<byte>) returns (flags: byte, keepAlive: U16, data: seq<byte>)
    requires DecodeConnect(body).Ok?
    ensures body == [0x00, 0x04, 0x4D, 0x51, 0x54, 0x54] + ([0x05] + ([flags] + (Two(keepAlive) + data)))
  {
    var name := DecodeUtf8(body);
    NameMeans(body, name.rest);
    var version := DecodeByte(name.rest);
    ByteMeans(name.rest, 5, version.rest);
    var f := DecodeByte(version.rest);
    ByteMeans(version.rest, f.value, f.rest);
    var k := DecodeU16(f.rest);
    TwoMeans(f.rest, k.value, k.rest);
    flags, keepAlive, data := f.value, k.value, k.rest;
  }

  lemma HeadJoined(flags: byte, keepAlive: U16, data: seq<byte>)
    ensures [0x00, 0x04, 0x4D, 0x51, 0x54, 0x54] + ([0x05] + ([flags] + (Two(keepAlive) + data)))
         == HeadBytes(flags, keepAlive) + data
  {
  }

  /** A body decodes as a CONNECT only if it begins with the name and version of the protocol. */
  lemma HeadNeeded(body: seq<byte>)
    requires DecodeConnect(body).Ok?
    ensures |body| >= 10 && body[..7] == [0x00, 0x04, 0x4D, 0x51, 0x54, 0x54, 0x05]
    ensures exists keepAlive: U16 :: body == HeadBytes(body[7], keepAlive) + body[10..]
  {
    hide DecodeConnect, DecodeUtf8, BigEndian;
    var flags, keepAlive, data := HeadParts(body);
    HeadJoined(flags, keepAlive, data);
    var head := HeadBytes(flags, keepAlive);
    assert body[10..] == data && body[..7] == head[..7] && body[7] == flags;
    assert body == HeadBytes(body[7], keepAlive) + body[10..];
  }

  lemma BehindMeans(flags: byte, keepAlive: U16, data: seq<byte>, p: Packet)
    ensures DecodeBehind(flags, keepAlive, data) == Ok([], p)
       <==> p.ConnectPacket? && p.keepAlive == keepAlive
            && exists block, payload :: ConnectHead(flags, block, payload, p) && data == block + payload
  {
    ConnectTables();
    var props := DecodeProps(CONNECT_KINDS, data);
    if DecodeBehind(flags, keepAlive, data) == Ok([], p) {
      PropsMeans(CONNECT_KINDS, data, props.value, props.rest);
      var block :| IsBlock(CONNECT_KINDS, block, props.value) && data == block + props.rest;
      ConnectPayloadDecoded(flags, keepAlive, props.value, props.rest, p);
      assert ConnectHead(flags, block, props.rest, p);
    }
    if p.ConnectPacket? && p.keepAlive == keepAlive {
      if block, payload :| ConnectHead(flags, block, payload, p) && data == block + payload {
        PropsMeans(CONNECT_KINDS, data, p.props, payload);
        assert BlockAt(CONNECT_KINDS, data, p.props, payload);
        ConnectPayloadReadable(flags, payload, p);
      }
    }
  }

  lemma ConnectDecoded(body: seq<byte>, p: Packet)
    requires DecodeConnect(body) == Ok([], p)
    ensures ConnectSays(body, p)
  {
    HeadNeeded(body);
    var flags := body[7];
    var keepAlive: U16 :| body == HeadBytes(flags, keepAlive) + body[10..];
    HeadDecodes(flags, keepAlive, body[10..]);
    BehindMeans(flags, keepAlive, body[10..], p);
    var block, payload :| ConnectHead(flags, block, payload, p) && body[10..] == block + payload;
  }

  lemma ConnectReadable(body: seq<byte>, p: Packet)
    requires ConnectSays(body, p)
    ensures DecodeConnect(body) == Ok([], p)
  {
    var flags: byte, block, payload :|
      ConnectHead(flags, block, payload, p) && body == HeadBytes(flags, p.keepAlive) + (block + payload);
    HeadDecodes(flags, p.keepAlive, block + payload);
    BehindMeans(flags, p.keepAlive, block + payload, p);
  }

  lemma ConnectMeans(body: seq<byte>, p: Packet)
    ensures DecodeConnect(body) == Ok([], p) <==> ConnectSays(body, p)
  {
    if DecodeConnect(body) == Ok([], p) {
      ConnectDecoded(body, p);
    }
    if ConnectSays(body, p) {
      ConnectReadable(body, p);
    }
  }

  // ---------- Frames ----------

  /** The low four bits of the first byte: CONNECT ignores them, PUBLISH uses them, PUBREL, SUBSCRIBE
      and UNSUBSCRIBE want 2, all others 0. */
  predicate FlagsAllowed(kind: nat, flags: nat) {
    if kind in {1, 3} then true else if kind in {6, 8, 10} then flags == 2 else flags == 0
  }

  /** What a body stands for in a frame of this packet type. */
  ghost predicate Says(kind: nat, flags: nat, body: seq<byte>, p: Packet) {
    match kind
    case 1 => ConnectSays(body, p)
    case 2 => ConnAckSays(body, p)
    case 3 => PublishSays(flags, body, p)
    case 4 => AckSays(PubAck, body, p)
    case 5 => AckSays(PubRec, body, p)
    case 6 => AckSays(PubRel, body, p)
    case 7 => AckSays(PubComp, body, p)
    case 8 => SubscribeSays(body, p)
    case 9 => CodesSay(SubAck, body, p)
    case 10 => UnsubscribeSays(body, p)
    case 11 => CodesSay(UnsubAck, body, p)
    case 12 => body == [] && p.PingReqPacket?
    case 13 => body == [] && p.PingRespPacket?
    case 14 => DisconnectSays(body, p)
    case 15 => AuthSays(body, p)
    case _ => false
  }

  lemma FirstBodies(kind: nat, flags: nat, body: seq<byte>, p: Packet)
    requires 1 <= kind <= 7
    ensures DecodeBody(kind, flags, body) == Ok([], p) <==> Says(kind, flags, body, p)
  {
    match kind
    case 1 => ConnectMeans(body, p);
    case 2 => ConnAckMeans(body, p);
    case 3 => PublishMeans(flags, body, p);
    case 4 => AckMeans(PubAck, body, p);
    case 5 => AckMeans(PubRec, body, p);
    case 6 => AckMeans(PubRel, body, p);
    case 7 => AckMeans(PubComp, body, p);
  }

  lemma LastBodies(kind: nat, flags: nat, body: seq<byte>, p: Packet)
    requires 8 <= kind <= 15
    ensures DecodeBody(kind, flags, body) == Ok([], p) <==> Says(kind, flags, body, p)
  {
    match kind
    case 8 => SubscribeMeans(body, p);
    case 9 => CodesPacketMeans(SubAck, body, p);
    case 10 => UnsubscribeMeans(body, p);
    case 11 => CodesPacketMeans(UnsubAck, body, p);
    case 12 =>
    case 13 =>
    case 14 => DisconnectMeans(body, p);
    case 15 => AuthMeans(body, p);
  }

  lemma BodyMeans(kind: nat, flags: nat, body: seq<byte>, p: Packet)
    requires 1 <= kind <= 15 && flags < 16
    ensures DecodeWhole(kind, flags, body) == Ok([], p) <==> FlagsAllowed(kind, flags) && Says(kind, flags, body, p)
  {
    if kind <= 7 {
      FirstBodies(kind, flags, body, p);
    } else {
      LastBodies(kind, flags, body, p);
    }
  }

  ghost predicate FrameSays(first: byte, length: seq<byte>, body: seq<byte>, p: Packet) {
    && first >= 16 && FlagsAllowed(first / 16, first % 16)
    && Digits(length, |body|) && Says(first / 16, first % 16, body, p)
  }

  /** `decode_packet` yields a packet and the bytes behind it if and only if the data begin with a
      frame whose body stands for the packet. */
  lemma AcceptedExactly(data: seq<byte>, p: Packet, r: seq<byte>)
    ensures DecodePacket(data) == Ok(r, p)
       <==> exists first: byte, length, body ::
              FrameSays(first, length, body, p) && data == [first] + (length + (body + r))
  {
    if DecodePacket(data) == Ok(r, p) {
      var first, length, body := FrameDecoded(data, p, r);
    }
    if first: byte, length, body :| FrameSays(first, length, body, p) && data == [first] + (length + (body + r)) {
      FrameReadable(first, length, body, p, r);
    }
  }

  lemma WholeDecoded(first: byte, n: nat, d: seq<byte>, p: Packet, r: seq<byte>)
    requires first >= 16 && DecodeRest(first, n, d) == Ok(r, p)
    ensures n <= |d| && DecodeWhole(first / 16, first % 16, d[..n]) == Ok([], p) && d == d[..n] + r
  {
    hide DecodeBody;
  }

  lemma RestDecoded(data: seq<byte>, p: Packet, r: seq<byte>)
    requires DecodePacket(data) == Ok(r, p)
    ensures data != [] && data[0] >= 16 && data == [data[0]] + data[1..]
    ensures var d := DecodeVarInt(data[1..]); d.Ok? && DecodeRest(data[0], d.value, d.rest) == Ok(r, p)
  {
    hide DecodeRest, DecodeVarInt;
  }

  lemma FrameDecoded(data: seq<byte>, p: Packet, r: seq<byte>) returns (first: byte, length: seq<byte>, body: seq<byte>)
    requires DecodePacket(data) == Ok(r, p)
    ensures FrameSays(first, length, body, p) && data == [first] + (length + (body + r))
  {
    RestDecoded(data, p, r);
    var d := DecodeVarInt(data[1..]);
    WholeDecoded(data[0], d.value, d.rest, p, r);
    first, body := data[0], d.rest[..d.value];
    length := DecodedDigits(data[1..]);
    BodyMeans(first / 16, first % 16, body, p);
  }

  lemma FrameReadable(first: byte, length: seq<byte>, body: seq<byte>, p: Packet, r: seq<byte>)
    requires FrameSays(first, length, body, p)
    ensures DecodePacket([first] + (length + (body + r))) == Ok(r, p)
  {
    var data := [first] + (length + (body + r));
    assert data[1..] == length + (body + r);
    DigitsDecode(length, |body|, body + r);
    assert (body + r)[..|body|] == body && (body + r)[|body|..] == r;
    BodyMeans(first / 16, first % 16, body, p);
  }

  // ---------- The short forms ----------

  /** The first byte of an acknowledgement. */
  function AckFirst(kind: AckKind): byte {
    match kind case PubAck => 0x40 case PubRec => 0x50 case PubRel => 0x62 case PubComp => 0x70
  }

  lemma OneDigit(n: byte)
    requires n < 128
    ensures Digits([n], n)
  {
    assert [n][1..] == [] && DigitsValue([]) == 0;
  }

  /** An acknowledgement of two bytes reports success. */
  lemma ShortAck(kind: AckKind, id: PacketId, r: seq<byte>)
    ensures DecodePacket([AckFirst(kind), 2, id / 256, id % 256] + r) == Ok(r, AckPacket(kind, id, 0x00, NOTHING))
  {
    var body, p := Two(id), AckPacket(kind, id, 0x00, NOTHING);
    assert body + [] == body && TailSays(TypeOfAck(kind), [], 0x00, NOTHING);
    OneDigit(2);
    assert FrameSays(AckFirst(kind), [2], body, p);
    FrameReadable(AckFirst(kind), [2], body, p, r);
    assert [AckFirst(kind)] + ([2] + (body + r)) == [AckFirst(kind), 2, id / 256, id % 256] + r;
  }

  /** What becomes of a complete frame. */
  lemma FrameOutcome(first: byte, length: seq<byte>, body: seq<byte>, r: seq<byte>)
    requires first >= 16 && Digits(length, |body|)
    ensures var d := DecodeWhole(first / 16, first % 16, body);
            DecodePacket([first] + (length + (body + r))) == if d.Err? then Err(d.error) else Ok(r, d.value)
  {
    var data := [first] + (length + (body + r));
    assert data[1..] == length + (body + r);
    DigitsDecode(length, |body|, body + r);
    assert (body + r)[..|body|] == body && (body + r)[|body|..] == r;
  }

  /** One of three bytes carries its code, and is accepted if and only if the code is allowed. */
  lemma CodedAck(kind: AckKind, id: PacketId, code: byte, r: seq<byte>)
    ensures DecodePacket([AckFirst(kind), 3, id / 256, id % 256, code] + r)
         == if CodeAllowed(TypeOfAck(kind), code) then Ok(r, AckPacket(kind, id, code, NOTHING)) else Err(DecodeError)
  {
    var body := Two(id) + [code];
    OneDigit(3);
    FrameOutcome(AckFirst(kind), [3], body, r);
    assert [AckFirst(kind)] + ([3] + (body + r)) == [AckFirst(kind), 3, id / 256, id % 256, code] + r;
    TwoMeans(body, id, [code]);
    assert [code] + [] == [code];
    ByteMeans([code], code, []);
    CodeTables(code);
  }

  /** A DISCONNECT may be empty, or carry a code alone. */
  lemma EmptyDisconnect(r: seq<byte>)
    ensures DecodePacket([0xE0, 0] + r) == Ok(r, DisconnectPacket(0x00, NOTHING))
  {
    OneDigit(0);
    FrameOutcome(0xE0, [0], [], r);
    assert [0xE0] + ([0] + ([] + r)) == [0xE0, 0] + r;
  }

  lemma CodedDisconnect(code: byte, r: seq<byte>)
    ensures DecodePacket([0xE0, 1, code] + r)
         == if CodeAllowed(14, code) then Ok(r, DisconnectPacket(code, NOTHING)) else Err(DecodeError)
  {
    OneDigit(1);
    FrameOutcome(0xE0, [1], [code], r);
    assert [0xE0] + ([1] + ([code] + r)) == [0xE0, 1, code] + r;
    LoneCode(code);
  }

  lemma LoneCode(code: byte)
    ensures DecodeDisconnect([code])
         == if CodeAllowed(14, code) then Ok([], DisconnectPacket(code, NOTHING)) else Err(DecodeError)
  {
    assert [code] + [] == [code];
    ByteMeans([code], code, []);
    CodeTables(code);
  }

  /** No properties: a block of length 0. */
  lemma EmptyBlock(allowed: set<nat>)
    ensures IsBlock(allowed, [0], NOTHING)
  {
    OneDigit(0);
    var length: seq<byte>, content: seq<byte>, raw: seq<Entry> := [0], [], [];
    assert Spells(content, raw) && Permitted(allowed, raw) && Denotes(raw, NOTHING) && [0] == length + content;
  }

  /** A CONNACK without properties. */
  lemma BareConnAck(flags: byte, code: byte, r: seq<byte>)
    requires CodeAllowed(2, code)
    ensures DecodePacket([0x20, 3, flags, code, 0] + r) == Ok(r, ConnAckPacket(code, flags % 2 == 1, NOTHING))
  {
    hide DecodePacket, IsBlock;
    var body, p := [flags, code, 0], ConnAckPacket(code, flags % 2 == 1, NOTHING);
    EmptyBlock(Kinds(2));
    assert body == [flags, code] + [0];
    assert ConnAckSays(body, p);
    OneDigit(3);
    assert FrameSays(0x20, [3], body, p);
    FrameReadable(0x20, [3], body, p, r);
    assert [0x20] + ([3] + (body + r)) == [0x20, 3, flags, code, 0] + r;
  }
}
