/** The control packets of MQTT Version 5.0 and how they are encoded. */
module Packets {
  import opened Bytes
  import opened Wire
  import opened Properties
  import opened Subscriptions

  // ---------- Packet types, reason codes and property kinds ----------

  const CONNECT: nat := 1
  const CONNACK: nat := 2
  const PUBLISH: nat := 3
  const PUBACK: nat := 4
  const PUBREC: nat := 5
  const PUBREL: nat := 6
  const PUBCOMP: nat := 7
  const SUBSCRIBE: nat := 8
  const SUBACK: nat := 9
  const UNSUBSCRIBE: nat := 10
  const UNSUBACK: nat := 11
  const PINGREQ: nat := 12
  const PINGRESP: nat := 13
  const DISCONNECT: nat := 14
  const AUTH: nat := 15

  type ReasonCode = byte

  const SUCCESS: ReasonCode := 0x00
  const NO_SUBSCRIPTION_EXISTED: ReasonCode := 0x11
  const PACKET_IDENTIFIER_IN_USE: ReasonCode := 0x91
  const PACKET_IDENTIFIER_NOT_FOUND: ReasonCode := 0x92

  const PUBLISH_CODES: set<ReasonCode> := {0x00, 0x10, 0x80, 0x83, 0x87, 0x90, 0x91, 0x97, 0x99}
  const RELEASE_CODES: set<ReasonCode> := {SUCCESS, PACKET_IDENTIFIER_NOT_FOUND}
  const CONNACK_CODES: set<ReasonCode> :=
    {0x00, 0x80, 0x81, 0x82, 0x83, 0x84, 0x85, 0x86, 0x87, 0x88, 0x89, 0x8A, 0x8C, 0x90, 0x95,
     0x97, 0x99, 0x9A, 0x9B, 0x9C, 0x9D, 0x9F}
  const SUBACK_CODES: set<ReasonCode> := {0x00, 0x01, 0x02, 0x80, 0x83, 0x87, 0x8F, 0x91, 0x97, 0x9E, 0xA1, 0xA2}
  const UNSUBACK_CODES: set<ReasonCode> := {0x00, 0x11, 0x80, 0x83, 0x87, 0x8F, 0x91}
  const DISCONNECT_CODES: set<ReasonCode> :=
    {0x00, 0x04, 0x80, 0x81, 0x82, 0x83, 0x87, 0x89, 0x8B, 0x8E, 0x8F, 0x90, 0x93, 0x94, 0x95, 0x96,
     0x97, 0x98, 0x99, 0x9A, 0x9B, 0x9C, 0x9D, 0x9E, 0x9F, 0xA0, 0xA1, 0xA2}
  const AUTH_CODES: set<ReasonCode> := {0x00, 0x18, 0x19}

  const CONNECT_KINDS: set<nat> :=
    {SESSION_EXPIRY_INTERVAL, AUTHENTICATION_METHOD, AUTHENTICATION_DATA, REQUEST_RESPONSE_INFORMATION,
     REQUEST_PROBLEM_INFORMATION, RECEIVE_MAXIMUM, TOPIC_ALIAS_MAXIMUM, USER_PROPERTY, MAXIMUM_PACKET_SIZE}
  const WILL_KINDS: set<nat> :=
    {PAYLOAD_FORMAT_INDICATOR, MESSAGE_EXPIRY_INTERVAL, CONTENT_TYPE, RESPONSE_TOPIC, CORRELATION_DATA,
     WILL_DELAY_INTERVAL, USER_PROPERTY}
  const CONNACK_KINDS: set<nat> :=
    {SESSION_EXPIRY_INTERVAL, ASSIGNED_CLIENT_IDENTIFIER, SERVER_KEEP_ALIVE, AUTHENTICATION_METHOD,
     AUTHENTICATION_DATA, RESPONSE_INFORMATION, SERVER_REFERENCE, REASON_STRING, RECEIVE_MAXIMUM,
     TOPIC_ALIAS_MAXIMUM, MAXIMUM_QOS, RETAIN_AVAILABLE, USER_PROPERTY, MAXIMUM_PACKET_SIZE,
     WILDCARD_SUBSCRIPTION_AVAILABLE, SUBSCRIPTION_IDENTIFIER_AVAILABLE, SHARED_SUBSCRIPTION_AVAILABLE}
  const PUBLISH_KINDS: set<nat> :=
    {PAYLOAD_FORMAT_INDICATOR, MESSAGE_EXPIRY_INTERVAL, CONTENT_TYPE, RESPONSE_TOPIC, CORRELATION_DATA,
     SUBSCRIPTION_IDENTIFIER, TOPIC_ALIAS, USER_PROPERTY}
  const ACK_KINDS: set<nat> := {REASON_STRING, USER_PROPERTY}
  const SUBSCRIBE_KINDS: set<nat> := {SUBSCRIPTION_IDENTIFIER, USER_PROPERTY}
  const UNSUBSCRIBE_KINDS: set<nat> := {USER_PROPERTY}
  const DISCONNECT_KINDS: set<nat> := {SESSION_EXPIRY_INTERVAL, SERVER_REFERENCE, REASON_STRING, USER_PROPERTY}
  const AUTH_KINDS: set<nat> := {AUTHENTICATION_METHOD, AUTHENTICATION_DATA, REASON_STRING, USER_PROPERTY}

  // ---------- Packets ----------

  type U16 = n: nat | n < 0x1_0000
  type PacketId = U16

  datatype Payload = TextPayload(text: Text) | BinaryPayload(bytes: seq<byte>)

  datatype Publish = Publish(
    topic: Text,
    payload: Payload,
    packetId: Option<PacketId>,
    retain: bool,
    qos: QoS,
    duplicate: bool,
    props: Props)

  datatype Will = Will(topic: Text, payload: Payload, retain: bool, qos: QoS, props: Props)

  /** The four publish acknowledgements, which differ only in codes and reserved bits. */
  datatype AckKind = PubAck | PubRec | PubRel | PubComp

  datatype CodesKind = SubAck | UnsubAck

  datatype Packet =
    | ConnectPacket(clientId: Text, will: Option<Will>, username: Option<Text>, password: Option<Text>,
                    cleanStart: bool, keepAlive: int, props: Props)
    | ConnAckPacket(reason: ReasonCode, sessionPresent: bool, props: Props)
    | PublishPacket(publish: Publish)
    | AckPacket(kind: AckKind, packetId: PacketId, reason: ReasonCode, props: Props)
    | SubscribePacket(packetId: PacketId, subscriptions: seq<Subscription>, props: Props)
    | CodesPacket(codesKind: CodesKind, packetId: PacketId, reasonCodes: seq<ReasonCode>, props: Props)
    | UnsubscribePacket(packetId: PacketId, patterns: seq<Text>, props: Props)
    | PingReqPacket
    | PingRespPacket
    | DisconnectPacket(reason: ReasonCode, props: Props)
    | AuthPacket(reason: ReasonCode, props: Props)

  function AckCodes(kind: AckKind): set<ReasonCode> {
    if kind == PubAck || kind == PubRec then PUBLISH_CODES else RELEASE_CODES
  }

  function CodesCodes(kind: CodesKind): set<ReasonCode> {
    if kind == SubAck then SUBACK_CODES else UNSUBACK_CODES
  }

  function TypeOf(p: Packet): (kind: byte)
    ensures 1 <= kind <= 15
  {
    match p
    case ConnectPacket(_, _, _, _, _, _, _) => CONNECT
    case ConnAckPacket(_, _, _) => CONNACK
    case PublishPacket(_) => PUBLISH
    case AckPacket(kind, _, _, _) =>
      (match kind case PubAck => PUBACK case PubRec => PUBREC case PubRel => PUBREL case PubComp => PUBCOMP)
    case SubscribePacket(_, _, _) => SUBSCRIBE
    case CodesPacket(kind, _, _, _) => if kind == SubAck then SUBACK else UNSUBACK
    case UnsubscribePacket(_, _, _) => UNSUBSCRIBE
    case PingReqPacket => PINGREQ
    case PingRespPacket => PINGRESP
    case DisconnectPacket(_, _) => DISCONNECT
    case AuthPacket(_, _) => AUTH
  }

  // ---------- Which packets the constructors and encoders accept ----------

  /** A text payload always comes with a payload format indicator of 1, set on construction. */
  predicate Marked(known: seq<Entry>, payload: Payload) {
    payload.TextPayload? ==> Get(known, PAYLOAD_FORMAT_INDICATOR) == Some(Number(1))
  }

  function PayloadBytes(payload: Payload): seq<byte> {
    match payload
    case TextPayload(text) => text
    case BinaryPayload(bytes) => bytes
  }

  ghost predicate PublishOk(p: Publish) {
    && TextFits(p.topic)
    && (p.payload.TextPayload? ==> ValidUtf8(p.payload.text))
    && (p.qos > AT_MOST_ONCE ==> p.packetId.Some?)
    && PropsFit(p.props)
    && Marked(p.props.known, p.payload)
  }

  ghost predicate WillOk(w: Will) {
    && TextFits(w.topic)
    && |PayloadBytes(w.payload)| < 0x1_0000
    && (w.payload.TextPayload? ==> ValidUtf8(w.payload.text))
    && PropsFit(w.props)
    && Marked(w.props.known, w.payload)
  }

  predicate OptionalTextFits(text: Option<Text>) {
    text.Some? ==> TextFits(text.value)
  }

  predicate SubscriptionOk(s: Subscription) {
    TextFits(s.pattern) && ValidFilter(s.pattern)
  }

  /** The packet can be constructed and `encode` does not raise on it. */
  ghost predicate PacketOk(p: Packet) {
    match p
    case ConnectPacket(clientId, will, username, password, _, keepAlive, props) =>
      && 0 <= keepAlive < 0x1_0000
      && TextFits(clientId)
      && (will.Some? ==> WillOk(will.value))
      && OptionalTextFits(username)
      && OptionalTextFits(password)
      && PropsFit(props)
    case ConnAckPacket(reason, _, props) => reason in CONNACK_CODES && PropsFit(props)
    case PublishPacket(publish) => PublishOk(publish)
    case AckPacket(kind, _, reason, props) => reason in AckCodes(kind) && PropsFit(props)
    case SubscribePacket(_, subscriptions, props) =>
      |subscriptions| > 0 && (forall s :: s in subscriptions ==> SubscriptionOk(s)) && PropsFit(props)
    case CodesPacket(kind, _, codes, props) =>
      (forall c :: c in codes ==> c in CodesCodes(kind)) && PropsFit(props)
    case UnsubscribePacket(_, patterns, props) =>
      |patterns| > 0 && (forall t :: t in patterns ==> TextFits(t)) && PropsFit(props)
    case PingReqPacket => true
    case PingRespPacket => true
    case DisconnectPacket(reason, props) => reason in DISCONNECT_CODES && PropsFit(props)
    case AuthPacket(reason, props) => reason in AUTH_CODES && PropsFit(props)
  }

  /** A CONNECT packet as its constructor makes it of well-typed arguments. */
  ghost predicate ConnectFormed(p: Packet) {
    && p.ConnectPacket? && PropsFit(p.props)
    && ValidUtf8(p.clientId)
    && (p.username.Some? ==> ValidUtf8(p.username.value))
    && (p.password.Some? ==> ValidUtf8(p.password.value))
    && (p.will.Some? ==> WillFormed(p.will.value))
  }

  ghost predicate WillFormed(w: Will) {
    && ValidUtf8(w.topic) && (w.payload.TextPayload? ==> ValidUtf8(w.payload.text))
    && PropsFit(w.props) && Marked(w.props.known, w.payload)
  }

  /** The keep-alive interval fits two bytes, and so does the length of every text of the packet. */
  predicate ConnectFits(p: Packet) {
    p.ConnectPacket? ==>
    && 0 <= p.keepAlive < 0x1_0000
    && |p.clientId| < 0x1_0000
    && (p.username.Some? ==> |p.username.value| < 0x1_0000)
    && (p.password.Some? ==> |p.password.value| < 0x1_0000)
    && (p.will.Some? ==> |p.will.value.topic| < 0x1_0000 && |PayloadBytes(p.will.value.payload)| < 0x1_0000)
  }

  /** The properties accompany this payload unambiguously. */
  ghost predicate Unmarked(known: seq<Entry>, payload: Payload) {
    payload.BinaryPayload? ==> !HasKey(known, PAYLOAD_FORMAT_INDICATOR)
  }

  /** What decides whether a packet survives the wire: its property kinds are those its type
      allows, user properties stand in the dictionary of their own, a packet id is present exactly
      with QoS above 0, and no payload format indicator stands beside a binary payload. */
  ghost predicate WireSafe(p: Packet) {
    match p
    case ConnectPacket(_, will, _, _, _, _, props) =>
      && PropsAllowed(CONNECT_KINDS, props)
      && (will.Some? ==>
            PropsAllowed(WILL_KINDS, will.value.props) && Unmarked(will.value.props.known, will.value.payload))
    case ConnAckPacket(_, _, props) => PropsAllowed(CONNACK_KINDS, props)
    case PublishPacket(publish) =>
      && PropsAllowed(PUBLISH_KINDS, publish.props)
      && (publish.packetId.Some? <==> publish.qos > AT_MOST_ONCE)
      && Unmarked(publish.props.known, publish.payload)
    case AckPacket(_, _, _, props) => PropsAllowed(ACK_KINDS, props)
    case SubscribePacket(_, _, props) => PropsAllowed(SUBSCRIBE_KINDS, props)
    case CodesPacket(_, _, _, props) => PropsAllowed(ACK_KINDS, props)
    case UnsubscribePacket(_, _, props) => PropsAllowed(UNSUBSCRIBE_KINDS, props)
    case PingReqPacket => true
    case PingRespPacket => true
    case DisconnectPacket(_, props) => PropsAllowed(DISCONNECT_KINDS, props)
    case AuthPacket(_, props) => PropsAllowed(AUTH_KINDS, props)
  }

  // ---------- Encoding ----------

  function TwoBytes(n: U16): seq<byte> {
    Powers();
    FixedInteger(n, 2)
  }

  function Bit(b: bool, weight: nat): nat {
    if b then weight else 0
  }

  function OptionsOf(s: Subscription): byte {
    s.maxQos + Bit(s.noLocal, 4) + Bit(s.retainAsPublished, 8) + s.retainHandling * 16
  }

  function EncodeSubscription(s: Subscription): seq<byte>
    requires SubscriptionOk(s)
  {
    Binary(s.pattern) + [OptionsOf(s)]
  }

  function EncodeSubscriptions(subs: seq<Subscription>): seq<byte>
    requires forall s :: s in subs ==> SubscriptionOk(s)
  {
    if subs == [] then []
    else
      assert SubscriptionOk(subs[0]);
      EncodeSubscription(subs[0]) + EncodeSubscriptions(subs[1..])
  }

  function EncodePatterns(patterns: seq<Text>): seq<byte>
    requires forall t :: t in patterns ==> TextFits(t)
  {
    if patterns == [] then []
    else
      assert TextFits(patterns[0]);
      Binary(patterns[0]) + EncodePatterns(patterns[1..])
  }

  function ConnectFlags(p: Packet): byte
    requires p.ConnectPacket?
  {
    Bit(p.cleanStart, 2)
    + (if p.will.Some? then 4 + p.will.value.qos * 8 + Bit(p.will.value.retain, 32) else 0)
    + Bit(p.password.Some?, 64)
    + Bit(p.username.Some?, 128)
  }

  const MQTT: Text := [0x4D, 0x51, 0x54, 0x54]

  function EncodeOptionalText(text: Option<Text>): seq<byte>
    requires OptionalTextFits(text)
  {
    if text.Some? then Binary(text.value) else []
  }

  ghost function EncodeWill(will: Option<Will>): seq<byte>
    requires will.Some? ==> WillOk(will.value)
  {
    if will.None? then []
    else EncodeProps(will.value.props) + (Binary(will.value.topic) + Binary(PayloadBytes(will.value.payload)))
  }

  /** Everything of a CONNECT packet after its property block. */
  ghost function EncodeConnectPayload(p: Packet): seq<byte>
    requires p.ConnectPacket? && PacketOk(p)
  {
    Binary(p.clientId) + (EncodeWill(p.will) + (EncodeOptionalText(p.username) + EncodeOptionalText(p.password)))
  }

  ghost function EncodeConnect(p: Packet): seq<byte>
    requires p.ConnectPacket? && PacketOk(p)
  {
    Binary(MQTT)
    + ([5] + ([ConnectFlags(p)] + (TwoBytes(p.keepAlive) + (EncodeProps(p.props) + EncodeConnectPayload(p)))))
  }

  function EncodeId(id: Option<PacketId>): seq<byte> {
    if id.Some? then TwoBytes(id.value) else []
  }

  ghost function EncodePublish(p: Publish): seq<byte>
    requires PublishOk(p)
  {
    Binary(p.topic) + (EncodeId(p.packetId) + (EncodeProps(p.props) + PayloadBytes(p.payload)))
  }

  /** What a packet puts after its fixed header. */
  ghost function Body(p: Packet): seq<byte>
    requires PacketOk(p)
  {
    match p
    case ConnectPacket(_, _, _, _, _, _, _) => EncodeConnect(p)
    case ConnAckPacket(reason, present, props) => [Bit(present, 1)] + ([reason] + EncodeProps(props))
    case PublishPacket(publish) => EncodePublish(publish)
    case AckPacket(_, id, reason, props) => TwoBytes(id) + ([reason] + EncodeProps(props))
    case SubscribePacket(id, subs, props) => TwoBytes(id) + (EncodeProps(props) + EncodeSubscriptions(subs))
    case CodesPacket(_, id, codes, props) => TwoBytes(id) + (EncodeProps(props) + codes)
    case UnsubscribePacket(id, patterns, props) => TwoBytes(id) + (EncodeProps(props) + EncodePatterns(patterns))
    case PingReqPacket => []
    case PingRespPacket => []
    case DisconnectPacket(reason, props) => [reason] + EncodeProps(props)
    case AuthPacket(reason, props) => [reason] + EncodeProps(props)
  }

  function PublishFlags(p: Publish): (flags: byte)
    ensures flags < 16
  {
    Bit(p.retain, 1) + p.qos * 2 + Bit(p.duplicate, 8)
  }

  /** The low four bits of the first byte. */
  function FlagsOf(p: Packet): (flags: byte)
    ensures flags < 16
  {
    match p
    case PublishPacket(publish) => PublishFlags(publish)
    case AckPacket(kind, _, _, _) => if kind == PubRel then 2 else 0
    case SubscribePacket(_, _, _) => 2
    case UnsubscribePacket(_, _, _) => 2
    case _ => 0
  }

  /** The packet type stands in the high four bits. */
  function HeaderByte(flags: nat, kind: nat): (first: byte)
    requires flags < 16 && kind < 16
    ensures first / 16 == kind && first % 16 == flags
  {
    flags + kind * 16
  }

  ghost function Frame(first: byte, body: seq<byte>): seq<byte> {
    [first] + (VarInt(|body|) + body)
  }

  ghost function Encode(p: Packet): seq<byte>
    requires PacketOk(p)
  {
    Frame(HeaderByte(FlagsOf(p), TypeOf(p)), Body(p))
  }
}
