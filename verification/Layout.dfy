/** What the encoders write, byte by byte: fixed headers, fields in their order, big-endian integers,
    option bits and property blocks, with the numbers of MQTT Version 5.0. */
module Layout {
  import opened Bytes
  import opened Wire
  import opened Properties
  import opened Subscriptions
  import opened Packets
  import opened Grammar

  /** The encoded integer is the shortest string of digits for its value. */
  lemma {:induction false} VarIntShortest(n: nat)
    ensures Digits(VarInt(n), n)
    ensures |VarInt(n)| > 1 ==> VarInt(n)[|VarInt(n)| - 1] != 0
  {
    var digits := VarInt(n);
    if n < 128 {
      assert digits[1..] == [] && DigitsValue([]) == 0;
    } else {
      VarIntShortest(n / 128);
      DigitsCons(n % 128 + 128, VarInt(n / 128), n / 128);
      assert digits[|digits| - 1] == VarInt(n / 128)[|digits| - 2];
    }
  }

  lemma TwoLayout(n: nat)
    requires n < 0x1_0000
    ensures Pow256(2) == 0x1_0000 && FixedInteger(n, 2) == Two(n)
  {
    Powers();
    assert FixedInteger(n / 256 / 256, 0) == [];
    assert FixedInteger(n / 256, 1) == [n / 256];
  }

  lemma FourLayout(n: nat)
    requires n < 0x1_0000_0000
    ensures Pow256(4) == 0x1_0000_0000 && FixedInteger(n, 4) == Four(n)
  {
    Powers();
    TwoLayout(n / 0x1_0000);
    assert FixedInteger(n / 256, 3) == FixedInteger(n / 256 / 256, 2) + [n / 256 % 256];
  }

  lemma PrefixedLayout(bytes: seq<byte>)
    requires |bytes| < 0x1_0000
    ensures Binary(bytes) == Prefixed(bytes)
  {
    TwoLayout(|bytes|);
  }

  // ---------- Properties ----------

  /** The bytes of a property value. */
  function LaidValue(kind: nat, v: Value): seq<byte>
    requires KnownFits((kind, v))
  {
    FormatMeans(kind);
    Powers();
    if OneByteKind(kind) then [v.n]
    else if TwoByteKind(kind) then Two(v.n)
    else if FourByteKind(kind) then Four(v.n)
    else if kind == 0x0B then VarInt(v.n)
    else if TextKind(kind) then Prefixed(v.text)
    else if BinaryKind(kind) then Prefixed(v.bytes)
    else Prefixed(v.key) + Prefixed(v.val)
  }

  lemma ValueLayout(kind: nat, v: Value)
    requires KnownFits((kind, v))
    ensures EncodeValue(FormatOf(kind).value, v) == LaidValue(kind, v) && kind < 0x80
  {
    FormatMeans(kind);
    Powers();
    if OneByteKind(kind) {
      assert FixedInteger(v.n / 256, 0) == [];
    } else if TwoByteKind(kind) {
      TwoLayout(v.n);
    } else if FourByteKind(kind) {
      FourLayout(v.n);
    } else if TextKind(kind) {
      PrefixedLayout(v.text);
    } else if BinaryKind(kind) {
      PrefixedLayout(v.bytes);
    } else if kind == 0x26 {
      PrefixedLayout(v.key);
      PrefixedLayout(v.val);
    }
  }

  /** Entries in their order: each kind in one byte, and its value. */
  function LaidEntries(entries: seq<Entry>): seq<byte>
    requires forall e :: e in entries ==> KnownFits(e)
  {
    if entries == [] then []
    else
      assert KnownFits(entries[0]);
      ValueLayout(entries[0].0, entries[0].1);
      [entries[0].0] + (LaidValue(entries[0].0, entries[0].1) + LaidEntries(entries[1..]))
  }

  /** User properties as entries. */
  function AsEntries(user: seq<UserEntry>): seq<Entry> {
    if user == [] then [] else [(0x26, Pair(user[0].0, user[0].1))] + AsEntries(user[1..])
  }

  lemma {:induction false} KnownLayout(known: seq<Entry>)
    requires forall e :: e in known ==> KnownFits(e)
    ensures EncodeKnown(known) == LaidEntries(known)
  {
    if known != [] {
      var e := known[0];
      assert KnownFits(e);
      ValueLayout(e.0, e.1);
      KnownLayout(known[1..]);
    }
  }

  lemma {:induction false} UserLayout(user: seq<UserEntry>)
    requires forall e :: e in user ==> UserFits(e)
    ensures (forall e :: e in AsEntries(user) ==> KnownFits(e)) && EncodeUser(user) == LaidEntries(AsEntries(user))
  {
    if user != [] {
      var e := user[0];
      assert UserFits(e) && KnownFits((0x26, Pair(e.0, e.1)));
      UserLayout(user[1..]);
      PrefixedLayout(e.0);
      PrefixedLayout(e.1);
      ValueLayout(0x26, Pair(e.0, e.1));
      assert AsEntries(user)[1..] == AsEntries(user[1..]);
    }
  }

  /** A property block: its length, the ordinary properties, and the user properties behind them. */
  ghost function LaidProps(p: Props): seq<byte>
    requires PropsFit(p)
  {
    UserLayout(p.user);
    var content := LaidEntries(p.known) + LaidEntries(AsEntries(p.user));
    VarInt(|content|) + content
  }

  lemma PropsLayout(p: Props)
    requires PropsFit(p)
    ensures EncodeProps(p) == LaidProps(p)
  {
    KnownLayout(p.known);
    UserLayout(p.user);
  }

  // ---------- Bodies ----------

  function AsBit(bit: bool): nat {
    if bit then 1 else 0
  }

  /** Two bits of QoS, then no-local, retain-as-published, and two bits of retain handling. */
  function LaidOptions(s: Subscription): byte {
    s.maxQos + 4 * AsBit(s.noLocal) + 8 * AsBit(s.retainAsPublished) + 16 * s.retainHandling
  }

  function LaidSubscriptions(subs: seq<Subscription>): seq<byte>
    requires forall s :: s in subs ==> SubscriptionOk(s)
  {
    if subs == [] then []
    else
      assert SubscriptionOk(subs[0]);
      Prefixed(subs[0].pattern) + ([LaidOptions(subs[0])] + LaidSubscriptions(subs[1..]))
  }

  lemma {:induction false} SubscriptionsLayout(subs: seq<Subscription>)
    requires forall s :: s in subs ==> SubscriptionOk(s)
    ensures EncodeSubscriptions(subs) == LaidSubscriptions(subs)
  {
    if subs != [] {
      assert SubscriptionOk(subs[0]);
      PrefixedLayout(subs[0].pattern);
      SubscriptionsLayout(subs[1..]);
      Assoc(Prefixed(subs[0].pattern), [LaidOptions(subs[0])], LaidSubscriptions(subs[1..]));
    }
  }

  function LaidPatterns(patterns: seq<Text>): seq<byte>
    requires forall t :: t in patterns ==> TextFits(t)
  {
    if patterns == [] then []
    else
      assert TextFits(patterns[0]);
      Prefixed(patterns[0]) + LaidPatterns(patterns[1..])
  }

  lemma {:induction false} PatternsLayout(patterns: seq<Text>)
    requires forall t :: t in patterns ==> TextFits(t)
    ensures EncodePatterns(patterns) == LaidPatterns(patterns)
  {
    if patterns != [] {
      assert TextFits(patterns[0]);
      PrefixedLayout(patterns[0]);
      PatternsLayout(patterns[1..]);
    }
  }

  /** Clean start at 2, Will at 4 with its QoS at 8 and its retain flag at 32, password at 64 and user
      name at 128. */
  function LaidFlags(p: Packet): byte
    requires p.ConnectPacket?
  {
    2 * AsBit(p.cleanStart)
    + (if p.will.Some? then 4 + 8 * p.will.value.qos + 32 * AsBit(p.will.value.retain) else 0)
    + 64 * AsBit(p.password.Some?) + 128 * AsBit(p.username.Some?)
  }

  function LaidOptional(text: Option<Text>): seq<byte>
    requires OptionalTextFits(text)
  {
    if text.Some? then Prefixed(text.value) else []
  }

  ghost function LaidWill(will: Option<Will>): seq<byte>
    requires will.Some? ==> WillOk(will.value)
  {
    if will.None? then []
    else
      LaidProps(will.value.props) + (Prefixed(will.value.topic) + Prefixed(PayloadBytes(will.value.payload)))
  }

  ghost function LaidConnect(p: Packet): seq<byte>
    requires p.ConnectPacket? && PacketOk(p)
  {
    HeadBytes(LaidFlags(p), p.keepAlive)
    + (LaidProps(p.props)
       + (Prefixed(p.clientId) + (LaidWill(p.will) + (LaidOptional(p.username) + LaidOptional(p.password)))))
  }

  ghost function Laid(p: Packet): seq<byte>
    requires PacketOk(p)
  {
    match p
    case ConnectPacket(_, _, _, _, _, _, _) => LaidConnect(p)
    case ConnAckPacket(reason, present, props) => [AsBit(present), reason] + LaidProps(props)
    case PublishPacket(m) =>
      Prefixed(m.topic)
      + ((if m.packetId.Some? then Two(m.packetId.value) else []) + (LaidProps(m.props) + PayloadBytes(m.payload)))
    case AckPacket(_, id, reason, props) => Two(id) + ([reason] + LaidProps(props))
    case SubscribePacket(id, subs, props) => Two(id) + (LaidProps(props) + LaidSubscriptions(subs))
    case CodesPacket(_, id, codes, props) => Two(id) + (LaidProps(props) + codes)
    case UnsubscribePacket(id, patterns, props) => Two(id) + (LaidProps(props) + LaidPatterns(patterns))
    case PingReqPacket => []
    case PingRespPacket => []
    case DisconnectPacket(reason, props) => [reason] + LaidProps(props)
    case AuthPacket(reason, props) => [reason] + LaidProps(props)
  }

  /** The packet type in the high four bits, and the flags of a PUBLISH or the reserved bits. */
  function LaidFirst(p: Packet): byte {
    match p
    case ConnectPacket(_, _, _, _, _, _, _) => 0x10
    case ConnAckPacket(_, _, _) => 0x20
    case PublishPacket(m) => 0x30 + AsBit(m.retain) + 2 * m.qos + 8 * AsBit(m.duplicate)
    case AckPacket(kind, _, _, _) =>
      (match kind case PubAck => 0x40 case PubRec => 0x50 case PubRel => 0x62 case PubComp => 0x70)
    case SubscribePacket(_, _, _) => 0x82
    case CodesPacket(kind, _, _, _) => if kind == SubAck then 0x90 else 0xB0
    case UnsubscribePacket(_, _, _) => 0xA2
    case PingReqPacket => 0xC0
    case PingRespPacket => 0xD0
    case DisconnectPacket(_, _) => 0xE0
    case AuthPacket(_, _) => 0xF0
  }

  lemma FirstLayout(p: Packet)
    ensures HeaderByte(FlagsOf(p), TypeOf(p)) == LaidFirst(p)
  {
  }

  lemma OptionalLayout(text: Option<Text>)
    requires OptionalTextFits(text)
    ensures EncodeOptionalText(text) == LaidOptional(text)
  {
    if text.Some? {
      PrefixedLayout(text.value);
    }
  }

  lemma WillLayout(will: Option<Will>)
    requires will.Some? ==> WillOk(will.value)
    ensures EncodeWill(will) == LaidWill(will)
  {
    if will.Some? {
      PropsLayout(will.value.props);
      PrefixedLayout(will.value.topic);
      PrefixedLayout(PayloadBytes(will.value.payload));
    }
  }

  lemma HeadLayout(flags: byte, keepAlive: U16, rest: seq<byte>)
    ensures Binary(MQTT) + ([5] + ([flags] + (TwoBytes(keepAlive) + rest))) == HeadBytes(flags, keepAlive) + rest
  {
    PrefixedLayout(MQTT);
    TwoLayout(keepAlive);
    assert Prefixed(MQTT) == [0x00, 0x04, 0x4D, 0x51, 0x54, 0x54];
  }

  lemma ConnectPayloadLayout(p: Packet)
    requires p.ConnectPacket? && PacketOk(p)
    ensures EncodeConnectPayload(p)
         == Prefixed(p.clientId) + (LaidWill(p.will) + (LaidOptional(p.username) + LaidOptional(p.password)))
  {
    PrefixedLayout(p.clientId);
    WillLayout(p.will);
    OptionalLayout(p.username);
    OptionalLayout(p.password);
  }

  lemma FlagsLayout(p: Packet)
    requires p.ConnectPacket?
    ensures ConnectFlags(p) == LaidFlags(p)
  {
  }

  lemma ConnectLayout(p: Packet)
    requires p.ConnectPacket? && PacketOk(p)
    ensures EncodeConnect(p) == LaidConnect(p)
  {
    FlagsLayout(p);
    PropsLayout(p.props);
    ConnectPayloadLayout(p);
    HeadLayout(ConnectFlags(p), p.keepAlive, EncodeProps(p.props) + EncodeConnectPayload(p));
  }

  lemma IdLayout(id: PacketId)
    ensures TwoBytes(id) == Two(id)
  {
    TwoLayout(id);
  }

  lemma PublishLayout(m: Publish)
    requires PublishOk(m)
    ensures EncodePublish(m) == Laid(PublishPacket(m))
  {
    PrefixedLayout(m.topic);
    if m.packetId.Some? {
      IdLayout(m.packetId.value);
    }
    PropsLayout(m.props);
  }

  lemma BodyLayout(p: Packet)
    requires PacketOk(p)
    ensures Body(p) == Laid(p)
  {
    match p
    case ConnectPacket(_, _, _, _, _, _, _) => ConnectLayout(p);
    case ConnAckPacket(reason, present, props) =>
      PropsLayout(props);
      Assoc([AsBit(present)], [reason], LaidProps(props));
      assert [AsBit(present)] + [reason] == [AsBit(present), reason];
    case PublishPacket(m) => PublishLayout(m);
    case AckPacket(_, id, _, props) =>
      IdLayout(id);
      PropsLayout(props);
    case SubscribePacket(id, subs, props) =>
      IdLayout(id);
      PropsLayout(props);
      SubscriptionsLayout(subs);
    case CodesPacket(_, id, _, props) =>
      IdLayout(id);
      PropsLayout(props);
    case UnsubscribePacket(id, patterns, props) =>
      IdLayout(id);
      PropsLayout(props);
      PatternsLayout(patterns);
    case PingReqPacket =>
    case PingRespPacket =>
    case DisconnectPacket(_, props) => PropsLayout(props);
    case AuthPacket(_, props) => PropsLayout(props);
  }

  /** An encoded packet: its first byte, the length of its body in the shortest form, and its body. */
  lemma EncodedBytes(p: Packet)
    requires PacketOk(p)
    ensures Encode(p) == [LaidFirst(p)] + (VarInt(|Laid(p)|) + Laid(p))
    ensures Digits(VarInt(|Laid(p)|), |Laid(p)|)
    ensures |VarInt(|Laid(p)|)| > 1 ==> VarInt(|Laid(p)|)[|VarInt(|Laid(p)|)| - 1] != 0
  {
    FirstLayout(p);
    BodyLayout(p);
    VarIntShortest(|Laid(p)|);
  }
}
