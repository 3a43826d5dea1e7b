/** What the decoders can yield on arbitrary bytes: packets that survive the wire unchanged. */
module Range {
  import opened Bytes
  import opened Wire
  import opened Properties
  import opened Packets
  import opened Decoding
  import opened RoundTrip

  // ---------- Property maps with a payload format indicator ----------

  lemma MarkFits()
    ensures KnownFits(MARK)
  {
    Powers();
    assert FORMATS[0] == (PAYLOAD_FORMAT_INDICATOR, FixedFormat(1));
  }

  lemma SettleRange(allowed: set<nat>, props: Props, payload: Payload)
    requires PropsFit(props) && PropsAllowed(allowed, props) && PAYLOAD_FORMAT_INDICATOR in allowed
    ensures var known := Settle(props.known, payload.TextPayload?);
            && PropsFit(Props(known, props.user)) && PropsAllowed(allowed, Props(known, props.user))
            && Marked(known, payload) && Unmarked(known, payload)
            && Settle(known, payload.TextPayload?) == known
  {
    var key := PAYLOAD_FORMAT_INDICATOR;
    var rest := Remove<nat, Value>(props.known, key);
    var known := Settle(props.known, payload.TextPayload?);
    RemoveMeans(props.known, key);
    RemoveAbsent(rest, key);
    assert !HasKey(rest, key);
    GetMeans(rest, key);
    if payload.TextPayload? {
      MarkFits();
      GetAppend(rest, [MARK], key);
      RemoveLast(rest, MARK);
      assert forall i :: 0 <= i < |rest| ==> rest[i] in rest;
    } else {
      assert known == rest;
    }
  }

  lemma {:induction false} RemoveLast<K, V>(entries: seq<(K, V)>, e: (K, V))
    requires !HasKey(entries, e.0)
    ensures Remove(entries + [e], e.0) == entries
  {
    var all := entries + [e];
    if entries == [] {
      assert all[1..] == [];
    } else {
      HasKeyCons(entries);
      assert all[1..] == entries[1..] + [e];
      RemoveLast(entries[1..], e);
    }
  }

  // ---------- By packet type ----------

  /** A decoded packet: well formed, safe for the wire, and with its dictionaries settled. */
  ghost predicate Clean(p: Packet) {
    PacketOk(p) && WireSafe(p) && Settled(p) == p
  }

  ghost predicate WillClean(w: Will) {
    && WillOk(w)
    && PropsAllowed(WILL_KINDS, w.props)
    && Unmarked(w.props.known, w.payload)
    && SettleProps(w.props, w.payload) == w.props
  }

  lemma WillRange(flags: nat, data: seq<byte>)
    requires DecodeWill(flags, data).Ok?
    ensures var w := DecodeWill(flags, data).value; w.Some? ==> WillClean(w.value)
  {
    if HasBit(flags, 4) {
      var d := DecodeProps(WILL_KINDS, data);
      PropsRange(WILL_KINDS, data);
      var payload := DecodeWill(flags, data).value.value.payload;
      SettleRange(WILL_KINDS, d.value, payload);
    }
  }

  lemma ConnectClean(p: Packet)
    requires p.ConnectPacket? && TextFits(p.clientId) && 0 <= p.keepAlive < 0x1_0000
    requires PropsFit(p.props) && PropsAllowed(CONNECT_KINDS, p.props)
    requires OptionalTextFits(p.username) && OptionalTextFits(p.password)
    requires p.will.Some? ==> WillClean(p.will.value)
    ensures Clean(p)
  {
  }

  lemma ConnectPayloadRange(flags: nat, keepAlive: U16, props: Props, data: seq<byte>)
    requires PropsFit(props) && PropsAllowed(CONNECT_KINDS, props)
    requires DecodeConnectPayload(flags, keepAlive, props, data).Ok?
    ensures var p := DecodeConnectPayload(flags, keepAlive, props, data).value; p.ConnectPacket? && Clean(p)
  {
    var d := DecodeUtf8(data);
    var w := DecodeWill(flags, d.rest);
    WillRange(flags, d.rest);
    var username := DecodeOptionalText(HasBit(flags, 128), w.rest);
    var password := DecodeOptionalText(HasBit(flags, 64), username.rest);
    assert OptionalTextFits(username.value) && OptionalTextFits(password.value);
    ConnectClean(ConnectPacket(d.value, w.value, username.value, password.value, HasBit(flags, 2), keepAlive, props));
  }

  lemma ConnectRange(data: seq<byte>)
    requires DecodeConnect(data).Ok?
    ensures var p := DecodeConnect(data).value; p.ConnectPacket? && Clean(p)
  {
    var name := DecodeUtf8(data);
    var version := DecodeByte(name.rest);
    var flags := DecodeByte(version.rest);
    var keepAlive := DecodeU16(flags.rest);
    var props := DecodeProps(CONNECT_KINDS, keepAlive.rest);
    PropsRange(CONNECT_KINDS, keepAlive.rest);
    ConnectPayloadRange(flags.value, keepAlive.value, props.value, props.rest);
  }

  lemma ConnAckRange(data: seq<byte>)
    requires DecodeConnAck(data).Ok?
    ensures var p := DecodeConnAck(data).value; p.ConnAckPacket? && Clean(p)
  {
    var flags := DecodeByte(data);
    var reason := DecodeReason(CONNACK_CODES, flags.rest);
    PropsRange(CONNACK_KINDS, reason.rest);
  }

  lemma PublishRange(flags: nat, data: seq<byte>)
    requires DecodePublish(flags, data).Ok?
    ensures var p := DecodePublish(flags, data).value; p.PublishPacket? && Clean(p)
  {
    var qos := DecodeQoS(flags / 2 % 4).value;
    var topic := DecodeUtf8(data);
    var id := DecodeOptionalId(qos > 0, topic.rest);
    var props := DecodeProps(PUBLISH_KINDS, id.rest);
    PropsRange(PUBLISH_KINDS, id.rest);
    var payload := DecodePayload(SaysText(props.value.known), props.rest).value;
    SettleRange(PUBLISH_KINDS, props.value, payload);
  }

  lemma AckRange(kind: AckKind, data: seq<byte>)
    requires DecodeAck(kind, data).Ok?
    ensures var p := DecodeAck(kind, data).value; p.AckPacket? && p.kind == kind && Clean(p)
  {
    var id := DecodeU16(data);
    if id.rest != [] {
      var reason := DecodeReason(AckCodes(kind), id.rest);
      if reason.rest != [] {
        PropsRange(ACK_KINDS, reason.rest);
      }
    }
  }

  lemma {:induction false} SubscriptionsRange(data: seq<byte>)
    requires DecodeSubscriptions(data).Ok?
    ensures forall s :: s in DecodeSubscriptions(data).value ==> SubscriptionOk(s)
    decreases |data|
  {
    if data != [] {
      SubscriptionsRange(DecodeSubscription(data).rest);
    }
  }

  lemma SubscribeRange(data: seq<byte>)
    requires DecodeSubscribe(data).Ok?
    ensures var p := DecodeSubscribe(data).value; p.SubscribePacket? && Clean(p)
  {
    var id := DecodeU16(data);
    var props := DecodeProps(SUBSCRIBE_KINDS, id.rest);
    PropsRange(SUBSCRIBE_KINDS, id.rest);
    SubscriptionsRange(props.rest);
  }

  lemma {:induction false} CodesRange(allowed: set<ReasonCode>, data: seq<byte>)
    requires DecodeCodes(allowed, data).Ok?
    ensures forall c :: c in DecodeCodes(allowed, data).value ==> c in allowed
    decreases |data|
  {
    if data != [] {
      CodesRange(allowed, DecodeReason(allowed, data).rest);
    }
  }

  lemma CodesPacketRange(kind: CodesKind, data: seq<byte>)
    requires DecodeCodesPacket(kind, data).Ok?
    ensures var p := DecodeCodesPacket(kind, data).value; p.CodesPacket? && p.codesKind == kind && Clean(p)
  {
    var id := DecodeU16(data);
    var props := DecodeProps(ACK_KINDS, id.rest);
    PropsRange(ACK_KINDS, id.rest);
    CodesRange(CodesCodes(kind), props.rest);
  }

  lemma {:induction false} PatternsRange(data: seq<byte>)
    requires DecodePatterns(data).Ok?
    ensures forall t :: t in DecodePatterns(data).value ==> TextFits(t)
    decreases |data|
  {
    if data != [] {
      PatternsRange(DecodeUtf8(data).rest);
    }
  }

  lemma UnsubscribeRange(data: seq<byte>)
    requires DecodeUnsubscribe(data).Ok?
    ensures var p := DecodeUnsubscribe(data).value; p.UnsubscribePacket? && Clean(p)
  {
    var id := DecodeU16(data);
    var props := DecodeProps(UNSUBSCRIBE_KINDS, id.rest);
    PropsRange(UNSUBSCRIBE_KINDS, id.rest);
    PatternsRange(props.rest);
  }

  lemma DisconnectRange(data: seq<byte>)
    requires DecodeDisconnect(data).Ok?
    ensures var p := DecodeDisconnect(data).value; p.DisconnectPacket? && Clean(p)
  {
    if data != [] {
      var reason := DecodeReason(DISCONNECT_CODES, data);
      if reason.rest != [] {
        PropsRange(DISCONNECT_KINDS, reason.rest);
      }
    }
  }

  lemma AuthRange(data: seq<byte>)
    requires DecodeAuth(data).Ok?
    ensures var p := DecodeAuth(data).value; p.AuthPacket? && Clean(p)
  {
    var reason := DecodeReason(AUTH_CODES, data);
    PropsRange(AUTH_KINDS, reason.rest);
  }

  /** The bodies that begin with a packet id. */
  lemma IdBodyRange(kind: nat, flags: nat, data: seq<byte>)
    requires 4 <= kind <= 11 && DecodeBody(kind, flags, data).Ok?
    ensures var p := DecodeBody(kind, flags, data).value; Clean(p) && TypeOf(p) == kind
  {
    match kind
    case 4 => AckRange(PubAck, data);
    case 5 => AckRange(PubRec, data);
    case 6 => AckRange(PubRel, data);
    case 7 => AckRange(PubComp, data);
    case 8 => SubscribeRange(data);
    case 9 => CodesPacketRange(SubAck, data);
    case 10 => UnsubscribeRange(data);
    case 11 => CodesPacketRange(UnsubAck, data);
  }

  lemma LastBodyRange(kind: nat, flags: nat, data: seq<byte>)
    requires 12 <= kind <= 15 && DecodeBody(kind, flags, data).Ok?
    ensures var p := DecodeBody(kind, flags, data).value; Clean(p) && TypeOf(p) == kind
  {
    match kind
    case 14 => DisconnectRange(data);
    case 15 => AuthRange(data);
    case _ =>
  }

  lemma BodyRange(kind: nat, flags: nat, data: seq<byte>)
    requires 1 <= kind <= 15 && DecodeBody(kind, flags, data).Ok?
    ensures var p := DecodeBody(kind, flags, data).value; Clean(p) && TypeOf(p) == kind
  {
    if 4 <= kind <= 11 {
      IdBodyRange(kind, flags, data);
    } else if kind >= 12 {
      LastBodyRange(kind, flags, data);
    } else if kind == 1 {
      ConnectRange(data);
    } else if kind == 2 {
      ConnAckRange(data);
    } else {
      PublishRange(flags, data);
    }
  }

  // ---------- Every accepted frame ----------

  lemma WholeRange(kind: nat, flags: nat, body: seq<byte>)
    requires 1 <= kind <= 15 && DecodeWhole(kind, flags, body).Ok?
    ensures Clean(DecodeWhole(kind, flags, body).value)
  {
    BodyRange(kind, flags, body);
  }

  /** Whatever bytes `decode_packet` accepts, the packet it yields is well formed and safe for
      the wire, with the packet type of the frame. */
  lemma PacketRange(data: seq<byte>)
    requires DecodePacket(data).Ok?
    ensures Clean(DecodePacket(data).value)
  {
    var d := DecodeVarInt(data[1..]);
    WholeRange(data[0] / 16, data[0] % 16, d.rest[..d.value]);
  }

  /** Encoding a decoded packet and decoding it again yields exactly that packet, whatever
      non-minimal lengths, short forms, ignored flags or repeated keys the first bytes had. */
  lemma DecodeEncodeDecode(data: seq<byte>, r: seq<byte>)
    requires DecodePacket(data).Ok?
    ensures var p := DecodePacket(data).value; PacketOk(p) && DecodePacket(Encode(p) + r) == Ok(r, p)
  {
    PacketRange(data);
    PacketRoundTrip(DecodePacket(data).value, r);
  }

  lemma SameMarked(a: Props, b: Props, allowed: set<nat>)
    requires SameProps(a, b) && PropsAllowed(allowed, a) && DistinctKeys(b.known)
    ensures PropsAllowed(allowed, b)
    ensures HasKey(a.known, PAYLOAD_FORMAT_INDICATOR) <==> HasKey(b.known, PAYLOAD_FORMAT_INDICATOR)
  {
    forall e | e in b.known ensures e.0 in allowed && e.0 != USER_PROPERTY {
      var i :| 0 <= i < |b.known| && b.known[i] == e;
      assert HasKey(b.known, e.0);
      GetMeans(b.known, e.0);
      GetMeans(a.known, e.0);
    }
    GetMeans(a.known, PAYLOAD_FORMAT_INDICATOR);
    GetMeans(b.known, PAYLOAD_FORMAT_INDICATOR);
  }

  /** Being safe for the wire does not depend on the order of dictionaries. */
  lemma SameSafe(a: Packet, b: Packet)
    requires SamePacket(a, b) && WireSafe(a) && PacketOk(b)
    ensures WireSafe(b)
  {
    match b
    case ConnectPacket(_, will, _, _, _, _, props) =>
      SameMarked(a.props, props, CONNECT_KINDS);
      if will.Some? {
        SameMarked(a.will.value.props, will.value.props, WILL_KINDS);
      }
    case ConnAckPacket(_, _, props) => SameMarked(a.props, props, CONNACK_KINDS);
    case PublishPacket(publish) => SameMarked(a.publish.props, publish.props, PUBLISH_KINDS);
    case AckPacket(_, _, _, props) => SameMarked(a.props, props, ACK_KINDS);
    case SubscribePacket(_, _, props) => SameMarked(a.props, props, SUBSCRIBE_KINDS);
    case CodesPacket(_, _, _, props) => SameMarked(a.props, props, ACK_KINDS);
    case UnsubscribePacket(_, _, props) => SameMarked(a.props, props, UNSUBSCRIBE_KINDS);
    case PingReqPacket =>
    case PingRespPacket =>
    case DisconnectPacket(_, props) => SameMarked(a.props, props, DISCONNECT_KINDS);
    case AuthPacket(_, props) => SameMarked(a.props, props, AUTH_KINDS);
  }

  /** The round trip promised for every packet holds exactly for those that are safe for the
      wire: decoding an encoded packet, whatever follows it, yields an equal packet and the
      bytes that follow if and only if `WireSafe` holds of it. */
  lemma RoundTripIff(p: Packet, r: seq<byte>)
    requires PacketOk(p)
    ensures WireSafe(p) <==>
            var d := DecodePacket(Encode(p) + r);
            d.Ok? && d.rest == r && SamePacket(d.value, p)
  {
    if WireSafe(p) {
      PacketRoundTrip(p, r);
    }
    var d := DecodePacket(Encode(p) + r);
    if d.Ok? && SamePacket(d.value, p) {
      PacketRange(Encode(p) + r);
      SameSafe(d.value, p);
    }
  }

  /** Such packets can be constructed: a QoS 0 message with a packet id is encoded with it, and what
      is decoded is something else or nothing. */
  lemma UnsafeMessage(topic: Text, bytes: seq<byte>, id: PacketId, r: seq<byte>)
    requires TextFits(topic)
    ensures var p := PublishPacket(Publish(topic, BinaryPayload(bytes), Some(id), false, 0, false, NO_PROPS));
            && PacketOk(p) && !WireSafe(p)
            && var d := DecodePacket(Encode(p) + r); !(d.Ok? && d.rest == r && SamePacket(d.value, p))
  {
    RoundTripIff(PublishPacket(Publish(topic, BinaryPayload(bytes), Some(id), false, 0, false, NO_PROPS)), r);
  }

  lemma SameEntries(key: Text, val: Text)
    requires TextFits(key) && TextFits(val)
    ensures PropsFit(Props([(USER_PROPERTY, Pair(key, val))], [])) && PropsFit(Props([], [(key, val)]))
    ensures EncodeProps(Props([(USER_PROPERTY, Pair(key, val))], [])) == EncodeProps(Props([], [(key, val)]))
  {
    var known: seq<Entry>, user: seq<UserEntry> := [(USER_PROPERTY, Pair(key, val))], [(key, val)];
    assert KnownFits(known[0]) && UserFits(user[0]) && known[1..] == [] && user[1..] == [];
    assert EncodeKnown(known) == EncodeUser(user);
    assert EncodeKnown(known) + [] == EncodeKnown(known) && [] + EncodeUser(user) == EncodeUser(user);
  }

  /** So can packets with a user property among their ordinary properties. It is encoded like any
      other, and comes back among the user properties. */
  lemma MisplacedProperty(id: PacketId, key: Text, val: Text, r: seq<byte>)
    requires TextFits(key) && TextFits(val)
    ensures var p := AckPacket(PubAck, id, SUCCESS, Props([(USER_PROPERTY, Pair(key, val))], []));
            && PacketOk(p) && !WireSafe(p)
            && DecodePacket(Encode(p) + r) == Ok(r, AckPacket(PubAck, id, SUCCESS, Props([], [(key, val)])))
  {
    var misplaced, placed := Props([(USER_PROPERTY, Pair(key, val))], []), Props([], [(key, val)]);
    var p, q := AckPacket(PubAck, id, SUCCESS, misplaced), AckPacket(PubAck, id, SUCCESS, placed);
    assert misplaced.known[0] in misplaced.known && KnownFits(misplaced.known[0]) && UserFits(placed.user[0]);
    SameEntries(key, val);
    assert Encode(p) == Encode(q);
    PacketRoundTrip(q, r);
  }
}
