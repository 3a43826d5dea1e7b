/** The `encode` methods of the packets: each appends to a buffer exactly the bytes that
    `Packets.Encode` stands for. */
module Encoders {
  import opened Bytes
  import opened Wire
  import opened Properties
  import opened Subscriptions
  import opened Packets

  lemma Glue(sent: seq<byte>, parts: seq<seq<byte>>)
    requires 2 <= |parts| <= 6
    ensures |parts| == 2 ==> sent + parts[0] + parts[1] == sent + (parts[0] + parts[1])
    ensures |parts| == 3 ==> sent + parts[0] + parts[1] + parts[2] == sent + (parts[0] + (parts[1] + parts[2]))
    ensures |parts| == 4 ==>
              sent + parts[0] + parts[1] + parts[2] + parts[3]
              == sent + (parts[0] + (parts[1] + (parts[2] + parts[3])))
    ensures |parts| == 6 ==>
              sent + parts[0] + parts[1] + parts[2] + parts[3] + parts[4] + parts[5]
              == sent + (parts[0] + (parts[1] + (parts[2] + (parts[3] + (parts[4] + parts[5])))))
  {
  }

  method EncodeTwoBytes(n: U16, buffer: Buffer)
    modifies buffer
    ensures buffer.data == old(buffer.data) + TwoBytes(n)
  {
    Powers();
    EncodeFixedInteger(n, buffer, 2);
  }

  method EncodeSubscriptionInto(s: Subscription, buffer: Buffer)
    requires SubscriptionOk(s)
    modifies buffer
    ensures buffer.data == old(buffer.data) + EncodeSubscription(s)
  {
    EncodeBinary(s.pattern, buffer);
    var options: nat := s.maxQos + s.retainHandling * 16;
    if s.noLocal {
      options := options + 4;
    }
    if s.retainAsPublished {
      options := options + 8;
    }
    Assoc(old(buffer.data), Binary(s.pattern), [options]);
    buffer.Append(options);
  }

  method EncodeSubscriptionList(subs: seq<Subscription>, buffer: Buffer)
    requires forall s :: s in subs ==> SubscriptionOk(s)
    modifies buffer
    ensures buffer.data == old(buffer.data) + EncodeSubscriptions(subs)
  {
    for i := 0 to |subs|
      invariant buffer.data + EncodeSubscriptions(subs[i..]) == old(buffer.data) + EncodeSubscriptions(subs)
    {
      assert SubscriptionOk(subs[i]) && subs[i..][1..] == subs[i + 1..];
      Assoc(buffer.data, EncodeSubscription(subs[i]), EncodeSubscriptions(subs[i + 1..]));
      EncodeSubscriptionInto(subs[i], buffer);
    }
  }

  method EncodePatternList(patterns: seq<Text>, buffer: Buffer)
    requires forall t :: t in patterns ==> TextFits(t)
    modifies buffer
    ensures buffer.data == old(buffer.data) + EncodePatterns(patterns)
  {
    for i := 0 to |patterns|
      invariant buffer.data + EncodePatterns(patterns[i..]) == old(buffer.data) + EncodePatterns(patterns)
    {
      assert TextFits(patterns[i]) && patterns[i..][1..] == patterns[i + 1..];
      Assoc(buffer.data, Binary(patterns[i]), EncodePatterns(patterns[i + 1..]));
      EncodeBinary(patterns[i], buffer);
    }
  }

  method EncodeCodeList(codes: seq<ReasonCode>, buffer: Buffer)
    modifies buffer
    ensures buffer.data == old(buffer.data) + codes
  {
    for i := 0 to |codes|
      invariant buffer.data == old(buffer.data) + codes[..i]
    {
      assert codes[..i + 1] == codes[..i] + [codes[i]];
      Assoc(old(buffer.data), codes[..i], [codes[i]]);
      buffer.Append(codes[i]);
    }
    assert codes[..|codes|] == codes;
  }

  method EncodeWillInto(will: Option<Will>, buffer: Buffer)
    requires will.Some? ==> WillOk(will.value)
    modifies buffer
    ensures buffer.data == old(buffer.data) + EncodeWill(will)
  {
    if will.Some? {
      var w := will.value;
      EncodeProperties(w.props, buffer);
      EncodeBinary(w.topic, buffer);
      EncodeBinary(PayloadBytes(w.payload), buffer);
      Glue(old(buffer.data), [EncodeProps(w.props), Binary(w.topic), Binary(PayloadBytes(w.payload))]);
    }
  }

  method EncodeOptionalTextInto(text: Option<Text>, buffer: Buffer)
    requires OptionalTextFits(text)
    modifies buffer
    ensures buffer.data == old(buffer.data) + EncodeOptionalText(text)
  {
    if text.Some? {
      EncodeBinary(text.value, buffer);
    }
  }

  method EncodeConnectPayloadInto(p: Packet, buffer: Buffer)
    requires p.ConnectPacket? && PacketOk(p)
    modifies buffer
    ensures buffer.data == old(buffer.data) + EncodeConnectPayload(p)
  {
    EncodeBinary(p.clientId, buffer);
    EncodeWillInto(p.will, buffer);
    EncodeOptionalTextInto(p.username, buffer);
    EncodeOptionalTextInto(p.password, buffer);
    Glue(old(buffer.data), [Binary(p.clientId), EncodeWill(p.will), EncodeOptionalText(p.username),
                            EncodeOptionalText(p.password)]);
  }

  method GatherFlags(p: Packet) returns (flags: byte)
    requires p.ConnectPacket?
    ensures flags == ConnectFlags(p)
  {
    flags := 0;
    if p.cleanStart {
      flags := flags + 2;
    }
    if p.will.Some? {
      flags := flags + 4 + p.will.value.qos * 8;
      if p.will.value.retain {
        flags := flags + 32;
      }
    }
    if p.username.Some? {
      flags := flags + 128;
    }
    if p.password.Some? {
      flags := flags + 64;
    }
  }

  method EncodeConnectInto(p: Packet, buffer: Buffer)
    requires p.ConnectPacket? && PacketOk(p)
    modifies buffer
    ensures buffer.data == old(buffer.data) + EncodeConnect(p)
  {
    var flags := GatherFlags(p);
    EncodeBinary(MQTT, buffer);
    buffer.Append(5);
    buffer.Append(flags);
    EncodeTwoBytes(p.keepAlive, buffer);
    EncodeProperties(p.props, buffer);
    EncodeConnectPayloadInto(p, buffer);
    Glue(old(buffer.data), [Binary(MQTT), [5], [flags], TwoBytes(p.keepAlive), EncodeProps(p.props),
                            EncodeConnectPayload(p)]);
  }

  method EncodeIdInto(id: Option<PacketId>, buffer: Buffer)
    modifies buffer
    ensures buffer.data == old(buffer.data) + EncodeId(id)
  {
    if id.Some? {
      EncodeTwoBytes(id.value, buffer);
    }
  }

  method EncodePublishInto(p: Publish, buffer: Buffer)
    requires PublishOk(p)
    modifies buffer
    ensures buffer.data == old(buffer.data) + EncodePublish(p)
  {
    EncodeBinary(p.topic, buffer);
    EncodeIdInto(p.packetId, buffer);
    EncodeProperties(p.props, buffer);
    buffer.Extend(PayloadBytes(p.payload));
    Glue(old(buffer.data), [Binary(p.topic), EncodeId(p.packetId), EncodeProps(p.props), PayloadBytes(p.payload)]);
  }

  /** The bodies that start with a packet id and end with a property block or a list. */
  method EncodeIdBodyInto(p: Packet, buffer: Buffer)
    requires p.AckPacket? || p.SubscribePacket? || p.CodesPacket? || p.UnsubscribePacket?
    requires PacketOk(p)
    modifies buffer
    ensures buffer.data == old(buffer.data) + Body(p)
  {
    EncodeTwoBytes(p.packetId, buffer);
    match p
    case AckPacket(_, id, reason, props) =>
      buffer.Append(reason);
      EncodeProperties(props, buffer);
      Glue(old(buffer.data), [TwoBytes(id), [reason], EncodeProps(props)]);
    case SubscribePacket(id, subs, props) =>
      EncodeProperties(props, buffer);
      EncodeSubscriptionList(subs, buffer);
      Glue(old(buffer.data), [TwoBytes(id), EncodeProps(props), EncodeSubscriptions(subs)]);
    case CodesPacket(_, id, codes, props) =>
      EncodeProperties(props, buffer);
      EncodeCodeList(codes, buffer);
      Glue(old(buffer.data), [TwoBytes(id), EncodeProps(props), codes]);
    case UnsubscribePacket(id, patterns, props) =>
      EncodeProperties(props, buffer);
      EncodePatternList(patterns, buffer);
      Glue(old(buffer.data), [TwoBytes(id), EncodeProps(props), EncodePatterns(patterns)]);
  }

  method EncodeBodyInto(p: Packet, buffer: Buffer)
    requires PacketOk(p)
    modifies buffer
    ensures buffer.data == old(buffer.data) + Body(p)
  {
    match p
    case ConnectPacket(_, _, _, _, _, _, _) => EncodeConnectInto(p, buffer);
    case ConnAckPacket(reason, present, props) =>
      var flags: byte := if present then 1 else 0;
      buffer.Append(flags);
      buffer.Append(reason);
      EncodeProperties(props, buffer);
      Glue(old(buffer.data), [[flags], [reason], EncodeProps(props)]);
    case PublishPacket(publish) => EncodePublishInto(publish, buffer);
    case AckPacket(_, _, _, _) => EncodeIdBodyInto(p, buffer);
    case SubscribePacket(_, _, _) => EncodeIdBodyInto(p, buffer);
    case CodesPacket(_, _, _, _) => EncodeIdBodyInto(p, buffer);
    case UnsubscribePacket(_, _, _) => EncodeIdBodyInto(p, buffer);
    case PingReqPacket =>
    case PingRespPacket =>
    case DisconnectPacket(reason, props) =>
      buffer.Append(reason);
      EncodeProperties(props, buffer);
      Glue(old(buffer.data), [[reason], EncodeProps(props)]);
    case AuthPacket(reason, props) =>
      buffer.Append(reason);
      EncodeProperties(props, buffer);
      Glue(old(buffer.data), [[reason], EncodeProps(props)]);
  }

  method EncodeFixedHeader(flags: byte, kind: nat, payload: seq<byte>, buffer: Buffer)
    requires flags < 16 && kind < 16
    modifies buffer
    ensures buffer.data == old(buffer.data) + Frame(HeaderByte(flags, kind), payload)
  {
    buffer.Append(HeaderByte(flags, kind));
    EncodeVariableInteger(|payload|, buffer);
    buffer.Extend(payload);
    Glue(old(buffer.data), [[HeaderByte(flags, kind)], VarInt(|payload|), payload]);
  }

  /** The bytes after the fixed header. */
  method EncodeBody(p: Packet) returns (body: seq<byte>)
    requires PacketOk(p)
    ensures body == Body(p)
  {
    var inner := new Buffer();
    EncodeBodyInto(p, inner);
    body := inner.data;
    Empty(Body(p));
  }

  lemma Empty(s: seq<byte>)
    ensures [] + s == s
  {
  }

  /** `packet.encode(buffer)` */
  method EncodePacket(p: Packet, buffer: Buffer)
    requires PacketOk(p)
    modifies buffer
    ensures buffer.data == old(buffer.data) + Encode(p)
  {
    var body := EncodeBody(p);
    EncodeFixedHeader(FlagsOf(p), TypeOf(p), body, buffer);
  }
}
