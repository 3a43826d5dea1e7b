/** Which exception refuses which bytes. A frame stands for no packet for a reason, and the reason
    decides what `decode_packet` raises. */
module Refused {
  import opened Bytes
  import opened Wire
  import opened Properties
  import opened Subscriptions
  import opened Packets
  import opened Decoding
  import opened Grammar
  import opened Accepted

  /** Every frame of this first byte and body is refused with this exception. */
  ghost predicate Refuses(first: byte, body: seq<byte>, error: Error) {
    forall length, r :: Digits(length, |body|) ==> DecodePacket([first] + (length + (body + r))) == Err(error)
  }

  lemma RefusedWhole(first: byte, body: seq<byte>, error: Error)
    requires first >= 16 && DecodeWhole(first / 16, first % 16, body) == Err(error)
    ensures Refuses(first, body, error)
  {
    forall length, r | Digits(length, |body|) ensures DecodePacket([first] + (length + (body + r))) == Err(error) {
      FrameOutcome(first, length, body, r);
    }
  }

  /** The error of a body is the error of its frame; but no complete frame asks for more data. */
  lemma RefusedBody(first: byte, body: seq<byte>, error: Error)
    requires first >= 16 && FlagsAllowed(first / 16, first % 16)
    requires DecodeBody(first / 16, first % 16, body) == Err(error)
    ensures Refuses(first, body, if error == InsufficientData then ShortBody else error)
  {
    hide DecodeBody;
    RefusedWhole(first, body, if error == InsufficientData then ShortBody else error);
  }

  // ---------- Frames ----------

  /** No packet type has the number 0. */
  lemma NoType(data: seq<byte>)
    requires |data| >= 2 && data[0] < 0x10
    ensures DecodePacket(data) == Err(ProtocolError)
  {
  }

  lemma ReservedBits(first: byte, body: seq<byte>)
    requires first >= 16 && !FlagsAllowed(first / 16, first % 16)
    ensures Refuses(first, body, ProtocolError)
  {
    RefusedWhole(first, body, ProtocolError);
  }

  /** A PINGREQ or PINGRESP has an empty body. */
  lemma PingBody(first: byte, body: seq<byte>)
    requires first in {0xC0, 0xD0} && body != []
    ensures Refuses(first, body, DecodeError)
  {
    RefusedWhole(first, body, DecodeError);
  }

  /** An acknowledgement, a SUBACK or an UNSUBACK without a whole packet id is not an incomplete frame. */
  lemma NoId(first: byte, body: seq<byte>)
    requires first in {0x40, 0x50, 0x62, 0x70, 0x82, 0x90, 0xA2, 0xB0} && |body| < 2
    ensures Refuses(first, body, ShortBody)
  {
    RefusedWhole(first, body, ShortBody);
  }

  /** Bytes behind a whole acknowledgement, DISCONNECT or AUTH. */
  lemma BytesLeft(place: nat, data: seq<byte>, block: seq<byte>, props: Props, extra: seq<byte>)
    requires IsBlock(Kinds(place), block, props) && data == block + extra
    ensures DecodeProps(Kinds(place), data) == Ok(extra, props)
  {
    PropsMeans(Kinds(place), data, props, extra);
    assert BlockAt(Kinds(place), data, props, extra);
  }

  lemma ExtraTail(place: nat, codes: set<ReasonCode>, kinds: set<nat>, code: byte, block: seq<byte>, props: Props,
                  extra: seq<byte>)
    requires kinds == Kinds(place) && code in codes && IsBlock(kinds, block, props)
    ensures DecodeTail(codes, kinds, [code] + (block + extra)) == Ok(extra, (code, props))
  {
    BlockLong(kinds, block, props);
    ByteMeans([code] + (block + extra), code, block + extra);
    BytesLeft(place, block + extra, block, props, extra);
  }

  lemma AckExtra(kind: AckKind, id: PacketId, code: byte, block: seq<byte>, props: Props, extra: seq<byte>)
    requires CodeAllowed(TypeOfAck(kind), code) && IsBlock(Kinds(TypeOfAck(kind)), block, props) && extra != []
    ensures Refuses(AckFirst(kind), Two(id) + ([code] + (block + extra)), DecodeError)
  {
    hide DecodeAck, DecodeTail, IsBlock;
    var place, tail := TypeOfAck(kind), [code] + (block + extra);
    CodeTables(code);
    AckTable(place);
    ExtraTail(place, AckCodes(kind), ACK_KINDS, code, block, props, extra);
    AckByTail(kind, id, tail);
    RefusedWhole(AckFirst(kind), Two(id) + tail, DecodeError);
  }

  // ---------- CONNECT ----------

  lemma WrongName(name: Text, rest: seq<byte>, first: byte)
    requires IsText(name) && name != [0x4D, 0x51, 0x54, 0x54] && first / 16 == 1
    ensures Refuses(first, Prefixed(name) + rest, ProtocolError)
  {
    TextMeans(Prefixed(name) + rest, name, rest);
    NameMeans(Prefixed(name) + rest, rest);
    RefusedWhole(first, Prefixed(name) + rest, ProtocolError);
  }

  lemma WrongVersion(version: byte, rest: seq<byte>, first: byte)
    requires version != 5 && first / 16 == 1
    ensures Refuses(first, [0x00, 0x04, 0x4D, 0x51, 0x54, 0x54] + ([version] + rest), ProtocolError)
  {
    var body := [0x00, 0x04, 0x4D, 0x51, 0x54, 0x54] + ([version] + rest);
    NameMeans(body, [version] + rest);
    ByteMeans([version] + rest, version, rest);
    RefusedWhole(first, body, ProtocolError);
  }

  // ---------- Text ----------

  lemma BadText(bytes: seq<byte>, rest: seq<byte>)
    requires |bytes| < 0x1_0000 && !ValidUtf8(bytes)
    ensures DecodeUtf8(Prefixed(bytes) + rest) == Err(DecodeError)
  {
    PrefixedMeans(Prefixed(bytes) + rest, bytes, rest);
  }

  lemma QosBits(first: byte)
    ensures first % 16 / 2 % 4 == first / 2 % 4
  {
    var n: nat := first;
    assert n == 16 * (n / 16) + n % 16;
  }

  lemma TopicRefused(flags: nat, data: seq<byte>, bytes: seq<byte>, rest: seq<byte>)
    requires flags < 16 && flags / 2 % 4 != 3
    requires |bytes| < 0x1_0000 && !ValidUtf8(bytes) && data == Prefixed(bytes) + rest
    ensures DecodePublish(flags, data) == Err(DecodeError)
  {
    BadText(bytes, rest);
  }

  /** A topic, and a pattern to be unsubscribed, must be text. */
  lemma BadTopic(bytes: seq<byte>, rest: seq<byte>, first: byte)
    requires |bytes| < 0x1_0000 && !ValidUtf8(bytes) && first / 16 == 3 && first / 2 % 4 != 3
    ensures Refuses(first, Prefixed(bytes) + rest, DecodeError)
  {
    QosBits(first);
    TopicRefused(first % 16, Prefixed(bytes) + rest, bytes, rest);
    RefusedWhole(first, Prefixed(bytes) + rest, DecodeError);
  }

  lemma BadPattern(bytes: seq<byte>, rest: seq<byte>)
    requires |bytes| < 0x1_0000 && !ValidUtf8(bytes)
    ensures DecodePatterns(Prefixed(bytes) + rest) == Err(DecodeError)
  {
    BadText(bytes, rest);
  }

  // ---------- PUBLISH ----------

  /** There is no QoS 3. */
  lemma QosThree(first: byte, body: seq<byte>)
    requires first / 16 == 3 && first / 2 % 4 == 3
    ensures Refuses(first, body, DecodeError)
  {
    QosBits(first);
    RefusedWhole(first, body, DecodeError);
  }

  /** A payload that is announced as text must be text. */
  lemma BadPayload(bytes: seq<byte>)
    requires !ValidUtf8(bytes)
    ensures DecodePayload(true, bytes) == Err(DecodeError)
  {
  }

  // ---------- Reason codes ----------

  /** Any code but an allowed one is refused, wherever one code stands. */
  lemma CodeRefused(place: nat, codes: set<ReasonCode>, code: byte, rest: seq<byte>)
    requires (forall c: byte :: c in codes <==> CodeAllowed(place, c)) && !CodeAllowed(place, code)
    ensures DecodeReason(codes, [code] + rest) == Err(DecodeError)
  {
    ByteMeans([code] + rest, code, rest);
  }

  lemma ConnAckCode(flags: byte, code: byte, rest: seq<byte>)
    requires !CodeAllowed(2, code)
    ensures Refuses(0x20, [flags] + ([code] + rest), DecodeError)
  {
    forall c: byte ensures c in CONNACK_CODES <==> CodeAllowed(2, c) {
      CodeTables(c);
    }
    ByteMeans([flags] + ([code] + rest), flags, [code] + rest);
    CodeRefused(2, CONNACK_CODES, code, rest);
    RefusedWhole(0x20, [flags] + ([code] + rest), DecodeError);
  }

  lemma AuthCode(code: byte, rest: seq<byte>)
    requires !CodeAllowed(15, code)
    ensures Refuses(0xF0, [code] + rest, DecodeError)
  {
    forall c: byte ensures c in AUTH_CODES <==> CodeAllowed(15, c) {
      CodeTables(c);
    }
    CodeRefused(15, AUTH_CODES, code, rest);
    RefusedWhole(0xF0, [code] + rest, DecodeError);
  }

  /** The first code that is not allowed refuses a list of codes. */
  lemma {:induction false} CodesRefused(allowed: set<ReasonCode>, codes: seq<ReasonCode>, bad: byte, rest: seq<byte>)
    requires (forall c :: c in codes ==> c in allowed) && bad !in allowed
    ensures DecodeCodes(allowed, codes + ([bad] + rest)) == Err(DecodeError)
    decreases |codes|
  {
    var data := codes + ([bad] + rest);
    if codes == [] {
      assert data == [bad] + rest;
      ByteMeans(data, bad, rest);
    } else {
      var tail := codes[1..] + ([bad] + rest);
      assert data == [codes[0]] + tail;
      ByteMeans(data, codes[0], tail);
      CodesRefused(allowed, codes[1..], bad, rest);
    }
  }

  // ---------- Properties ----------

  lemma Regrouped(kind: seq<byte>, value: seq<byte>, rest: seq<byte>, more: seq<byte>)
    ensures kind + (value + rest) + more == kind + (value + (rest + more))
  {
  }

  /** Decoding goes on behind permitted entries. */
  lemma {:induction false} SpelledThen(allowed: set<nat>, bytes: seq<byte>, raw: seq<Entry>,
                                       more: seq<byte>, acc: Props)
    requires Spells(bytes, raw) && (forall e :: e in raw ==> e.0 in allowed)
    requires DistinctKeys(acc.known + NonUser(raw))
    ensures Pairs(raw) && DecodeEntries(allowed, bytes + more, acc) == DecodeEntries(allowed, more, Collected(acc, raw))
    decreases |raw|
  {
    SpelledPairs(bytes, raw);
    if raw == [] {
      assert bytes + more == more;
    } else {
      var e := raw[0];
      var kind, value, rest :|
        && Digits(kind, e.0) && ValueBytes(e.0, e.1, value) && Spells(rest, raw[1..])
        && bytes == kind + (value + rest);
      assert e in raw && forall x :: x in raw[1..] ==> x in raw;
      NonUserStep(acc, raw);
      Regrouped(kind, value, rest, more);
      EntryTaken(allowed, e, kind, value, rest + more, acc);
      SpelledThen(allowed, rest, raw[1..], more, WithEntry(acc, e.0, e.1));
    }
  }

  /** An entry whose kind is none, or not allowed here, or an ordinary one that has been there. */
  ghost predicate BadEntry(allowed: set<nat>, raw: seq<Entry>, e: Entry, error: Error) {
    || (!IsKind(e.0) && error == DecodeError)
    || (IsKind(e.0) && e.0 !in allowed && error == UnsupportedProperty)
    || (IsKind(e.0) && e.0 in allowed && e.0 != 0x26 && HasKey(NonUser(raw), e.0) && error == DecodeError)
  }

  /** The first such entry refuses the block. */
  lemma EntryRefused(allowed: set<nat>, bytes: seq<byte>, raw: seq<Entry>,
                     e: Entry, kind: seq<byte>, value: seq<byte>, rest: seq<byte>, error: Error)
    requires Spells(bytes, raw) && Permitted(allowed, raw) && BadEntry(allowed, raw, e, error)
    requires Digits(kind, e.0) && (IsKind(e.0) ==> ValueBytes(e.0, e.1, value))
    ensures DecodeEntries(allowed, bytes + (kind + (value + rest)), NO_PROPS) == Err(error)
  {
    assert [] + NonUser(raw) == NonUser(raw);
    SpelledThen(allowed, bytes, raw, kind + (value + rest), NO_PROPS);
    CollectedMeans(NO_PROPS, raw);
    DigitsDecode(kind, e.0, value + rest);
    FormatMeans(e.0);
    if IsKind(e.0) {
      EntryDecodes(e, kind, value, rest);
    }
  }

  /** So does the first value that cannot be decoded. */
  lemma ValueRefused(allowed: set<nat>, bytes: seq<byte>, raw: seq<Entry>,
                     kind: seq<byte>, n: nat, data: seq<byte>, error: Error)
    requires Spells(bytes, raw) && Permitted(allowed, raw) && Digits(kind, n) && IsKind(n) && n in allowed
    requires DecodeValue(FormatByKind(n).value, data) == Err(error)
    ensures DecodeEntries(allowed, bytes + (kind + data), NO_PROPS) == Err(error)
  {
    assert [] + NonUser(raw) == NonUser(raw);
    SpelledThen(allowed, bytes, raw, kind + data, NO_PROPS);
    DigitsDecode(kind, n, data);
    FormatMeans(n);
    hide DecodeValue, FormatOf, Spells;
  }

  /** The entries decide about their block. */
  lemma BlockRefused(allowed: set<nat>, length: seq<byte>, content: seq<byte>, rest: seq<byte>, error: Error)
    requires Digits(length, |content|) && DecodeEntries(allowed, content, NO_PROPS) == Err(error)
    ensures DecodeProps(allowed, length + (content + rest)) == Err(error)
  {
    hide DecodeEntries;
    DigitsDecode(length, |content|, content + rest);
    assert (content + rest)[..|content|] == content;
  }

  /** A block that promises more bytes than the body has. */
  lemma BlockTooLong(allowed: set<nat>, length: seq<byte>, n: nat, data: seq<byte>)
    requires Digits(length, n) && |data| < n
    ensures DecodeProps(allowed, length + data) == Err(InsufficientData)
  {
    DigitsDecode(length, n, data);
  }

  // ---------- SUBSCRIBE and UNSUBSCRIBE ----------

  lemma NoSubscriptions(id: PacketId, block: seq<byte>, props: Props)
    requires IsBlock(Kinds(8), block, props)
    ensures DecodeSubscribe(Two(id) + block) == Err(ProtocolError)
  {
    RequestTables();
    TwoMeans(Two(id) + block, id, block);
    BlockWhole(SUBSCRIBE_KINDS, block, props);
  }

  lemma NoPatterns(id: PacketId, block: seq<byte>, props: Props)
    requires IsBlock(Kinds(10), block, props)
    ensures DecodeUnsubscribe(Two(id) + block) == Err(ProtocolError)
  {
    RequestTables();
    TwoMeans(Two(id) + block, id, block);
    BlockWhole(UNSUBSCRIBE_KINDS, block, props);
  }

  /** A request must name something. */
  lemma EmptySubscribe(id: PacketId, block: seq<byte>, props: Props)
    requires IsBlock(Kinds(8), block, props)
    ensures Refuses(0x82, Two(id) + block, ProtocolError)
  {
    hide DecodeSubscribe, IsBlock;
    NoSubscriptions(id, block, props);
    RefusedBody(0x82, Two(id) + block, ProtocolError);
  }

  lemma EmptyUnsubscribe(id: PacketId, block: seq<byte>, props: Props)
    requires IsBlock(Kinds(10), block, props)
    ensures Refuses(0xA2, Two(id) + block, ProtocolError)
  {
    hide DecodeUnsubscribe, IsBlock;
    NoPatterns(id, block, props);
    RefusedBody(0xA2, Two(id) + block, ProtocolError);
  }

  /** QoS 3 and retain handling 3 are refused before the filter is looked at. */
  lemma BadSubscription(pattern: Text, options: byte, rest: seq<byte>)
    requires IsText(pattern)
    ensures var data := Prefixed(pattern) + ([options] + rest);
            && (options % 4 == 3 || options / 16 % 4 == 3 ==> DecodeSubscription(data) == Err(DecodeError))
            && (options % 4 != 3 && options / 16 % 4 != 3 && !CharacterRule(pattern) ==>
                  DecodeSubscription(data) == Err(InvalidPattern))
  {
    var data := Prefixed(pattern) + ([options] + rest);
    TextMeans(data, pattern, [options] + rest);
    ByteMeans([options] + rest, options, rest);
    FilterRule(pattern);
  }

  lemma SubscriptionGrows(data: seq<byte>, sub: Subscription, rest: seq<byte>, more: seq<byte>)
    requires SubscriptionAt(data, sub, rest)
    ensures DecodeSubscription(data + more) == Ok(rest + more, sub)
  {
    var options: byte :| OptionsSay(options, sub) && data == Prefixed(sub.pattern) + ([options] + rest);
    assert data + more == Prefixed(sub.pattern) + ([options] + (rest + more));
    assert SubscriptionAt(data + more, sub, rest + more);
    SubscriptionMeans(data + more, sub, rest + more);
  }

  /** The first subscription that is refused decides. */
  lemma {:induction false} SubscriptionsRefused(bytes: seq<byte>, subs: seq<Subscription>, bad: seq<byte>, error: Error)
    requires SpellsSubscriptions(bytes, subs) && bad != [] && DecodeSubscription(bad) == Err(error)
    ensures DecodeSubscriptions(bytes + bad) == Err(error)
    decreases |subs|
  {
    hide DecodeSubscription, SubscriptionAt;
    if subs == [] {
      assert bytes + bad == bad;
    } else {
      var rest :| SubscriptionAt(bytes, subs[0], rest) && SpellsSubscriptions(rest, subs[1..]);
      SubscriptionGrows(bytes, subs[0], rest, bad);
      SubscriptionsRefused(rest, subs[1..], bad, error);
    }
  }

  /** So does the first pattern. */
  lemma {:induction false} PatternsRefused(bytes: seq<byte>, patterns: seq<Text>, bad: seq<byte>, error: Error)
    requires SpellsPatterns(bytes, patterns) && bad != [] && DecodeUtf8(bad) == Err(error)
    ensures DecodePatterns(bytes + bad) == Err(error)
    decreases |patterns|
  {
    hide DecodeUtf8;
    if patterns == [] {
      assert bytes + bad == bad;
    } else {
      var rest :| bytes == Prefixed(patterns[0]) + rest && SpellsPatterns(rest, patterns[1..]);
      assert bytes + bad == Prefixed(patterns[0]) + (rest + bad);
      TextMeans(bytes + bad, patterns[0], rest + bad);
      PatternsRefused(rest, patterns[1..], bad, error);
    }
  }

  /** Behind an id, the block decides, and behind the block the list. */
  lemma RequestBlockRefused(id: PacketId, data: seq<byte>, error: Error)
    ensures DecodeProps(Kinds(8), data) == Err(error) ==> DecodeSubscribe(Two(id) + data) == Err(error)
    ensures DecodeProps(Kinds(10), data) == Err(error) ==> DecodeUnsubscribe(Two(id) + data) == Err(error)
    ensures DecodeProps(Kinds(9), data) == Err(error) ==> DecodeCodesPacket(SubAck, Two(id) + data) == Err(error)
    ensures DecodeProps(Kinds(11), data) == Err(error) ==> DecodeCodesPacket(UnsubAck, Two(id) + data) == Err(error)
  {
    hide DecodeProps, Kinds;
    RequestTables();
    AckTable(9);
    AckTable(11);
    TwoMeans(Two(id) + data, id, data);
  }

  lemma ListRefused(id: PacketId, block: seq<byte>, props: Props, list: seq<byte>, error: Error)
    ensures IsBlock(Kinds(8), block, props) && DecodeSubscriptions(list) == Err(error) ==>
              DecodeSubscribe(Two(id) + (block + list)) == Err(error)
    ensures IsBlock(Kinds(10), block, props) && DecodePatterns(list) == Err(error) ==>
              DecodeUnsubscribe(Two(id) + (block + list)) == Err(error)
    ensures IsBlock(Kinds(9), block, props) && DecodeCodes(SUBACK_CODES, list) == Err(error) ==>
              DecodeCodesPacket(SubAck, Two(id) + (block + list)) == Err(error)
    ensures IsBlock(Kinds(11), block, props) && DecodeCodes(UNSUBACK_CODES, list) == Err(error) ==>
              DecodeCodesPacket(UnsubAck, Two(id) + (block + list)) == Err(error)
  {
    hide DecodeProps, Kinds, DecodeSubscriptions, DecodePatterns, DecodeCodes, IsBlock;
    RequestTables();
    AckTable(9);
    AckTable(11);
    TwoMeans(Two(id) + (block + list), id, block + list);
    forall place: nat | IsBlock(Kinds(place), block, props)
      ensures DecodeProps(Kinds(place), block + list) == Ok(list, props)
    {
      BytesLeft(place, block + list, block, props, list);
    }
  }

  // ---------- Blocks and fields of the other packets ----------

  /** Behind a reason code that is allowed, the block decides. */
  lemma AckBlockRefused(kind: AckKind, id: PacketId, code: byte, data: seq<byte>, error: Error)
    requires CodeAllowed(TypeOfAck(kind), code) && DecodeProps(Kinds(TypeOfAck(kind)), data) == Err(error) && data != []
    ensures DecodeAck(kind, Two(id) + ([code] + data)) == Err(error)
  {
    hide DecodeProps, Kinds;
    CodeTables(code);
    AckTable(TypeOfAck(kind));
    ByteMeans([code] + data, code, data);
    AckByTail(kind, id, [code] + data);
  }

  lemma LastBlockRefused(code: byte, data: seq<byte>, error: Error)
    ensures CodeAllowed(14, code) && DecodeProps(Kinds(14), data) == Err(error) && data != [] ==>
              DecodeDisconnect([code] + data) == Err(error)
    ensures CodeAllowed(15, code) && DecodeProps(Kinds(15), data) == Err(error) ==>
              DecodeAuth([code] + data) == Err(error)
  {
    hide DecodeProps, Kinds;
    CodeTables(code);
    LastTables();
    ByteMeans([code] + data, code, data);
  }

  lemma ConnAckBlockRefused(flags: byte, code: byte, data: seq<byte>, error: Error)
    requires CodeAllowed(2, code) && DecodeProps(Kinds(2), data) == Err(error)
    ensures DecodeConnAck([flags] + ([code] + data)) == Err(error)
  {
    hide DecodeProps, Kinds;
    CodeTables(code);
    ConnAckTable();
    ByteMeans([flags] + ([code] + data), flags, [code] + data);
    ByteMeans([code] + data, code, data);
  }

  /** Behind its topic and packet id, the block of a message decides, and then its payload. */
  lemma PublishBlockRefused(flags: nat, topic: Text, id: Option<PacketId>, data: seq<byte>, error: Error)
    requires flags < 16 && flags / 2 % 4 != 3 && IsText(topic) && (id.Some? <==> flags / 2 % 4 > 0)
    requires DecodeProps(Kinds(3), data) == Err(error)
    ensures DecodePublish(flags, Prefixed(topic) + (IdBytes(id) + data)) == Err(error)
  {
    hide DecodeProps, Kinds, DecodeUtf8, DecodeOptionalId;
    PublishTable();
    TextMeans(Prefixed(topic) + (IdBytes(id) + data), topic, IdBytes(id) + data);
    OptionalIdMeans(flags / 2 % 4 > 0, IdBytes(id) + data, id, data);
  }

  lemma PayloadRefused(flags: nat, topic: Text, id: Option<PacketId>, block: seq<byte>, q: Props, payload: seq<byte>)
    requires flags < 16 && flags / 2 % 4 != 3 && IsText(topic) && (id.Some? <==> flags / 2 % 4 > 0)
    requires IsBlock(Kinds(3), block, q) && MarksText(q.known) && !ValidUtf8(payload)
    ensures DecodePublish(flags, Prefixed(topic) + (IdBytes(id) + (block + payload))) == Err(DecodeError)
  {
    hide DecodeProps, Kinds, DecodeUtf8, DecodeOptionalId, IsBlock;
    var data := block + payload;
    PublishTable();
    TextMeans(Prefixed(topic) + (IdBytes(id) + data), topic, IdBytes(id) + data);
    OptionalIdMeans(flags / 2 % 4 > 0, IdBytes(id) + data, id, data);
    BytesLeft(3, data, block, q, payload);
    SettleMeans(q);
  }

  /** Behind the ten bytes, the block of a CONNECT decides, then its fields one after the other. */
  lemma ConnectBlockRefused(flags: byte, keepAlive: U16, data: seq<byte>, error: Error)
    requires DecodeProps(Kinds(1), data) == Err(error)
    ensures DecodeConnect(HeadBytes(flags, keepAlive) + data) == Err(error)
  {
    hide DecodeProps, DecodeConnect, Kinds;
    ConnectTables();
    HeadDecodes(flags, keepAlive, data);
  }

  lemma ConnectRefused(flags: byte, keepAlive: U16, block: seq<byte>, props: Props, fields: seq<byte>, error: Error)
    requires IsBlock(Kinds(1), block, props) && DecodeConnectPayload(flags, keepAlive, props, fields) == Err(error)
    ensures DecodeConnect(HeadBytes(flags, keepAlive) + (block + fields)) == Err(error)
  {
    hide DecodeProps, DecodeConnect, DecodeConnectPayload, Kinds, IsBlock;
    ConnectTables();
    BytesLeft(1, block + fields, block, props, fields);
    HeadDecodes(flags, keepAlive, block + fields);
  }

  lemma ClientIdRefused(flags: nat, keepAlive: U16, props: Props, data: seq<byte>, error: Error)
    requires DecodeUtf8(data) == Err(error)
    ensures DecodeConnectPayload(flags, keepAlive, props, data) == Err(error)
  {
  }

  lemma WillRefused(flags: nat, keepAlive: U16, props: Props, clientId: Text, data: seq<byte>, error: Error)
    requires IsText(clientId) && DecodeWill(flags, data) == Err(error)
    ensures DecodeConnectPayload(flags, keepAlive, props, Prefixed(clientId) + data) == Err(error)
  {
    hide DecodeUtf8, DecodeWill;
    TextMeans(Prefixed(clientId) + data, clientId, data);
  }

  /** A user name that is announced, and then a password that is. */
  lemma NameRefused(flags: nat, keepAlive: U16, props: Props, clientId: Text, data: seq<byte>,
                    will: Option<Will>, rest: seq<byte>, error: Error)
    requires IsText(clientId) && WillAt(flags, data, will, rest)
    requires flags / 128 % 2 == 1 && DecodeUtf8(rest) == Err(error)
    ensures DecodeConnectPayload(flags, keepAlive, props, Prefixed(clientId) + data) == Err(error)
  {
    hide DecodeUtf8, DecodeWill, WillAt;
    TextMeans(Prefixed(clientId) + data, clientId, data);
    WillReadable(flags, data, will, rest);
  }

  lemma PasswordRefused(flags: nat, keepAlive: U16, props: Props, clientId: Text, data: seq<byte>,
                        will: Option<Will>, username: seq<byte>, name: Option<Text>, rest: seq<byte>, error: Error)
    requires IsText(clientId) && WillAt(flags, data, will, username + rest)
    requires (name.Some? <==> flags / 128 % 2 == 1) && OptionalSays(username, name)
    requires flags / 64 % 2 == 1 && DecodeUtf8(rest) == Err(error)
    ensures DecodeConnectPayload(flags, keepAlive, props, Prefixed(clientId) + data) == Err(error)
  {
    OptionalMeans(HasBit(flags, 128), username + rest, name, rest);
    hide DecodeUtf8, DecodeWill, WillAt, OptionalSays;
    TextMeans(Prefixed(clientId) + data, clientId, data);
    WillReadable(flags, data, will, username + rest);
  }

  // ---------- Wills ----------

  lemma WillBlockRefused(flags: nat, data: seq<byte>, error: Error)
    requires flags / 4 % 2 == 1 && DecodeProps(Kinds(0), data) == Err(error)
    ensures DecodeWill(flags, data) == Err(error)
  {
    hide DecodeProps, Kinds;
    ConnectTables();
  }

  lemma WillTopicRefused(flags: nat, block: seq<byte>, q: Props, data: seq<byte>, error: Error)
    requires flags / 4 % 2 == 1 && IsBlock(Kinds(0), block, q) && DecodeUtf8(data) == Err(error)
    ensures DecodeWill(flags, block + data) == Err(error)
  {
    hide DecodeProps, Kinds, DecodeUtf8, IsBlock;
    ConnectTables();
    BytesLeft(0, block + data, block, q, data);
  }

  /** A payload as text or as bytes, as the block says; and only then the QoS. */
  lemma WillPayloadRefused(flags: nat, block: seq<byte>, q: Props, topic: Text, data: seq<byte>)
    requires flags / 4 % 2 == 1 && IsBlock(Kinds(0), block, q) && IsText(topic)
    ensures var d := if MarksText(q.known) then DecodeUtf8(data) else DecodeBinary(data);
            && (d.Err? ==> DecodeWill(flags, block + (Prefixed(topic) + data)) == Err(d.error))
            && (d.Ok? && flags / 8 % 4 == 3 ==> DecodeWill(flags, block + (Prefixed(topic) + data)) == Err(DecodeError))
  {
    hide DecodeProps, Kinds, DecodeUtf8, DecodeBinary, IsBlock, Settle;
    ConnectTables();
    BytesLeft(0, block + (Prefixed(topic) + data), block, q, Prefixed(topic) + data);
    SettleMeans(q);
    TextMeans(Prefixed(topic) + data, topic, data);
  }
}
