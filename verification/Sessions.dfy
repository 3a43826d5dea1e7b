/** What one step of a session does: the specification of the client's and the broker's session
    state machines as functions on session values. */
module Sessions {
  import opened Bytes
  import opened Properties
  import opened Subscriptions
  import opened Packets

  // ---------- The table of pending packets ----------

  datatype AckState = Unacknowledged | Acknowledged | Released

  /** A packet waiting for its acknowledgement; a publish carries its QoS 2 progress. */
  datatype Pending =
    | PublishEntry(publish: Publish, ack: AckState)
    | SubscribeEntry(subscriptions: seq<Subscription>)
    | UnsubscribeEntry(patterns: seq<Text>)

  function Without(order: seq<PacketId>, id: PacketId): seq<PacketId> {
    if order == [] then []
    else if order[0] == id then Without(order[1..], id)
    else [order[0]] + Without(order[1..], id)
  }

  /** `_pending_packets`, a dictionary with its insertion order. */
  datatype Table = Table(items: map<PacketId, Pending>, order: seq<PacketId>) {
    predicate Has(id: PacketId) {
      id in items
    }

    function Get(id: PacketId): Option<Pending> {
      if id in items then Some(items[id]) else None
    }

    /** A new entry goes last. */
    function Add(id: PacketId, entry: Pending): Table {
      Table(items[id := entry], order + [id])
    }

    /** An existing entry keeps its place. */
    function Set(id: PacketId, entry: Pending): Table {
      Table(items[id := entry], order)
    }

    function Drop(id: PacketId): Table {
      Table(items - {id}, Without(order, id))
    }
  }

  // ---------- Sessions ----------

  datatype Role = ClientRole | BrokerRole

  datatype ConnState = Disconnected | Connecting | Connected

  /** Both kinds of session; `counts` is used by clients only, `clientId` names the peer of a
      broker session and the client itself otherwise. */
  datatype Session = Session(
    role: Role,
    clientId: Text,
    state: ConnState,
    table: Table,
    nextId: PacketId,
    subscriptions: Subs,
    counts: Counts)

  function NewSession(role: Role, clientId: Text): Session {
    Session(role, clientId, Disconnected, Table(map[], []), 1, map[], map[])
  }

  datatype Status = Done | Unhandled | Raised(error: Error)

  /** The session after a step, the packets it appended to the outbound buffer, and whether an
      exception ended it; changes made before the exception stay. */
  datatype Outcome = Outcome(session: Session, sent: seq<Packet>, status: Status)

  /** What a call of `feed_bytes` returns of the packets it has handled: nothing if it raises. */
  function Returned(handled: seq<Packet>, raised: bool): seq<Packet> {
    if raised then [] else handled
  }

  function Fail(s: Session, error: Error): Outcome {
    Outcome(s, [], Raised(error))
  }

  function Quiet(s: Session): Outcome {
    Outcome(s, [], Done)
  }

  function Send(s: Session, p: Packet): Outcome {
    Outcome(s, [p], Done)
  }

  function Ack(kind: AckKind, id: PacketId, reason: ReasonCode): Packet {
    AckPacket(kind, id, reason, NO_PROPS)
  }

  function Repeat<T>(x: T, n: nat): seq<T> {
    seq(n, _ => x)
  }

  /** What `_add_pending_packet` answers when the packet id is taken. An UNSUBSCRIBE is answered
      with a SUBACK too. */
  function CollisionReply(id: PacketId, entry: Pending): Packet {
    match entry
    case PublishEntry(p, _) =>
      Ack(if p.qos == AT_LEAST_ONCE then PubAck else PubRec, id, PACKET_IDENTIFIER_IN_USE)
    case SubscribeEntry(subs) => CodesPacket(SubAck, id, Repeat(PACKET_IDENTIFIER_IN_USE, |subs|), NO_PROPS)
    case UnsubscribeEntry(patterns) =>
      CodesPacket(SubAck, id, Repeat(PACKET_IDENTIFIER_IN_USE, |patterns|), NO_PROPS)
  }

  // ---------- Acknowledging, releasing and completing ----------

  function AcknowledgePublish(s: Session, id: PacketId, reason: ReasonCode): Outcome {
    if s.state != Connected || !s.table.Has(id) then Fail(s, ProtocolError)
    else
      var entry := s.table.items[id];
      var popped := s.(table := s.table.Drop(id));
      if !entry.PublishEntry? then Fail(popped, ProtocolError)
      else if reason !in PUBLISH_CODES then Fail(popped, ValueError)
      else if entry.publish.qos == AT_LEAST_ONCE then Send(popped, Ack(PubAck, id, reason))
      else
        Send(popped.(table := popped.table.Add(id, entry.(ack := Acknowledged))), Ack(PubRec, id, reason))
  }

  /** The checks on an entry that PUBREC, PUBREL and the calls behind them share. */
  predicate InState(entry: Pending, ack: AckState) {
    entry.PublishEntry? && entry.publish.qos == EXACTLY_ONCE && entry.ack == ack
  }

  function ReleasePublish(s: Session, id: PacketId, reason: ReasonCode): Outcome {
    if s.state != Connected then Fail(s, ProtocolError)
    else if reason == PACKET_IDENTIFIER_NOT_FOUND then Send(s, Ack(PubRel, id, reason))
    else if !s.table.Has(id) || !InState(s.table.items[id], Acknowledged) then Fail(s, ProtocolError)
    else
      var released := s.(table := s.table.Set(id, s.table.items[id].(ack := Released)));
      if reason !in RELEASE_CODES then Fail(released, ValueError)
      else Send(released, Ack(PubRel, id, reason))
  }

  function CompletePublish(s: Session, id: PacketId, reason: ReasonCode): Outcome {
    if s.state != Connected then Fail(s, ProtocolError)
    else if reason == PACKET_IDENTIFIER_NOT_FOUND then Send(s, Ack(PubComp, id, reason))
    else if !s.table.Has(id) then Fail(s, ProtocolError)
    else
      var popped := s.(table := s.table.Drop(id));
      if !InState(s.table.items[id], Released) then Fail(popped, ProtocolError)
      else if reason !in RELEASE_CODES then Fail(popped, ValueError)
      else Send(popped, Ack(PubComp, id, reason))
  }

  // ---------- Inbound packets that both roles handle ----------

  /** Clients acknowledge by themselves; a packet id of 0 counts as none when they decide to. */
  function HandlePublish(s: Session, p: Publish): Outcome {
    if s.state != Connected then Fail(s, ProtocolError)
    else if p.packetId.None? then Quiet(s)
    else
      var id, entry := p.packetId.value, PublishEntry(p, Unacknowledged);
      if s.table.Has(id) then Send(s, CollisionReply(id, entry))
      else
        var added := s.(table := s.table.Add(id, entry));
        if id != 0 && s.role == ClientRole then AcknowledgePublish(added, id, SUCCESS) else Quiet(added)
  }

  function HandlePubAck(s: Session, id: PacketId): Outcome {
    if s.state != Connected then Fail(s, ProtocolError)
    else if !s.table.Has(id) then Quiet(s)
    else
      var entry := s.table.items[id];
      var popped := s.(table := s.table.Drop(id));
      if !entry.PublishEntry? || entry.publish.qos != AT_LEAST_ONCE then Fail(popped, ProtocolError)
      else Quiet(popped)
  }

  function HandlePubRec(s: Session, id: PacketId): Outcome {
    if s.state != Connected then Fail(s, ProtocolError)
    else if !s.table.Has(id) then ReleasePublish(s, id, PACKET_IDENTIFIER_NOT_FOUND)
    else if !InState(s.table.items[id], Unacknowledged) then Fail(s, ProtocolError)
    else
      var acked := s.(table := s.table.Set(id, s.table.items[id].(ack := Acknowledged)));
      if s.role == ClientRole then ReleasePublish(acked, id, SUCCESS) else Quiet(acked)
  }

  function HandlePubRel(s: Session, id: PacketId): Outcome {
    if s.state != Connected then Fail(s, ProtocolError)
    else if !s.table.Has(id) then CompletePublish(s, id, PACKET_IDENTIFIER_NOT_FOUND)
    else if !InState(s.table.items[id], Acknowledged) then Fail(s, ProtocolError)
    else
      var released := s.(table := s.table.Set(id, s.table.items[id].(ack := Released)));
      if s.role == ClientRole then CompletePublish(released, id, SUCCESS) else Quiet(released)
  }

  function HandlePubComp(s: Session, id: PacketId): Outcome {
    if s.state != Connected || !s.table.Has(id) then Fail(s, ProtocolError)
    else
      var popped := s.(table := s.table.Drop(id));
      if !InState(s.table.items[id], Released) then Fail(popped, ProtocolError) else Quiet(popped)
  }

  function HandleAck(s: Session, kind: AckKind, id: PacketId): Outcome {
    match kind
    case PubAck => HandlePubAck(s, id)
    case PubRec => HandlePubRec(s, id)
    case PubRel => HandlePubRel(s, id)
    case PubComp => HandlePubComp(s, id)
  }

  // ---------- Inbound packets of the client ----------

  function OnlyPublishes(table: Table, order: seq<PacketId>): seq<PacketId> {
    if order == [] then []
    else
      (if order[0] in table.items && table.items[order[0]].PublishEntry? then [order[0]] else [])
      + OnlyPublishes(table, order[1..])
  }

  /** `MQTTClientStateMachine.reset` */
  function Reset(s: Session, sessionPresent: bool): Session {
    if sessionPresent then
      var items := map id | id in s.table.items && s.table.items[id].PublishEntry? :: s.table.items[id];
      s.(table := Table(items, OnlyPublishes(s.table, s.table.order)))
    else s.(nextId := 1, subscriptions := map[])
  }

  function Duplicate(p: Publish): Publish {
    p.(duplicate := true)
  }

  /** The resending loop over the pending packets `ids`, in their order. */
  function Resend(s: Session, ids: seq<PacketId>): Outcome
    decreases |ids|
  {
    if ids == [] then Quiet(s)
    else
      var entry := s.table.Get(ids[0]);
      if entry.None? || !entry.value.PublishEntry? then Fail(s, AssertionError)
      else
        var p := Duplicate(entry.value.publish);
        var rest := Resend(s.(table := s.table.Set(ids[0], entry.value.(publish := p))), ids[1..]);
        Outcome(rest.session, [PublishPacket(p)] + rest.sent, rest.status)
  }

  function HandleConnAck(s: Session, reason: ReasonCode, sessionPresent: bool): Outcome {
    if s.state != Connecting then Fail(s, ProtocolError)
    else if reason != SUCCESS then Quiet(s.(state := Disconnected))
    else
      var s' := Reset(s.(state := Connected), sessionPresent);
      Resend(s', s'.table.order)
  }

  predicate Answers(kind: CodesKind, entry: Pending) {
    if kind == SubAck then entry.SubscribeEntry? else entry.UnsubscribeEntry?
  }

  function HandleCodes(s: Session, kind: CodesKind, id: PacketId): Outcome {
    if s.state != Connected then Fail(s, ProtocolError)
    else if !s.table.Has(id) then Quiet(s)
    else
      var popped := s.(table := s.table.Drop(id));
      if Answers(kind, s.table.items[id]) then Quiet(popped) else Fail(popped, ProtocolError)
  }

  function HandleClient(s: Session, p: Packet): Outcome {
    match p
    case ConnAckPacket(reason, present, _) => HandleConnAck(s, reason, present)
    case PingRespPacket => if s.state != Connected then Fail(s, ProtocolError) else Quiet(s)
    case CodesPacket(kind, id, _, _) => HandleCodes(s, kind, id)
    case _ => Outcome(s, [], Unhandled)
  }

  // ---------- Inbound packets of the broker's session ----------

  /** One code per pattern, by the subscriptions left when its turn comes. */
  function UnsubscribeCodes(subs: Subs, patterns: seq<Text>): seq<ReasonCode> {
    if patterns == [] then []
    else
      [if patterns[0] in subs then SUCCESS else NO_SUBSCRIPTION_EXISTED]
      + UnsubscribeCodes(subs - {patterns[0]}, patterns[1..])
  }

  function RemoveAll(subs: Subs, patterns: seq<Text>): Subs {
    if patterns == [] then subs else RemoveAll(subs - {patterns[0]}, patterns[1..])
  }

  function HandleSubscribe(s: Session, id: PacketId, subs: seq<Subscription>): Outcome {
    if s.state != Connected then Fail(s, ProtocolError)
    else if s.table.Has(id) then Send(s, CollisionReply(id, SubscribeEntry(subs)))
    else Quiet(s.(table := s.table.Add(id, SubscribeEntry(subs))))
  }

  /** The request stays in the table after it has been answered. */
  function HandleUnsubscribe(s: Session, id: PacketId, patterns: seq<Text>): Outcome {
    if s.state != Connected then Fail(s, ProtocolError)
    else if s.table.Has(id) then Send(s, CollisionReply(id, UnsubscribeEntry(patterns)))
    else
      Send(s.(table := s.table.Add(id, UnsubscribeEntry(patterns)),
              subscriptions := RemoveAll(s.subscriptions, patterns)),
           CodesPacket(UnsubAck, id, UnsubscribeCodes(s.subscriptions, patterns), NO_PROPS))
  }

  function HandleBroker(s: Session, p: Packet): Outcome {
    match p
    case PingReqPacket => if s.state != Connected then Fail(s, ProtocolError) else Send(s, PingRespPacket)
    case SubscribePacket(id, subs, _) => HandleSubscribe(s, id, subs)
    case UnsubscribePacket(id, patterns, _) => HandleUnsubscribe(s, id, patterns)
    case ConnectPacket(clientId, _, _, _, _, _, _) =>
      if s.state != Disconnected then Fail(s, ProtocolError)
      else Quiet(s.(state := Connecting, clientId := clientId))
    case _ => Outcome(s, [], Unhandled)
  }

  /** `_handle_packet`: what both roles handle first, then what the role adds. */
  function HandlePacket(s: Session, p: Packet): Outcome {
    match p
    case PublishPacket(publish) => HandlePublish(s, publish)
    case AckPacket(kind, id, _, _) => HandleAck(s, kind, id)
    case DisconnectPacket(_, _) =>
      if s.state != Connected then Fail(s, ProtocolError) else Quiet(s.(state := Disconnected))
    case AuthPacket(_, _) => if s.state == Disconnected then Fail(s, ProtocolError) else Quiet(s)
    case _ => if s.role == ClientRole then HandleClient(s, p) else HandleBroker(s, p)
  }

  // ---------- Calls of the client's application ----------

  /** `_generate_packet_id` hands out `nextId` and steps to this one. */
  function NextId(id: PacketId): PacketId {
    if id + 1 == 65536 then 1 else id + 1
  }

  /** Encode a request into the outbound buffer and enter it in the table, under a packet id
      that the counter has already left behind. */
  function SendRequest(s: Session, id: PacketId, p: Packet, entry: Pending): Outcome {
    if s.table.Has(id) then Outcome(s, [p, CollisionReply(id, entry)], Done)
    else Send(s.(table := s.table.Add(id, entry)), p)
  }

  /** The properties of a new packet: only the indicator that a text payload sets. */
  function PayloadProps(payload: Payload): Props {
    Props(if payload.TextPayload? then [(PAYLOAD_FORMAT_INDICATOR, Number(1))] else [], [])
  }

  function NewPublish(topic: Text, payload: Payload, id: Option<PacketId>, retain: bool, qos: QoS): Publish {
    Publish(topic, payload, id, retain, qos, false, PayloadProps(payload))
  }

  function ClientPublish(s: Session, topic: Text, payload: Payload, retain: bool, qos: QoS): Outcome {
    if s.state != Connected then Fail(s, ProtocolError)
    else if qos == AT_MOST_ONCE then
      if |topic| >= 0x1_0000 then Fail(s, Overflow)
      else Send(s, PublishPacket(NewPublish(topic, payload, None, retain, qos)))
    else
      var id := s.nextId;
      var p := NewPublish(topic, payload, Some(id), retain, qos);
      var s' := s.(nextId := NextId(id));
      if |topic| >= 0x1_0000 then Fail(s', Overflow)
      else SendRequest(s', id, PublishPacket(p), PublishEntry(p, Unacknowledged))
  }

  /** The counting loop of `subscribe`: the maps after it and the subscriptions new to them. */
  function CountUp(subs: Subs, counts: Counts, requested: seq<Subscription>)
    : (Subs, Counts, seq<Subscription>)
    decreases |requested|
  {
    if requested == [] then (subs, counts, [])
    else
      var sub := requested[0];
      if sub.pattern in subs then
        var count := (if sub.pattern in counts then counts[sub.pattern] else 0) + 1;
        CountUp(subs, counts[sub.pattern := count], requested[1..])
      else
        var (subs', counts', new') := CountUp(subs[sub.pattern := sub], counts[sub.pattern := 1], requested[1..]);
        (subs', counts', [sub] + new')
  }

  function ClientSubscribe(s: Session, requested: seq<Subscription>): Outcome {
    if s.state != Connected then Fail(s, ProtocolError)
    else
      var (subs, counts, fresh') := CountUp(s.subscriptions, s.counts, requested);
      var counted := s.(subscriptions := subs, counts := counts);
      if fresh' == [] then Quiet(counted)
      else
        var id := s.nextId;
        var s' := counted.(nextId := NextId(id));
        if exists sub :: sub in fresh' && |sub.pattern| >= 0x1_0000 then Fail(s', Overflow)
        else SendRequest(s', id, SubscribePacket(id, fresh', NO_PROPS), SubscribeEntry(fresh'))
  }

  datatype CountedDown = CountedDown(subs: Subs, counts: Counts, gone: seq<Text>, raised: bool)

  /** The counting loop of `unsubscribe`; it raises KeyError if a pattern counted once has no
      subscription. Unknown patterns are counted down below zero. */
  function CountDown(subs: Subs, counts: Counts, patterns: seq<Text>): CountedDown
    decreases |patterns|
  {
    if patterns == [] then CountedDown(subs, counts, [], false)
    else
      var pattern := patterns[0];
      var count := if pattern in counts then counts[pattern] else 0;
      if count == 1 then
        if pattern !in subs then CountedDown(subs, counts - {pattern}, [], true)
        else
          var rest := CountDown(subs - {pattern}, counts - {pattern}, patterns[1..]);
          rest.(gone := [pattern] + rest.gone)
      else CountDown(subs, counts[pattern := count - 1], patterns[1..])
  }

  function ClientUnsubscribe(s: Session, patterns: seq<Text>): Outcome {
    if s.state != Connected then Fail(s, ProtocolError)
    else
      var down := CountDown(s.subscriptions, s.counts, patterns);
      var counted := s.(subscriptions := down.subs, counts := down.counts);
      if down.raised then Fail(counted, KeyMissing)
      else if down.gone == [] then Quiet(counted)
      else
        var id := s.nextId;
        var s' := counted.(nextId := NextId(id));
        if exists pattern :: pattern in down.gone && |pattern| >= 0x1_0000 then Fail(s', Overflow)
        else SendRequest(s', id, UnsubscribePacket(id, down.gone, NO_PROPS), UnsubscribeEntry(down.gone))
  }

  /** The arguments of `connect`. */
  datatype ConnectArgs = ConnectArgs(
    will: Option<Will>,
    username: Option<Text>,
    password: Option<Text>,
    cleanStart: bool,
    keepAlive: int)

  function NewConnect(clientId: Text, a: ConnectArgs): Packet {
    ConnectPacket(clientId, a.will, a.username, a.password, a.cleanStart, a.keepAlive, NO_PROPS)
  }

  function ClientConnect(s: Session, a: ConnectArgs): Outcome {
    if s.state != Disconnected then Fail(s, ProtocolError)
    else if !ConnectFits(NewConnect(s.clientId, a)) then Fail(s, Overflow)
    else Send(s.(state := Connecting), NewConnect(s.clientId, a))
  }

  function ClientDisconnect(s: Session, reason: ReasonCode): Outcome {
    if s.state != Connected then Fail(s, ProtocolError)
    else if reason !in DISCONNECT_CODES then Fail(s, ValueError)
    else Send(s.(state := Disconnected), DisconnectPacket(reason, NO_PROPS))
  }

  function ClientPing(s: Session): Outcome {
    if s.state != Connected then Fail(s, ProtocolError) else Send(s, PingReqPacket)
  }

  // ---------- Calls of the broker's application ----------

  /** The test that `deliver_publish` makes of one subscription. */
  ghost predicate Takes(sub: Subscription, source: Text, clientId: Text, p: Publish) {
    MatchesTopic(sub, p.qos, p.topic) && (!sub.noLocal || source != clientId)
  }

  ghost predicate Accepts(s: Session, source: Text, p: Publish) {
    exists pattern :: pattern in s.subscriptions && Takes(s.subscriptions[pattern], source, s.clientId, p)
  }

  /** `deliver_publish`; it returns True exactly if the session accepts the message. */
  ghost function DeliverPublish(s: Session, source: Text, p: Publish): Outcome {
    if s.state != Connected then Fail(s, ProtocolError)
    else if !Accepts(s, source, p) then Quiet(s)
    else if p.packetId.None? then Send(s, PublishPacket(p))
    else SendRequest(s, p.packetId.value, PublishPacket(p), PublishEntry(p, Unacknowledged))
  }

  function AcknowledgeConnect(s: Session, reason: ReasonCode, sessionPresent: bool): Outcome {
    if s.state != Connecting then Fail(s, ProtocolError)
    else
      var s' := s.(state := if reason == SUCCESS then Connected else Disconnected);
      if reason !in CONNACK_CODES then Fail(s', ValueError)
      else Send(s', ConnAckPacket(reason, sessionPresent, NO_PROPS))
  }

  function Install(subs: Subs, requested: seq<Subscription>, codes: seq<ReasonCode>)
    : Subs
    requires |requested| == |codes|
    decreases |requested|
  {
    if requested == [] then subs
    else
      var subs' := if codes[0] == SUCCESS then subs[requested[0].pattern := requested[0]] else subs;
      Install(subs', requested[1..], codes[1..])
  }

  function AcknowledgeSubscribe(s: Session, id: PacketId, codes: seq<ReasonCode>): Outcome {
    if s.state != Connected || !s.table.Has(id) then Fail(s, ProtocolError)
    else
      var entry := s.table.items[id];
      var popped := s.(table := s.table.Drop(id));
      if !entry.SubscribeEntry? || |codes| != |entry.subscriptions| then Fail(popped, ProtocolError)
      else
        var s' := popped.(subscriptions := Install(s.subscriptions, entry.subscriptions, codes));
        if exists code :: code in codes && code !in SUBACK_CODES then Fail(s', ValueError)
        else Send(s', CodesPacket(SubAck, id, codes, NO_PROPS))
  }
}
