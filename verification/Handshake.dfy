/** A client and a broker session joined by two first-in first-out channels, and the broker's
    application: the QoS 1 and QoS 2 handshakes (sections 4.3.2 and 4.3.3 of MQTT Version 5.0)
    in every run of the two together. */
module Handshake {
  import opened Bytes
  import opened Properties
  import opened Subscriptions
  import opened Wire
  import opened Packets
  import opened RoundTrip
  import opened Sessions

  // ---------- The joint state and its actions ----------

  /** `up` carries packets to the broker, `down` to the client. The application of the broker
      remembers which surfaced packets it has still to answer. `reserved` are the packet ids it
      uses for its own messages, `spent` the ids the client has used for UNSUBSCRIBE requests.
      The last four fields list the messages that callers have asked to be sent, and those that
      `feed_bytes` has returned. */
  datatype Joint = Joint(
    client: Session,
    broker: Session,
    up: seq<Packet>,
    down: seq<Packet>,
    toAcknowledge: set<PacketId>,
    toRelease: set<PacketId>,
    toComplete: set<PacketId>,
    toGrant: set<PacketId>,
    reserved: set<PacketId>,
    spent: set<PacketId>,
    failed: bool,
    sentUp: seq<Publish>,
    surfacedUp: seq<Publish>,
    sentDown: seq<Publish>,
    surfacedDown: seq<Publish>)

  datatype Action =
    | ClientPublishes(topic: Text, payload: Payload, retain: bool, qos: QoS)
    | ClientSubscribes(requested: seq<Subscription>)
    | ClientUnsubscribes(patterns: seq<Text>)
    | BrokerDelivers(source: Text, publish: Publish)
    | ReceiveUp
    | ReceiveDown
    | AppAcknowledges(id: PacketId, reason: ReasonCode)
    | AppReleases(id: PacketId)
    | AppCompletes(id: PacketId)
    | AppGrants(id: PacketId, codes: seq<ReasonCode>)

  /** A delivery, or an answer that the broker's application owes. */
  predicate IsProgress(a: Action) {
    a.ReceiveUp? || a.ReceiveDown? || a.AppAcknowledges? || a.AppReleases? || a.AppCompletes? || a.AppGrants?
  }

  /** What the session that acts does. Packets arrive as the decoder yields them. */
  ghost function OutcomeOf(j: Joint, a: Action): Outcome
    requires a.ReceiveUp? ==> j.up != []
    requires a.ReceiveDown? ==> j.down != []
  {
    match a
    case ClientPublishes(topic, payload, retain, qos) => ClientPublish(j.client, topic, payload, retain, qos)
    case ClientSubscribes(requested) => ClientSubscribe(j.client, requested)
    case ClientUnsubscribes(patterns) => ClientUnsubscribe(j.client, patterns)
    case BrokerDelivers(source, publish) => DeliverPublish(j.broker, source, publish)
    case ReceiveUp => HandlePacket(j.broker, Settled(j.up[0]))
    case ReceiveDown => HandlePacket(j.client, Settled(j.down[0]))
    case AppAcknowledges(id, reason) => AcknowledgePublish(j.broker, id, reason)
    case AppReleases(id) => ReleasePublish(j.broker, id, SUCCESS)
    case AppCompletes(id) => CompletePublish(j.broker, id, SUCCESS)
    case AppGrants(id, codes) => AcknowledgeSubscribe(j.broker, id, codes)
  }

  /** A packet id the client may use again: free in its own table, not one of the broker's, and
      never used for an UNSUBSCRIBE. */
  ghost predicate Fresh(j: Joint, id: PacketId) {
    !j.client.table.Has(id) && id !in j.reserved && id !in j.spent
  }

  /** An answer to a SUBSCRIBE, with one code for each subscription, and none that reports the
      packet id in use. */
  predicate CodesFor(entry: Option<Pending>, codes: seq<ReasonCode>) {
    && entry.Some? && entry.value.SubscribeEntry? && |codes| == |entry.value.subscriptions|
    && PACKET_IDENTIFIER_IN_USE !in codes
    && forall c :: c in codes ==> c in SUBACK_CODES
  }

  /** Arguments a caller can give, and what the application of the broker does. */
  ghost predicate Enabled(j: Joint, a: Action) {
    match a
    case ClientPublishes(topic, payload, _, _) =>
      TextFits(topic) && (payload.TextPayload? ==> ValidUtf8(payload.text)) && TakesFreshId(j, a)
    case ClientSubscribes(requested) => (forall s :: s in requested ==> SubscriptionOk(s)) && TakesFreshId(j, a)
    case ClientUnsubscribes(patterns) => (forall t :: t in patterns ==> TextFits(t)) && TakesFreshId(j, a)
    case BrokerDelivers(_, p) =>
      && PublishOk(p) && WireSafe(PublishPacket(p))
      && (p.packetId.Some? ==> p.packetId.value in j.reserved && !j.broker.table.Has(p.packetId.value))
    case ReceiveUp => j.up != []
    case ReceiveDown => j.down != []
    case AppAcknowledges(id, reason) =>
      id in j.toAcknowledge && reason in PUBLISH_CODES && reason != PACKET_IDENTIFIER_IN_USE
    case AppReleases(id) => id in j.toRelease
    case AppCompletes(id) => id in j.toComplete
    case AppGrants(id, codes) => id in j.toGrant && CodesFor(j.broker.table.Get(id), codes)
  }

  /** If the call takes a packet id, that id is a fresh one. */
  ghost predicate TakesFreshId(j: Joint, a: Action)
    requires a.ClientPublishes? || a.ClientSubscribes? || a.ClientUnsubscribes?
  {
    OutcomeOf(j, a).session.nextId != j.client.nextId ==> Fresh(j, j.client.nextId)
  }

  function IdOf(p: Packet): Option<PacketId> {
    match p
    case PublishPacket(publish) => publish.packetId
    case AckPacket(_, id, _, _) => Some(id)
    case SubscribePacket(id, _, _) => Some(id)
    case CodesPacket(_, id, _, _) => Some(id)
    case UnsubscribePacket(id, _, _) => Some(id)
    case _ => None
  }

  /** The messages among packets that `feed_bytes` has returned. */
  function MessagesIn(ps: seq<Packet>): seq<Publish> {
    if ps == [] then [] else (if ps[0].PublishPacket? then [ps[0].publish] else []) + MessagesIn(ps[1..])
  }

  /** The messages among some packets in flight, as the receiver will see them. */
  function Messages(ps: seq<Packet>): seq<Publish> {
    if ps == [] then []
    else (if ps[0].PublishPacket? then [SettlePublish(ps[0].publish)] else []) + Messages(ps[1..])
  }

  /** The message that a caller of `publish` asks for, when `next` is the client's next packet id. */
  function MessageOf(a: Action, next: PacketId): Publish
    requires a.ClientPublishes?
  {
    Publish(a.topic, a.payload, if a.qos == 0 then None else Some(next), a.retain, a.qos, false,
            Props(if a.payload.TextPayload? then [(0x01, Number(1))] else [], []))
  }

  /** The message that a caller of `deliver_publish` asks for, if the session takes it. */
  ghost function DeliveryOf(j: Joint, source: Text, p: Publish): seq<Publish> {
    if Accepts(j.broker, source, p) then [SettlePublish(p)] else []
  }

  function UnsubscribeIds(ps: seq<Packet>): set<PacketId> {
    set p | p in ps && p.UnsubscribePacket? :: p.packetId
  }

  function Only(condition: bool, p: Packet): set<PacketId> {
    if condition && IdOf(p).Some? then {IdOf(p).value} else {}
  }

  ghost function Apply(j: Joint, a: Action): Joint
    requires Enabled(j, a)
  {
    var o := OutcomeOf(j, a);
    var failed := j.failed || o.status != Done;
    match a
    case ClientPublishes(_, _, _, _) =>
      j.(client := o.session, up := j.up + o.sent, failed := failed,
         sentUp := j.sentUp + [MessageOf(a, j.client.nextId)])
    case ClientSubscribes(_) => j.(client := o.session, up := j.up + o.sent, failed := failed)
    case ClientUnsubscribes(_) =>
      j.(client := o.session, up := j.up + o.sent, failed := failed, spent := j.spent + UnsubscribeIds(o.sent))
    case BrokerDelivers(source, publish) =>
      j.(broker := o.session, down := j.down + o.sent, failed := failed,
         sentDown := j.sentDown + DeliveryOf(j, source, publish))
    case ReceiveUp =>
      var p := j.up[0];
      j.(broker := o.session, up := j.up[1..], down := j.down + o.sent, failed := failed,
         toAcknowledge := j.toAcknowledge + Only(p.PublishPacket?, p),
         toRelease := j.toRelease + Only(p.AckPacket? && p.kind == PubRec, p),
         toComplete := j.toComplete + Only(p.AckPacket? && p.kind == PubRel, p),
         toGrant := j.toGrant + Only(p.SubscribePacket?, p),
         surfacedUp := j.surfacedUp + MessagesIn(Returned([Settled(p)], o.status != Done)))
    case ReceiveDown =>
      j.(client := o.session, down := j.down[1..], up := j.up + o.sent, failed := failed,
         surfacedDown := j.surfacedDown + MessagesIn(Returned([Settled(j.down[0])], o.status != Done)))
    case AppAcknowledges(id, _) =>
      j.(broker := o.session, down := j.down + o.sent, failed := failed, toAcknowledge := j.toAcknowledge - {id})
    case AppReleases(id) =>
      j.(broker := o.session, down := j.down + o.sent, failed := failed, toRelease := j.toRelease - {id})
    case AppCompletes(id) =>
      j.(broker := o.session, down := j.down + o.sent, failed := failed, toComplete := j.toComplete - {id})
    case AppGrants(id, _) =>
      j.(broker := o.session, down := j.down + o.sent, failed := failed, toGrant := j.toGrant - {id})
  }

  // ---------- The phases of one packet id ----------

  function OnId(ps: seq<Packet>, id: PacketId): seq<Packet> {
    if ps == [] then []
    else (if IdOf(ps[0]) == Some(id) then [ps[0]] else []) + OnId(ps[1..], id)
  }

  /** Everything about one packet id. */
  datatype Slot = Slot(
    client: Option<Pending>,
    broker: Option<Pending>,
    up: seq<Packet>,
    down: seq<Packet>,
    toAcknowledge: bool,
    toRelease: bool,
    toComplete: bool,
    toGrant: bool)

  function SlotOf(j: Joint, id: PacketId): Slot {
    Slot(j.client.table.Get(id), j.broker.table.Get(id), OnId(j.up, id), OnId(j.down, id),
         id in j.toAcknowledge, id in j.toRelease, id in j.toComplete, id in j.toGrant)
  }

  /** The phases of an exchange. `U` and `V` are the client's QoS 1 and QoS 2 messages, `D` and
      `E` the broker's, `S` and `N` the client's SUBSCRIBE and UNSUBSCRIBE requests. */
  datatype Phase =
    | Free
    | U1 | U2 | U3
    | V1 | V2 | V3 | V4 | V5 | V6
    | S1 | S2 | S3
    | N1 | N2 | N3
    | D1 | D2
    | E1 | E2 | E3 | E4 | E5

  predicate Holds(entry: Option<Pending>, qos: QoS, ack: AckState) {
    entry.Some? && entry.value.PublishEntry? && entry.value.publish.qos == qos && entry.value.ack == ack
  }

  predicate Message(ps: seq<Packet>, qos: QoS) {
    |ps| == 1 && ps[0].PublishPacket? && ps[0].publish.qos == qos
  }

  /** One acknowledgement, and not one that reports a packet id in use. */
  predicate Reply(ps: seq<Packet>, kind: AckKind) {
    |ps| == 1 && ps[0].AckPacket? && ps[0].kind == kind && ps[0].reason != PACKET_IDENTIFIER_IN_USE
  }

  predicate Codes(ps: seq<Packet>, kind: CodesKind) {
    |ps| == 1 && ps[0].CodesPacket? && ps[0].codesKind == kind && PACKET_IDENTIFIER_IN_USE !in ps[0].reasonCodes
  }

  predicate Subscribing(entry: Option<Pending>) {
    entry.Some? && entry.value.SubscribeEntry?
  }

  predicate Unsubscribing(entry: Option<Pending>) {
    entry.Some? && entry.value.UnsubscribeEntry?
  }

  predicate NoDuty(s: Slot) {
    !s.toAcknowledge && !s.toRelease && !s.toComplete && !s.toGrant
  }

  predicate InPhase(s: Slot, phase: Phase) {
    match phase
    case Free => s.client.None? && s.broker.None? && s.up == [] && s.down == [] && NoDuty(s)
    case U1 => Holds(s.client, 1, Unacknowledged) && s.broker.None? && Message(s.up, 1) && s.down == [] && NoDuty(s)
    case U2 =>
      && Holds(s.client, 1, Unacknowledged) && Holds(s.broker, 1, Unacknowledged) && s.up == [] && s.down == []
      && s.toAcknowledge && NoDuty(s.(toAcknowledge := false))
    case U3 => Holds(s.client, 1, Unacknowledged) && s.broker.None? && s.up == [] && Reply(s.down, PubAck) && NoDuty(s)
    case V1 => Holds(s.client, 2, Unacknowledged) && s.broker.None? && Message(s.up, 2) && s.down == [] && NoDuty(s)
    case V2 =>
      && Holds(s.client, 2, Unacknowledged) && Holds(s.broker, 2, Unacknowledged) && s.up == [] && s.down == []
      && s.toAcknowledge && NoDuty(s.(toAcknowledge := false))
    case V3 =>
      && Holds(s.client, 2, Unacknowledged) && Holds(s.broker, 2, Acknowledged)
      && s.up == [] && Reply(s.down, PubRec) && NoDuty(s)
    case V4 =>
      && Holds(s.client, 2, Released) && Holds(s.broker, 2, Acknowledged)
      && Reply(s.up, PubRel) && s.down == [] && NoDuty(s)
    case V5 =>
      && Holds(s.client, 2, Released) && Holds(s.broker, 2, Released) && s.up == [] && s.down == []
      && s.toComplete && NoDuty(s.(toComplete := false))
    case V6 => Holds(s.client, 2, Released) && s.broker.None? && s.up == [] && Reply(s.down, PubComp) && NoDuty(s)
    case S1 =>
      && Subscribing(s.client) && s.broker.None? && |s.up| == 1 && s.up[0].SubscribePacket?
      && s.down == [] && NoDuty(s)
    case S2 =>
      && Subscribing(s.client) && Subscribing(s.broker) && s.up == [] && s.down == []
      && s.toGrant && NoDuty(s.(toGrant := false))
    case S3 => Subscribing(s.client) && s.broker.None? && s.up == [] && Codes(s.down, SubAck) && NoDuty(s)
    case N1 =>
      && Unsubscribing(s.client) && s.broker.None? && |s.up| == 1 && s.up[0].UnsubscribePacket?
      && s.down == [] && NoDuty(s)
    case N2 =>
      Unsubscribing(s.client) && Unsubscribing(s.broker) && s.up == [] && Codes(s.down, UnsubAck) && NoDuty(s)
    case N3 => s.client.None? && Unsubscribing(s.broker) && s.up == [] && s.down == [] && NoDuty(s)
    case D1 => s.client.None? && Holds(s.broker, 1, Unacknowledged) && s.up == [] && Message(s.down, 1) && NoDuty(s)
    case D2 => s.client.None? && Holds(s.broker, 1, Unacknowledged) && Reply(s.up, PubAck) && s.down == [] && NoDuty(s)
    case E1 => s.client.None? && Holds(s.broker, 2, Unacknowledged) && s.up == [] && Message(s.down, 2) && NoDuty(s)
    case E2 =>
      && Holds(s.client, 2, Acknowledged) && Holds(s.broker, 2, Unacknowledged)
      && Reply(s.up, PubRec) && s.down == [] && NoDuty(s)
    case E3 =>
      && Holds(s.client, 2, Acknowledged) && Holds(s.broker, 2, Acknowledged) && s.up == [] && s.down == []
      && s.toRelease && NoDuty(s.(toRelease := false))
    case E4 =>
      && Holds(s.client, 2, Acknowledged) && Holds(s.broker, 2, Released)
      && s.up == [] && Reply(s.down, PubRel) && NoDuty(s)
    case E5 => s.client.None? && Holds(s.broker, 2, Released) && Reply(s.up, PubComp) && s.down == [] && NoDuty(s)
  }

  /** Broker-side exchanges use reserved ids, UNSUBSCRIBE exchanges spent ones, and no other
      exchange does. */
  predicate Owned(phase: Phase, reserved: bool, spent: bool) {
    match phase
    case Free => !spent
    case N1 => spent && !reserved
    case N2 => spent && !reserved
    case N3 => spent && !reserved
    case D1 => reserved && !spent
    case D2 => reserved && !spent
    case E1 => reserved && !spent
    case E2 => reserved && !spent
    case E3 => reserved && !spent
    case E4 => reserved && !spent
    case E5 => reserved && !spent
    case _ => !reserved && !spent
  }

  ghost predicate Legal(j: Joint, id: PacketId) {
    exists phase :: InPhase(SlotOf(j, id), phase) && Owned(phase, id in j.reserved, id in j.spent)
  }

  // ---------- The invariant ----------

  /** Packets in flight are well formed, safe for the wire, and carry a packet id unless they
      are QoS 0 messages. */
  ghost predicate InFlightOk(ps: seq<Packet>) {
    forall p :: p in ps ==> PacketOk(p) && WireSafe(p) && (IdOf(p).Some? || p.PublishPacket?)
  }

  /** Exactly the patterns counted at least once have a subscription, so `unsubscribe` finds
      what it deletes. */
  ghost predicate CountsAgree(subs: Subs, counts: Counts) {
    && (forall t :: t in counts && counts[t] >= 1 ==> t in subs)
    && (forall t :: t in subs ==> t in counts && counts[t] >= 1)
  }

  ghost predicate SessionsOk(j: Joint) {
    && j.client.role == ClientRole && j.client.state == Connected
    && j.broker.role == BrokerRole && j.broker.state == Connected
    && j.client.nextId != 0 && 0 !in j.reserved
    && CountsAgree(j.client.subscriptions, j.client.counts)
  }

  ghost predicate Inv(j: Joint) {
    && !j.failed
    && SessionsOk(j)
    && InFlightOk(j.up) && InFlightOk(j.down)
    && (forall id: PacketId :: Legal(j, id))
    && j.sentUp == j.surfacedUp + Messages(j.up)
    && j.sentDown == j.surfacedDown + Messages(j.down)
  }

  /** Just connected: empty tables, channels and application. */
  ghost predicate Initial(j: Joint) {
    && SessionsOk(j)
    && !j.failed
    && j.client.table == j.broker.table == Table(map[], [])
    && j.up == j.down == []
    && j.toAcknowledge == j.toRelease == j.toComplete == j.toGrant == j.spent == {}
    && j.sentUp == j.surfacedUp == j.sentDown == j.surfacedDown == []
  }

  lemma InitialInv(j: Joint)
    requires Initial(j)
    ensures Inv(j)
  {
    forall id: PacketId ensures Legal(j, id) {
      assert InPhase(SlotOf(j, id), Free);
    }
  }

  // ---------- Work left ----------

  /** Steps still owed because of a packet in flight. */
  function Weight(p: Packet): nat {
    match p
    case PublishPacket(publish) => if publish.packetId.Some? then 7 else 1
    case AckPacket(kind, _, _, _) =>
      (match kind case PubAck => 1 case PubRec => 5 case PubRel => 3 case PubComp => 1)
    case SubscribePacket(_, _, _) => 3
    case UnsubscribePacket(_, _, _) => 2
    case _ => 1
  }

  /** Steps owed by the application once it has seen a packet. */
  function Duty(p: Packet): nat {
    match p
    case PublishPacket(publish) => if publish.packetId.Some? then 6 else 0
    case AckPacket(kind, _, _, _) => if kind == PubRec then 4 else if kind == PubRel then 2 else 0
    case SubscribePacket(_, _, _) => 2
    case _ => 0
  }

  function Weigh(ps: seq<Packet>): nat {
    if ps == [] then 0 else Weight(ps[0]) + Weigh(ps[1..])
  }

  function Rank(j: Joint): nat {
    Weigh(j.up) + Weigh(j.down)
    + 6 * |j.toAcknowledge| + 4 * |j.toRelease| + 2 * |j.toComplete| + 2 * |j.toGrant|
  }

  // ---------- Channels seen through one packet id ----------

  lemma {:induction false} OnIdAppend(a: seq<Packet>, b: seq<Packet>, id: PacketId)
    ensures OnId(a + b, id) == OnId(a, id) + OnId(b, id)
  {
    if a == [] {
      assert a + b == b && OnId(a, id) + OnId(b, id) == OnId(b, id);
    } else {
      var head := if IdOf(a[0]) == Some(id) then [a[0]] else [];
      assert (a + b)[1..] == a[1..] + b;
      OnIdAppend(a[1..], b, id);
      Assoc(head, OnId(a[1..], id), OnId(b, id));
    }
  }

  lemma {:induction false} OnIdHas(ps: seq<Packet>, p: Packet, id: PacketId)
    requires p in ps && IdOf(p) == Some(id)
    ensures p in OnId(ps, id)
  {
    if ps[0] != p {
      OnIdHas(ps[1..], p, id);
    }
  }

  lemma {:induction false} MessagesAppend(a: seq<Packet>, b: seq<Packet>)
    ensures Messages(a + b) == Messages(a) + Messages(b)
  {
    if a == [] {
      assert a + b == b && Messages(a) + Messages(b) == Messages(b);
    } else {
      assert (a + b)[1..] == a[1..] + b;
      MessagesAppend(a[1..], b);
      Assoc(Messages([a[0]]), Messages(a[1..]), Messages(b));
    }
  }

  lemma ChannelsAt(ps: seq<Packet>, sent: seq<Packet>)
    ensures forall id: PacketId :: OnId(ps + sent, id) == OnId(ps, id) + OnId(sent, id)
    ensures Messages(ps + sent) == Messages(ps) + Messages(sent)
  {
    forall id: PacketId ensures OnId(ps + sent, id) == OnId(ps, id) + OnId(sent, id) {
      OnIdAppend(ps, sent, id);
    }
    MessagesAppend(ps, sent);
  }
}
