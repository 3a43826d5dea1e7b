/** What every step of a session keeps: the table stays a dictionary of well-formed packets,
    and only packets that can be encoded are sent. */
module SessionFacts {
  import opened Bytes
  import opened Wire
  import opened Properties
  import opened Subscriptions
  import opened Packets
  import opened Range
  import opened Framing
  import opened Sessions

  ghost predicate Distinct<T>(s: seq<T>) {
    forall i, j :: 0 <= i < j < |s| ==> s[i] != s[j]
  }

  ghost predicate EntryValid(id: PacketId, entry: Pending) {
    && (entry.PublishEntry? ==> entry.publish.packetId == Some(id) && PublishOk(entry.publish))
    && (entry.SubscribeEntry? ==> FiltersValid(entry.subscriptions))
  }

  ghost predicate FiltersValid(subs: seq<Subscription>) {
    forall sub :: sub in subs ==> ValidFilter(sub.pattern)
  }

  /** Each subscription stands under its own pattern, which is a valid filter. */
  ghost predicate MapValid(subs: Subs) {
    forall t :: t in subs ==> subs[t].pattern == t && ValidFilter(t)
  }

  ghost predicate TableValid(t: Table) {
    && (forall id :: id in t.order <==> id in t.items)
    && Distinct(t.order)
    && (forall id :: id in t.items ==> EntryValid(id, t.items[id]))
  }

  ghost predicate SessionValid(s: Session) {
    TableValid(s.table) && MapValid(s.subscriptions)
  }

  ghost predicate OutcomeValid(o: Outcome) {
    SessionValid(o.session) && AllOk(o.sent)
  }

  lemma {:induction false} WithoutMeans(order: seq<PacketId>, id: PacketId)
    ensures forall k :: k in Without(order, id) <==> k in order && k != id
    ensures Distinct(order) ==> Distinct(Without(order, id))
  {
    if order != [] {
      WithoutMeans(order[1..], id);
      var tail := Without(order[1..], id);
      assert Distinct(order) ==> Distinct(order[1..]);
      if Distinct(order) && order[0] != id {
        forall j | 0 <= j < |tail| ensures tail[j] != order[0] {
          assert tail[j] in order[1..];
        }
      }
    }
  }

  lemma AddValid(t: Table, id: PacketId, entry: Pending)
    requires TableValid(t) && !t.Has(id) && EntryValid(id, entry)
    ensures TableValid(t.Add(id, entry))
  {
    assert forall i :: 0 <= i < |t.order| ==> t.order[i] in t.order;
  }

  lemma DropValid(t: Table, id: PacketId)
    requires TableValid(t)
    ensures TableValid(t.Drop(id)) && !t.Drop(id).Has(id)
  {
    WithoutMeans(t.order, id);
  }

  lemma AckOk(kind: AckKind, id: PacketId, reason: ReasonCode)
    requires reason in AckCodes(kind)
    ensures PacketOk(Ack(kind, id, reason)) && WireSafe(Ack(kind, id, reason))
  {
  }

  lemma ReplyOk(id: PacketId, entry: Pending)
    ensures PacketOk(CollisionReply(id, entry)) && WireSafe(CollisionReply(id, entry))
  {
  }

  /** Progress of an exchange keeps the entry valid. */
  lemma MarkValid(t: Table, id: PacketId, ack: AckState)
    requires TableValid(t) && t.Has(id) && t.items[id].PublishEntry?
    ensures EntryValid(id, t.items[id].(ack := ack)) && TableValid(t.Set(id, t.items[id].(ack := ack)))
  {
    assert EntryValid(id, t.items[id]);
  }

  /** An acknowledged QoS 2 message goes to the end of the table. */
  lemma ReaddValid(t: Table, id: PacketId)
    requires TableValid(t) && t.Has(id) && t.items[id].PublishEntry?
    ensures TableValid(t.Drop(id).Add(id, t.items[id].(ack := Acknowledged)))
  {
    DropValid(t, id);
    MarkValid(t, id, Acknowledged);
    AddValid(t.Drop(id), id, t.items[id].(ack := Acknowledged));
  }

  /** The table after acknowledging is as before, without the entry, or with it readded. */
  lemma AcknowledgeTables(s: Session, id: PacketId, reason: ReasonCode)
    ensures var o, t := AcknowledgePublish(s, id, reason), s.table;
            && o.session == s.(table := o.session.table)
            && (o.session.table == t || o.session.table == t.Drop(id)
                || (t.Has(id) && t.items[id].PublishEntry?
                    && o.session.table == t.Drop(id).Add(id, t.items[id].(ack := Acknowledged))))
            && (o.sent == [] || (reason in PUBLISH_CODES
                                 && (o.sent == [Ack(PubAck, id, reason)] || o.sent == [Ack(PubRec, id, reason)])))
  {
  }

  lemma AcknowledgeValid(s: Session, id: PacketId, reason: ReasonCode)
    requires SessionValid(s)
    ensures OutcomeValid(AcknowledgePublish(s, id, reason))
  {
    AcknowledgeTables(s, id, reason);
    DropValid(s.table, id);
    if s.table.Has(id) && s.table.items[id].PublishEntry? {
      ReaddValid(s.table, id);
    }
    if reason in PUBLISH_CODES {
      AckOk(PubAck, id, reason);
      AckOk(PubRec, id, reason);
    }
  }

  lemma ReleaseValid(s: Session, id: PacketId, reason: ReasonCode)
    requires SessionValid(s)
    ensures OutcomeValid(ReleasePublish(s, id, reason))
  {
    if s.table.Has(id) && s.table.items[id].PublishEntry? {
      MarkValid(s.table, id, Released);
    }
  }

  lemma CompleteValid(s: Session, id: PacketId, reason: ReasonCode)
    requires SessionValid(s)
    ensures OutcomeValid(CompletePublish(s, id, reason))
  {
    DropValid(s.table, id);
  }

  lemma HandlePublishValid(s: Session, p: Publish)
    requires SessionValid(s) && PublishOk(p)
    ensures OutcomeValid(HandlePublish(s, p))
  {
    if p.packetId.Some? && !s.table.Has(p.packetId.value) {
      var id, entry := p.packetId.value, PublishEntry(p, Unacknowledged);
      AddValid(s.table, id, entry);
      AcknowledgeValid(s.(table := s.table.Add(id, entry)), id, SUCCESS);
    }
  }

  lemma HandlePubRecValid(s: Session, id: PacketId)
    requires SessionValid(s)
    ensures OutcomeValid(HandlePubRec(s, id))
  {
    if s.table.Has(id) && s.table.items[id].PublishEntry? {
      MarkValid(s.table, id, Acknowledged);
      ReleaseValid(s.(table := s.table.Set(id, s.table.items[id].(ack := Acknowledged))), id, SUCCESS);
    } else {
      ReleaseValid(s, id, PACKET_IDENTIFIER_NOT_FOUND);
    }
  }

  lemma HandlePubRelValid(s: Session, id: PacketId)
    requires SessionValid(s)
    ensures OutcomeValid(HandlePubRel(s, id))
  {
    if s.table.Has(id) && s.table.items[id].PublishEntry? {
      MarkValid(s.table, id, Released);
      CompleteValid(s.(table := s.table.Set(id, s.table.items[id].(ack := Released))), id, SUCCESS);
    } else {
      CompleteValid(s, id, PACKET_IDENTIFIER_NOT_FOUND);
    }
  }

  lemma HandleAckValid(s: Session, kind: AckKind, id: PacketId)
    requires SessionValid(s)
    ensures OutcomeValid(HandleAck(s, kind, id))
  {
    match kind
    case PubAck => DropValid(s.table, id);
    case PubRec => HandlePubRecValid(s, id);
    case PubRel => HandlePubRelValid(s, id);
    case PubComp => DropValid(s.table, id);
  }

  lemma {:induction false} OnlyPublishesMeans(t: Table, order: seq<PacketId>)
    ensures forall id :: id in OnlyPublishes(t, order) <==>
                id in order && id in t.items && t.items[id].PublishEntry?
    ensures Distinct(order) ==> Distinct(OnlyPublishes(t, order))
  {
    if order != [] {
      OnlyPublishesMeans(t, order[1..]);
      var tail := OnlyPublishes(t, order[1..]);
      assert Distinct(order) ==> Distinct(order[1..]);
      if Distinct(order) {
        forall j | 0 <= j < |tail| ensures tail[j] != order[0] {
          assert tail[j] in order[1..];
        }
      }
    }
  }

  lemma {:induction false} ResendValid(s: Session, ids: seq<PacketId>)
    requires SessionValid(s)
    ensures OutcomeValid(Resend(s, ids))
    decreases |ids|
  {
    if ids != [] && s.table.Has(ids[0]) && s.table.items[ids[0]].PublishEntry? {
      var entry := s.table.items[ids[0]];
      assert EntryValid(ids[0], entry);
      var p := Duplicate(entry.publish);
      var s' := s.(table := s.table.Set(ids[0], entry.(publish := p)));
      assert PublishOk(p);
      ResendValid(s', ids[1..]);
    }
  }

  lemma ResetValid(s: Session, sessionPresent: bool)
    requires SessionValid(s)
    ensures SessionValid(Reset(s, sessionPresent))
  {
    OnlyPublishesMeans(s.table, s.table.order);
  }

  lemma {:induction false} UnsubscribeCodesOk(subs: Subs, patterns: seq<Text>)
    ensures forall c :: c in UnsubscribeCodes(subs, patterns) ==> c in UNSUBACK_CODES
    decreases |patterns|
  {
    if patterns != [] {
      UnsubscribeCodesOk(subs - {patterns[0]}, patterns[1..]);
    }
  }

  lemma HandleClientValid(s: Session, p: Packet)
    requires SessionValid(s)
    ensures OutcomeValid(HandleClient(s, p))
  {
    match p
    case ConnAckPacket(_, present, _) =>
      var s' := s.(state := Connected);
      ResetValid(s', present);
      ResendValid(Reset(s', present), Reset(s', present).table.order);
    case CodesPacket(_, id, _, _) => DropValid(s.table, id);
    case _ =>
  }

  lemma {:induction false} RemoveAllValid(subs: Subs, patterns: seq<Text>)
    requires MapValid(subs)
    ensures MapValid(RemoveAll(subs, patterns))
    decreases |patterns|
  {
    if patterns != [] {
      RemoveAllValid(subs - {patterns[0]}, patterns[1..]);
    }
  }

  lemma HandleSubscribeValid(s: Session, id: PacketId, subs: seq<Subscription>)
    requires SessionValid(s) && FiltersValid(subs)
    ensures OutcomeValid(HandleSubscribe(s, id, subs))
  {
    ReplyOk(id, SubscribeEntry(subs));
    if !s.table.Has(id) {
      AddValid(s.table, id, SubscribeEntry(subs));
    }
  }

  lemma HandleUnsubscribeValid(s: Session, id: PacketId, patterns: seq<Text>)
    requires SessionValid(s)
    ensures OutcomeValid(HandleUnsubscribe(s, id, patterns))
  {
    ReplyOk(id, UnsubscribeEntry(patterns));
    UnsubscribeCodesOk(s.subscriptions, patterns);
    RemoveAllValid(s.subscriptions, patterns);
    if !s.table.Has(id) {
      AddValid(s.table, id, UnsubscribeEntry(patterns));
    }
  }

  /** The filters of a well-formed SUBSCRIBE are valid. */
  lemma SubscribeFilters(p: Packet)
    requires PacketOk(p) && p.SubscribePacket?
    ensures FiltersValid(p.subscriptions)
  {
    assert forall sub :: sub in p.subscriptions ==> SubscriptionOk(sub);
  }

  lemma HandleBrokerValid(s: Session, p: Packet)
    requires SessionValid(s) && PacketOk(p)
    ensures OutcomeValid(HandleBroker(s, p))
  {
    match p
    case SubscribePacket(id, subs, _) =>
      SubscribeFilters(p);
      HandleSubscribeValid(s, id, subs);
    case UnsubscribePacket(id, patterns, _) => HandleUnsubscribeValid(s, id, patterns);
    case _ =>
  }

  /** Handling any well-formed packet keeps the table valid and sends well-formed packets. */
  lemma HandleValid(s: Session, p: Packet)
    requires SessionValid(s) && PacketOk(p)
    ensures OutcomeValid(HandlePacket(s, p))
  {
    match p
    case PublishPacket(publish) => HandlePublishValid(s, publish);
    case AckPacket(kind, id, _, _) => HandleAckValid(s, kind, id);
    case DisconnectPacket(_, _) =>
    case AuthPacket(_, _) =>
    case _ =>
      HandleClientValid(s, p);
      HandleBrokerValid(s, p);
  }

  lemma SendRequestValid(s: Session, id: PacketId, p: Packet, entry: Pending)
    requires SessionValid(s) && PacketOk(p) && EntryValid(id, entry)
    ensures OutcomeValid(SendRequest(s, id, p, entry))
  {
    ReplyOk(id, entry);
    if !s.table.Has(id) {
      AddValid(s.table, id, entry);
    }
  }

  lemma NewPublishOk(topic: Text, payload: Payload, id: Option<PacketId>, retain: bool, qos: QoS)
    requires TextFits(topic) && (payload.TextPayload? ==> ValidUtf8(payload.text))
    requires qos > AT_MOST_ONCE ==> id.Some?
    ensures var p := NewPublish(topic, payload, id, retain, qos);
            PublishOk(p) && ((id.Some? <==> qos > AT_MOST_ONCE) ==> WireSafe(PublishPacket(p)))
  {
    MarkFits();
  }

  lemma ClientPublishValid(s: Session, topic: Text, payload: Payload, retain: bool, qos: QoS)
    requires SessionValid(s)
    requires ValidUtf8(topic) && (payload.TextPayload? ==> ValidUtf8(payload.text))
    ensures OutcomeValid(ClientPublish(s, topic, payload, retain, qos))
  {
    var id := if qos == AT_MOST_ONCE then None else Some(s.nextId);
    if |topic| < 0x1_0000 {
      NewPublishOk(topic, payload, id, retain, qos);
      var p := NewPublish(topic, payload, id, retain, qos);
      if qos != AT_MOST_ONCE {
        SendRequestValid(s.(nextId := NextId(s.nextId)), s.nextId, PublishPacket(p), PublishEntry(p, Unacknowledged));
      }
    }
  }

  lemma {:induction false} CountUpFresh(subs: Subs, counts: Counts, requested: seq<Subscription>)
    ensures forall sub :: sub in CountUp(subs, counts, requested).2 ==> sub in requested
    decreases |requested|
  {
    if requested != [] {
      var sub := requested[0];
      if sub.pattern in subs {
        var count := (if sub.pattern in counts then counts[sub.pattern] else 0) + 1;
        CountUpFresh(subs, counts[sub.pattern := count], requested[1..]);
      } else {
        CountUpFresh(subs[sub.pattern := sub], counts[sub.pattern := 1], requested[1..]);
      }
    }
  }

  lemma {:induction false} CountDownGone(subs: Subs, counts: Counts, patterns: seq<Text>)
    ensures forall t :: t in CountDown(subs, counts, patterns).gone ==> t in patterns
    decreases |patterns|
  {
    if patterns != [] {
      var pattern := patterns[0];
      var count := if pattern in counts then counts[pattern] else 0;
      if count == 1 {
        CountDownGone(subs - {pattern}, counts - {pattern}, patterns[1..]);
      } else {
        CountDownGone(subs, counts[pattern := count - 1], patterns[1..]);
      }
    }
  }

  lemma {:induction false} CountUpValid(subs: Subs, counts: Counts, requested: seq<Subscription>)
    requires MapValid(subs) && FiltersValid(requested)
    ensures MapValid(CountUp(subs, counts, requested).0)
    decreases |requested|
  {
    if requested != [] {
      var sub := requested[0];
      assert sub in requested;
      if sub.pattern in subs {
        var count := (if sub.pattern in counts then counts[sub.pattern] else 0) + 1;
        CountUpValid(subs, counts[sub.pattern := count], requested[1..]);
      } else {
        CountUpValid(subs[sub.pattern := sub], counts[sub.pattern := 1], requested[1..]);
      }
    }
  }

  lemma {:induction false} CountDownValid(subs: Subs, counts: Counts, patterns: seq<Text>)
    requires MapValid(subs)
    ensures MapValid(CountDown(subs, counts, patterns).subs)
    decreases |patterns|
  {
    if patterns != [] {
      var pattern := patterns[0];
      var count := if pattern in counts then counts[pattern] else 0;
      if count == 1 {
        CountDownValid(subs - {pattern}, counts - {pattern}, patterns[1..]);
      } else {
        CountDownValid(subs, counts[pattern := count - 1], patterns[1..]);
      }
    }
  }

  lemma ClientSubscribeValid(s: Session, requested: seq<Subscription>)
    requires SessionValid(s)
    requires FiltersValid(requested) && forall sub :: sub in requested ==> ValidUtf8(sub.pattern)
    ensures OutcomeValid(ClientSubscribe(s, requested))
  {
    CountUpValid(s.subscriptions, s.counts, requested);
    CountUpFresh(s.subscriptions, s.counts, requested);
    var (subs, counts, fresh') := CountUp(s.subscriptions, s.counts, requested);
    if fresh' != [] && forall sub :: sub in fresh' ==> |sub.pattern| < 0x1_0000 {
      SendRequestValid(s.(subscriptions := subs, counts := counts, nextId := NextId(s.nextId)), s.nextId,
                       SubscribePacket(s.nextId, fresh', NO_PROPS), SubscribeEntry(fresh'));
    }
  }

  lemma ClientUnsubscribeValid(s: Session, patterns: seq<Text>)
    requires SessionValid(s)
    requires forall t :: t in patterns ==> ValidUtf8(t)
    ensures OutcomeValid(ClientUnsubscribe(s, patterns))
  {
    CountDownGone(s.subscriptions, s.counts, patterns);
    CountDownValid(s.subscriptions, s.counts, patterns);
    var down := CountDown(s.subscriptions, s.counts, patterns);
    if down.gone != [] && forall t :: t in down.gone ==> |t| < 0x1_0000 {
      SendRequestValid(s.(subscriptions := down.subs, counts := down.counts, nextId := NextId(s.nextId)), s.nextId,
                       UnsubscribePacket(s.nextId, down.gone, NO_PROPS), UnsubscribeEntry(down.gone));
    }
  }

  lemma DeliverPublishValid(s: Session, source: Text, p: Publish)
    requires SessionValid(s) && PublishOk(p)
    ensures OutcomeValid(DeliverPublish(s, source, p))
  {
    if p.packetId.Some? {
      SendRequestValid(s, p.packetId.value, PublishPacket(p), PublishEntry(p, Unacknowledged));
    }
  }

  lemma {:induction false} InstallValid(subs: Subs, requested: seq<Subscription>, codes: seq<ReasonCode>)
    requires MapValid(subs) && FiltersValid(requested) && |requested| == |codes|
    ensures MapValid(Install(subs, requested, codes))
    decreases |requested|
  {
    if requested != [] {
      assert requested[0] in requested;
      var subs' := if codes[0] == SUCCESS then subs[requested[0].pattern := requested[0]] else subs;
      InstallValid(subs', requested[1..], codes[1..]);
    }
  }

  lemma AcknowledgeSubscribeValid(s: Session, id: PacketId, codes: seq<ReasonCode>)
    requires SessionValid(s)
    ensures OutcomeValid(AcknowledgeSubscribe(s, id, codes))
  {
    DropValid(s.table, id);
    if s.table.Has(id) && s.table.items[id].SubscribeEntry? {
      var requested := s.table.items[id].subscriptions;
      assert EntryValid(id, s.table.items[id]);
      if |codes| == |requested| {
        InstallValid(s.subscriptions, requested, codes);
      }
    }
  }
}
