/** Every action keeps the invariant of the joint state. */
module HandshakeSteps {
  import opened Bytes
  import opened Properties
  import opened Subscriptions
  import opened Wire
  import opened Packets
  import opened Decoding
  import opened RoundTrip
  import opened Sessions
  import opened SessionFacts
  import opened Handshake

  // ---------- One packet id at a time ----------

  ghost predicate LegalAll(j: Joint) {
    forall id: PacketId :: Legal(j, id)
  }

  /** Nothing has changed for packet ids other than `k`. */
  ghost predicate Elsewhere(j: Joint, after: Joint, k: PacketId) {
    && after.reserved == j.reserved
    && forall id: PacketId :: id != k ==>
         SlotOf(after, id) == SlotOf(j, id) && (id in after.spent <==> id in j.spent)
  }

  lemma MoveTo(j: Joint, after: Joint, k: PacketId, phase: Phase)
    requires LegalAll(j) && Elsewhere(j, after, k)
    requires InPhase(SlotOf(after, k), phase) && Owned(phase, k in j.reserved, k in after.spent)
    ensures LegalAll(after)
  {
    forall id: PacketId ensures Legal(after, id) {
      if id != k {
        assert Legal(j, id);
      }
    }
  }

  lemma SameSlots(j: Joint, after: Joint)
    requires LegalAll(j) && after.reserved == j.reserved && after.spent == j.spent
    requires forall id: PacketId :: SlotOf(after, id) == SlotOf(j, id)
    ensures LegalAll(after)
  {
    forall id: PacketId ensures Legal(after, id) {
      assert Legal(j, id);
    }
  }

  lemma OnIdOne(p: Packet)
    ensures forall id: PacketId :: OnId([p], id) == if IdOf(p) == Some(id) then [p] else []
  {
  }

  /** Taking the first packet off a channel. */
  lemma ChannelTail(ps: seq<Packet>)
    requires ps != []
    ensures forall id: PacketId :: OnId(ps, id) == (if IdOf(ps[0]) == Some(id) then [ps[0]] else []) + OnId(ps[1..], id)
    ensures forall id: PacketId :: IdOf(ps[0]) != Some(id) ==> OnId(ps, id) == OnId(ps[1..], id)
    ensures Messages(ps) == Messages([ps[0]]) + Messages(ps[1..])
    ensures InFlightOk(ps) ==> InFlightOk(ps[1..]) && PacketOk(ps[0]) && WireSafe(ps[0])
  {
    assert [ps[0]][1..] == [];
  }

  /** Putting at most one packet on a channel. */
  lemma ChannelGrows(ps: seq<Packet>, sent: seq<Packet>, k: PacketId)
    requires |sent| == 0 || (|sent| == 1 && IdOf(sent[0]) == Some(k))
    ensures forall id: PacketId :: id != k ==> OnId(ps + sent, id) == OnId(ps, id)
    ensures OnId(ps + sent, k) == OnId(ps, k) + sent
    ensures Messages(ps + sent) == Messages(ps) + Messages(sent)
  {
    ChannelsAt(ps, sent);
    if sent != [] {
      OnIdOne(sent[0]);
      assert sent == [sent[0]];
    }
  }

  lemma SettledId(p: Packet)
    ensures IdOf(Settled(p)) == IdOf(p) && TypeOf(Settled(p)) == TypeOf(p)
  {
  }

  // ---------- The client's calls ----------

  /** A packet id that is fresh for the client is free everywhere. */
  lemma FreshSlot(j: Joint, id: PacketId)
    requires LegalAll(j) && Fresh(j, id)
    ensures SlotOf(j, id) == Slot(None, None, [], [], false, false, false, false)
  {
    assert Legal(j, id);
  }

  /** A request goes out under a fresh packet id. */
  lemma ClientSends(j: Joint, after: Joint, id: PacketId, p: Packet, entry: Pending, phase: Phase)
    requires LegalAll(j) && Fresh(j, id)
    requires IdOf(p) == Some(id)
    requires after.client.table == j.client.table.Add(id, entry) && after.up == j.up + [p]
    requires after == j.(client := after.client, up := after.up, spent := after.spent,
                         sentUp := after.sentUp, failed := after.failed)
    requires forall k :: k != id ==> (k in after.spent <==> k in j.spent)
    requires InPhase(Slot(Some(entry), None, [p], [], false, false, false, false), phase)
    requires Owned(phase, false, id in after.spent)
    ensures LegalAll(after)
    ensures Messages(after.up) == Messages(j.up) + Messages([p])
  {
    FreshSlot(j, id);
    ChannelGrows(j.up, [p], id);
    assert [] + [p] == [p];
    assert SlotOf(after, id) == Slot(Some(entry), None, [p], [], false, false, false, false);
    MoveTo(j, after, id, phase);
  }

  lemma InFlightMore(ps: seq<Packet>, p: Packet)
    requires InFlightOk(ps) && PacketOk(p) && WireSafe(p) && (IdOf(p).Some? || p.PublishPacket?)
    ensures InFlightOk(ps + [p])
  {
  }

  lemma NextIdPositive(id: PacketId)
    requires id != 0
    ensures NextId(id) != 0 && NextId(id) != id
  {
  }

  /** What a call of the client establishes that puts one packet on the way up. */
  lemma ClientCalls(j: Joint, after: Joint, p: Packet)
    requires Inv(j) && LegalAll(after) && SessionsOk(after) && PacketOk(p) && WireSafe(p)
    requires IdOf(p).Some? || p.PublishPacket?
    requires after == j.(client := after.client, up := j.up + [p], spent := after.spent,
                         sentUp := j.sentUp + Messages([p]))
    ensures Inv(after)
  {
    InFlightMore(j.up, p);
    MessagesAppend(j.up, [p]);
    Assoc(j.surfacedUp, Messages(j.up), Messages([p]));
  }

  lemma RequestCalls(j: Joint, after: Joint, p: Packet)
    requires Inv(j) && LegalAll(after) && SessionsOk(after) && PacketOk(p) && WireSafe(p)
    requires p.SubscribePacket? || p.UnsubscribePacket?
    requires after == j.(client := after.client, up := j.up + [p], spent := after.spent)
    ensures Inv(after)
  {
    assert j.sentUp + Messages([p]) == j.sentUp;
    ClientCalls(j, after, p);
  }

  lemma NothingElse(known: seq<Entry>)
    requires known == [] || known == [MARK]
    ensures Remove(known, PAYLOAD_FORMAT_INDICATOR) == []
  {
    if known != [] {
      assert known[1..] == [];
    }
  }

  /** What goes out is what the caller asks for, and the receiver will see it unchanged. */
  lemma AskedFor(a: Action, next: PacketId)
    requires a.ClientPublishes?
    ensures var id := if a.qos == 0 then None else Some(next);
            Messages([PublishPacket(NewPublish(a.topic, a.payload, id, a.retain, a.qos))]) == [MessageOf(a, next)]
  {
    var id := if a.qos == 0 then None else Some(next);
    var p := NewPublish(a.topic, a.payload, id, a.retain, a.qos);
    NothingElse(p.props.known);
    assert SettlePublish(p) == MessageOf(a, next);
    assert [PublishPacket(p)][1..] == [];
  }

  lemma PublishPlain(j: Joint, a: Action)
    requires Inv(j) && a.ClientPublishes? && a.qos == AT_MOST_ONCE && Enabled(j, a)
    ensures Inv(Apply(j, a))
  {
    var p := PublishPacket(NewPublish(a.topic, a.payload, None, a.retain, a.qos));
    NewPublishOk(a.topic, a.payload, None, a.retain, a.qos);
    AskedFor(a, j.client.nextId);
    ChannelsAt(j.up, [p]);
    OnIdOne(p);
    SameSlots(j, Apply(j, a));
    ClientCalls(j, Apply(j, a), p);
  }

  lemma PublishStep(j: Joint, a: Action)
    requires Inv(j) && a.ClientPublishes? && Enabled(j, a)
    ensures Inv(Apply(j, a))
  {
    if a.qos == AT_MOST_ONCE {
      PublishPlain(j, a);
    } else {
      var after, id := Apply(j, a), j.client.nextId;
      var p := NewPublish(a.topic, a.payload, Some(id), a.retain, a.qos);
      NewPublishOk(a.topic, a.payload, Some(id), a.retain, a.qos);
      NextIdPositive(id);
      AskedFor(a, id);
      ClientSends(j, after, id, PublishPacket(p), PublishEntry(p, Unacknowledged), if a.qos == 1 then U1 else V1);
      ClientCalls(j, after, PublishPacket(p));
    }
  }

  // ---------- Counting keeps `CountsAgree` ----------

  lemma {:induction false} CountUpOk(subs: Subs, counts: Counts, requested: seq<Subscription>)
    requires CountsAgree(subs, counts)
    ensures CountsAgree(CountUp(subs, counts, requested).0, CountUp(subs, counts, requested).1)
    decreases |requested|
  {
    if requested != [] {
      var sub := requested[0];
      if sub.pattern in subs {
        var count := (if sub.pattern in counts then counts[sub.pattern] else 0) + 1;
        CountUpOk(subs, counts[sub.pattern := count], requested[1..]);
      } else {
        CountUpOk(subs[sub.pattern := sub], counts[sub.pattern := 1], requested[1..]);
      }
    }
  }

  lemma {:induction false} CountDownOk(subs: Subs, counts: Counts, patterns: seq<Text>)
    requires CountsAgree(subs, counts)
    ensures var r := CountDown(subs, counts, patterns); !r.raised && CountsAgree(r.subs, r.counts)
    decreases |patterns|
  {
    if patterns != [] {
      var t := patterns[0];
      var count := if t in counts then counts[t] else 0;
      if count == 1 {
        CountDownOk(subs - {t}, counts - {t}, patterns[1..]);
      } else {
        CountDownOk(subs, counts[t := count - 1], patterns[1..]);
      }
    }
  }

  /** A call that changes nothing but the client's maps. */
  lemma CountsOnly(j: Joint, after: Joint)
    requires Inv(j) && CountsAgree(after.client.subscriptions, after.client.counts)
    requires after == j.(client := j.client.(subscriptions := after.client.subscriptions,
                                             counts := after.client.counts))
    ensures Inv(after)
  {
    SameSlots(j, after);
  }

  lemma SubscribeFine(requested: seq<Subscription>, new': seq<Subscription>, id: PacketId)
    requires new' != [] && forall s :: s in new' ==> s in requested
    requires forall s :: s in requested ==> SubscriptionOk(s)
    ensures PacketOk(SubscribePacket(id, new', NO_PROPS)) && WireSafe(SubscribePacket(id, new', NO_PROPS))
    ensures forall s :: s in new' ==> |s.pattern| < 0x1_0000
  {
    forall s | s in new' ensures SubscriptionOk(s) {
    }
  }

  lemma SubscribeStep(j: Joint, a: Action)
    requires Inv(j) && a.ClientSubscribes? && Enabled(j, a)
    ensures Inv(Apply(j, a))
  {
    var after := Apply(j, a);
    var (subs, counts, new') := CountUp(j.client.subscriptions, j.client.counts, a.requested);
    CountUpOk(j.client.subscriptions, j.client.counts, a.requested);
    CountUpFresh(j.client.subscriptions, j.client.counts, a.requested);
    if new' == [] {
      assert j.up + [] == j.up;
      CountsOnly(j, after);
    } else {
      var id := j.client.nextId;
      var p := SubscribePacket(id, new', NO_PROPS);
      NextIdPositive(id);
      SubscribeFine(a.requested, new', id);
      ClientSends(j, after, id, p, SubscribeEntry(new'), S1);
      RequestCalls(j, after, p);
    }
  }

  lemma UnsubscribeFine(patterns: seq<Text>, gone: seq<Text>, id: PacketId)
    requires gone != [] && (forall t :: t in patterns ==> TextFits(t)) && forall t :: t in gone ==> t in patterns
    ensures PacketOk(UnsubscribePacket(id, gone, NO_PROPS)) && WireSafe(UnsubscribePacket(id, gone, NO_PROPS))
  {
  }

  lemma OneUnsubscribe(p: Packet)
    requires p.UnsubscribePacket?
    ensures UnsubscribeIds([p]) == {p.packetId}
  {
    assert p in [p];
  }

  lemma UnsubscribeStep(j: Joint, a: Action)
    requires Inv(j) && a.ClientUnsubscribes? && Enabled(j, a)
    ensures Inv(Apply(j, a))
  {
    var after := Apply(j, a);
    var down := CountDown(j.client.subscriptions, j.client.counts, a.patterns);
    CountDownOk(j.client.subscriptions, j.client.counts, a.patterns);
    CountDownGone(j.client.subscriptions, j.client.counts, a.patterns);
    if down.gone == [] {
      assert j.up + [] == j.up;
      CountsOnly(j, after);
    } else {
      var id := j.client.nextId;
      var p := UnsubscribePacket(id, down.gone, NO_PROPS);
      NextIdPositive(id);
      UnsubscribeFine(a.patterns, down.gone, id);
      OneUnsubscribe(p);
      ClientSends(j, after, id, p, UnsubscribeEntry(down.gone), N1);
      RequestCalls(j, after, p);
    }
  }

  // ---------- The broker's messages ----------

  /** A message goes out under a reserved packet id that is free at the broker. */
  lemma BrokerSends(j: Joint, after: Joint, id: PacketId, p: Packet, entry: Pending, phase: Phase)
    requires LegalAll(j) && id in j.reserved && !j.broker.table.Has(id)
    requires IdOf(p) == Some(id)
    requires after.broker.table == j.broker.table.Add(id, entry) && after.down == j.down + [p]
    requires after == j.(broker := after.broker, down := after.down, sentDown := after.sentDown, failed := after.failed)
    requires InPhase(Slot(None, Some(entry), [], [p], false, false, false, false), phase)
    requires Owned(phase, true, false)
    ensures LegalAll(after)
  {
    assert Legal(j, id);
    ChannelGrows(j.down, [p], id);
    assert [] + [p] == [p];
    MoveTo(j, after, id, phase);
  }

  /** What a delivery of the broker establishes that puts a message on the way down. */
  lemma BrokerCalls(j: Joint, after: Joint, p: Packet)
    requires Inv(j) && LegalAll(after) && SessionsOk(after) && PacketOk(p) && WireSafe(p) && p.PublishPacket?
    requires after == j.(broker := after.broker, down := j.down + [p], sentDown := j.sentDown + Messages([p]))
    ensures Inv(after)
  {
    InFlightMore(j.down, p);
    MessagesAppend(j.down, [p]);
    Assoc(j.surfacedDown, Messages(j.down), Messages([p]));
  }

  lemma OneMessage(p: Publish)
    ensures Messages([PublishPacket(p)]) == [SettlePublish(p)]
  {
    assert [PublishPacket(p)][1..] == [];
  }

  lemma DeliverPlain(j: Joint, a: Action)
    requires Inv(j) && a.BrokerDelivers? && Enabled(j, a)
    requires Accepts(j.broker, a.source, a.publish) && a.publish.packetId.None?
    ensures Inv(Apply(j, a))
  {
    var p := PublishPacket(a.publish);
    OneMessage(a.publish);
    ChannelsAt(j.down, [p]);
    OnIdOne(p);
    SameSlots(j, Apply(j, a));
    BrokerCalls(j, Apply(j, a), p);
  }

  lemma DeliverStep(j: Joint, a: Action)
    requires Inv(j) && a.BrokerDelivers? && Enabled(j, a)
    ensures Inv(Apply(j, a))
  {
    if !Accepts(j.broker, a.source, a.publish) {
      assert j.down + [] == j.down && j.sentDown + [] == j.sentDown;
      assert Apply(j, a) == j;
    } else if a.publish.packetId.None? {
      DeliverPlain(j, a);
    } else {
      OneMessage(a.publish);
      BrokerSends(j, Apply(j, a), a.publish.packetId.value, PublishPacket(a.publish),
                  PublishEntry(a.publish, Unacknowledged), if a.publish.qos == 1 then D1 else E1);
      BrokerCalls(j, Apply(j, a), PublishPacket(a.publish));
    }
  }

  // ---------- Deliveries and answers ----------

  ghost predicate TablesElsewhere(a: Table, b: Table, k: PacketId) {
    forall id: PacketId :: id != k ==> a.Get(id) == b.Get(id)
  }

  ghost predicate DutiesElsewhere(j: Joint, after: Joint, k: PacketId) {
    forall id: PacketId :: id != k ==>
      && (id in after.toAcknowledge <==> id in j.toAcknowledge)
      && (id in after.toRelease <==> id in j.toRelease)
      && (id in after.toComplete <==> id in j.toComplete)
      && (id in after.toGrant <==> id in j.toGrant)
  }

  /** A reply that an engine or the application puts on a channel. */
  ghost predicate ReplyFor(sent: seq<Packet>, k: PacketId) {
    |sent| == 0
    || (|sent| == 1 && IdOf(sent[0]) == Some(k) && !sent[0].PublishPacket? && PacketOk(sent[0]) && WireSafe(sent[0]))
  }

  ghost predicate SameIds(j: Joint, after: Joint) {
    after.reserved == j.reserved && after.spent == j.spent
  }

  /** The first packet on the way up is handled under its packet id, perhaps with a reply. */
  lemma UpMoves(j: Joint, after: Joint, k: PacketId, sent: seq<Packet>, phase: Phase)
    requires LegalAll(j) && j.up != [] && IdOf(j.up[0]) == Some(k) && |OnId(j.up, k)| == 1
    requires SameIds(j, after) && after.client == j.client
    requires after.up == j.up[1..] && after.down == j.down + sent && ReplyFor(sent, k)
    requires TablesElsewhere(j.broker.table, after.broker.table, k) && DutiesElsewhere(j, after, k)
    requires InPhase(SlotOf(after, k).(up := [], down := OnId(j.down, k) + sent), phase)
    requires Owned(phase, k in j.reserved, k in j.spent)
    ensures LegalAll(after)
  {
    ChannelTail(j.up);
    ChannelGrows(j.down, sent, k);
    assert OnId(after.up, k) == [];
    MoveTo(j, after, k, phase);
  }

  lemma DownMoves(j: Joint, after: Joint, k: PacketId, sent: seq<Packet>, phase: Phase)
    requires LegalAll(j) && j.down != [] && IdOf(j.down[0]) == Some(k) && |OnId(j.down, k)| == 1
    requires SameIds(j, after) && after.broker == j.broker
    requires after.down == j.down[1..] && after.up == j.up + sent && ReplyFor(sent, k)
    requires TablesElsewhere(j.client.table, after.client.table, k) && DutiesElsewhere(j, after, k)
    requires InPhase(SlotOf(after, k).(down := [], up := OnId(j.up, k) + sent), phase)
    requires Owned(phase, k in j.reserved, k in j.spent)
    ensures LegalAll(after)
  {
    ChannelTail(j.down);
    ChannelGrows(j.up, sent, k);
    assert OnId(after.down, k) == [];
    MoveTo(j, after, k, phase);
  }

  /** The application of the broker answers under a packet id. */
  lemma AppMoves(j: Joint, after: Joint, k: PacketId, sent: seq<Packet>, phase: Phase)
    requires LegalAll(j)
    requires SameIds(j, after) && after.client == j.client
    requires after.up == j.up && after.down == j.down + sent && ReplyFor(sent, k)
    requires TablesElsewhere(j.broker.table, after.broker.table, k) && DutiesElsewhere(j, after, k)
    requires InPhase(SlotOf(after, k).(down := OnId(j.down, k) + sent), phase)
    requires Owned(phase, k in j.reserved, k in j.spent)
    ensures LegalAll(after)
  {
    ChannelGrows(j.down, sent, k);
    MoveTo(j, after, k, phase);
  }

  /** What replies leave alone in the rest of the invariant. */
  lemma ReplyKeeps(ps: seq<Packet>, sent: seq<Packet>, k: PacketId)
    requires InFlightOk(ps) && ReplyFor(sent, k)
    ensures InFlightOk(ps + sent) && Messages(ps + sent) == Messages(ps)
  {
    MessagesAppend(ps, sent);
    assert Messages(sent) == [];
    assert Messages(ps) + [] == Messages(ps);
  }

  lemma TailKeeps(ps: seq<Packet>, all: seq<Publish>, before: seq<Publish>)
    requires ps != [] && InFlightOk(ps) && all == before + Messages(ps)
    ensures InFlightOk(ps[1..]) && PacketOk(ps[0]) && WireSafe(ps[0])
    ensures all == before + Messages([ps[0]]) + Messages(ps[1..])
  {
    ChannelTail(ps);
    Assoc(before, Messages([ps[0]]), Messages(ps[1..]));
  }

  /** The phase of a packet id, and the one packet of it on the way up or down. */
  lemma PhaseUp(j: Joint) returns (k: PacketId, phase: Phase)
    requires LegalAll(j) && j.up != [] && IdOf(j.up[0]).Some?
    ensures IdOf(j.up[0]) == Some(k) && OnId(j.up, k) == [j.up[0]]
    ensures InPhase(SlotOf(j, k), phase) && Owned(phase, k in j.reserved, k in j.spent)
  {
    k := IdOf(j.up[0]).value;
    assert Legal(j, k);
    phase :| InPhase(SlotOf(j, k), phase) && Owned(phase, k in j.reserved, k in j.spent);
    ChannelTail(j.up);
  }

  lemma PhaseDown(j: Joint) returns (k: PacketId, phase: Phase)
    requires LegalAll(j) && j.down != [] && IdOf(j.down[0]).Some?
    ensures IdOf(j.down[0]) == Some(k) && OnId(j.down, k) == [j.down[0]]
    ensures InPhase(SlotOf(j, k), phase) && Owned(phase, k in j.reserved, k in j.spent)
  {
    k := IdOf(j.down[0]).value;
    assert Legal(j, k);
    phase :| InPhase(SlotOf(j, k), phase) && Owned(phase, k in j.reserved, k in j.spent);
    ChannelTail(j.down);
  }

  // ---------- The broker receives ----------

  /** A delivery that succeeds, with a reply of less weight than the packet it answers. */
  ghost predicate Received(after: Joint, o: Outcome, weight: int) {
    && LegalAll(after) && SessionsOk(after) && !after.failed
    && o.status == Done && Weigh(o.sent) < weight
    && exists k :: ReplyFor(o.sent, k)
  }

  /** The state after the broker has handled the first packet on the way up with this outcome. */
  ghost predicate UpDone(j: Joint, after: Joint, o: Outcome) {
    && LegalAll(j) && SessionsOk(j) && !j.failed && j.up != []
    && var p := j.up[0];
       && after == j.(broker := o.session, up := j.up[1..], down := j.down + o.sent, failed := o.status != Done,
                      toAcknowledge := j.toAcknowledge + Only(p.PublishPacket?, p),
                      toRelease := j.toRelease + Only(p.AckPacket? && p.kind == PubRec, p),
                      toComplete := j.toComplete + Only(p.AckPacket? && p.kind == PubRel, p),
                      toGrant := j.toGrant + Only(p.SubscribePacket?, p), surfacedUp := after.surfacedUp)
  }

  lemma AppliedUp(j: Joint)
    requires Inv(j) && j.up != []
    ensures UpDone(j, Apply(j, ReceiveUp), OutcomeOf(j, ReceiveUp))
  {
  }

  /** The broker takes note and says nothing. */
  lemma UpQuietly(j: Joint, after: Joint, o: Outcome, k: PacketId, phase: Phase)
    requires UpDone(j, after, o) && o == Quiet(j.broker.(table := o.session.table))
    requires IdOf(j.up[0]) == Some(k) && OnId(j.up, k) == [j.up[0]]
    requires TablesElsewhere(j.broker.table, o.session.table, k) && DutiesElsewhere(j, after, k)
    requires Weight(j.up[0]) - Duty(j.up[0]) > 0
    requires InPhase(SlotOf(after, k).(up := [], down := OnId(j.down, k)), phase)
    requires Owned(phase, k in j.reserved, k in j.spent)
    ensures Received(after, o, Weight(j.up[0]) - Duty(j.up[0]))
  {
    assert OnId(j.down, k) + [] == OnId(j.down, k);
    assert ReplyFor([], k);
    UpMoves(j, after, k, [], phase);
  }

  lemma UpMessagePhase(j: Joint) returns (k: PacketId, phase: Phase)
    requires LegalAll(j) && j.up != [] && j.up[0].PublishPacket? && IdOf(j.up[0]).Some?
    ensures IdOf(j.up[0]) == Some(k) && OnId(j.up, k) == [j.up[0]] && (phase == U1 || phase == V1)
    ensures InPhase(SlotOf(j, k), phase) && Owned(phase, k in j.reserved, k in j.spent)
  {
    k, phase := PhaseUp(j);
  }

  /** A broker keeps a message until its application acknowledges it. */
  lemma BrokerKeeps(s: Session, p: Publish, k: PacketId)
    requires s.role == BrokerRole && s.state == Connected && !s.table.Has(k) && p.packetId == Some(k)
    ensures HandlePublish(s, p) == Quiet(s.(table := s.table.Add(k, PublishEntry(p, Unacknowledged))))
    ensures TablesElsewhere(s.table, s.table.Add(k, PublishEntry(p, Unacknowledged)), k)
  {
  }

  lemma UpMessage(j: Joint, after: Joint, o: Outcome)
    requires UpDone(j, after, o) && j.up[0].PublishPacket? && IdOf(j.up[0]).Some?
    requires o == HandlePublish(j.broker, SettlePublish(j.up[0].publish))
    ensures Received(after, o, Weight(j.up[0]) - Duty(j.up[0]))
  {
    var k, phase := UpMessagePhase(j);
    BrokerKeeps(j.broker, SettlePublish(j.up[0].publish), k);
    UpQuietly(j, after, o, k, if phase == U1 then U2 else V2);
  }

  /** PUBACK and PUBCOMP retire the message they answer. */
  lemma AckRetires(s: Session, kind: AckKind, k: PacketId)
    requires s.state == Connected
    requires (kind == PubAck && Holds(s.table.Get(k), AT_LEAST_ONCE, Unacknowledged))
             || (kind == PubComp && Holds(s.table.Get(k), EXACTLY_ONCE, Released))
    ensures var o := HandleAck(s, kind, k);
            && o == Quiet(s.(table := o.session.table))
            && o.session.table.Get(k) == None
            && TablesElsewhere(s.table, o.session.table, k)
  {
  }

  /** PUBACK and PUBCOMP end an exchange of the broker's. */
  lemma UpLastAck(j: Joint, after: Joint, o: Outcome)
    requires UpDone(j, after, o) && j.up[0].AckPacket? && (j.up[0].kind == PubAck || j.up[0].kind == PubComp)
    requires o == HandleAck(j.broker, j.up[0].kind, j.up[0].packetId)
    ensures Received(after, o, Weight(j.up[0]) - Duty(j.up[0]))
  {
    var k, phase := PhaseUp(j);
    assert phase == D2 || phase == E5;
    AckRetires(j.broker, j.up[0].kind, k);
    UpQuietly(j, after, o, k, Free);
  }

  /** PUBREC and PUBREL leave the next step to the application. */
  lemma BrokerMarks(s: Session, kind: AckKind, k: PacketId, ack: AckState)
    requires s.role == BrokerRole && s.state == Connected
    requires (kind == PubRec && ack == Unacknowledged) || (kind == PubRel && ack == Acknowledged)
    requires Holds(s.table.Get(k), EXACTLY_ONCE, ack)
    ensures var o := HandleAck(s, kind, k);
            && o == Quiet(s.(table := o.session.table))
            && Holds(o.session.table.Get(k), EXACTLY_ONCE, if kind == PubRec then Acknowledged else Released)
            && TablesElsewhere(s.table, o.session.table, k)
  {
  }

  lemma UpPubRec(j: Joint, after: Joint, o: Outcome)
    requires UpDone(j, after, o) && j.up[0].AckPacket? && j.up[0].kind == PubRec
    requires o == HandleAck(j.broker, j.up[0].kind, j.up[0].packetId)
    ensures Received(after, o, Weight(j.up[0]) - Duty(j.up[0]))
  {
    var k, phase := PhaseUp(j);
    assert phase == E2;
    BrokerMarks(j.broker, PubRec, k, Unacknowledged);
    UpQuietly(j, after, o, k, E3);
  }

  lemma UpPubRel(j: Joint, after: Joint, o: Outcome)
    requires UpDone(j, after, o) && j.up[0].AckPacket? && j.up[0].kind == PubRel
    requires o == HandleAck(j.broker, j.up[0].kind, j.up[0].packetId)
    ensures Received(after, o, Weight(j.up[0]) - Duty(j.up[0]))
  {
    var k, phase := PhaseUp(j);
    assert phase == V4;
    BrokerMarks(j.broker, PubRel, k, Acknowledged);
    UpQuietly(j, after, o, k, V5);
  }

  lemma UpSubscribe(j: Joint, after: Joint, o: Outcome)
    requires UpDone(j, after, o) && j.up[0].SubscribePacket?
    requires o == HandleSubscribe(j.broker, j.up[0].packetId, j.up[0].subscriptions)
    ensures Received(after, o, Weight(j.up[0]) - Duty(j.up[0]))
  {
    var k, phase := PhaseUp(j);
    assert phase == S1;
    UpQuietly(j, after, o, k, S2);
  }

  lemma {:induction false} UnsubscribeCodesFine(subs: Subs, patterns: seq<Text>)
    ensures PACKET_IDENTIFIER_IN_USE !in UnsubscribeCodes(subs, patterns)
    decreases |patterns|
  {
    if patterns != [] {
      UnsubscribeCodesFine(subs - {patterns[0]}, patterns[1..]);
    }
  }

  lemma UnsubAckFine(subs: Subs, patterns: seq<Text>, k: PacketId)
    ensures var p := CodesPacket(UnsubAck, k, UnsubscribeCodes(subs, patterns), NO_PROPS);
            ReplyFor([p], k) && Codes([p], UnsubAck)
  {
    UnsubscribeCodesOk(subs, patterns);
    UnsubscribeCodesFine(subs, patterns);
  }

  /** An UNSUBSCRIBE is answered at once and stays in the table. */
  lemma BrokerAnswers(s: Session, patterns: seq<Text>, k: PacketId)
    requires s.state == Connected && !s.table.Has(k)
    ensures var o := HandleUnsubscribe(s, k, patterns);
            && o.status == Done
            && o.sent == [CodesPacket(UnsubAck, k, UnsubscribeCodes(s.subscriptions, patterns), NO_PROPS)]
            && o.session == s.(table := o.session.table, subscriptions := o.session.subscriptions)
            && o.session.table.Get(k) == Some(UnsubscribeEntry(patterns))
            && TablesElsewhere(s.table, o.session.table, k)
  {
  }

  /** The broker replies at once. */
  lemma UpReplies(j: Joint, after: Joint, o: Outcome, k: PacketId, reply: Packet, phase: Phase)
    requires UpDone(j, after, o)
    requires IdOf(j.up[0]) == Some(k) && OnId(j.up, k) == [j.up[0]] && OnId(j.down, k) == []
    requires o == Send(j.broker.(table := o.session.table, subscriptions := o.session.subscriptions), reply)
    requires TablesElsewhere(j.broker.table, o.session.table, k) && DutiesElsewhere(j, after, k)
    requires ReplyFor([reply], k) && Weight(reply) < Weight(j.up[0]) - Duty(j.up[0])
    requires InPhase(SlotOf(after, k).(up := [], down := [reply]), phase)
    requires Owned(phase, k in j.reserved, k in j.spent)
    ensures Received(after, o, Weight(j.up[0]) - Duty(j.up[0]))
  {
    assert [] + [reply] == [reply];
    assert Weigh([reply]) == Weight(reply);
    UpMoves(j, after, k, [reply], phase);
  }

  lemma UpUnsubscribePhase(j: Joint) returns (k: PacketId)
    requires LegalAll(j) && j.up != [] && j.up[0].UnsubscribePacket?
    ensures IdOf(j.up[0]) == Some(k) && OnId(j.up, k) == [j.up[0]]
    ensures InPhase(SlotOf(j, k), N1) && Owned(N1, k in j.reserved, k in j.spent)
  {
    var phase;
    k, phase := PhaseUp(j);
    assert phase == N1;
  }

  lemma UnsubscribedSlot(s: Slot, entry: Pending, reply: Packet)
    requires InPhase(s, N1) && entry.UnsubscribeEntry? && Codes([reply], UnsubAck)
    ensures InPhase(s.(broker := Some(entry), up := [], down := [reply]), N2)
  {
  }

  lemma UpUnsubscribe(j: Joint, after: Joint, o: Outcome)
    requires UpDone(j, after, o) && j.up[0].UnsubscribePacket?
    requires o == HandleUnsubscribe(j.broker, j.up[0].packetId, j.up[0].patterns)
    ensures Received(after, o, Weight(j.up[0]) - Duty(j.up[0]))
  {
    var k := UpUnsubscribePhase(j);
    BrokerAnswers(j.broker, j.up[0].patterns, k);
    UnsubAckFine(j.broker.subscriptions, j.up[0].patterns, k);
    UnsubscribedSlot(SlotOf(j, k), UnsubscribeEntry(j.up[0].patterns), o.sent[0]);
    UpReplies(j, after, o, k, o.sent[0], N2);
  }

  /** A QoS 0 message changes nothing at the broker. */
  lemma UpPlain(j: Joint, after: Joint, o: Outcome)
    requires UpDone(j, after, o) && j.up[0].PublishPacket? && IdOf(j.up[0]).None?
    requires o == HandlePublish(j.broker, SettlePublish(j.up[0].publish))
    ensures Received(after, o, Weight(j.up[0]) - Duty(j.up[0]))
  {
    ChannelTail(j.up);
    assert o == Quiet(j.broker) && j.down + [] == j.down;
    assert ReplyFor([], 0);
    SameSlots(j, after);
  }

  lemma UpAck(j: Joint, after: Joint, o: Outcome)
    requires UpDone(j, after, o) && j.up[0].AckPacket?
    requires o == HandleAck(j.broker, j.up[0].kind, j.up[0].packetId)
    ensures Received(after, o, Weight(j.up[0]) - Duty(j.up[0]))
  {
    match j.up[0].kind
    case PubRec => UpPubRec(j, after, o);
    case PubRel => UpPubRel(j, after, o);
    case _ => UpLastAck(j, after, o);
  }

  /** No other packets are on their way up. */
  lemma UpKinds(j: Joint)
    requires LegalAll(j) && InFlightOk(j.up) && j.up != []
    ensures var p := j.up[0]; p.PublishPacket? || p.AckPacket? || p.SubscribePacket? || p.UnsubscribePacket?
  {
    var p := j.up[0];
    assert p in j.up;
    if IdOf(p).Some? {
      var _, phase := PhaseUp(j);
    }
  }

  lemma UpHandled(j: Joint, after: Joint, o: Outcome)
    requires UpDone(j, after, o) && InFlightOk(j.up) && o == HandlePacket(j.broker, Settled(j.up[0]))
    ensures Received(after, o, Weight(j.up[0]) - Duty(j.up[0]))
  {
    UpKinds(j);
    match j.up[0] {
      case PublishPacket(p) =>
        if p.packetId.Some? {
          UpMessage(j, after, o);
        } else {
          UpPlain(j, after, o);
        }
      case AckPacket(_, _, _, _) => UpAck(j, after, o);
      case SubscribePacket(_, _, _) => UpSubscribe(j, after, o);
      case UnsubscribePacket(_, _, _) => UpUnsubscribe(j, after, o);
    }
  }

  lemma UpLegal(j: Joint)
    requires Inv(j) && j.up != []
    ensures Received(Apply(j, ReceiveUp), OutcomeOf(j, ReceiveUp), Weight(j.up[0]) - Duty(j.up[0]))
  {
    AppliedUp(j);
    UpHandled(j, Apply(j, ReceiveUp), OutcomeOf(j, ReceiveUp));
  }

  lemma AssembleUp(j: Joint, after: Joint, o: Outcome, weight: int)
    requires Inv(j) && j.up != [] && Received(after, o, weight)
    requires after.up == j.up[1..] && after.down == j.down + o.sent
    requires after.sentUp == j.sentUp && after.surfacedUp == j.surfacedUp + Messages([j.up[0]])
    requires after.sentDown == j.sentDown && after.surfacedDown == j.surfacedDown
    ensures Inv(after)
  {
    var k :| ReplyFor(o.sent, k);
    TailKeeps(j.up, j.sentUp, j.surfacedUp);
    ReplyKeeps(j.down, o.sent, k);
  }

  lemma ReturnedMessages(p: Packet)
    ensures MessagesIn([Settled(p)]) == Messages([p])
  {
  }

  lemma ReceiveUpStep(j: Joint)
    requires Inv(j) && j.up != []
    ensures Inv(Apply(j, ReceiveUp))
  {
    UpLegal(j);
    ReturnedMessages(j.up[0]);
    AssembleUp(j, Apply(j, ReceiveUp), OutcomeOf(j, ReceiveUp), Weight(j.up[0]) - Duty(j.up[0]));
  }

  // ---------- The client receives ----------

  /** A client answers a message at once, with PUBACK or PUBREC. */
  lemma ClientAnswers(s: Session, p: Publish, k: PacketId)
    requires s.role == ClientRole && s.state == Connected && !s.table.Has(k) && k != 0
    requires p.packetId == Some(k) && p.qos > 0
    ensures var o := HandlePublish(s, p);
            && o.status == Done
            && o.sent == [Ack(if p.qos == 1 then PubAck else PubRec, k, SUCCESS)]
            && o.session == s.(table := o.session.table)
            && o.session.table.Get(k) == (if p.qos == 1 then None else Some(PublishEntry(p, Acknowledged)))
            && (forall id: PacketId :: id != k ==> o.session.table.Get(id) == s.table.Get(id))
  {
  }

  lemma AnswerFine(qos: QoS, k: PacketId)
    ensures var p := Ack(if qos == 1 then PubAck else PubRec, k, SUCCESS);
            && ReplyFor([p], k) && Reply([p], if qos == 1 then PubAck else PubRec)
            && Weigh([p]) == Weight(p) < 7
  {
    AckOk(if qos == 1 then PubAck else PubRec, k, SUCCESS);
  }

  lemma DownMessagePhase(j: Joint) returns (k: PacketId, phase: Phase)
    requires LegalAll(j) && j.down != [] && j.down[0].PublishPacket? && IdOf(j.down[0]).Some?
    ensures IdOf(j.down[0]) == Some(k) && OnId(j.down, k) == [j.down[0]] && (phase == D1 || phase == E1)
    ensures InPhase(SlotOf(j, k), phase) && Owned(phase, k in j.reserved, k in j.spent)
  {
    k, phase := PhaseDown(j);
  }

  /** The state after the client has handled the first packet on the way down with this outcome. */
  ghost predicate DownDone(j: Joint, after: Joint, o: Outcome) {
    && LegalAll(j) && SessionsOk(j) && !j.failed && j.down != []
    && after == j.(client := o.session, down := j.down[1..], up := j.up + o.sent, failed := o.status != Done,
                   surfacedDown := after.surfacedDown)
  }

  lemma AppliedDown(j: Joint)
    requires Inv(j) && j.down != []
    ensures DownDone(j, Apply(j, ReceiveDown), OutcomeOf(j, ReceiveDown))
  {
  }

  /** The client drops the entry and says nothing. */
  lemma DownQuietly(j: Joint, after: Joint, o: Outcome, k: PacketId, phase: Phase)
    requires DownDone(j, after, o) && o == Quiet(j.client.(table := o.session.table))
    requires IdOf(j.down[0]) == Some(k) && OnId(j.down, k) == [j.down[0]] && OnId(j.up, k) == []
    requires TablesElsewhere(j.client.table, o.session.table, k)
    requires InPhase(SlotOf(j, k).(client := o.session.table.Get(k), down := []), phase)
    requires Owned(phase, k in j.reserved, k in j.spent)
    ensures Received(after, o, Weight(j.down[0]))
  {
    assert OnId(j.up, k) + [] == [];
    assert ReplyFor([], k);
    DownMoves(j, after, k, [], phase);
  }

  /** PUBACK and PUBCOMP end an exchange of the client's. */
  lemma DownLastAck(j: Joint, after: Joint, o: Outcome)
    requires DownDone(j, after, o) && j.down[0].AckPacket? && (j.down[0].kind == PubAck || j.down[0].kind == PubComp)
    requires o == HandleAck(j.client, j.down[0].kind, j.down[0].packetId)
    ensures Received(after, o, Weight(j.down[0]))
  {
    var k, phase := PhaseDown(j);
    assert phase == U3 || phase == V6;
    AckRetires(j.client, j.down[0].kind, k);
    DownQuietly(j, after, o, k, Free);
  }

  /** A client moves on at once: it answers PUBREC with PUBREL, and PUBREL with PUBCOMP. */
  lemma ClientMovesOn(s: Session, kind: AckKind, k: PacketId)
    requires s.role == ClientRole && s.state == Connected
    requires (kind == PubRec && Holds(s.table.Get(k), EXACTLY_ONCE, Unacknowledged))
             || (kind == PubRel && Holds(s.table.Get(k), EXACTLY_ONCE, Acknowledged))
    ensures var o := HandleAck(s, kind, k);
            && o == Send(s.(table := o.session.table), Ack(if kind == PubRec then PubRel else PubComp, k, SUCCESS))
            && (kind == PubRec ==> Holds(o.session.table.Get(k), EXACTLY_ONCE, Released))
            && (kind == PubRel ==> o.session.table.Get(k) == None)
            && TablesElsewhere(s.table, o.session.table, k)
  {
  }

  /** The client replies at once. */
  lemma DownReplies(j: Joint, after: Joint, o: Outcome, k: PacketId, reply: Packet, phase: Phase)
    requires DownDone(j, after, o) && o == Send(j.client.(table := o.session.table), reply)
    requires IdOf(j.down[0]) == Some(k) && OnId(j.down, k) == [j.down[0]] && OnId(j.up, k) == []
    requires TablesElsewhere(j.client.table, o.session.table, k)
    requires ReplyFor([reply], k) && Weight(reply) < Weight(j.down[0])
    requires InPhase(SlotOf(j, k).(client := o.session.table.Get(k), down := [], up := [reply]), phase)
    requires Owned(phase, k in j.reserved, k in j.spent)
    ensures Received(after, o, Weight(j.down[0]))
  {
    assert [] + [reply] == [reply];
    assert Weigh([reply]) == Weight(reply);
    DownMoves(j, after, k, [reply], phase);
  }

  lemma DownPubRecPhase(j: Joint) returns (k: PacketId)
    requires LegalAll(j) && j.down != [] && j.down[0].AckPacket? && j.down[0].kind == PubRec
    ensures IdOf(j.down[0]) == Some(k) && OnId(j.down, k) == [j.down[0]]
    ensures InPhase(SlotOf(j, k), V3) && Owned(V3, k in j.reserved, k in j.spent)
  {
    var phase;
    k, phase := PhaseDown(j);
    assert phase == V3;
  }

  lemma DownPubRelPhase(j: Joint) returns (k: PacketId)
    requires LegalAll(j) && j.down != [] && j.down[0].AckPacket? && j.down[0].kind == PubRel
    ensures IdOf(j.down[0]) == Some(k) && OnId(j.down, k) == [j.down[0]]
    ensures InPhase(SlotOf(j, k), E4) && Owned(E4, k in j.reserved, k in j.spent)
  {
    var phase;
    k, phase := PhaseDown(j);
    assert phase == E4;
  }

  lemma DownMessage(j: Joint, after: Joint, o: Outcome)
    requires DownDone(j, after, o) && j.down[0].PublishPacket? && IdOf(j.down[0]).Some?
    requires o == HandlePublish(j.client, SettlePublish(j.down[0].publish))
    ensures Received(after, o, Weight(j.down[0]))
  {
    var k, phase := DownMessagePhase(j);
    var p := SettlePublish(j.down[0].publish);
    ClientAnswers(j.client, p, k);
    AnswerFine(p.qos, k);
    DownReplies(j, after, o, k, Ack(if p.qos == 1 then PubAck else PubRec, k, SUCCESS), if phase == D1 then D2 else E2);
  }

  /** PUBREC is answered with PUBREL at once. */
  lemma DownPubRec(j: Joint, after: Joint, o: Outcome)
    requires DownDone(j, after, o) && j.down[0].AckPacket? && j.down[0].kind == PubRec
    requires o == HandleAck(j.client, j.down[0].kind, j.down[0].packetId)
    ensures Received(after, o, Weight(j.down[0]))
  {
    var k := DownPubRecPhase(j);
    ClientMovesOn(j.client, PubRec, k);
    AckOk(PubRel, k, SUCCESS);
    DownReplies(j, after, o, k, Ack(PubRel, k, SUCCESS), V4);
  }

  lemma CompletedSlot(s: Slot, reply: Packet)
    requires InPhase(s, E4) && Reply([reply], PubComp)
    ensures InPhase(s.(client := None, down := [], up := [reply]), E5)
  {
  }

  /** PUBREL is answered with PUBCOMP at once. */
  lemma DownPubRel(j: Joint, after: Joint, o: Outcome)
    requires DownDone(j, after, o) && j.down[0].AckPacket? && j.down[0].kind == PubRel
    requires o == HandleAck(j.client, j.down[0].kind, j.down[0].packetId)
    ensures Received(after, o, Weight(j.down[0]))
  {
    var k := DownPubRelPhase(j);
    ClientMovesOn(j.client, PubRel, k);
    AckOk(PubComp, k, SUCCESS);
    CompletedSlot(SlotOf(j, k), Ack(PubComp, k, SUCCESS));
    DownReplies(j, after, o, k, Ack(PubComp, k, SUCCESS), E5);
  }

  /** A SUBACK or UNSUBACK retires the request it answers. */
  lemma ClientRetires(s: Session, kind: CodesKind, k: PacketId)
    requires s.state == Connected && s.table.Has(k) && Answers(kind, s.table.items[k])
    ensures var o := HandleCodes(s, kind, k);
            && o == Quiet(s.(table := o.session.table))
            && o.session.table.Get(k) == None
            && TablesElsewhere(s.table, o.session.table, k)
  {
  }

  lemma DownCodesPhase(j: Joint) returns (k: PacketId, phase: Phase)
    requires LegalAll(j) && j.down != [] && j.down[0].CodesPacket?
    ensures IdOf(j.down[0]) == Some(k) && OnId(j.down, k) == [j.down[0]]
    ensures phase == if j.down[0].codesKind == SubAck then S3 else N2
    ensures InPhase(SlotOf(j, k), phase) && Owned(phase, k in j.reserved, k in j.spent)
  {
    k, phase := PhaseDown(j);
  }

  lemma DownCodes(j: Joint, after: Joint, o: Outcome)
    requires DownDone(j, after, o) && j.down[0].CodesPacket?
    requires o == HandleCodes(j.client, j.down[0].codesKind, j.down[0].packetId)
    ensures Received(after, o, Weight(j.down[0]))
  {
    var k, phase := DownCodesPhase(j);
    ClientRetires(j.client, j.down[0].codesKind, k);
    DownQuietly(j, after, o, k, if phase == S3 then Free else N3);
  }

  lemma DownPlain(j: Joint, after: Joint, o: Outcome)
    requires DownDone(j, after, o) && j.down[0].PublishPacket? && IdOf(j.down[0]).None?
    requires o == HandlePublish(j.client, SettlePublish(j.down[0].publish))
    ensures Received(after, o, Weight(j.down[0]))
  {
    ChannelTail(j.down);
    assert o == Quiet(j.client) && j.up + [] == j.up;
    assert ReplyFor([], 0);
    SameSlots(j, after);
  }

  lemma DownAck(j: Joint, after: Joint, o: Outcome)
    requires DownDone(j, after, o) && j.down[0].AckPacket?
    requires o == HandleAck(j.client, j.down[0].kind, j.down[0].packetId)
    ensures Received(after, o, Weight(j.down[0]))
  {
    match j.down[0].kind
    case PubRec => DownPubRec(j, after, o);
    case PubRel => DownPubRel(j, after, o);
    case _ => DownLastAck(j, after, o);
  }

  /** No other packets are on their way down. */
  lemma DownKinds(j: Joint)
    requires LegalAll(j) && InFlightOk(j.down) && j.down != []
    ensures var p := j.down[0]; p.PublishPacket? || p.AckPacket? || p.CodesPacket?
  {
    var p := j.down[0];
    assert p in j.down;
    if IdOf(p).Some? {
      var _, phase := PhaseDown(j);
    }
  }

  lemma DownHandled(j: Joint, after: Joint, o: Outcome)
    requires DownDone(j, after, o) && InFlightOk(j.down) && o == HandlePacket(j.client, Settled(j.down[0]))
    ensures Received(after, o, Weight(j.down[0]))
  {
    DownKinds(j);
    match j.down[0] {
      case PublishPacket(p) =>
        if p.packetId.Some? {
          DownMessage(j, after, o);
        } else {
          DownPlain(j, after, o);
        }
      case AckPacket(_, _, _, _) => DownAck(j, after, o);
      case CodesPacket(_, _, _, _) => DownCodes(j, after, o);
    }
  }

  lemma DownLegal(j: Joint)
    requires Inv(j) && j.down != []
    ensures Received(Apply(j, ReceiveDown), OutcomeOf(j, ReceiveDown), Weight(j.down[0]))
  {
    AppliedDown(j);
    DownHandled(j, Apply(j, ReceiveDown), OutcomeOf(j, ReceiveDown));
  }

  lemma AssembleDown(j: Joint, after: Joint, o: Outcome, weight: int)
    requires Inv(j) && j.down != [] && Received(after, o, weight)
    requires after.down == j.down[1..] && after.up == j.up + o.sent
    requires after.sentDown == j.sentDown && after.surfacedDown == j.surfacedDown + Messages([j.down[0]])
    requires after.sentUp == j.sentUp && after.surfacedUp == j.surfacedUp
    ensures Inv(after)
  {
    var k :| ReplyFor(o.sent, k);
    TailKeeps(j.down, j.sentDown, j.surfacedDown);
    ReplyKeeps(j.up, o.sent, k);
  }

  lemma ReceiveDownStep(j: Joint)
    requires Inv(j) && j.down != []
    ensures Inv(Apply(j, ReceiveDown))
  {
    DownLegal(j);
    ReturnedMessages(j.down[0]);
    AssembleDown(j, Apply(j, ReceiveDown), OutcomeOf(j, ReceiveDown), Weight(j.down[0]));
  }

  // ---------- The application of the broker answers ----------

  lemma PhaseAt(j: Joint, k: PacketId) returns (phase: Phase)
    requires LegalAll(j)
    ensures InPhase(SlotOf(j, k), phase) && Owned(phase, k in j.reserved, k in j.spent)
  {
    assert Legal(j, k);
    phase :| InPhase(SlotOf(j, k), phase) && Owned(phase, k in j.reserved, k in j.spent);
  }

  /** What an answer of the application establishes, by what it does to the entry of its packet id. */
  lemma AppAnswers(j: Joint, after: Joint, k: PacketId, o: Outcome, phase: Phase)
    requires Inv(j) && OnId(j.down, k) == []
    requires o.status == Done
    requires o.session == j.broker.(table := o.session.table, subscriptions := o.session.subscriptions)
    requires after == j.(broker := o.session, down := j.down + o.sent,
                         toAcknowledge := after.toAcknowledge, toRelease := after.toRelease,
                         toComplete := after.toComplete, toGrant := after.toGrant)
    requires ReplyFor(o.sent, k) && TablesElsewhere(j.broker.table, o.session.table, k) && DutiesElsewhere(j, after, k)
    requires InPhase(SlotOf(after, k).(down := o.sent), phase) && Owned(phase, k in j.reserved, k in j.spent)
    ensures Inv(after)
  {
    assert OnId(j.down, k) + o.sent == o.sent;
    AppMoves(j, after, k, o.sent, phase);
    ReplyKeeps(j.down, o.sent, k);
  }

  lemma AcknowledgePhase(j: Joint, k: PacketId) returns (phase: Phase)
    requires LegalAll(j) && k in j.toAcknowledge
    ensures (phase == U2 || phase == V2) && InPhase(SlotOf(j, k), phase) && Owned(phase, k in j.reserved, k in j.spent)
  {
    phase := PhaseAt(j, k);
  }

  lemma ReleasePhase(j: Joint, k: PacketId)
    requires LegalAll(j) && k in j.toRelease
    ensures InPhase(SlotOf(j, k), E3) && Owned(E3, k in j.reserved, k in j.spent)
  {
    var phase := PhaseAt(j, k);
  }

  lemma CompletePhase(j: Joint, k: PacketId)
    requires LegalAll(j) && k in j.toComplete
    ensures InPhase(SlotOf(j, k), V5) && Owned(V5, k in j.reserved, k in j.spent)
  {
    var phase := PhaseAt(j, k);
  }

  lemma GrantPhase(j: Joint, k: PacketId)
    requires LegalAll(j) && k in j.toGrant
    ensures InPhase(SlotOf(j, k), S2) && Owned(S2, k in j.reserved, k in j.spent)
  {
    var phase := PhaseAt(j, k);
  }

  /** Acknowledging retires a QoS 1 message and marks a QoS 2 message. */
  lemma BrokerAcknowledges(s: Session, k: PacketId, qos: QoS, reason: ReasonCode)
    requires s.state == Connected && qos > 0 && Holds(s.table.Get(k), qos, Unacknowledged) && reason in PUBLISH_CODES
    ensures var o := AcknowledgePublish(s, k, reason);
            && o == Send(s.(table := o.session.table), Ack(if qos == 1 then PubAck else PubRec, k, reason))
            && (qos == 1 ==> o.session.table.Get(k) == None)
            && (qos == 2 ==> Holds(o.session.table.Get(k), EXACTLY_ONCE, Acknowledged))
            && TablesElsewhere(s.table, o.session.table, k)
  {
  }

  lemma AcknowledgeStep(j: Joint, a: Action)
    requires Inv(j) && a.AppAcknowledges? && Enabled(j, a)
    ensures Inv(Apply(j, a))
  {
    var phase := AcknowledgePhase(j, a.id);
    BrokerAcknowledges(j.broker, a.id, if phase == U2 then 1 else 2, a.reason);
    AckOk(if phase == U2 then PubAck else PubRec, a.id, a.reason);
    AppAnswers(j, Apply(j, a), a.id, OutcomeOf(j, a), if phase == U2 then U3 else V3);
  }

  lemma BrokerReleases(s: Session, k: PacketId)
    requires s.state == Connected && Holds(s.table.Get(k), EXACTLY_ONCE, Acknowledged)
    ensures var o := ReleasePublish(s, k, SUCCESS);
            && o == Send(s.(table := o.session.table), Ack(PubRel, k, SUCCESS))
            && Holds(o.session.table.Get(k), EXACTLY_ONCE, Released)
            && TablesElsewhere(s.table, o.session.table, k)
  {
  }

  lemma ReleasedSlot(s: Slot, entry: Option<Pending>, reply: Packet)
    requires InPhase(s, E3) && Holds(entry, EXACTLY_ONCE, Released) && Reply([reply], PubRel)
    ensures InPhase(s.(broker := entry, down := [reply], toRelease := false), E4)
  {
  }

  lemma ReleaseStep(j: Joint, a: Action)
    requires Inv(j) && a.AppReleases? && Enabled(j, a)
    ensures Inv(Apply(j, a))
  {
    ReleasePhase(j, a.id);
    BrokerReleases(j.broker, a.id);
    AckOk(PubRel, a.id, SUCCESS);
    ReleasedSlot(SlotOf(j, a.id), OutcomeOf(j, a).session.table.Get(a.id), Ack(PubRel, a.id, SUCCESS));
    AppAnswers(j, Apply(j, a), a.id, OutcomeOf(j, a), E4);
  }

  lemma BrokerCompletes(s: Session, k: PacketId)
    requires s.state == Connected && Holds(s.table.Get(k), EXACTLY_ONCE, Released)
    ensures var o := CompletePublish(s, k, SUCCESS);
            && o == Send(s.(table := o.session.table), Ack(PubComp, k, SUCCESS))
            && o.session.table.Get(k) == None
            && TablesElsewhere(s.table, o.session.table, k)
  {
  }

  lemma CompleteStep(j: Joint, a: Action)
    requires Inv(j) && a.AppCompletes? && Enabled(j, a)
    ensures Inv(Apply(j, a))
  {
    CompletePhase(j, a.id);
    BrokerCompletes(j.broker, a.id);
    AckOk(PubComp, a.id, SUCCESS);
    AppAnswers(j, Apply(j, a), a.id, OutcomeOf(j, a), V6);
  }

  lemma SubAckFine(entry: Option<Pending>, codes: seq<ReasonCode>, k: PacketId)
    requires CodesFor(entry, codes)
    ensures var p := CodesPacket(SubAck, k, codes, NO_PROPS); ReplyFor([p], k) && Codes([p], SubAck)
  {
  }

  /** Granting or rejecting a SUBSCRIBE retires it with a SUBACK. */
  lemma BrokerGrants(s: Session, codes: seq<ReasonCode>, k: PacketId)
    requires s.state == Connected && CodesFor(s.table.Get(k), codes)
    ensures var o := AcknowledgeSubscribe(s, k, codes);
            && o.status == Done && o.sent == [CodesPacket(SubAck, k, codes, NO_PROPS)]
            && o.session == s.(table := o.session.table, subscriptions := o.session.subscriptions)
            && o.session.table.Get(k) == None
            && TablesElsewhere(s.table, o.session.table, k)
  {
  }

  lemma GrantStep(j: Joint, a: Action)
    requires Inv(j) && a.AppGrants? && Enabled(j, a)
    ensures Inv(Apply(j, a))
  {
    GrantPhase(j, a.id);
    BrokerGrants(j.broker, a.codes, a.id);
    SubAckFine(j.broker.table.Get(a.id), a.codes, a.id);
    AppAnswers(j, Apply(j, a), a.id, OutcomeOf(j, a), S3);
  }

  // ---------- Every action ----------

  /** Whatever a caller, a channel or the application does next, the invariant stays. */
  lemma Step(j: Joint, a: Action)
    requires Inv(j) && Enabled(j, a)
    ensures Inv(Apply(j, a))
  {
    match a
    case ClientPublishes(_, _, _, _) => PublishStep(j, a);
    case ClientSubscribes(_) => SubscribeStep(j, a);
    case ClientUnsubscribes(_) => UnsubscribeStep(j, a);
    case BrokerDelivers(_, _) => DeliverStep(j, a);
    case ReceiveUp => ReceiveUpStep(j);
    case ReceiveDown => ReceiveDownStep(j);
    case AppAcknowledges(_, _) => AcknowledgeStep(j, a);
    case AppReleases(_) => ReleaseStep(j, a);
    case AppCompletes(_) => CompleteStep(j, a);
    case AppGrants(_, _) => GrantStep(j, a);
  }
}
