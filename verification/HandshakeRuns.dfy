/** What holds in every run of a client and a broker session: safety, progress and delivery. */
module HandshakeRuns {
  import opened Bytes
  import opened Subscriptions
  import opened Packets
  import opened RoundTrip
  import opened Sessions
  import opened Handshake
  import opened HandshakeSteps

  ghost predicate Admissible(j: Joint, actions: seq<Action>)
    decreases |actions|
  {
    actions != [] ==> Enabled(j, actions[0]) && Admissible(Apply(j, actions[0]), actions[1..])
  }

  ghost function Run(j: Joint, actions: seq<Action>): Joint
    requires Admissible(j, actions)
    decreases |actions|
  {
    if actions == [] then j else Run(Apply(j, actions[0]), actions[1..])
  }

  lemma {:induction false} RunInv(j: Joint, actions: seq<Action>)
    requires Inv(j) && Admissible(j, actions)
    ensures Inv(Run(j, actions))
    decreases |actions|
  {
    if actions != [] {
      Step(j, actions[0]);
      RunInv(Apply(j, actions[0]), actions[1..]);
    }
  }

  // ---------- Safety ----------

  predicate ReportsInUse(p: Packet) {
    || (p.AckPacket? && p.reason == PACKET_IDENTIFIER_IN_USE)
    || (p.CodesPacket? && PACKET_IDENTIFIER_IN_USE in p.reasonCodes)
  }

  lemma PhaseReplies(s: Slot, phase: Phase)
    requires InPhase(s, phase)
    ensures forall p :: p in s.up || p in s.down ==> !ReportsInUse(p)
  {
  }

  lemma NoneInUse(j: Joint, p: Packet)
    requires LegalAll(j) && (p in j.up || p in j.down)
    ensures !ReportsInUse(p)
  {
    if p.AckPacket? || p.CodesPacket? {
      var id := IdOf(p).value;
      var phase := PhaseAt(j, id);
      PhaseReplies(SlotOf(j, id), phase);
      if p in j.up {
        OnIdHas(j.up, p, id);
      } else {
        OnIdHas(j.down, p, id);
      }
    }
  }

  /** Nothing is known of a packet id at the broker, on the way or in the application. */
  ghost predicate IdleBeyondClient(j: Joint, id: PacketId) {
    InPhase(SlotOf(j, id).(client := None), Free)
  }

  ghost predicate IdleBeyondBroker(j: Joint, id: PacketId) {
    InPhase(SlotOf(j, id).(broker := None), Free)
  }

  /** A packet id that is free at its sender is free everywhere, with nothing in flight, unless
      the client has used it for an UNSUBSCRIBE; then the broker still holds it. */
  lemma FreeAtSender(j: Joint, id: PacketId)
    requires LegalAll(j)
    ensures id !in j.reserved && !j.client.table.Has(id) ==> (IdleBeyondClient(j, id) <==> id !in j.spent)
    ensures id in j.reserved && !j.broker.table.Has(id) ==> IdleBeyondBroker(j, id)
  {
    var phase := PhaseAt(j, id);
  }

  /** Any message that reuses such a spent packet id is refused as in use, and one under a packet
      id that was never spent is not. */
  lemma SpentIdRefused(j: Joint, id: PacketId, p: Publish)
    requires Inv(j) && id !in j.reserved && !j.client.table.Has(id)
    requires p.packetId == Some(id) && p.qos > AT_MOST_ONCE
    ensures var reply := Ack(if p.qos == AT_LEAST_ONCE then PubAck else PubRec, id, PACKET_IDENTIFIER_IN_USE);
            id in j.spent <==> HandlePacket(j.broker, PublishPacket(p)).sent == [reply]
  {
    FreeAtSender(j, id);
    var phase := PhaseAt(j, id);
  }

  /** In every run from a fresh connection no step raises an exception, every packet id is in one
      of the legal phases of its exchange, and no packet that reports a packet id in use is ever
      on its way. */
  lemma HandshakeSafety(j: Joint, actions: seq<Action>)
    requires Initial(j) && Admissible(j, actions)
    ensures var r := Run(j, actions);
            && !r.failed
            && LegalAll(r)
            && (forall p :: p in r.up || p in r.down ==> !ReportsInUse(p))
  {
    InitialInv(j);
    RunInv(j, actions);
    var r := Run(j, actions);
    forall p | p in r.up || p in r.down ensures !ReportsInUse(p) {
      NoneInUse(r, p);
    }
  }

  // ---------- Progress ----------

  lemma {:induction false} WeighAppend(a: seq<Packet>, b: seq<Packet>)
    ensures Weigh(a + b) == Weigh(a) + Weigh(b)
  {
    if a == [] {
      assert a + b == b;
    } else {
      assert (a + b)[1..] == a[1..] + b;
      WeighAppend(a[1..], b);
    }
  }

  lemma OnlySize(s: set<PacketId>, condition: bool, p: Packet)
    ensures |s + Only(condition, p)| <= |s| + |Only(condition, p)|
    ensures |Only(condition, p)| <= 1 && (!condition || IdOf(p).None? ==> |Only(condition, p)| == 0)
  {
  }

  lemma DutiesGrow(j: Joint, p: Packet)
    ensures 6 * |j.toAcknowledge + Only(p.PublishPacket?, p)|
            + 4 * |j.toRelease + Only(p.AckPacket? && p.kind == PubRec, p)|
            + 2 * |j.toComplete + Only(p.AckPacket? && p.kind == PubRel, p)|
            + 2 * |j.toGrant + Only(p.SubscribePacket?, p)|
         <= 6 * |j.toAcknowledge| + 4 * |j.toRelease| + 2 * |j.toComplete| + 2 * |j.toGrant| + Duty(p)
  {
    OnlySize(j.toAcknowledge, p.PublishPacket?, p);
    OnlySize(j.toRelease, p.AckPacket? && p.kind == PubRec, p);
    OnlySize(j.toComplete, p.AckPacket? && p.kind == PubRel, p);
    OnlySize(j.toGrant, p.SubscribePacket?, p);
  }

  lemma ReceiveRank(j: Joint, a: Action)
    requires Inv(j) && Enabled(j, a) && (a.ReceiveUp? || a.ReceiveDown?)
    ensures Rank(Apply(j, a)) < Rank(j)
  {
    if a.ReceiveUp? {
      UpLegal(j);
      WeighAppend(j.down, OutcomeOf(j, a).sent);
      DutiesGrow(j, j.up[0]);
    } else {
      DownLegal(j);
      WeighAppend(j.up, OutcomeOf(j, a).sent);
    }
  }

  lemma AnswerWeight(j: Joint, a: Action)
    requires Enabled(j, a)
    requires a.AppAcknowledges? || a.AppReleases? || a.AppCompletes? || a.AppGrants?
    ensures Weigh(OutcomeOf(j, a).sent)
         <= (match a case AppAcknowledges(_, _) => 5 case AppReleases(_) => 3 case _ => 1)
  {
  }

  lemma AnswerRank(j: Joint, a: Action)
    requires Inv(j) && Enabled(j, a)
    requires a.AppAcknowledges? || a.AppReleases? || a.AppCompletes? || a.AppGrants?
    ensures Rank(Apply(j, a)) < Rank(j)
  {
    AnswerWeight(j, a);
    WeighAppend(j.down, OutcomeOf(j, a).sent);
  }

  /** Every delivery and every answer of the application lowers the rank. */
  lemma ProgressDecreases(j: Joint, a: Action)
    requires Inv(j) && Enabled(j, a) && IsProgress(a)
    ensures Rank(Apply(j, a)) < Rank(j)
  {
    if a.ReceiveUp? || a.ReceiveDown? {
      ReceiveRank(j, a);
    } else {
      AnswerRank(j, a);
    }
  }

  /** So a run of deliveries and answers alone has at most `Rank` steps. */
  lemma {:induction false} ProgressEnds(j: Joint, actions: seq<Action>)
    requires Inv(j) && Admissible(j, actions)
    requires forall a :: a in actions ==> IsProgress(a)
    ensures |actions| <= Rank(j)
    decreases |actions|
  {
    if actions != [] {
      ProgressDecreases(j, actions[0]);
      Step(j, actions[0]);
      ProgressEnds(Apply(j, actions[0]), actions[1..]);
    }
  }

  function AllGranted(entry: Option<Pending>): seq<ReasonCode> {
    if entry.Some? && entry.value.SubscribeEntry? then Repeat(SUCCESS, |entry.value.subscriptions|) else []
  }

  ghost predicate Quiescent(j: Joint) {
    forall a: Action :: IsProgress(a) ==> !Enabled(j, a)
  }

  lemma NothingOwed(j: Joint, id: PacketId)
    requires LegalAll(j) && Quiescent(j)
    ensures NoDuty(SlotOf(j, id))
  {
    assert !Enabled(j, AppAcknowledges(id, SUCCESS));
    assert !Enabled(j, AppReleases(id)) && !Enabled(j, AppCompletes(id));
    if id in j.toGrant {
      GrantPhase(j, id);
      assert !Enabled(j, AppGrants(id, AllGranted(j.broker.table.Get(id))));
      assert false;
    }
  }

  /** With nothing in flight and nothing owed, an exchange is over or is an answered UNSUBSCRIBE. */
  lemma NothingPending(j: Joint, id: PacketId)
    requires LegalAll(j) && j.up == [] && j.down == [] && NoDuty(SlotOf(j, id))
    ensures !j.client.table.Has(id) && (j.broker.table.Has(id) <==> id in j.spent)
    ensures j.broker.table.Has(id) ==> j.broker.table.items[id].UnsubscribeEntry?
  {
    var phase := PhaseAt(j, id);
  }

  /** When no delivery and no answer is left to do, every exchange is over: both channels are
      empty, the client's table is empty, and the broker's holds nothing but the UNSUBSCRIBE
      requests it never drops. Every message has then been surfaced by its receiver exactly
      once, in order. */
  lemma QuiescentIsDone(j: Joint)
    requires Inv(j) && Quiescent(j)
    ensures j.up == [] && j.down == []
    ensures j.client.table.items == map[]
    ensures forall id :: id in j.broker.table.items <==> id in j.spent
    ensures forall id :: id in j.broker.table.items ==> j.broker.table.items[id].UnsubscribeEntry?
    ensures j.surfacedUp == j.sentUp && j.surfacedDown == j.sentDown
  {
    assert !Enabled(j, ReceiveUp) && !Enabled(j, ReceiveDown);
    forall id: PacketId
      ensures !j.client.table.Has(id) && (j.broker.table.Has(id) <==> id in j.spent)
      ensures j.broker.table.Has(id) ==> j.broker.table.items[id].UnsubscribeEntry?
    {
      NothingOwed(j, id);
      NothingPending(j, id);
    }
    forall id: PacketId ensures id !in j.client.table.items {
      assert !j.client.table.Has(id);
    }
    assert j.surfacedUp + [] == j.surfacedUp && j.surfacedDown + [] == j.surfacedDown;
  }

  lemma MessageOutcome(s: Session, p: Packet)
    requires p.PublishPacket?
    ensures HandlePacket(s, Settled(p)) == HandlePublish(s, SettlePublish(p.publish))
  {
  }

  /** A message that the broker receives is never one it has under the same packet id already; it
      takes the message in as new. */
  lemma MessageUpIsNew(j: Joint)
    requires Inv(j) && j.up != [] && j.up[0].PublishPacket? && IdOf(j.up[0]).Some?
    ensures var p, id := SettlePublish(j.up[0].publish), IdOf(j.up[0]).value;
            && !j.broker.table.Has(id)
            && var taken := j.broker.table.Add(id, PublishEntry(p, Unacknowledged));
               OutcomeOf(j, ReceiveUp) == Quiet(j.broker.(table := taken))
  {
    var k, phase := UpMessagePhase(j);
    MessageOutcome(j.broker, j.up[0]);
    BrokerKeeps(j.broker, SettlePublish(j.up[0].publish), k);
  }

  lemma AnsweredDown(j: Joint)
    requires LegalAll(j) && SessionsOk(j) && j.down != [] && j.down[0].PublishPacket? && IdOf(j.down[0]).Some?
    ensures var p, id := j.down[0].publish, IdOf(j.down[0]).value;
            && !j.client.table.Has(id)
            && HandlePublish(j.client, SettlePublish(p)).sent
               == [Ack(if p.qos == AT_LEAST_ONCE then PubAck else PubRec, id, SUCCESS)]
  {
    var k, phase := DownMessagePhase(j);
    ClientAnswers(j.client, SettlePublish(j.down[0].publish), k);
  }

  /** Nor does the client have a message it receives already; it acknowledges each with success. */
  lemma MessageDownIsNew(j: Joint)
    requires Inv(j) && j.down != [] && j.down[0].PublishPacket? && IdOf(j.down[0]).Some?
    ensures var p, id := j.down[0].publish, IdOf(j.down[0]).value;
            && !j.client.table.Has(id)
            && OutcomeOf(j, ReceiveDown).sent == [Ack(if p.qos == AT_LEAST_ONCE then PubAck else PubRec, id, SUCCESS)]
  {
    AnsweredDown(j);
    MessageOutcome(j.client, j.down[0]);
  }

  /** At any time the surfaced messages are those sent so far, in order, without the ones still
      on their way. */
  lemma SurfacedInOrder(j: Joint, actions: seq<Action>)
    requires Initial(j) && Admissible(j, actions)
    ensures var r := Run(j, actions);
            r.sentUp == r.surfacedUp + Messages(r.up) && r.sentDown == r.surfacedDown + Messages(r.down)
  {
    InitialInv(j);
    RunInv(j, actions);
  }

  // ---------- Fresh packet ids ----------

  /** How many packet ids the client takes in a step, and in a run. */
  ghost function TakesId(j: Joint, a: Action): nat
    requires Enabled(j, a)
  {
    if Apply(j, a).client.nextId != j.client.nextId then 1 else 0
  }

  ghost function IdsTaken(j: Joint, actions: seq<Action>): nat
    requires Admissible(j, actions)
    decreases |actions|
  {
    if actions == [] then 0 else TakesId(j, actions[0]) + IdsTaken(Apply(j, actions[0]), actions[1..])
  }

  /** The client has taken `n` packet ids, its counter has not come round, and all its packet ids
      lie below it. */
  ghost predicate BelowCounter(j: Joint, n: nat) {
    && j.client.nextId == 1 + n
    && (forall id :: id in j.client.table.items && id !in j.reserved ==> id < j.client.nextId)
    && (forall id :: id in j.spent ==> id < j.client.nextId)
  }

  /** A request of the client enters at most the packet id the counter hands out. */
  lemma RequestIds(j: Joint, a: Action)
    requires Enabled(j, a) && (a.ClientPublishes? || a.ClientSubscribes? || a.ClientUnsubscribes?)
    ensures var s, s' := j.client, OutcomeOf(j, a).session;
            && (s'.nextId == s.nextId || s'.nextId == NextId(s.nextId))
            && (forall id :: id in s'.table.items && id !in s.table.items ==>
                  id == s.nextId && s'.nextId == NextId(s.nextId))
    ensures forall id :: id in UnsubscribeIds(OutcomeOf(j, a).sent) ==>
              id == j.client.nextId && OutcomeOf(j, a).session.nextId == NextId(j.client.nextId)
  {
  }

  /** Receiving enters at most the packet id of a message, and leaves the counter alone. */
  lemma ReceivedIds(s: Session, p: Packet)
    requires s.role == ClientRole && IdOf(p).Some?
    ensures var s' := HandlePacket(s, p).session;
            && s'.nextId == s.nextId
            && (forall id :: id in s'.table.items && id !in s.table.items ==> p.PublishPacket? && IdOf(p) == Some(id))
  {
  }

  lemma DownIds(j: Joint)
    requires LegalAll(j) && InFlightOk(j.down) && j.down != [] && j.client.role == ClientRole
    ensures var s' := HandlePacket(j.client, Settled(j.down[0])).session;
            && s'.nextId == j.client.nextId
            && (forall id :: id in s'.table.items && id !in j.client.table.items ==> id in j.reserved)
  {
    var p := j.down[0];
    assert p in j.down;
    SettledId(p);
    if IdOf(p).Some? {
      ReceivedIds(j.client, Settled(p));
      if p.PublishPacket? {
        var k, phase := DownMessagePhase(j);
      }
    } else {
      MessageOutcome(j.client, p);
    }
  }

  lemma BelowReceive(j: Joint, n: nat)
    requires Inv(j) && j.down != [] && BelowCounter(j, n)
    ensures BelowCounter(Apply(j, ReceiveDown), n)
  {
    DownIds(j);
  }

  lemma BelowStep(j: Joint, a: Action, n: nat)
    requires Inv(j) && Enabled(j, a) && BelowCounter(j, n) && n + TakesId(j, a) <= 65534
    ensures BelowCounter(Apply(j, a), n + TakesId(j, a))
  {
    if a.ReceiveDown? {
      BelowReceive(j, n);
    } else if a.ClientPublishes? || a.ClientSubscribes? || a.ClientUnsubscribes? {
      RequestIds(j, a);
    }
  }

  lemma {:induction false} BelowRun(j: Joint, actions: seq<Action>, n: nat)
    requires Inv(j) && Admissible(j, actions) && BelowCounter(j, n) && n + IdsTaken(j, actions) <= 65534
    ensures BelowCounter(Run(j, actions), n + IdsTaken(j, actions))
    decreases |actions|
  {
    if actions != [] {
      BelowStep(j, actions[0], n);
      Step(j, actions[0]);
      BelowRun(Apply(j, actions[0]), actions[1..], n + TakesId(j, actions[0]));
    }
  }

  /** While the client has taken at most 65534 packet ids in a connection, the next one is fresh
      unless the broker has reserved it. */
  lemma FreshAtFirst(j: Joint, actions: seq<Action>)
    requires Initial(j) && j.client.nextId == 1 && Admissible(j, actions) && IdsTaken(j, actions) <= 65534
    ensures var r := Run(j, actions); r.client.nextId !in r.reserved ==> Fresh(r, r.client.nextId)
  {
    InitialInv(j);
    BelowRun(j, actions, 0);
  }

  // ---------- Packet ids in use ----------

  /** The acknowledgement that belongs to a request. */
  predicate OwnKind(request: Packet, reply: Packet) {
    match request
    case PublishPacket(p) => reply.AckPacket? && reply.kind == if p.qos == AT_LEAST_ONCE then PubAck else PubRec
    case SubscribePacket(_, subs, _) =>
      reply.CodesPacket? && reply.codesKind == SubAck && |reply.reasonCodes| == |subs|
    case UnsubscribePacket(_, patterns, _) =>
      reply.CodesPacket? && reply.codesKind == UnsubAck && |reply.reasonCodes| == |patterns|
    case _ => false
  }

  /** A request under a packet id in use changes nothing. It is answered with the acknowledgement of
      its own kind if and only if it is no UNSUBSCRIBE. A client refuses a message under a packet id
      of its own in the same way, so the two sides must use different ones. */
  lemma CollisionAnswer(s: Session, request: Packet)
    requires s.state == Connected
    requires request.PublishPacket?
             || (s.role == BrokerRole && (request.SubscribePacket? || request.UnsubscribePacket?))
    requires IdOf(request).Some? && s.table.Has(IdOf(request).value)
    ensures var o := HandlePacket(s, request);
            && o.status == Done && o.session == s && |o.sent| == 1 && IdOf(o.sent[0]) == IdOf(request)
            && (OwnKind(request, o.sent[0]) <==> !request.UnsubscribePacket?)
  {
    var reply := HandlePacket(s, request).sent[0];
    assert reply.CodesPacket? ==> reply.codesKind == SubAck;
  }

  /** The client that made the request handles this answer without an exception if and only if the
      request is no UNSUBSCRIBE. */
  lemma CollisionHeard(s: Session, id: PacketId, entry: Pending)
    requires s.role == ClientRole && s.state == Connected && s.table.Get(id) == Some(entry)
    requires entry.PublishEntry? ==> entry.publish.qos > AT_MOST_ONCE && entry.ack == Unacknowledged
    ensures HandlePacket(s, CollisionReply(id, entry)).status
         == if entry.UnsubscribeEntry? then Raised(ProtocolError) else Done
  {
  }

  /** What happens if the broker uses a packet id that the client has pending. The client refuses the
      message, which the broker takes for an acknowledgement. A QoS 1 message is then over; the
      PUBREL for a QoS 2 message raises at the client, except that its entry under the id is itself
      a QoS 2 message it has taken in. */
  lemma SharedId(client: Session, broker: Session, id: PacketId, p: Publish)
    requires client.role == ClientRole && client.state == Connected && client.table.Has(id)
    requires broker.role == BrokerRole && broker.state == Connected
    requires broker.table.Get(id) == Some(PublishEntry(p, Unacknowledged))
    requires p.packetId == Some(id) && p.qos > AT_MOST_ONCE
    ensures var refused := HandlePacket(client, PublishPacket(p));
            var heard := HandlePacket(broker, refused.sent[0]);
            && refused.session == client && ReportsInUse(refused.sent[0]) && heard.status == Done
            && if p.qos == AT_LEAST_ONCE then !heard.session.table.Has(id)
               else
                 var released := ReleasePublish(heard.session, id, SUCCESS);
                 && released.status == Done
                 && (HandlePacket(client, released.sent[0]).status == Done
                     <==> InState(client.table.items[id], Acknowledged))
  {
  }

  // ---------- How the two get connected ----------

  /** The CONNECT and CONNACK exchange of two new sessions leads to the initial states, unless the
      keep-alive interval or a text of the CONNECT packet is too large to be encoded. */
  lemma Connection(clientId: Text, a: ConnectArgs, reserved: set<PacketId>)
    requires 0 !in reserved
    ensures var asked := ClientConnect(NewSession(ClientRole, clientId), a);
            if !ConnectFits(NewConnect(clientId, a)) then asked == Fail(NewSession(ClientRole, clientId), Overflow)
            else
              var heard := HandlePacket(NewSession(BrokerRole, []), asked.sent[0]);
              var answered := AcknowledgeConnect(heard.session, SUCCESS, false);
              var connected := HandlePacket(asked.session, answered.sent[0]);
              && asked.status == heard.status == answered.status == connected.status == Done
              && Initial(Joint(connected.session, answered.session, [], [],
                               {}, {}, {}, {}, reserved, {}, false, [], [], [], []))
  {
  }
}
