/** The client acknowledges what it receives by itself. In every run of calls and arbitrary
    inbound bytes the two directions of QoS 2 traffic stay apart in its one table of pending
    packets, and each exchange sends its acknowledgements once. */
module AutoAcknowledge {
  import opened Bytes
  import opened Properties
  import opened Subscriptions
  import opened Packets
  import opened Decoding
  import opened Range
  import opened Sessions
  import opened SessionFacts
  import opened Feeding
  import opened Handshake
  import opened Resumption

  // ---------- Runs of a client ----------

  datatype Op =
    | Connects(arguments: ConnectArgs)
    | Disconnects(reason: ReasonCode)
    | Pings
    | Publishes(topic: Text, payload: Payload, retain: bool, qos: QoS)
    | Subscribes(requested: seq<Subscription>)
    | Unsubscribes(patterns: seq<Text>)
    | Feeds(data: seq<byte>)

  /** The client with its inbound buffer, and what happened so far: the packet ids of the entries
      its own calls made (`mine`), those under which it began a QoS 2 exchange of its own
      (`begun`), those under which it took in a QoS 2 message (`admitted`), every packet it sent,
      and whether a call of `feed_bytes` has raised (`failed`). */
  datatype History = History(
    session: Session,
    buffer: seq<byte>,
    mine: set<PacketId>,
    begun: seq<PacketId>,
    admitted: seq<PacketId>,
    sent: seq<Packet>,
    failed: bool)

  function NewHistory(clientId: Text): History {
    History(NewSession(ClientRole, clientId), [], {}, [], [], [], false)
  }

  /** Arguments a caller can give. */
  ghost predicate OpOk(op: Op) {
    match op
    case Connects(a) => ConnectFormed(NewConnect([], a))
    case Disconnects(_) => true
    case Pings => true
    case Publishes(topic, payload, _, _) => ValidUtf8(topic) && (payload.TextPayload? ==> ValidUtf8(payload.text))
    case Subscribes(requested) => FiltersValid(requested) && forall s :: s in requested ==> ValidUtf8(s.pattern)
    case Unsubscribes(patterns) => forall t :: t in patterns ==> ValidUtf8(t)
    case Feeds(_) => true
  }

  function CallOutcome(s: Session, op: Op): Outcome
    requires !op.Feeds?
  {
    match op
    case Connects(a) => ClientConnect(s, a)
    case Disconnects(reason) => ClientDisconnect(s, reason)
    case Pings => ClientPing(s)
    case Publishes(topic, payload, retain, qos) => ClientPublish(s, topic, payload, retain, qos)
    case Subscribes(requested) => ClientSubscribe(s, requested)
    case Unsubscribes(patterns) => ClientUnsubscribe(s, patterns)
  }

  /** The entries that a call adds are the client's own. A call may raise; the client goes on with
      whatever the call has changed by then. */
  function Call(h: History, op: Op): History
    requires !op.Feeds?
  {
    var o := CallOutcome(h.session, op);
    var id := h.session.nextId;
    var added := o.session.table.Has(id) && !h.session.table.Has(id);
    h.(session := o.session, sent := h.sent + o.sent,
       mine := h.mine + (if added then {id} else {}),
       begun := h.begun + (if added && op.Publishes? && op.qos == EXACTLY_ONCE then [id] else []))
  }

  /** The packet id of a QoS 2 message that finds its packet id free. Packet id 0 is none. */
  function Admits(t: Table, p: Packet): seq<PacketId> {
    if p.PublishPacket? && p.publish.qos == EXACTLY_ONCE && p.publish.packetId.Some?
       && p.publish.packetId.value != 0 && !t.Has(p.publish.packetId.value)
    then [p.publish.packetId.value] else []
  }

  function Receive(h: History, p: Packet): History {
    var o := HandlePacket(h.session, p);
    h.(session := o.session, sent := h.sent + o.sent, failed := h.failed || o.status != Done,
       mine := h.mine * o.session.table.items.Keys,
       admitted := h.admitted + Admits(h.session.table, p))
  }

  function ReceiveAll(h: History, ps: seq<Packet>): History
    decreases |ps|
  {
    if ps == [] then h else ReceiveAll(Receive(h, ps[0]), ps[1..])
  }

  /** Feeding bytes; `fed.received` are the packets they complete. If it raises, the buffer stays uncut. */
  function After(h: History, op: Op): History {
    if !op.Feeds? then Call(h, op)
    else
      var fed := Drain(h.session, h.buffer + op.data);
      ReceiveAll(h, fed.received).(
        session := fed.session, sent := h.sent + fed.sent,
        buffer := if fed.error.None? then fed.rest else h.buffer + op.data,
        failed := h.failed || fed.error.Some?)
  }

  function Life(h: History, ops: seq<Op>): History
    decreases |ops|
  {
    if ops == [] then h else Life(After(h, ops[0]), ops[1..])
  }

  lemma {:induction false} FailureStays(h: History, ops: seq<Op>)
    ensures h.failed ==> Life(h, ops).failed
    decreases |ops|
  {
    if ops != [] {
      FailureStays(After(h, ops[0]), ops[1..]);
    }
  }

  // ---------- The invariant ----------

  /** Entries of its own: requests, and messages that wait for PUBACK, for PUBREC, or for PUBCOMP.
      Other entries are QoS 2 messages it has answered with PUBREC. A message that arrives under
      packet id 0 counts as its own, for the client never answers it by itself. */
  ghost predicate EntryFits(id: PacketId, entry: Pending, own: bool) {
    if entry.PublishEntry? then
      && entry.publish.packetId == Some(id) && WireSafe(PublishPacket(entry.publish))
      && if own || id == 0
         then entry.ack == Unacknowledged || (entry.publish.qos == EXACTLY_ONCE && entry.ack == Released)
         else entry.publish.qos == EXACTLY_ONCE && entry.ack == Acknowledged
    else own
  }

  ghost predicate TableFits(t: Table, mine: set<PacketId>) {
    && 0 !in mine && mine <= t.items.Keys
    && forall id :: id in t.items ==> EntryFits(id, t.items[id], id in mine)
  }

  ghost predicate ClientFits(s: Session, mine: set<PacketId>) {
    s.role == ClientRole && s.nextId != 0 && TableFits(s.table, mine)
  }

  /** How often a packet reports success. */
  function Successes(ps: seq<Packet>, kind: AckKind, id: PacketId): nat {
    if ps == [] then 0
    else
      (if ps[0].AckPacket? && ps[0].kind == kind && ps[0].packetId == id && ps[0].reason == SUCCESS then 1 else 0)
      + Successes(ps[1..], kind, id)
  }

  function Count(ids: seq<PacketId>, id: PacketId): nat {
    multiset(ids)[id]
  }

  /** 1 if a QoS 2 entry in this state is pending under the packet id. */
  function Waiting(t: Table, id: PacketId, ack: AckState): nat {
    if Holds(t.Get(id), EXACTLY_ONCE, ack) then 1 else 0
  }

  /** Every exchange that began or was under way has sent its acknowledgement or is still under
      way: PUBREL for its own messages, PUBREC and PUBCOMP for those it took in. */
  ghost predicate Balanced(before: Table, after: Table,
                           begun: seq<PacketId>, admitted: seq<PacketId>, sent: seq<Packet>) {
    forall id: PacketId :: id != 0 ==> BalancedAt(before, after, begun, admitted, sent, id)
  }

  ghost predicate BalancedAt(before: Table, after: Table,
                             begun: seq<PacketId>, admitted: seq<PacketId>, sent: seq<Packet>, id: PacketId) {
    && Count(begun, id) + Waiting(before, id, Unacknowledged)
       == Successes(sent, PubRel, id) + Waiting(after, id, Unacknowledged)
    && Count(admitted, id) == Successes(sent, PubRec, id)
    && Count(admitted, id) + Waiting(before, id, Acknowledged)
       == Successes(sent, PubComp, id) + Waiting(after, id, Acknowledged)
  }

  lemma {:induction false} SuccessesAppend(a: seq<Packet>, b: seq<Packet>, kind: AckKind, id: PacketId)
    ensures Successes(a + b, kind, id) == Successes(a, kind, id) + Successes(b, kind, id)
  {
    if a == [] {
      assert a + b == b;
    } else {
      assert (a + b)[1..] == a[1..] + b;
      SuccessesAppend(a[1..], b, kind, id);
    }
  }

  predicate Unsuccessful(p: Packet) {
    p.AckPacket? ==> p.reason != SUCCESS
  }

  lemma {:induction false} NoSuccess(ps: seq<Packet>)
    requires forall p :: p in ps ==> Unsuccessful(p)
    ensures forall kind, id :: Successes(ps, kind, id) == 0
  {
    if ps != [] {
      assert Unsuccessful(ps[0]);
      NoSuccess(ps[1..]);
    }
  }

  lemma BalancedTwice(t0: Table, t1: Table, t2: Table,
                      o1: seq<PacketId>, a1: seq<PacketId>, s1: seq<Packet>,
                      o2: seq<PacketId>, a2: seq<PacketId>, s2: seq<Packet>)
    requires Balanced(t0, t1, o1, a1, s1) && Balanced(t1, t2, o2, a2, s2)
    ensures Balanced(t0, t2, o1 + o2, a1 + a2, s1 + s2)
  {
    forall id: PacketId | id != 0 ensures BalancedAt(t0, t2, o1 + o2, a1 + a2, s1 + s2, id) {
      assert BalancedAt(t0, t1, o1, a1, s1, id) && BalancedAt(t1, t2, o2, a2, s2, id);
      SuccessesAppend(s1, s2, PubRel, id);
      SuccessesAppend(s1, s2, PubRec, id);
      SuccessesAppend(s1, s2, PubComp, id);
    }
  }

  // ---------- One packet id at a time ----------

  /** A step that changes the entry of one packet id, and acknowledges nothing else. */
  ghost predicate OnlyAt(t: Table, t': Table, mine: set<PacketId>, mine': set<PacketId>,
                         k: PacketId, sent: seq<Packet>) {
    && (forall id: PacketId :: id != k ==> t'.Get(id) == t.Get(id) && (id in mine' <==> id in mine))
    && (k in mine' ==> t'.Has(k) && k != 0)
    && (t'.Has(k) ==> EntryFits(k, t'.items[k], k in mine'))
    && (forall p :: p in sent ==> Unsuccessful(p) || (p.AckPacket? && p.packetId == k))
  }

  lemma {:induction false} NoneFor(ps: seq<Packet>, k: PacketId, id: PacketId)
    requires id != k && forall p :: p in ps ==> Unsuccessful(p) || (p.AckPacket? && p.packetId == k)
    ensures forall kind :: Successes(ps, kind, id) == 0
  {
    if ps != [] {
      assert ps[0] in ps;
      NoneFor(ps[1..], k, id);
    }
  }

  ghost predicate Just(ids: seq<PacketId>, k: PacketId) {
    ids == [] || ids == [k]
  }

  lemma StepAt(t: Table, t': Table, mine: set<PacketId>, mine': set<PacketId>, k: PacketId,
               begun: seq<PacketId>, admitted: seq<PacketId>, sent: seq<Packet>)
    requires TableFits(t, mine) && OnlyAt(t, t', mine, mine', k, sent) && Just(begun, k) && Just(admitted, k)
    requires k != 0 ==> BalancedAt(t, t', begun, admitted, sent, k)
    ensures TableFits(t', mine') && Balanced(t, t', begun, admitted, sent)
  {
    forall id: PacketId | id != k
      ensures id in mine' ==> id in t'.items && id != 0
      ensures id in t'.items ==> EntryFits(id, t'.items[id], id in mine')
      ensures id != 0 ==> BalancedAt(t, t', begun, admitted, sent, id)
    {
      assert t'.Get(id) == t.Get(id);
      NoneFor(sent, k, id);
    }
  }

  /** Nothing changes, and nothing is acknowledged. */
  lemma StepNowhere(t: Table, mine: set<PacketId>, sent: seq<Packet>)
    requires TableFits(t, mine) && forall p :: p in sent ==> Unsuccessful(p)
    ensures mine * t.items.Keys == mine && Balanced(t, t, [], [], sent)
  {
    NoSuccess(sent);
  }

  // ---------- Inbound packets ----------

  /** What handling a packet must establish. */
  ghost predicate Handled(s: Session, mine: set<PacketId>, p: Packet) {
    var o := HandlePacket(s, p);
    && ClientFits(o.session, mine * o.session.table.items.Keys)
    && Balanced(s.table, o.session.table, [], Admits(s.table, p), o.sent)
  }

  /** A new message: of QoS 1 it is answered and gone, of QoS 2 it is answered and kept. */
  ghost predicate TakenIn(t: Table, t': Table, p: Publish, k: PacketId, sent: seq<Packet>) {
    && p.packetId == Some(k) && p.qos > AT_MOST_ONCE && !t.Has(k)
    && (forall id: PacketId :: id != k ==> t'.Get(id) == t.Get(id))
    && if k == 0 then t'.Get(k) == Some(PublishEntry(p, Unacknowledged)) && sent == []
       else if p.qos == AT_LEAST_ONCE then t'.Get(k).None? && sent == [Ack(PubAck, k, SUCCESS)]
       else t'.Get(k) == Some(PublishEntry(p, Acknowledged)) && sent == [Ack(PubRec, k, SUCCESS)]
  }

  lemma MessageTakenIn(s: Session, p: Publish, k: PacketId)
    requires s.role == ClientRole && HandlePublish(s, p).status == Done
    requires p.packetId == Some(k) && p.qos > AT_MOST_ONCE && !s.table.Has(k)
    ensures var o := HandlePublish(s, p);
            o.session == s.(table := o.session.table) && TakenIn(s.table, o.session.table, p, k, o.sent)
  {
  }

  lemma TakenInFits(t: Table, t': Table, mine: set<PacketId>, p: Publish, k: PacketId, sent: seq<Packet>)
    requires TableFits(t, mine) && WireSafe(PublishPacket(p)) && TakenIn(t, t', p, k, sent)
    ensures TableFits(t', mine * t'.items.Keys) && Balanced(t, t', [], Admits(t, PublishPacket(p)), sent)
  {
    assert k !in mine;
    StepAt(t, t', mine, mine * t'.items.Keys, k, [], Admits(t, PublishPacket(p)), sent);
  }

  lemma MessageHandled(s: Session, mine: set<PacketId>, p: Publish)
    requires ClientFits(s, mine) && WireSafe(PublishPacket(p)) && HandlePublish(s, p).status == Done
    ensures Handled(s, mine, PublishPacket(p))
  {
    var o := HandlePublish(s, p);
    if p.packetId.None? {
      StepNowhere(s.table, mine, []);
    } else if s.table.Has(p.packetId.value) {
      StepNowhere(s.table, mine, o.sent);
    } else {
      MessageTakenIn(s, p, p.packetId.value);
      TakenInFits(s.table, o.session.table, mine, p, p.packetId.value, o.sent);
    }
  }

  /** What a client does to the entry of an acknowledgement that raises nothing, and what it
      answers. */
  ghost predicate Answered(entry: Pending, after: Option<Pending>, kind: AckKind, id: PacketId, sent: seq<Packet>) {
    entry.PublishEntry? &&
    match kind
    case PubAck => entry.publish.qos == AT_LEAST_ONCE && after.None? && sent == []
    case PubRec =>
      InState(entry, Unacknowledged) && after == Some(entry.(ack := Released)) && sent == [Ack(PubRel, id, SUCCESS)]
    case PubRel => InState(entry, Acknowledged) && after.None? && sent == [Ack(PubComp, id, SUCCESS)]
    case PubComp => InState(entry, Released) && after.None? && sent == []
  }

  lemma AckAnswered(s: Session, kind: AckKind, id: PacketId)
    requires s.role == ClientRole && HandleAck(s, kind, id).status == Done && s.table.Has(id)
    ensures var o := HandleAck(s, kind, id);
            && Answered(s.table.items[id], o.session.table.Get(id), kind, id, o.sent)
            && o.session == s.(table := o.session.table)
            && forall k: PacketId :: k != id ==> o.session.table.Get(k) == s.table.Get(k)
  {
  }

  lemma AnsweredFits(t: Table, t': Table, mine: set<PacketId>, kind: AckKind, id: PacketId, sent: seq<Packet>)
    requires TableFits(t, mine) && t.Has(id) && Answered(t.items[id], t'.Get(id), kind, id, sent)
    requires forall k: PacketId :: k != id ==> t'.Get(k) == t.Get(k)
    ensures TableFits(t', mine * t'.items.Keys) && Balanced(t, t', [], [], sent)
  {
    assert EntryFits(id, t.items[id], id in mine);
    StepAt(t, t', mine, mine * t'.items.Keys, id, [], [], sent);
  }

  lemma AckUnknown(s: Session, kind: AckKind, id: PacketId)
    requires HandleAck(s, kind, id).status == Done && !s.table.Has(id)
    ensures HandleAck(s, kind, id).session == s && forall p :: p in HandleAck(s, kind, id).sent ==> Unsuccessful(p)
  {
  }

  lemma AckHandled(s: Session, mine: set<PacketId>, p: Packet)
    requires ClientFits(s, mine) && p.AckPacket? && HandlePacket(s, p).status == Done
    ensures Handled(s, mine, p)
  {
    var o := HandleAck(s, p.kind, p.packetId);
    assert o == HandlePacket(s, p);
    if s.table.Has(p.packetId) {
      AckAnswered(s, p.kind, p.packetId);
      AnsweredFits(s.table, o.session.table, mine, p.kind, p.packetId, o.sent);
    } else {
      AckUnknown(s, p.kind, p.packetId);
      StepNowhere(s.table, mine, o.sent);
    }
  }

  lemma CodesHandled(s: Session, mine: set<PacketId>, p: Packet)
    requires ClientFits(s, mine) && p.CodesPacket? && HandlePacket(s, p).status == Done
    ensures Handled(s, mine, p)
  {
    var o := HandlePacket(s, p);
    if s.table.Has(p.packetId) {
      StepAt(s.table, o.session.table, mine, mine * o.session.table.items.Keys, p.packetId, [], [], o.sent);
    } else {
      StepNowhere(s.table, mine, o.sent);
    }
  }

  /** A resent message keeps its place in the exchange. */
  ghost predicate Survives(before: Table, after: Table) {
    && after.items.Keys <= before.items.Keys
    && (forall id :: id in before.items && id !in after.items ==> !before.items[id].PublishEntry?)
    && (forall id :: id in after.items ==>
          after.items[id] == before.items[id]
          || (before.items[id].PublishEntry? && after.items[id] == Again(before.items[id])))
  }

  lemma SurvivorsFit(t: Table, t': Table, mine: set<PacketId>, sent: seq<Packet>)
    requires TableFits(t, mine) && Survives(t, t') && forall p :: p in sent ==> p.PublishPacket?
    ensures TableFits(t', mine * t'.items.Keys) && Balanced(t, t', [], [], sent)
  {
    assert forall p :: p in sent ==> Unsuccessful(p);
    NoSuccess(sent);
  }

  lemma ConnAckHandled(s: Session, mine: set<PacketId>, p: Packet)
    requires ClientFits(s, mine) && p.ConnAckPacket? && HandlePacket(s, p).status == Done
    ensures Handled(s, mine, p)
  {
    if p.reason != SUCCESS {
      StepNowhere(s.table, mine, []);
    } else {
      var s' := Reset(s.(state := Connected), p.sessionPresent);
      ResendKeeps(s', s'.table.order);
      var o := Resend(s', s'.table.order);
      SurvivorsFit(s.table, o.session.table, mine, o.sent);
    }
  }

  lemma PacketHandled(s: Session, mine: set<PacketId>, p: Packet)
    requires ClientFits(s, mine) && WireSafe(p) && HandlePacket(s, p).status == Done
    ensures Handled(s, mine, p)
  {
    match p
    case PublishPacket(publish) => MessageHandled(s, mine, publish);
    case AckPacket(_, _, _, _) => AckHandled(s, mine, p);
    case ConnAckPacket(_, _, _) => ConnAckHandled(s, mine, p);
    case CodesPacket(_, _, _, _) => CodesHandled(s, mine, p);
    case _ => StepNowhere(s.table, mine, []);
  }

  // ---------- Calls ----------

  lemma RequestHandled(s: Session, mine: set<PacketId>, id: PacketId, p: Packet, entry: Pending)
    requires ClientFits(s, mine) && id != 0 && !p.AckPacket? && EntryFits(id, entry, true)
    requires entry.PublishEntry? ==> entry.ack == Unacknowledged
    ensures var o := SendRequest(s, id, p, entry);
            var added := !s.table.Has(id);
            && o.session == s.(table := o.session.table) && (added <==> o.session.table.Has(id) && !s.table.Has(id))
            && TableFits(o.session.table, mine + if added then {id} else {})
            && Balanced(s.table, o.session.table,
                        if added && entry.PublishEntry? && entry.publish.qos == EXACTLY_ONCE then [id] else [],
                        [], o.sent)
  {
    var o := SendRequest(s, id, p, entry);
    if s.table.Has(id) {
      StepNowhere(s.table, mine, o.sent);
    } else {
      StepAt(s.table, o.session.table, mine, mine + {id}, id,
             if entry.PublishEntry? && entry.publish.qos == EXACTLY_ONCE then [id] else [], [], o.sent);
    }
  }

  lemma PublishHandled(h: History, op: Op)
    requires ClientFits(h.session, h.mine) && op.Publishes? && OpOk(op) && CallOutcome(h.session, op).status == Done
    ensures CallHandled(h, op)
  {
    var s := h.session;
    if op.qos == AT_MOST_ONCE {
      StepNowhere(s.table, h.mine, CallOutcome(s, op).sent);
    } else {
      var p := NewPublish(op.topic, op.payload, Some(s.nextId), op.retain, op.qos);
      NewPublishOk(op.topic, op.payload, Some(s.nextId), op.retain, op.qos);
      RequestHandled(s.(nextId := NextId(s.nextId)), h.mine, s.nextId,
                     PublishPacket(p), PublishEntry(p, Unacknowledged));
    }
  }

  /** What a call must establish. */
  ghost predicate CallHandled(h: History, op: Op)
    requires !op.Feeds?
  {
    var h', o := Call(h, op), CallOutcome(h.session, op);
    && ClientFits(h'.session, h'.mine)
    && |h.begun| <= |h'.begun|
    && Balanced(h.session.table, h'.session.table, h'.begun[|h.begun|..], [], o.sent)
  }

  lemma SubscribeHandled(h: History, op: Op)
    requires ClientFits(h.session, h.mine) && (op.Subscribes? || op.Unsubscribes?)
    requires CallOutcome(h.session, op).status == Done
    ensures CallHandled(h, op)
  {
    var s := h.session;
    var id := s.nextId;
    if op.Subscribes? {
      var (subs, counts, new') := CountUp(s.subscriptions, s.counts, op.requested);
      if new' == [] {
        StepNowhere(s.table, h.mine, []);
      } else {
        RequestHandled(s.(subscriptions := subs, counts := counts, nextId := NextId(id)), h.mine, id,
                       SubscribePacket(id, new', NO_PROPS), SubscribeEntry(new'));
      }
    } else {
      var down := CountDown(s.subscriptions, s.counts, op.patterns);
      if down.gone == [] {
        StepNowhere(s.table, h.mine, []);
      } else {
        RequestHandled(s.(subscriptions := down.subs, counts := down.counts, nextId := NextId(id)), h.mine, id,
                       UnsubscribePacket(id, down.gone, NO_PROPS), UnsubscribeEntry(down.gone));
      }
    }
  }

  /** A call that raises sends nothing and leaves the table alone. One made in the wrong state changes
      nothing at all. */
  lemma RaisingCall(s: Session, op: Op)
    requires !op.Feeds? && CallOutcome(s, op).status != Done
    ensures var o := CallOutcome(s, op);
            && o.status.Raised? && o.sent == [] && o.session.role == s.role && o.session.table == s.table
            && (o.session.nextId == s.nextId || o.session.nextId == NextId(s.nextId))
            && (o.status.error == ProtocolError ==> o.session == s)
  {
  }

  lemma AnyCallHandled(h: History, op: Op)
    requires ClientFits(h.session, h.mine) && !op.Feeds? && OpOk(op)
    ensures CallHandled(h, op)
  {
    if CallOutcome(h.session, op).status != Done {
      RaisingCall(h.session, op);
      StepNowhere(h.session.table, h.mine, []);
    } else {
      var sent := CallOutcome(h.session, op).sent;
      match op
      case Publishes(_, _, _, _) => PublishHandled(h, op);
      case Subscribes(_) => SubscribeHandled(h, op);
      case Unsubscribes(_) => SubscribeHandled(h, op);
      case _ => StepNowhere(h.session.table, h.mine, sent);
    }
  }

  // ---------- Whole runs ----------

  const EMPTY: Table := Table(map[], [])

  ghost predicate HistoryOk(h: History) {
    && SessionValid(h.session) && ClientFits(h.session, h.mine)
    && Balanced(EMPTY, h.session.table, h.begun, h.admitted, h.sent)
  }

  lemma CallValid(s: Session, op: Op)
    requires SessionValid(s) && !op.Feeds? && OpOk(op)
    ensures SessionValid(CallOutcome(s, op).session)
  {
    match op
    case Publishes(topic, payload, retain, qos) => ClientPublishValid(s, topic, payload, retain, qos);
    case Subscribes(requested) => ClientSubscribeValid(s, requested);
    case Unsubscribes(patterns) => ClientUnsubscribeValid(s, patterns);
    case _ =>
  }

  lemma CallKeeps(h: History, op: Op)
    requires HistoryOk(h) && !op.Feeds? && OpOk(op)
    ensures HistoryOk(Call(h, op))
  {
    AnyCallHandled(h, op);
    CallValid(h.session, op);
    var h', o := Call(h, op), CallOutcome(h.session, op);
    BalancedTwice(EMPTY, h.session.table, h'.session.table,
                  h.begun, h.admitted, h.sent, h'.begun[|h.begun|..], [], o.sent);
    assert h.begun + h'.begun[|h.begun|..] == h'.begun && h.admitted + [] == h.admitted;
  }

  lemma ReceiveKeeps(h: History, p: Packet)
    requires HistoryOk(h) && PacketOk(p) && WireSafe(p) && !Receive(h, p).failed
    ensures HistoryOk(Receive(h, p))
  {
    HandleValid(h.session, p);
    PacketHandled(h.session, h.mine, p);
    var h', o := Receive(h, p), HandlePacket(h.session, p);
    BalancedTwice(EMPTY, h.session.table, h'.session.table,
                  h.begun, h.admitted, h.sent, [], Admits(h.session.table, p), o.sent);
    assert h.begun + [] == h.begun;
  }

  /** Feeding bytes is receiving the packets they complete, one by one. */
  lemma {:induction false} FeedReceives(h: History, data: seq<byte>)
    requires HistoryOk(h) && !h.failed && Drain(h.session, data).error.None?
    ensures var fed := Drain(h.session, data);
            var h' := ReceiveAll(h, fed.received);
            HistoryOk(h') && !h'.failed && h'.session == fed.session && h'.sent == h.sent + fed.sent
    decreases |data|
  {
    if data != [] && DecodePacket(data).Ok? {
      PacketRange(data);
      var p := DecodePacket(data).value;
      var next := Receive(h, p);
      ReceiveKeeps(h, p);
      FeedReceives(next, DecodePacket(data).rest);
      var fed := Drain(next.session, DecodePacket(data).rest);
      Assoc(h.sent, HandlePacket(h.session, p).sent, fed.sent);
      assert ([p] + fed.received)[1..] == fed.received;
    } else {
      assert h.sent + [] == h.sent;
    }
  }

  lemma {:induction false} LifeKeeps(h: History, ops: seq<Op>)
    requires HistoryOk(h) && (forall op :: op in ops ==> OpOk(op)) && !Life(h, ops).failed
    ensures HistoryOk(Life(h, ops))
    decreases |ops|
  {
    if ops != [] {
      FailureStays(h, ops);
      FailureStays(After(h, ops[0]), ops[1..]);
      if ops[0].Feeds? {
        FeedReceives(h, h.buffer + ops[0].data);
      } else {
        CallKeeps(h, ops[0]);
      }
      LifeKeeps(After(h, ops[0]), ops[1..]);
    }
  }

  /** In every run of calls, of which any may raise, and of arbitrary inbound bytes that `feed_bytes`
      raises nothing on, from a new client on and through any number of connections: its own QoS 2
      messages are unacknowledged or released, those it took in are acknowledged and no more, and no
      QoS 1 message it took in is pending. It has sent one PUBREL for every QoS 2 exchange it began,
      except for those still unacknowledged, one PUBREC for every QoS 2 message it took in, and one
      PUBCOMP for each of these that is no longer pending. Every pending publish survives the wire,
      and every pending or installed subscription has a valid filter. */
  lemma RoleInvariant(clientId: Text, ops: seq<Op>)
    requires (forall op :: op in ops ==> OpOk(op)) && !Life(NewHistory(clientId), ops).failed
    ensures var h := Life(NewHistory(clientId), ops);
            && (forall id :: id in h.session.table.items ==> EntryFits(id, h.session.table.items[id], id in h.mine))
            && (forall id: PacketId :: id != 0 ==>
                  && Count(h.begun, id) == Successes(h.sent, PubRel, id) + Waiting(h.session.table, id, Unacknowledged)
                  && Count(h.admitted, id) == Successes(h.sent, PubRec, id)
                  && Count(h.admitted, id)
                     == Successes(h.sent, PubComp, id) + Waiting(h.session.table, id, Acknowledged))
            && SessionValid(h.session) && TableSafe(h.session.table)
  {
    StepNowhere(EMPTY, {}, []);
    LifeKeeps(NewHistory(clientId), ops);
    var h := Life(NewHistory(clientId), ops);
    forall id: PacketId | id != 0
      ensures Count(h.begun, id) == Successes(h.sent, PubRel, id) + Waiting(h.session.table, id, Unacknowledged)
      ensures Count(h.admitted, id) == Successes(h.sent, PubRec, id)
      ensures Count(h.admitted, id) == Successes(h.sent, PubComp, id) + Waiting(h.session.table, id, Acknowledged)
    {
      assert BalancedAt(EMPTY, h.session.table, h.begun, h.admitted, h.sent, id);
      assert Waiting(EMPTY, id, Unacknowledged) == Waiting(EMPTY, id, Acknowledged) == 0;
    }
  }

  /** The client answers a message by itself if and only if its packet id is not 0: with PUBACK or
      PUBREC. A message under packet id 0 stays pending, unacknowledged. */
  lemma ZeroIsNotAnswered(s: Session, p: Publish)
    requires s.role == ClientRole && s.state == Connected && p.qos > AT_MOST_ONCE
    requires p.packetId.Some? && !s.table.Has(p.packetId.value)
    ensures var o, id := HandlePacket(s, PublishPacket(p)), p.packetId.value;
            && o.status == Done
            && (id != 0 <==> o.sent == [Ack(if p.qos == AT_LEAST_ONCE then PubAck else PubRec, id, SUCCESS)])
            && (id == 0 <==> o.session.table.Get(id) == Some(PublishEntry(p, Unacknowledged)))
  {
    var o, id := HandlePublish(s, p), p.packetId.value;
    if id == 0 {
      assert o.sent == [];
    }
  }

  // ---------- What a resumption sends ----------

  /** A message that is the client's own and still waits for its first acknowledgement. */
  ghost predicate OwnUnacknowledged(h: History, p: Packet) {
    && p.PublishPacket? && p.publish.packetId.Some? && p.publish.packetId.value in h.mine
    && Unacked(h.session.table, p.publish.packetId.value)
  }

  predicate Unacked(t: Table, id: PacketId) {
    id in t.items && t.items[id].PublishEntry? && t.items[id].ack == Unacknowledged
  }

  /** What is sent again of an entry. */
  function ResentCopy(t: Table, id: PacketId): Packet
    requires id in t.items && t.items[id].PublishEntry?
  {
    PublishPacket(Duplicate(t.items[id].publish))
  }

  lemma ResentExactly(t: Table, t': Table, sent: seq<Packet>)
    requires Kept(t, t') && OneEach(t', sent)
    ensures forall id :: id in t.items && t.items[id].PublishEntry? ==> ResentCopy(t, id) in sent
    ensures forall p :: p in sent ==> exists id :: id in t.items && t.items[id].PublishEntry? && p == ResentCopy(t, id)
  {
    forall id | id in t.items && t.items[id].PublishEntry? ensures ResentCopy(t, id) in sent {
      assert id in t'.order;
      var i :| 0 <= i < |t'.order| && t'.order[i] == id;
      assert sent[i] == ResentCopy(t, id);
    }
    forall p | p in sent ensures exists id :: id in t.items && t.items[id].PublishEntry? && p == ResentCopy(t, id) {
      var i :| 0 <= i < |sent| && sent[i] == p;
      assert t'.order[i] in t'.order;
    }
  }

  lemma ResentOwn(h: History, id: PacketId)
    requires HistoryOk(h) && id in h.session.table.items && h.session.table.items[id].PublishEntry?
    ensures OwnUnacknowledged(h, ResentCopy(h.session.table, id)) <==> id != 0 && Unacked(h.session.table, id)
  {
    assert EntryFits(id, h.session.table.items[id], id in h.mine);
  }

  /** Everything a resumption resends is the client's own and unacknowledged if and only if no entry
      is acknowledged or released, and none is a message taken in under packet id 0. Otherwise it
      also sends messages it took in, as its own, or messages whose exchange is past PUBLISH. */
  lemma ResentIsOwn(h: History, props: Props)
    requires HistoryOk(h) && h.session.state == Connecting
    ensures var t, o := h.session.table, HandlePacket(h.session, ConnAckPacket(SUCCESS, true, props));
            (forall p :: p in o.sent ==> OwnUnacknowledged(h, p))
            <==> (forall id :: id in t.items && t.items[id].PublishEntry? ==> id != 0 && Unacked(t, id))
  {
    var t, o := h.session.table, HandlePacket(h.session, ConnAckPacket(SUCCESS, true, props));
    ResumptionKeeps(h.session, props);
    ResentExactly(t, o.session.table, o.sent);
    forall id | id in t.items && t.items[id].PublishEntry?
      ensures OwnUnacknowledged(h, ResentCopy(t, id)) <==> id != 0 && Unacked(t, id)
    {
      ResentOwn(h, id);
    }
  }

  /** A PUBREC raises nothing if and only if the pending QoS 2 message is unacknowledged; so the
      PUBREC to a resent message that was released already raises. */
  lemma PubRecAccepted(s: Session, id: PacketId, reason: ReasonCode, props: Props)
    requires s.role == ClientRole && s.state == Connected && s.table.Has(id)
    requires s.table.items[id].PublishEntry? && s.table.items[id].publish.qos == EXACTLY_ONCE
    ensures HandlePacket(s, AckPacket(PubRec, id, reason, props)).status == Done
       <==> s.table.items[id].ack == Unacknowledged
  {
  }
}
