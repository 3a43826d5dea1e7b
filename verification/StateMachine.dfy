/** The session state machine as an object: fields updated in place, an inbound and an outbound
    buffer. One class stands for the base class and its client and broker subclasses; `role`
    says which subclass an object is. Each method does to the fields exactly what the step
    function of the same name does to the session value. */
module StateMachine {
  import opened Bytes
  import opened Properties
  import opened Subscriptions
  import opened Packets
  import opened Decoding
  import opened Range
  import opened Framing
  import opened Encoders
  import opened Sessions
  import opened SessionFacts
  import opened Feeding

  lemma EncodeOne(p: Packet)
    requires PacketOk(p)
    ensures AllOk([p]) && EncodeAll([p]) == Encode(p)
  {
    assert Encode(p) + [] == Encode(p);
  }

  lemma EncodeTwo(sent: seq<byte>, p: Packet, q: Packet)
    requires PacketOk(p) && PacketOk(q)
    ensures AllOk([p, q]) && sent + EncodeAll([p, q]) == sent + Encode(p) + Encode(q)
  {
    EncodeOne(q);
    assert [p, q][1..] == [q];
    Assoc(sent, Encode(p), Encode(q));
  }

  lemma SentOneMore(out: seq<byte>, sent: seq<Packet>, p: Packet)
    requires AllOk(sent) && PacketOk(p)
    ensures AllOk(sent + [p]) && out + EncodeAll(sent) + Encode(p) == out + EncodeAll(sent + [p])
  {
    EncodeOne(p);
    EncodeAllAppend(sent, [p]);
    Assoc(out, EncodeAll(sent), Encode(p));
  }

  /** Resending as a whole is what has been sent so far, and resending `ids` from here. */
  ghost predicate Resent(whole: Outcome, s: Session, ids: seq<PacketId>, prefix: seq<Packet>) {
    var rest := Resend(s, ids);
    whole == Outcome(rest.session, prefix + rest.sent, rest.status)
  }

  lemma ResendNone(s: Session, ids: seq<PacketId>)
    ensures Resent(Resend(s, ids), s, ids, [])
  {
    assert [] + Resend(s, ids).sent == Resend(s, ids).sent;
  }

  lemma ResendEnds(whole: Outcome, s: Session, prefix: seq<Packet>)
    requires Resent(whole, s, [], prefix)
    ensures whole == Outcome(s, prefix, Done)
  {
    assert prefix + [] == prefix;
  }

  lemma ResendStops(whole: Outcome, s: Session, ids: seq<PacketId>, prefix: seq<Packet>)
    requires ids != [] && Resent(whole, s, ids, prefix)
    requires !s.table.Has(ids[0]) || !s.table.items[ids[0]].PublishEntry?
    ensures whole == Outcome(s, prefix, Raised(AssertionError))
  {
    assert prefix + [] == prefix;
  }

  lemma ResendNext(whole: Outcome, s: Session, ids: seq<PacketId>, prefix: seq<Packet>)
    requires ids != [] && Resent(whole, s, ids, prefix)
    requires s.table.Has(ids[0]) && s.table.items[ids[0]].PublishEntry?
    ensures var entry := s.table.items[ids[0]];
            var p := Duplicate(entry.publish);
            Resent(whole, s.(table := s.table.Set(ids[0], entry.(publish := p))), ids[1..], prefix + [PublishPacket(p)])
  {
    var entry := s.table.items[ids[0]];
    var p := Duplicate(entry.publish);
    Assoc(prefix, [PublishPacket(p)], Resend(s.(table := s.table.Set(ids[0], entry.(publish := p))), ids[1..]).sent);
  }

  lemma TailOf<T>(s: seq<T>, i: nat)
    requires i < |s|
    ensures s[i..] != [] && s[i..][0] == s[i] && s[i..][1..] == s[i + 1..]
  {
  }

  class SessionStateMachine {
    const role: Role
    var clientId: Text
    var state: ConnState
    var table: Table
    var nextId: PacketId
    var subscriptions: Subs
    var counts: Counts
    var inBuffer: seq<byte>
    var outBuffer: Buffer

    /** The fields as a session value. */
    function View(): Session
      reads this
    {
      Session(role, clientId, state, table, nextId, subscriptions, counts)
    }

    ghost predicate Valid()
      reads this
    {
      SessionValid(View())
    }

    /** The fields are those of `o`, and its packets have been appended to the outbound bytes. */
    ghost predicate Reached(o: Outcome, outBefore: seq<byte>)
      reads this, outBuffer
    {
      && OutcomeValid(o)
      && View() == o.session
      && outBuffer.data == outBefore + EncodeAll(o.sent)
    }

    constructor (role: Role, clientId: Text)
      ensures Valid() && View() == NewSession(role, clientId)
      ensures View() == Session(role, clientId, Disconnected, Table(map[], []), 1, map[], map[])
      ensures fresh(outBuffer) && outBuffer.data == [] && inBuffer == []
    {
      this.role := role;
      this.clientId := clientId;
      state := Disconnected;
      table := Table(map[], []);
      nextId := 1;
      subscriptions := map[];
      counts := map[];
      inBuffer := [];
      outBuffer := new Buffer();
    }

    /** Hands out the buffer itself and starts a new one. */
    method GetOutboundData() returns (buffer: Buffer)
      modifies this`outBuffer
      ensures buffer == old(outBuffer) && fresh(outBuffer) && outBuffer.data == []
    {
      buffer := outBuffer;
      outBuffer := new Buffer();
    }

    method GeneratePacketId() returns (id: PacketId)
      modifies this`nextId
      ensures id == old(nextId) && nextId == NextId(id)
    {
      id := nextId;
      var next: nat := nextId + 1;
      if next == 65536 {
        next := 1;
      }
      nextId := next;
    }

    method AddPendingPacket(id: PacketId, entry: Pending) returns (added: bool)
      modifies this`table, outBuffer
      ensures added == !old(table.Has(id))
      ensures added ==> table == old(table).Add(id, entry) && outBuffer.data == old(outBuffer.data)
      ensures PacketOk(CollisionReply(id, entry))
      ensures !added ==> table == old(table)
      ensures !added ==> outBuffer.data == old(outBuffer.data) + Encode(CollisionReply(id, entry))
    {
      ReplyOk(id, entry);
      if !table.Has(id) {
        table := table.Add(id, entry);
        return true;
      }
      EncodePacket(CollisionReply(id, entry), outBuffer);
      return false;
    }

    method AcknowledgePublish(id: PacketId, reason: ReasonCode) returns (status: Status)
      requires Valid()
      modifies this`table, outBuffer
      ensures var o := Sessions.AcknowledgePublish(old(View()), id, reason);
              Reached(o, old(outBuffer.data)) && status == o.status
    {
      AcknowledgeValid(View(), id, reason);
      if state != Connected || !table.Has(id) {
        return Raised(ProtocolError);
      }
      var entry := table.items[id];
      table := table.Drop(id);
      if !entry.PublishEntry? {
        return Raised(ProtocolError);
      }
      if reason !in PUBLISH_CODES {
        return Raised(ValueError);
      }
      if entry.publish.qos == AT_LEAST_ONCE {
        EncodeOne(Ack(PubAck, id, reason));
        EncodePacket(Ack(PubAck, id, reason), outBuffer);
      } else {
        EncodeOne(Ack(PubRec, id, reason));
        EncodePacket(Ack(PubRec, id, reason), outBuffer);
        table := table.Add(id, entry.(ack := Acknowledged));
      }
      return Done;
    }

    method ReleasePublish(id: PacketId, reason: ReasonCode) returns (status: Status)
      requires Valid()
      modifies this`table, outBuffer
      ensures var o := Sessions.ReleasePublish(old(View()), id, reason);
              Reached(o, old(outBuffer.data)) && status == o.status
    {
      ReleaseValid(View(), id, reason);
      if state != Connected {
        return Raised(ProtocolError);
      }
      if reason != PACKET_IDENTIFIER_NOT_FOUND {
        if !table.Has(id) || !InState(table.items[id], Acknowledged) {
          return Raised(ProtocolError);
        }
        table := table.Set(id, table.items[id].(ack := Released));
      }
      if reason !in RELEASE_CODES {
        return Raised(ValueError);
      }
      EncodeOne(Ack(PubRel, id, reason));
      EncodePacket(Ack(PubRel, id, reason), outBuffer);
      return Done;
    }

    method CompletePublish(id: PacketId, reason: ReasonCode) returns (status: Status)
      requires Valid()
      modifies this`table, outBuffer
      ensures var o := Sessions.CompletePublish(old(View()), id, reason);
              Reached(o, old(outBuffer.data)) && status == o.status
    {
      CompleteValid(View(), id, reason);
      if state != Connected {
        return Raised(ProtocolError);
      }
      if reason != PACKET_IDENTIFIER_NOT_FOUND {
        if !table.Has(id) {
          return Raised(ProtocolError);
        }
        var entry := table.items[id];
        table := table.Drop(id);
        if !InState(entry, Released) {
          return Raised(ProtocolError);
        }
      }
      if reason !in RELEASE_CODES {
        return Raised(ValueError);
      }
      EncodeOne(Ack(PubComp, id, reason));
      EncodePacket(Ack(PubComp, id, reason), outBuffer);
      return Done;
    }

    // ---------- Inbound packets ----------

    method HandlePublish(p: Publish) returns (status: Status)
      requires Valid() && PublishOk(p)
      modifies this`table, outBuffer
      ensures var o := Sessions.HandlePublish(old(View()), p);
              Reached(o, old(outBuffer.data)) && status == o.status
    {
      HandlePublishValid(View(), p);
      if state != Connected {
        return Raised(ProtocolError);
      }
      if p.packetId.None? {
        return Done;
      }
      var id, entry := p.packetId.value, PublishEntry(p, Unacknowledged);
      ReplyOk(id, entry);
      EncodeOne(CollisionReply(id, entry));
      if !table.Has(id) {
        AddValid(table, id, entry);
      }
      var added := AddPendingPacket(id, entry);
      if !added {
        return Done;
      }
      if id != 0 && role == ClientRole {
        status := AcknowledgePublish(id, SUCCESS);
      } else {
        status := Done;
      }
    }

    method HandlePubAck(id: PacketId) returns (status: Status)
      requires Valid()
      modifies this`table
      ensures var o := Sessions.HandlePubAck(old(View()), id);
              Reached(o, old(outBuffer.data)) && status == o.status
    {
      HandleAckValid(View(), PubAck, id);
      if state != Connected {
        return Raised(ProtocolError);
      }
      if table.Has(id) {
        var entry := table.items[id];
        table := table.Drop(id);
        if !entry.PublishEntry? || entry.publish.qos != AT_LEAST_ONCE {
          return Raised(ProtocolError);
        }
      }
      return Done;
    }

    method HandlePubRec(id: PacketId) returns (status: Status)
      requires Valid()
      modifies this`table, outBuffer
      ensures var o := Sessions.HandlePubRec(old(View()), id);
              Reached(o, old(outBuffer.data)) && status == o.status
    {
      HandleAckValid(View(), PubRec, id);
      if state != Connected {
        return Raised(ProtocolError);
      }
      var reason := PACKET_IDENTIFIER_NOT_FOUND;
      if table.Has(id) {
        if !InState(table.items[id], Unacknowledged) {
          return Raised(ProtocolError);
        }
        table := table.Set(id, table.items[id].(ack := Acknowledged));
        reason := SUCCESS;
      }
      if reason != SUCCESS || role == ClientRole {
        status := ReleasePublish(id, reason);
      } else {
        status := Done;
      }
    }

    method HandlePubRel(id: PacketId) returns (status: Status)
      requires Valid()
      modifies this`table, outBuffer
      ensures var o := Sessions.HandlePubRel(old(View()), id);
              Reached(o, old(outBuffer.data)) && status == o.status
    {
      HandleAckValid(View(), PubRel, id);
      if state != Connected {
        return Raised(ProtocolError);
      }
      var reason := PACKET_IDENTIFIER_NOT_FOUND;
      if table.Has(id) {
        if !InState(table.items[id], Acknowledged) {
          return Raised(ProtocolError);
        }
        table := table.Set(id, table.items[id].(ack := Released));
        reason := SUCCESS;
      }
      if reason != SUCCESS || role == ClientRole {
        status := CompletePublish(id, reason);
      } else {
        status := Done;
      }
    }

    method HandlePubComp(id: PacketId) returns (status: Status)
      requires Valid()
      modifies this`table
      ensures var o := Sessions.HandlePubComp(old(View()), id);
              Reached(o, old(outBuffer.data)) && status == o.status
    {
      HandleAckValid(View(), PubComp, id);
      if state != Connected || !table.Has(id) {
        return Raised(ProtocolError);
      }
      var entry := table.items[id];
      table := table.Drop(id);
      if !InState(entry, Released) {
        return Raised(ProtocolError);
      }
      return Done;
    }

    method Reset(sessionPresent: bool)
      modifies this
      ensures View() == Sessions.Reset(old(View()), sessionPresent)
      ensures inBuffer == old(inBuffer) && outBuffer == old(outBuffer)
    {
      if sessionPresent {
        table := Table(map id | id in table.items && table.items[id].PublishEntry? :: table.items[id],
                       OnlyPublishes(table, table.order));
      } else {
        nextId := 1;
        subscriptions := map[];
      }
    }

    /** Send one pending publish again, with the duplicate flag set. */
    method ResendOne(id: PacketId)
      requires Valid() && table.Has(id) && table.items[id].PublishEntry?
      modifies this`table, outBuffer
      ensures var entry := old(table).items[id];
              var p := PublishPacket(Duplicate(entry.publish));
              && Valid() && table == old(table).Set(id, entry.(publish := p.publish))
              && PacketOk(p) && outBuffer.data == old(outBuffer.data) + Encode(p)
    {
      var entry := table.items[id];
      assert EntryValid(id, entry);
      var p := Duplicate(entry.publish);
      table := table.Set(id, entry.(publish := p));
      EncodePacket(PublishPacket(p), outBuffer);
    }

    /** The loop that resends what is pending. */
    method ResendAll(order: seq<PacketId>, ghost whole: Outcome) returns (status: Status)
      requires Valid() && Resent(whole, View(), order, [])
      modifies this`table, outBuffer
      ensures View() == whole.session && status == whole.status
      ensures AllOk(whole.sent) && outBuffer.data == old(outBuffer.data) + EncodeAll(whole.sent)
    {
      ghost var prefix: seq<Packet> := [];
      assert order[0..] == order;
      for i := 0 to |order|
        invariant Valid() && AllOk(prefix) && outBuffer.data == old(outBuffer.data) + EncodeAll(prefix)
        invariant Resent(whole, View(), order[i..], prefix)
      {
        var id := order[i];
        ghost var s := View();
        TailOf(order, i);
        if !table.Has(id) || !table.items[id].PublishEntry? {
          ResendStops(whole, s, order[i..], prefix);
          return Raised(AssertionError);
        }
        ghost var p := PublishPacket(Duplicate(table.items[id].publish));
        ResendOne(id);
        SentOneMore(old(outBuffer.data), prefix, p);
        ResendNext(whole, s, order[i..], prefix);
        prefix := prefix + [p];
      }
      ResendEnds(whole, View(), prefix);
      return Done;
    }

    method ResendPending() returns (status: Status)
      requires Valid()
      modifies this`table, outBuffer
      ensures var o := Resend(old(View()), old(table.order));
              Reached(o, old(outBuffer.data)) && status == o.status
    {
      ResendValid(View(), table.order);
      ResendNone(View(), table.order);
      status := ResendAll(table.order, Resend(View(), table.order));
    }

    method HandleConnAck(reason: ReasonCode, sessionPresent: bool) returns (status: Status)
      requires Valid()
      modifies this, outBuffer
      ensures var o := Sessions.HandleConnAck(old(View()), reason, sessionPresent);
              Reached(o, old(outBuffer.data)) && status == o.status
      ensures inBuffer == old(inBuffer) && outBuffer == old(outBuffer)
    {
      if state != Connecting {
        return Raised(ProtocolError);
      }
      if reason != SUCCESS {
        state := Disconnected;
        return Done;
      }
      state := Connected;
      ResetValid(View(), sessionPresent);
      Reset(sessionPresent);
      status := ResendPending();
    }

    method HandleCodes(kind: CodesKind, id: PacketId) returns (status: Status)
      requires Valid()
      modifies this`table
      ensures var o := Sessions.HandleCodes(old(View()), kind, id);
              Reached(o, old(outBuffer.data)) && status == o.status
    {
      DropValid(table, id);
      if state != Connected {
        return Raised(ProtocolError);
      }
      if table.Has(id) {
        var entry := table.items[id];
        table := table.Drop(id);
        if !Answers(kind, entry) {
          return Raised(ProtocolError);
        }
      }
      return Done;
    }

    method HandleSubscribe(id: PacketId, subs: seq<Subscription>) returns (status: Status)
      requires Valid() && FiltersValid(subs)
      modifies this`table, outBuffer
      ensures var o := Sessions.HandleSubscribe(old(View()), id, subs);
              Reached(o, old(outBuffer.data)) && status == o.status
    {
      if state != Connected {
        return Raised(ProtocolError);
      }
      ReplyOk(id, SubscribeEntry(subs));
      EncodeOne(CollisionReply(id, SubscribeEntry(subs)));
      if !table.Has(id) {
        AddValid(table, id, SubscribeEntry(subs));
      }
      var _ := AddPendingPacket(id, SubscribeEntry(subs));
      return Done;
    }

    /** The deleting loop of an UNSUBSCRIBE request. */
    method DeletePatterns(patterns: seq<Text>) returns (codes: seq<ReasonCode>)
      modifies this`subscriptions
      ensures subscriptions == RemoveAll(old(subscriptions), patterns)
      ensures codes == UnsubscribeCodes(old(subscriptions), patterns)
    {
      codes := [];
      for i := 0 to |patterns|
        invariant RemoveAll(old(subscriptions), patterns) == RemoveAll(subscriptions, patterns[i..])
        invariant UnsubscribeCodes(old(subscriptions), patterns)
               == codes + UnsubscribeCodes(subscriptions, patterns[i..])
      {
        var pattern := patterns[i];
        var code := if pattern in subscriptions then SUCCESS else NO_SUBSCRIPTION_EXISTED;
        assert patterns[i..][1..] == patterns[i + 1..];
        Assoc(codes, [code], UnsubscribeCodes(subscriptions - {pattern}, patterns[i + 1..]));
        subscriptions := subscriptions - {pattern};
        codes := codes + [code];
      }
    }

    method HandleUnsubscribe(id: PacketId, patterns: seq<Text>) returns (status: Status)
      requires Valid()
      modifies this`table, this`subscriptions, outBuffer
      ensures var o := Sessions.HandleUnsubscribe(old(View()), id, patterns);
              Reached(o, old(outBuffer.data)) && status == o.status
    {
      HandleUnsubscribeValid(View(), id, patterns);
      if state != Connected {
        return Raised(ProtocolError);
      }
      ReplyOk(id, UnsubscribeEntry(patterns));
      EncodeOne(CollisionReply(id, UnsubscribeEntry(patterns)));
      var added := AddPendingPacket(id, UnsubscribeEntry(patterns));
      if !added {
        return Done;
      }
      UnsubscribeCodesOk(subscriptions, patterns);
      var codes := DeletePatterns(patterns);
      var reply := CodesPacket(UnsubAck, id, codes, NO_PROPS);
      EncodeOne(reply);
      EncodePacket(reply, outBuffer);
      return Done;
    }

    /** `_handle_packet` of the role's class. */
    method HandlePacket(p: Packet) returns (status: Status)
      requires Valid() && PacketOk(p)
      modifies this, outBuffer
      ensures var o := Sessions.HandlePacket(old(View()), p);
              Reached(o, old(outBuffer.data)) && status == o.status
      ensures inBuffer == old(inBuffer) && outBuffer == old(outBuffer)
    {
      HandleValid(View(), p);
      status := Done;
      match p
      case PublishPacket(publish) => status := HandlePublish(publish);
      case AckPacket(kind, id, _, _) =>
        match kind {
          case PubAck => status := HandlePubAck(id);
          case PubRec => status := HandlePubRec(id);
          case PubRel => status := HandlePubRel(id);
          case PubComp => status := HandlePubComp(id);
        }
      case DisconnectPacket(_, _) =>
        if state != Connected {
          return Raised(ProtocolError);
        }
        state := Disconnected;
      case AuthPacket(_, _) =>
        if state == Disconnected {
          return Raised(ProtocolError);
        }
      case _ =>
        if role == ClientRole {
          status := HandleClientPacket(p);
        } else {
          status := HandleBrokerPacket(p);
        }
    }

    method HandleClientPacket(p: Packet) returns (status: Status)
      requires Valid()
      modifies this, outBuffer
      ensures var o := HandleClient(old(View()), p);
              Reached(o, old(outBuffer.data)) && status == o.status
      ensures inBuffer == old(inBuffer) && outBuffer == old(outBuffer)
    {
      match p
      case ConnAckPacket(reason, present, _) => status := HandleConnAck(reason, present);
      case PingRespPacket => status := if state != Connected then Raised(ProtocolError) else Done;
      case CodesPacket(kind, id, _, _) => status := HandleCodes(kind, id);
      case _ => status := Unhandled;
    }

    method HandleBrokerPacket(p: Packet) returns (status: Status)
      requires Valid() && PacketOk(p)
      modifies this, outBuffer
      ensures var o := HandleBroker(old(View()), p);
              Reached(o, old(outBuffer.data)) && status == o.status
      ensures inBuffer == old(inBuffer) && outBuffer == old(outBuffer)
    {
      match p
      case PingReqPacket =>
        if state != Connected {
          return Raised(ProtocolError);
        }
        EncodeOne(PingRespPacket);
        EncodePacket(PingRespPacket, outBuffer);
        status := Done;
      case SubscribePacket(id, subs, _) =>
        SubscribeFilters(p);
        status := HandleSubscribe(id, subs);
      case UnsubscribePacket(id, patterns, _) => status := HandleUnsubscribe(id, patterns);
      case ConnectPacket(id, _, _, _, _, _, _) =>
        if state != Disconnected {
          return Raised(ProtocolError);
        }
        state := Connecting;
        clientId := id;
        status := Done;
      case _ => status := Unhandled;
    }

    /** `feed_bytes`: on an exception the inbound buffer stays uncut and nothing is returned. */
    method FeedBytes(data: seq<byte>) returns (received: seq<Packet>, error: Option<Error>)
      requires Valid()
      modifies this, outBuffer
      ensures var fed := Drain(old(View()), old(inBuffer) + data);
              && Valid() && View() == fed.session && error == fed.error
              && AllOk(fed.sent) && outBuffer.data == old(outBuffer.data) + EncodeAll(fed.sent)
              && received == (if error.None? then fed.received else [])
              && inBuffer == (if error.None? then fed.rest else old(inBuffer) + data)
      ensures outBuffer == old(outBuffer)
    {
      inBuffer := inBuffer + data;
      ghost var all, out, whole := inBuffer, outBuffer.data, Drain(View(), inBuffer);
      ghost var sent: seq<Packet> := [];
      var view := inBuffer;
      received := [];
      DrainValid(View(), inBuffer);
      BeforeNothing(whole);
      while view != []
        invariant Valid() && inBuffer == all && outBuffer == old(outBuffer)
        invariant AllOk(sent) && outBuffer.data == out + EncodeAll(sent)
        invariant whole == Before(received, sent, Drain(View(), view))
        decreases |view|
      {
        var decoded := DecodePacket(view);
        if decoded.Err? {
          if decoded.error == InsufficientData {
            break;
          }
          NothingAfter(received, sent, Drain(View(), view));
          return [], Some(decoded.error);
        }
        ghost var o := Sessions.HandlePacket(View(), decoded.value);
        FeedStep(View(), view, received, sent, out);
        var status := HandlePacket(decoded.value);
        if status != Done {
          return [], ErrorOf(status);
        }
        view := decoded.rest;
        received := received + [decoded.value];
        sent := sent + o.sent;
      }
      NothingAfter(received, sent, Drain(View(), view));
      error := None;
      inBuffer := view;
    }

    // ---------- Calls of the applications ----------

    /** Encode a request and enter it in the table. */
    method SendRequest(id: PacketId, p: Packet, entry: Pending)
      requires Valid() && PacketOk(p) && EntryValid(id, entry)
      modifies this`table, outBuffer
      ensures Reached(Sessions.SendRequest(old(View()), id, p, entry), old(outBuffer.data))
    {
      SendRequestValid(View(), id, p, entry);
      ReplyOk(id, entry);
      EncodeOne(p);
      EncodeTwo(outBuffer.data, p, CollisionReply(id, entry));
      EncodePacket(p, outBuffer);
      var _ := AddPendingPacket(id, entry);
    }

    method Publish(topic: Text, payload: Payload, retain: bool, qos: QoS)
      returns (packetId: Option<PacketId>, status: Status)
      requires Valid()
      requires ValidUtf8(topic) && (payload.TextPayload? ==> ValidUtf8(payload.text))
      modifies this`table, this`nextId, outBuffer
      ensures var o := ClientPublish(old(View()), topic, payload, retain, qos);
              Reached(o, old(outBuffer.data)) && status == o.status
      ensures packetId == if status == Done && qos > 0 then Some(old(nextId)) else None
    {
      ClientPublishValid(View(), topic, payload, retain, qos);
      if state != Connected {
        return None, Raised(ProtocolError);
      }
      packetId := None;
      if qos > AT_MOST_ONCE {
        var id := GeneratePacketId();
        packetId := Some(id);
      }
      var p := NewPublish(topic, payload, packetId, retain, qos);
      if |topic| >= 0x1_0000 {
        return None, Raised(Overflow);
      }
      NewPublishOk(topic, payload, packetId, retain, qos);
      if packetId.Some? {
        SendRequest(packetId.value, PublishPacket(p), PublishEntry(p, Unacknowledged));
      } else {
        EncodeOne(PublishPacket(p));
        EncodePacket(PublishPacket(p), outBuffer);
      }
      status := Done;
    }

    method Subscribe(requested: seq<Subscription>) returns (packetId: Option<PacketId>, status: Status)
      requires Valid()
      requires FiltersValid(requested) && forall sub :: sub in requested ==> ValidUtf8(sub.pattern)
      modifies this`table, this`nextId, this`subscriptions, this`counts, outBuffer
      ensures var o := ClientSubscribe(old(View()), requested);
              && Reached(o, old(outBuffer.data)) && status == o.status
              && packetId == if status == Done && o.sent != [] then Some(old(nextId)) else None
    {
      ClientSubscribeValid(View(), requested);
      CountUpFresh(subscriptions, counts, requested);
      if state != Connected {
        return None, Raised(ProtocolError);
      }
      var fresh' := CountEach(requested);
      if fresh' == [] {
        return None, Done;
      }
      var id := GeneratePacketId();
      if exists sub :: sub in fresh' && |sub.pattern| >= 0x1_0000 {
        return None, Raised(Overflow);
      }
      RequestFits(requested, fresh', id);
      SendRequest(id, SubscribePacket(id, fresh', NO_PROPS), SubscribeEntry(fresh'));
      return Some(id), Done;
    }

    static lemma RequestFits(requested: seq<Subscription>, fresh': seq<Subscription>, id: PacketId)
      requires fresh' != [] && forall sub :: sub in fresh' ==> sub in requested && |sub.pattern| < 0x1_0000
      requires FiltersValid(requested) && forall sub :: sub in requested ==> ValidUtf8(sub.pattern)
      ensures PacketOk(SubscribePacket(id, fresh', NO_PROPS)) && EntryValid(id, SubscribeEntry(fresh'))
    {
    }

    /** The counting loop of `subscribe`. */
    method CountEach(requested: seq<Subscription>) returns (fresh': seq<Subscription>)
      modifies this`subscriptions, this`counts
      ensures (subscriptions, counts, fresh') == CountUp(old(subscriptions), old(counts), requested)
    {
      fresh' := [];
      assert [] + CountUp(subscriptions, counts, requested).2 == CountUp(subscriptions, counts, requested).2;
      for i := 0 to |requested|
        invariant CountUp(old(subscriptions), old(counts), requested)
               == (var r := CountUp(subscriptions, counts, requested[i..]); (r.0, r.1, fresh' + r.2))
      {
        var sub := requested[i];
        assert requested[i..][1..] == requested[i + 1..];
        if sub.pattern in subscriptions {
          counts := counts[sub.pattern := (if sub.pattern in counts then counts[sub.pattern] else 0) + 1];
        } else {
          counts := counts[sub.pattern := 1];
          subscriptions := subscriptions[sub.pattern := sub];
          Assoc(fresh', [sub], CountUp(subscriptions, counts, requested[i + 1..]).2);
          fresh' := fresh' + [sub];
        }
      }
      assert fresh' + [] == fresh';
    }

    method Unsubscribe(patterns: seq<Text>) returns (packetId: Option<PacketId>, status: Status)
      requires Valid()
      requires forall t :: t in patterns ==> ValidUtf8(t)
      modifies this`table, this`nextId, this`subscriptions, this`counts, outBuffer
      ensures var o := ClientUnsubscribe(old(View()), patterns);
              && Reached(o, old(outBuffer.data)) && status == o.status
              && packetId == if status == Done && o.sent != [] then Some(old(nextId)) else None
    {
      ClientUnsubscribeValid(View(), patterns);
      CountDownGone(subscriptions, counts, patterns);
      if state != Connected {
        return None, Raised(ProtocolError);
      }
      var gone, raised := UncountEach(patterns);
      if raised {
        return None, Raised(KeyMissing);
      }
      if gone == [] {
        return None, Done;
      }
      var id := GeneratePacketId();
      if exists pattern :: pattern in gone && |pattern| >= 0x1_0000 {
        return None, Raised(Overflow);
      }
      SendRequest(id, UnsubscribePacket(id, gone, NO_PROPS), UnsubscribeEntry(gone));
      return Some(id), Done;
    }

    /** The counting loop of `unsubscribe`. */
    method UncountEach(patterns: seq<Text>) returns (gone: seq<Text>, raised: bool)
      modifies this`subscriptions, this`counts
      ensures var down := CountDown(old(subscriptions), old(counts), patterns);
              && (subscriptions, counts, raised) == (down.subs, down.counts, down.raised)
              && (!raised ==> gone == down.gone)
    {
      gone := [];
      for i := 0 to |patterns|
        invariant CountDown(old(subscriptions), old(counts), patterns)
               == (var r := CountDown(subscriptions, counts, patterns[i..]); r.(gone := gone + r.gone))
      {
        var pattern := patterns[i];
        var count := if pattern in counts then counts[pattern] else 0;
        assert patterns[i..][1..] == patterns[i + 1..];
        if count == 1 {
          counts := counts - {pattern};
          if pattern !in subscriptions {
            return gone, true;
          }
          subscriptions := subscriptions - {pattern};
          Assoc(gone, [pattern], CountDown(subscriptions, counts, patterns[i + 1..]).gone);
          gone := gone + [pattern];
        } else {
          counts := counts[pattern := count - 1];
        }
      }
      assert gone + [] == gone;
      raised := false;
    }

    method Connect(a: ConnectArgs) returns (status: Status)
      requires Valid() && ConnectFormed(NewConnect(clientId, a))
      modifies this`state, outBuffer
      ensures var o := ClientConnect(old(View()), a);
              Reached(o, old(outBuffer.data)) && status == o.status
    {
      if state != Disconnected {
        return Raised(ProtocolError);
      }
      var connect := NewConnect(clientId, a);
      if !ConnectFits(connect) {
        return Raised(Overflow);
      }
      EncodeOne(connect);
      EncodePacket(connect, outBuffer);
      state := Connecting;
      return Done;
    }

    method Disconnect(reason: ReasonCode) returns (status: Status)
      requires Valid()
      modifies this`state, outBuffer
      ensures var o := ClientDisconnect(old(View()), reason);
              Reached(o, old(outBuffer.data)) && status == o.status
    {
      if state != Connected {
        return Raised(ProtocolError);
      }
      if reason !in DISCONNECT_CODES {
        return Raised(ValueError);
      }
      EncodeOne(DisconnectPacket(reason, NO_PROPS));
      EncodePacket(DisconnectPacket(reason, NO_PROPS), outBuffer);
      state := Disconnected;
      return Done;
    }

    method Ping() returns (status: Status)
      requires Valid()
      modifies outBuffer
      ensures var o := ClientPing(old(View()));
              Reached(o, old(outBuffer.data)) && status == o.status
    {
      if state != Connected {
        return Raised(ProtocolError);
      }
      EncodeOne(PingReqPacket);
      EncodePacket(PingReqPacket, outBuffer);
      return Done;
    }

    method AcknowledgeConnect(reason: ReasonCode, sessionPresent: bool) returns (status: Status)
      requires Valid()
      modifies this`state, outBuffer
      ensures var o := Sessions.AcknowledgeConnect(old(View()), reason, sessionPresent);
              Reached(o, old(outBuffer.data)) && status == o.status
    {
      if state != Connecting {
        return Raised(ProtocolError);
      }
      state := if reason == SUCCESS then Connected else Disconnected;
      if reason !in CONNACK_CODES {
        return Raised(ValueError);
      }
      EncodeOne(ConnAckPacket(reason, sessionPresent, NO_PROPS));
      EncodePacket(ConnAckPacket(reason, sessionPresent, NO_PROPS), outBuffer);
      return Done;
    }

    /** `deliver_publish`, its loop over the subscriptions. */
    method DeliverPublish(source: Text, p: Publish) returns (accepted: bool, status: Status)
      requires Valid() && PublishOk(p)
      modifies this`table, outBuffer
      ensures var o := Sessions.DeliverPublish(old(View()), source, p);
              Reached(o, old(outBuffer.data)) && status == o.status
      ensures accepted <==> status == Done && Accepts(old(View()), source, p)
    {
      DeliverPublishValid(View(), source, p);
      if state != Connected {
        return false, Raised(ProtocolError);
      }
      var left := subscriptions.Keys;
      while left != {}
        invariant left <= subscriptions.Keys
        invariant forall t :: t in subscriptions.Keys - left ==> !Takes(subscriptions[t], source, clientId, p)
        invariant View() == old(View()) && outBuffer.data == old(outBuffer.data)
        decreases left
      {
        var pattern :| pattern in left;
        left := left - {pattern};
        var sub := subscriptions[pattern];
        var matched := Matches(sub, p.qos, p.topic);
        if matched && (!sub.noLocal || source != clientId) {
          assert Takes(subscriptions[pattern], source, clientId, p);
          if p.packetId.Some? {
            SendRequest(p.packetId.value, PublishPacket(p), PublishEntry(p, Unacknowledged));
          } else {
            EncodeOne(PublishPacket(p));
            EncodePacket(PublishPacket(p), outBuffer);
          }
          return true, Done;
        }
      }
      return false, Done;
    }

    /** The installing loop of `acknowledge_subscribe`. */
    method InstallEach(requested: seq<Subscription>, codes: seq<ReasonCode>)
      requires |requested| == |codes|
      modifies this`subscriptions
      ensures subscriptions == Install(old(subscriptions), requested, codes)
    {
      for i := 0 to |requested|
        invariant Install(old(subscriptions), requested, codes) == Install(subscriptions, requested[i..], codes[i..])
      {
        assert requested[i..][1..] == requested[i + 1..] && codes[i..][1..] == codes[i + 1..];
        if codes[i] == SUCCESS {
          subscriptions := subscriptions[requested[i].pattern := requested[i]];
        }
      }
    }

    method AcknowledgeSubscribe(id: PacketId, codes: seq<ReasonCode>) returns (status: Status)
      requires Valid()
      modifies this`table, this`subscriptions, outBuffer
      ensures var o := Sessions.AcknowledgeSubscribe(old(View()), id, codes);
              Reached(o, old(outBuffer.data)) && status == o.status
    {
      AcknowledgeSubscribeValid(View(), id, codes);
      if state != Connected || !table.Has(id) {
        return Raised(ProtocolError);
      }
      var entry := table.items[id];
      table := table.Drop(id);
      if !entry.SubscribeEntry? || |codes| != |entry.subscriptions| {
        return Raised(ProtocolError);
      }
      InstallEach(entry.subscriptions, codes);
      if exists code :: code in codes && code !in SUBACK_CODES {
        return Raised(ValueError);
      }
      var reply := CodesPacket(SubAck, id, codes, NO_PROPS);
      EncodeOne(reply);
      EncodePacket(reply, outBuffer);
      return Done;
    }
  }

  lemma DrainStep(s: Session, view: seq<byte>, received: seq<Packet>, sent: seq<Packet>)
    requires view != [] && DecodePacket(view).Ok?
    ensures var p, rest := DecodePacket(view).value, DecodePacket(view).rest;
            var o := Sessions.HandlePacket(s, p);
            Before(received, sent, Drain(s, view))
            == if o.status != Done then Fed(o.session, received, sent + o.sent, view, ErrorOf(o.status))
               else Before(received + [p], sent + o.sent, Drain(o.session, rest))
  {
    var p, rest := DecodePacket(view).value, DecodePacket(view).rest;
    var o := Sessions.HandlePacket(s, p);
    if o.status == Done {
      BeforeTwice(received, sent, [p], o.sent, Drain(o.session, rest));
    } else {
      assert received + [] == received;
    }
  }

  lemma SentMore(out: seq<byte>, sent: seq<Packet>, more: seq<Packet>)
    requires AllOk(sent) && AllOk(more)
    ensures AllOk(sent + more) && out + EncodeAll(sent) + EncodeAll(more) == out + EncodeAll(sent + more)
  {
    EncodeAllAppend(sent, more);
    Assoc(out, EncodeAll(sent), EncodeAll(more));
  }

  /** One pass of the loop of `feed_bytes` that decodes a packet. */
  lemma FeedStep(s: Session, view: seq<byte>, received: seq<Packet>, sent: seq<Packet>, out: seq<byte>)
    requires SessionValid(s) && AllOk(sent) && view != [] && DecodePacket(view).Ok?
    ensures var p, rest := DecodePacket(view).value, DecodePacket(view).rest;
            var o := Sessions.HandlePacket(s, p);
            && PacketOk(p) && AllOk(o.sent) && AllOk(sent + o.sent)
            && out + EncodeAll(sent) + EncodeAll(o.sent) == out + EncodeAll(sent + o.sent)
            && Before(received, sent, Drain(s, view))
               == if o.status != Done then Fed(o.session, received, sent + o.sent, view, ErrorOf(o.status))
                  else Before(received + [p], sent + o.sent, Drain(o.session, rest))
  {
    PacketRange(view);
    HandleValid(s, DecodePacket(view).value);
    DrainStep(s, view, received, sent);
    SentMore(out, sent, Sessions.HandlePacket(s, DecodePacket(view).value).sent);
  }

  lemma NothingAfter(received: seq<Packet>, sent: seq<Packet>, fed: Fed)
    requires fed.received == [] && fed.sent == []
    ensures Before(received, sent, fed) == fed.(received := received, sent := sent)
  {
    assert received + [] == received && sent + [] == sent;
  }
}
