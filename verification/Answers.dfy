/** What the calls that acknowledge, deliver, connect and disconnect do, in numbers: what is sent,
    with which code, what becomes of the entry, and what a call that raises leaves behind. */
module Answers {
  import opened Bytes
  import opened Properties
  import opened Subscriptions
  import opened Packets
  import opened Accepted
  import opened Matching
  import opened Sessions
  import opened SessionFacts
  import opened Inbound
  import opened Requests

  // ---------- acknowledge_publish, release_qos2_publish, complete_qos2_publish ----------

  /** A changed entry goes to the end. */
  ghost predicate Moved(t: Table, t': Table, id: PacketId, entry: Pending) {
    && t'.items == t.items[id := entry]
    && exists i :: 0 <= i < |t.order| && t.order[i] == id && t'.order == t.order[..i] + t.order[i + 1..] + [id]
  }

  lemma DropAddMoved(t: Table, id: PacketId, entry: Pending)
    requires TableValid(t) && t.Has(id)
    ensures Moved(t, t.Drop(id).Add(id, entry), id, entry)
  {
    DropGone(t, id);
    assert (t.items - {id})[id := entry] == t.items[id := entry];
  }

  /** A message of QoS 1 is over; one of another QoS moves to the end, acknowledged. If there is no
      message to acknowledge, or the code is none for it, the call raises, and the entry is gone. */
  lemma AcknowledgeExactly(s: Session, id: PacketId, reason: ReasonCode)
    requires TableValid(s.table)
    ensures var o, t' := AcknowledgePublish(s, id, reason), AcknowledgePublish(s, id, reason).session.table;
            && o.session == s.(table := t')
            && if s.state != Connected || id !in s.table.items then
                 o.status == Raised(ProtocolError) && t' == s.table && o.sent == []
               else
                 match s.table.items[id]
                 case PublishEntry(m, _) =>
                   if !CodeAllowed(4, reason) then
                     o.status == Raised(ValueError) && Gone(s.table, t', id) && o.sent == []
                   else if m.qos == 1 then
                     && o.status == Done && Gone(s.table, t', id)
                     && o.sent == [AckPacket(PubAck, id, reason, Props([], []))]
                   else
                     && o.status == Done && Moved(s.table, t', id, PublishEntry(m, Acknowledged))
                     && o.sent == [AckPacket(PubRec, id, reason, Props([], []))]
                 case _ => o.status == Raised(ProtocolError) && Gone(s.table, t', id) && o.sent == []
  {
    CodeTables(reason);
    if s.table.Has(id) {
      DropGone(s.table, id);
      if s.table.items[id].PublishEntry? {
        DropAddMoved(s.table, id, PublishEntry(s.table.items[id].publish, Acknowledged));
      }
    }
  }

  /** A QoS 2 message in this state. */
  predicate Exchanging(t: Table, id: PacketId, ack: AckState) {
    id in t.items && t.items[id].PublishEntry? && t.items[id].publish.qos == 2 && t.items[id].ack == ack
  }

  /** Code 0x92 needs no entry. With another code an acknowledged QoS 2 message becomes released,
      even if the code is none for it. */
  lemma ReleaseExactly(s: Session, id: PacketId, reason: ReasonCode)
    ensures var o, t' := ReleasePublish(s, id, reason), ReleasePublish(s, id, reason).session.table;
            && o.session == s.(table := t')
            && if s.state != Connected || (reason != 0x92 && !Exchanging(s.table, id, Acknowledged)) then
                 o.status == Raised(ProtocolError) && t' == s.table && o.sent == []
               else
                 && (if reason == 0x92 then t' == s.table
                     else Changed(s.table, t', id, PublishEntry(s.table.items[id].publish, Released)))
                 && (if CodeAllowed(6, reason) then
                       o.status == Done && o.sent == [AckPacket(PubRel, id, reason, Props([], []))]
                     else o.status == Raised(ValueError) && o.sent == [])
  {
    CodeTables(reason);
  }

  /** Code 0x92 needs no entry. With another code the entry is gone, whether or not it is a released
      QoS 2 message. */
  lemma CompleteExactly(s: Session, id: PacketId, reason: ReasonCode)
    requires TableValid(s.table)
    ensures var o, t' := CompletePublish(s, id, reason), CompletePublish(s, id, reason).session.table;
            && o.session == s.(table := t')
            && (if s.state == Connected && reason != 0x92 && id in s.table.items then Gone(s.table, t', id)
                else t' == s.table)
            && (if s.state != Connected || (reason != 0x92 && !Exchanging(s.table, id, Released)) then
                  o.status == Raised(ProtocolError) && o.sent == []
                else if CodeAllowed(7, reason) then
                  o.status == Done && o.sent == [AckPacket(PubComp, id, reason, Props([], []))]
                else o.status == Raised(ValueError) && o.sent == [])
  {
    CodeTables(reason);
    if s.table.Has(id) {
      DropGone(s.table, id);
    }
  }

  // ---------- acknowledge_subscribe ----------

  /** Place `i` is the last one to grant a subscription to this pattern. */
  ghost predicate GrantedLast(requested: seq<Subscription>, codes: seq<ReasonCode>, t: Text, i: nat)
    requires |requested| == |codes|
  {
    && i < |requested| && requested[i].pattern == t && codes[i] == 0x00
    && forall j :: i < j < |requested| && requested[j].pattern == t ==> codes[j] != 0x00
  }

  /** The map at one pattern: the last subscription granted with 0x00, or what was there. */
  ghost predicate Granted(before: Subs, after: Subs, requested: seq<Subscription>, codes: seq<ReasonCode>, t: Text)
    requires |requested| == |codes|
  {
    || (exists i: nat :: GrantedLast(requested, codes, t, i) && t in after && after[t] == requested[i])
    || ((t in after <==> t in before) && (t in after ==> after[t] == before[t])
        && forall i :: 0 <= i < |requested| && requested[i].pattern == t ==> codes[i] != 0x00)
  }

  lemma {:induction false} InstallGrants(subs: Subs, requested: seq<Subscription>, codes: seq<ReasonCode>, t: Text)
    requires |requested| == |codes|
    ensures Granted(subs, Install(subs, requested, codes), requested, codes, t)
    decreases |requested|
  {
    if requested != [] {
      var rest, codes' := requested[1..], codes[1..];
      var subs' := if codes[0] == 0x00 then subs[requested[0].pattern := requested[0]] else subs;
      var after := Install(subs', rest, codes');
      InstallGrants(subs', rest, codes', t);
      assert forall j :: 1 <= j < |requested| ==> requested[j] == rest[j - 1] && codes[j] == codes'[j - 1];
      if i: nat :| GrantedLast(rest, codes', t, i) && t in after && after[t] == rest[i] {
        assert GrantedLast(requested, codes, t, i + 1);
      } else if requested[0].pattern == t && codes[0] == 0x00 {
        assert GrantedLast(requested, codes, t, 0);
      }
    }
  }

  /** An answer with one code for each subscription takes the request away and grants those with
      0x00; the SUBACK carries the codes as they are. If some code is none for a SUBACK, the call
      raises after all that, and sends nothing. If the answer does not fit the request, that is gone. */
  lemma GrantExactly(s: Session, id: PacketId, codes: seq<ReasonCode>)
    requires TableValid(s.table)
    ensures var o, t' := AcknowledgeSubscribe(s, id, codes), AcknowledgeSubscribe(s, id, codes).session.table;
            && o.session == s.(table := t', subscriptions := o.session.subscriptions)
            && if s.state != Connected || id !in s.table.items then
                 o.status == Raised(ProtocolError) && o.session == s && o.sent == []
               else
                 && Gone(s.table, t', id)
                 && match s.table.items[id]
                    case SubscribeEntry(requested) =>
                      if |codes| != |requested| then
                        o.status == Raised(ProtocolError) && o.session.subscriptions == s.subscriptions && o.sent == []
                      else
                        && (forall t :: Granted(s.subscriptions, o.session.subscriptions, requested, codes, t))
                        && (if forall code :: code in codes ==> CodeAllowed(9, code) then
                              o.status == Done && o.sent == [CodesPacket(SubAck, id, codes, Props([], []))]
                            else o.status == Raised(ValueError) && o.sent == [])
                    case _ =>
                      o.status == Raised(ProtocolError) && o.session.subscriptions == s.subscriptions && o.sent == []
  {
    forall code: ReasonCode ensures code in SUBACK_CODES <==> CodeAllowed(9, code) {
      CodeTables(code);
    }
    if s.table.Has(id) {
      DropGone(s.table, id);
      if s.table.items[id].SubscribeEntry? && |codes| == |s.table.items[id].subscriptions| {
        var requested := s.table.items[id].subscriptions;
        forall t ensures Granted(s.subscriptions, Install(s.subscriptions, requested, codes), requested, codes, t) {
          InstallGrants(s.subscriptions, requested, codes, t);
        }
      }
    }
  }

  // ---------- acknowledge_connect ----------

  /** Code 0x00 connects, any other disconnects, and a CONNACK carries it. A code that is none for a
      CONNACK disconnects and raises. */
  lemma ConnectAnswered(s: Session, reason: ReasonCode, sessionPresent: bool)
    ensures var o := AcknowledgeConnect(s, reason, sessionPresent);
            if s.state != Connecting then o == Outcome(s, [], Raised(ProtocolError))
            else
              && o.session == s.(state := if reason == 0x00 then Connected else Disconnected)
              && if CodeAllowed(2, reason) then
                   o.status == Done && o.sent == [ConnAckPacket(reason, sessionPresent, Props([], []))]
                 else o.status == Raised(ValueError) && o.sent == []
  {
    CodeTables(reason);
  }

  // ---------- deliver_publish ----------

  /** A subscription wants a message: its QoS is high enough, its filter takes the topic, and it does
      not mind where the message comes from. */
  predicate Wants(sub: Subscription, source: Text, clientId: Text, m: Publish) {
    && m.qos <= sub.maxQos && FilterTakes(sub.pattern, m.topic) && !Hidden(sub.pattern, m.topic)
    && !(sub.noLocal && source == clientId)
  }

  /** A connected session sends a message unchanged, and once, if any of its subscriptions wants it;
      under a packet id it is entered too. */
  lemma DeliverExactly(s: Session, source: Text, m: Publish)
    requires MapValid(s.subscriptions)
    ensures var o := DeliverPublish(s, source, m);
            if s.state != Connected then o == Outcome(s, [], Raised(ProtocolError))
            else
              && o.status == Done
              && if !exists t :: t in s.subscriptions && Wants(s.subscriptions[t], source, s.clientId, m) then
                   o.session == s && o.sent == []
                 else if m.packetId == None then o.session == s && o.sent == [PublishPacket(m)]
                 else
                   && o.session == s.(table := o.session.table)
                   && Enters(s.table, o.session.table, m.packetId.value, PublishPacket(m),
                             PublishEntry(m, Unacknowledged), o.sent)
  {
    forall t | t in s.subscriptions
      ensures Sessions.Takes(s.subscriptions[t], source, s.clientId, m)
         <==> Wants(s.subscriptions[t], source, s.clientId, m)
    {
      MatchesByCharacters(s.subscriptions[t], m.qos, m.topic);
    }
    if m.packetId.Some? {
      RequestEnters(s, m.packetId.value, PublishPacket(m), PublishEntry(m, Unacknowledged));
    }
  }

  // ---------- connect, disconnect and ping ----------

  /** The length of every text fits two bytes, and so does the interval. */
  predicate SmallEnough(clientId: Text, a: ConnectArgs) {
    && 0 <= a.keepAlive < 0x1_0000 && |clientId| < 0x1_0000
    && (a.username == None || |a.username.value| < 0x1_0000)
    && (a.password == None || |a.password.value| < 0x1_0000)
    && (a.will == None || (|a.will.value.topic| < 0x1_0000 && PayloadLength(a.will.value.payload) < 0x1_0000))
  }

  function PayloadLength(payload: Payload): nat {
    match payload
    case TextPayload(text) => |text|
    case BinaryPayload(bytes) => |bytes|
  }

  /** `connect` of a disconnected client sends one CONNECT with its client id, the arguments and no
      properties, if that can be encoded. */
  lemma ConnectExactly(s: Session, a: ConnectArgs)
    ensures var o := ClientConnect(s, a);
            if s.state != Disconnected then o == Outcome(s, [], Raised(ProtocolError))
            else if !SmallEnough(s.clientId, a) then o == Outcome(s, [], Raised(Overflow))
            else
              var p := ConnectPacket(s.clientId, a.will, a.username, a.password, a.cleanStart, a.keepAlive,
                                     Props([], []));
              o == Outcome(s.(state := Connecting), [p], Done)
  {
  }

  lemma DisconnectExactly(s: Session, reason: ReasonCode)
    ensures var o := ClientDisconnect(s, reason);
            if s.state != Connected then o == Outcome(s, [], Raised(ProtocolError))
            else if !CodeAllowed(14, reason) then o == Outcome(s, [], Raised(ValueError))
            else o == Outcome(s.(state := Disconnected), [DisconnectPacket(reason, Props([], []))], Done)
  {
    CodeTables(reason);
  }

  lemma PingExactly(s: Session)
    ensures ClientPing(s) == if s.state != Connected then Outcome(s, [], Raised(ProtocolError))
                             else Outcome(s, [PingReqPacket], Done)
  {
  }
}
