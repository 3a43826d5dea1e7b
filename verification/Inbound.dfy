/** What becomes of every inbound packet, in numbers: when it is refused, what is answered, which
    entry of the table changes and what stays. Both roles, every state, every pending entry. */
module Inbound {
  import opened Bytes
  import opened Properties
  import opened Subscriptions
  import opened Packets
  import opened Sessions
  import opened SessionFacts
  import opened Resumption

  // ---------- When a packet is refused ----------

  /** The direction in which a packet travels (section 2.1.2 of MQTT Version 5.0). */
  predicate Expects(role: Role, p: Packet) {
    match p
    case ConnectPacket(_, _, _, _, _, _, _) => role == BrokerRole
    case SubscribePacket(_, _, _) => role == BrokerRole
    case UnsubscribePacket(_, _, _) => role == BrokerRole
    case PingReqPacket => role == BrokerRole
    case ConnAckPacket(_, _, _) => role == ClientRole
    case CodesPacket(_, _, _, _) => role == ClientRole
    case PingRespPacket => role == ClientRole
    case _ => true
  }

  /** The states in which it may arrive. */
  predicate Timely(state: ConnState, p: Packet) {
    match p
    case ConnectPacket(_, _, _, _, _, _, _) => state == Disconnected
    case ConnAckPacket(_, _, _) => state == Connecting
    case AuthPacket(_, _) => state == Connecting || state == Connected
    case _ => state == Connected
  }

  /** What each acknowledgement answers. Only PUBCOMP must find something. */
  predicate Answerable(entry: Option<Pending>, kind: AckKind) {
    match entry
    case None => kind != PubComp
    case Some(PublishEntry(m, ack)) =>
      (match kind
       case PubAck => m.qos == 1
       case PubRec => m.qos == 2 && ack == Unacknowledged
       case PubRel => m.qos == 2 && ack == Acknowledged
       case PubComp => m.qos == 2 && ack == Released)
    case Some(_) => false
  }

  predicate Fitting(t: Table, p: Packet) {
    match p
    case AckPacket(kind, id, _, _) => Answerable(t.Get(id), kind)
    case CodesPacket(kind, id, _, _) =>
      t.Get(id) == None || (if kind == SubAck then t.items[id].SubscribeEntry? else t.items[id].UnsubscribeEntry?)
    case _ => true
  }

  /** A session without a session at the broker tries to resend a request. */
  predicate Stumbles(t: Table, p: Packet) {
    && p.ConnAckPacket? && p.reason == 0x00 && !p.sessionPresent
    && exists id :: id in t.items && !t.items[id].PublishEntry?
  }

  /** Exactly when a packet is refused, and how. */
  lemma RefusedExactly(s: Session, p: Packet)
    requires TableValid(s.table)
    ensures HandlePacket(s, p).status
         == if !Expects(s.role, p) then Unhandled
            else if !Timely(s.state, p) || !Fitting(s.table, p) then Raised(ProtocolError)
            else if Stumbles(s.table, p) then Raised(AssertionError)
            else Done
  {
    if p.ConnAckPacket? && s.role == ClientRole && s.state == Connecting {
      ConnAckRefused(s, p);
    }
  }

  lemma ConnAckRefused(s: Session, p: Packet)
    requires TableValid(s.table) && p.ConnAckPacket? && s.role == ClientRole && s.state == Connecting
    ensures HandlePacket(s, p).status == if Stumbles(s.table, p) then Raised(AssertionError) else Done
  {
    if p.reason == 0x00 && p.sessionPresent {
      ResumptionKeeps(s, p.props);
    } else if p.reason == 0x00 {
      NewSessionFails(s, p.props);
    }
  }

  /** A packet of the wrong role or in the wrong state changes nothing and is answered by nothing. */
  lemma RefusedUnchanged(s: Session, p: Packet)
    requires !Expects(s.role, p) || !Timely(s.state, p)
    ensures HandlePacket(s, p).session == s && HandlePacket(s, p).sent == []
  {
  }

  // ---------- How the table changes ----------

  /** The entry is gone, and the others keep their order. */
  ghost predicate Gone(t: Table, t': Table, id: PacketId) {
    && t'.items == t.items - {id}
    && exists i :: 0 <= i < |t.order| && t.order[i] == id && t'.order == t.order[..i] + t.order[i + 1..]
  }

  /** A new entry stands last. */
  predicate Appended(t: Table, t': Table, id: PacketId, entry: Pending) {
    t'.items == t.items[id := entry] && t'.order == t.order + [id]
  }

  /** A changed entry keeps its place. */
  predicate Changed(t: Table, t': Table, id: PacketId, entry: Pending) {
    t'.items == t.items[id := entry] && t'.order == t.order
  }

  lemma {:induction false} WithoutNone(order: seq<PacketId>, id: PacketId)
    requires id !in order
    ensures Without(order, id) == order
  {
    if order != [] {
      WithoutNone(order[1..], id);
    }
  }

  lemma {:induction false} WithoutOne(order: seq<PacketId>, id: PacketId, i: nat)
    requires i < |order| && order[i] == id && Distinct(order)
    ensures Without(order, id) == order[..i] + order[i + 1..]
  {
    assert Distinct(order[1..]);
    if i == 0 {
      assert id !in order[1..];
      WithoutNone(order[1..], id);
    } else {
      WithoutOne(order[1..], id, i - 1);
      assert order[1..][..i - 1] == order[1..i] && order[1..][i..] == order[i + 1..];
      assert order[..i] == [order[0]] + order[1..i];
    }
  }

  lemma DropGone(t: Table, id: PacketId)
    requires TableValid(t) && t.Has(id)
    ensures Gone(t, t.Drop(id), id)
  {
    var i :| 0 <= i < |t.order| && t.order[i] == id;
    WithoutOne(t.order, id, i);
  }

  /** Adding an entry and taking it away again. */
  lemma AddDrop(t: Table, id: PacketId, entry: Pending)
    requires TableValid(t) && !t.Has(id)
    ensures t.Add(id, entry).Drop(id) == t
  {
    AddDistinct(t, id);
    WithoutOne(t.order + [id], id, |t.order|);
    assert (t.order + [id])[..|t.order|] == t.order && (t.order + [id])[|t.order| + 1..] == [];
    assert t.items[id := entry] - {id} == t.items;
  }

  lemma AddDistinct(t: Table, id: PacketId)
    requires TableValid(t) && !t.Has(id)
    ensures Distinct(t.order + [id])
  {
    assert forall i :: 0 <= i < |t.order| ==> t.order[i] in t.order;
  }

  // ---------- Messages ----------

  /** A message of QoS 0 changes nothing. One under a packet id in use is refused with code 0x91. A
      new one is entered; a client acknowledges it at once, unless its packet id is 0. */
  lemma MessageArrives(s: Session, m: Publish)
    requires s.state == Connected && TableValid(s.table)
    ensures var o, t' := HandlePacket(s, PublishPacket(m)), HandlePacket(s, PublishPacket(m)).session.table;
            && o.session == s.(table := t')
            && match m.packetId
               case None => t' == s.table && o.sent == []
               case Some(id) =>
                 if id in s.table.items then
                   t' == s.table
                   && o.sent == [AckPacket(if m.qos == 1 then PubAck else PubRec, id, 0x91, Props([], []))]
                 else if s.role == BrokerRole || id == 0 then
                   Appended(s.table, t', id, PublishEntry(m, Unacknowledged)) && o.sent == []
                 else if m.qos == 1 then
                   t' == s.table && o.sent == [AckPacket(PubAck, id, 0x00, Props([], []))]
                 else
                   Appended(s.table, t', id, PublishEntry(m, Acknowledged))
                   && o.sent == [AckPacket(PubRec, id, 0x00, Props([], []))]
  {
    if m.packetId.Some? && m.packetId.value !in s.table.items {
      AddDrop(s.table, m.packetId.value, PublishEntry(m, Unacknowledged));
    }
  }

  // ---------- Acknowledgements ----------

  /** An acknowledgement of nothing: PUBREC and PUBREL are answered with code 0x92. */
  lemma NothingAcknowledged(s: Session, kind: AckKind, id: PacketId, reason: ReasonCode, props: Props)
    requires s.state == Connected && id !in s.table.items
    ensures var o := HandlePacket(s, AckPacket(kind, id, reason, props));
            && o.session == s
            && o.sent == (match kind
                          case PubRec => [AckPacket(PubRel, id, 0x92, Props([], []))]
                          case PubRel => [AckPacket(PubComp, id, 0x92, Props([], []))]
                          case _ => [])
  {
  }

  /** One that does not fit is answered by nothing. PUBACK and PUBCOMP take the entry away. */
  lemma WronglyAcknowledged(s: Session, kind: AckKind, id: PacketId, reason: ReasonCode, props: Props)
    requires s.state == Connected && TableValid(s.table)
    requires id in s.table.items && !Answerable(s.table.Get(id), kind)
    ensures var o := HandlePacket(s, AckPacket(kind, id, reason, props));
            && o.sent == [] && o.session == s.(table := o.session.table)
            && if kind in {PubAck, PubComp} then Gone(s.table, o.session.table, id) else o.session == s
  {
    DropGone(s.table, id);
  }

  /** One that fits, whatever its reason code. PUBACK and PUBCOMP end the exchange. A broker session
      marks PUBREC and PUBREL; a client answers them at once and moves one step further. */
  lemma RightlyAcknowledged(s: Session, kind: AckKind, id: PacketId, reason: ReasonCode, props: Props)
    requires s.state == Connected && TableValid(s.table)
    requires id in s.table.items && Answerable(s.table.Get(id), kind)
    ensures var o, t' := HandleAck(s, kind, id), HandleAck(s, kind, id).session.table;
            var m := s.table.items[id].publish;
            && HandlePacket(s, AckPacket(kind, id, reason, props)) == o
            && o.session == s.(table := t')
            && match kind
               case PubRec =>
                 if s.role == ClientRole then
                   Changed(s.table, t', id, PublishEntry(m, Released))
                   && o.sent == [AckPacket(PubRel, id, 0x00, Props([], []))]
                 else Changed(s.table, t', id, PublishEntry(m, Acknowledged)) && o.sent == []
               case PubRel =>
                 if s.role == ClientRole then
                   Gone(s.table, t', id) && o.sent == [AckPacket(PubComp, id, 0x00, Props([], []))]
                 else Changed(s.table, t', id, PublishEntry(m, Released)) && o.sent == []
               case _ => Gone(s.table, t', id) && o.sent == []
  {
    DropGone(s.table, id);
    DropSet(s.table, id, PublishEntry(s.table.items[id].publish, Released));
    SetTwice(s.table, id, PublishEntry(s.table.items[id].publish, Acknowledged),
             PublishEntry(s.table.items[id].publish, Released));
  }

  lemma DropSet(t: Table, id: PacketId, entry: Pending)
    ensures t.Set(id, entry).Drop(id) == t.Drop(id)
  {
    assert t.items[id := entry] - {id} == t.items - {id};
  }

  lemma SetTwice(t: Table, id: PacketId, first: Pending, second: Pending)
    ensures t.Set(id, first).Set(id, second) == t.Set(id, second)
  {
    assert t.items[id := first][id := second] == t.items[id := second];
  }

  /** A SUBACK or UNSUBACK takes away the entry it finds, and nothing else. */
  lemma CodesArrive(s: Session, kind: CodesKind, id: PacketId, codes: seq<ReasonCode>, props: Props)
    requires s.role == ClientRole && s.state == Connected && TableValid(s.table)
    ensures var o := HandlePacket(s, CodesPacket(kind, id, codes, props));
            && o.sent == [] && o.session == s.(table := o.session.table)
            && if id in s.table.items then Gone(s.table, o.session.table, id) else o.session == s
  {
    if s.table.Has(id) {
      DropGone(s.table, id);
    }
  }

  // ---------- Requests ----------

  /** `n` reason codes 0x91. */
  predicate AllInUse(codes: seq<ReasonCode>, n: nat) {
    |codes| == n && forall i :: 0 <= i < n ==> codes[i] == 0x91
  }

  /** A SUBSCRIBE waits in the table, and is not answered yet; or its packet id is in use. */
  lemma SubscribeArrives(s: Session, id: PacketId, subs: seq<Subscription>, props: Props)
    requires s.role == BrokerRole && s.state == Connected
    ensures var o := HandlePacket(s, SubscribePacket(id, subs, props));
            && o.session == s.(table := o.session.table)
            && if id in s.table.items then
                 && o.session == s
                 && |o.sent| == 1 && o.sent[0].CodesPacket? && AllInUse(o.sent[0].reasonCodes, |subs|)
                 && o.sent[0] == CodesPacket(SubAck, id, o.sent[0].reasonCodes, Props([], []))
               else Appended(s.table, o.session.table, id, SubscribeEntry(subs)) && o.sent == []
  {
  }

  /** Pattern `i` has a subscription when its turn comes: it had one before, and is not an earlier
      pattern of the request. */
  predicate Found(before: Subs, patterns: seq<Text>, i: nat)
    requires i < |patterns|
  {
    patterns[i] in before && patterns[i] !in patterns[..i]
  }

  /** One code for each pattern: 0x00 if it is found, and 0x11 if not. */
  predicate Reports(codes: seq<ReasonCode>, before: Subs, patterns: seq<Text>) {
    && |codes| == |patterns|
    && forall i :: 0 <= i < |patterns| ==> codes[i] == if Found(before, patterns, i) then 0x00 else 0x11
  }

  /** The other subscriptions stay as they are. */
  ghost predicate Leaves(before: Subs, after: Subs, patterns: seq<Text>) {
    && (forall t :: t in after <==> t in before && t !in patterns)
    && (forall t :: t in after ==> after[t] == before[t])
  }

  lemma FoundNext(before: Subs, patterns: seq<Text>, i: nat)
    requires 0 < i < |patterns|
    ensures Found(before - {patterns[0]}, patterns[1..], i - 1) <==> Found(before, patterns, i)
  {
    assert patterns[..i] == [patterns[0]] + patterns[1..][..i - 1];
  }

  lemma {:induction false} CodesReport(subs: Subs, patterns: seq<Text>)
    ensures Reports(UnsubscribeCodes(subs, patterns), subs, patterns)
    decreases |patterns|
  {
    if patterns != [] {
      CodesReport(subs - {patterns[0]}, patterns[1..]);
      forall i | 0 < i < |patterns|
        ensures Found(subs - {patterns[0]}, patterns[1..], i - 1) <==> Found(subs, patterns, i)
      {
        FoundNext(subs, patterns, i);
      }
    }
  }

  lemma {:induction false} RemovedLeaves(subs: Subs, patterns: seq<Text>)
    ensures Leaves(subs, RemoveAll(subs, patterns), patterns)
    decreases |patterns|
  {
    if patterns != [] {
      RemovedLeaves(subs - {patterns[0]}, patterns[1..]);
      assert forall t :: t in patterns <==> t == patterns[0] || t in patterns[1..];
    }
  }

  /** An UNSUBSCRIBE is answered at once and entered, and removes what it names; or its packet id is
      in use. */
  lemma UnsubscribeArrives(s: Session, id: PacketId, patterns: seq<Text>, props: Props)
    requires s.role == BrokerRole && s.state == Connected
    ensures var o := HandlePacket(s, UnsubscribePacket(id, patterns, props));
            && o.session == s.(table := o.session.table, subscriptions := o.session.subscriptions)
            && |o.sent| == 1 && o.sent[0].CodesPacket?
            && var codes := o.sent[0].reasonCodes;
               if id in s.table.items then
                 && o.session == s && AllInUse(codes, |patterns|)
                 && o.sent[0] == CodesPacket(SubAck, id, codes, Props([], []))
               else
                 && Appended(s.table, o.session.table, id, UnsubscribeEntry(patterns))
                 && o.sent[0] == CodesPacket(UnsubAck, id, codes, Props([], []))
                 && Reports(codes, s.subscriptions, patterns)
                 && Leaves(s.subscriptions, o.session.subscriptions, patterns)
  {
    CodesReport(s.subscriptions, patterns);
    RemovedLeaves(s.subscriptions, patterns);
  }

  /** The codes say 0x00 for exactly the patterns that lose their subscription: each such pattern
      has it at one place, its first in the request. */
  lemma FoundOnce(before: Subs, after: Subs, patterns: seq<Text>, codes: seq<ReasonCode>, t: Text)
    requires Reports(codes, before, patterns) && Leaves(before, after, patterns)
    ensures (t in before && t !in after) <==> exists i :: 0 <= i < |patterns| && patterns[i] == t && codes[i] == 0x00
    ensures forall i, j :: 0 <= i < j < |patterns| && patterns[i] == patterns[j] ==> codes[j] != 0x00
  {
    if t in before && t in patterns {
      var i := FirstPlace(patterns, t);
      assert Found(before, patterns, i);
    }
    forall i, j | 0 <= i < j < |patterns| && patterns[i] == patterns[j] ensures codes[j] != 0x00 {
      assert patterns[..j][i] == patterns[j];
    }
  }

  lemma {:induction false} FirstPlace(patterns: seq<Text>, t: Text) returns (i: nat)
    requires t in patterns
    ensures i < |patterns| && patterns[i] == t && t !in patterns[..i]
  {
    if patterns[0] == t {
      i := 0;
    } else {
      i := FirstPlace(patterns[1..], t);
      i := i + 1;
      assert patterns[..i] == [patterns[0]] + patterns[1..][..i - 1];
    }
  }

  // ---------- Connecting, disconnecting and pinging ----------

  /** The other packets, where they are expected. */
  lemma OthersArrive(s: Session, p: Packet)
    requires Expects(s.role, p) && Timely(s.state, p)
    ensures var o := HandlePacket(s, p);
            match p
            case ConnectPacket(clientId, _, _, _, _, _, _) =>
              o.session == s.(state := Connecting, clientId := clientId) && o.sent == []
            case DisconnectPacket(_, _) => o.session == s.(state := Disconnected) && o.sent == []
            case AuthPacket(_, _) => o.session == s && o.sent == []
            case PingReqPacket => o.session == s && o.sent == [PingRespPacket]
            case PingRespPacket => o.session == s && o.sent == []
            case ConnAckPacket(reason, _, _) =>
              reason != 0x00 ==> o.session == s.(state := Disconnected) && o.sent == []
            case _ => true
  {
  }

  /** The message of a pending publish, marked as a duplicate. */
  predicate ResentAt(t: Table, id: PacketId, p: Packet) {
    && id in t.items && t.items[id].PublishEntry?
    && p == PublishPacket(t.items[id].publish.(duplicate := true))
  }

  /** The messages of the first `n` entries, in order. */
  ghost predicate Resends(t: Table, n: nat, sent: seq<Packet>) {
    n <= |t.order| && |sent| == n && forall i :: 0 <= i < n ==> ResentAt(t, t.order[i], sent[i])
  }

  /** The entries of these ids are marked as duplicates, the others stay, and all keep their places. */
  ghost predicate Duplicated(t: Table, t': Table, ids: seq<PacketId>) {
    && t'.order == t.order && t'.items.Keys == t.items.Keys
    && forall id :: id in t.items ==>
         t'.items[id] == if id in ids && t.items[id].PublishEntry?
                         then PublishEntry(t.items[id].publish.(duplicate := true), t.items[id].ack)
                         else t.items[id]
  }

  /** What is resent before a pending packet that is no publish, or of everything. */
  ghost predicate StopsAt(t: Table, ids: seq<PacketId>, rest: seq<PacketId>) {
    && PublishIds(t, ids)
    && (rest != [] ==> rest[0] !in ids && rest[0] in t.items && !t.items[rest[0]].PublishEntry?)
  }

  lemma StopsLater(t: Table, ids: seq<PacketId>, rest: seq<PacketId>)
    requires ids != [] && StopsAt(t, ids, rest)
    ensures ids[0] in t.items && t.items[ids[0]].PublishEntry? && ids[0] !in ids[1..]
    ensures StopsAt(Marking(t, ids[0]), ids[1..], rest) && (ids + rest)[1..] == ids[1..] + rest
    ensures forall id :: id in ids <==> id == ids[0] || id in ids[1..]
  {
    OthersLeft(t, ids);
  }

  lemma {:induction false} ResendMarksUpTo(s: Session, ids: seq<PacketId>, rest: seq<PacketId>)
    requires StopsAt(s.table, ids, rest)
    ensures var o := Resend(s, ids + rest);
            o.session == s.(table := o.session.table) && Duplicated(s.table, o.session.table, ids)
    decreases |ids|
  {
    if ids == [] {
      assert ids + rest == rest;
    } else {
      StopsLater(s.table, ids, rest);
      ResendMarksUpTo(s.(table := Marking(s.table, ids[0])), ids[1..], rest);
    }
  }

  lemma {:induction false} ResendSendsUpTo(s: Session, ids: seq<PacketId>, rest: seq<PacketId>)
    requires StopsAt(s.table, ids, rest)
    ensures var o := Resend(s, ids + rest);
            && |o.sent| == |ids|
            && forall i :: 0 <= i < |ids| ==> ResentAt(s.table, ids[i], o.sent[i])
    decreases |ids|
  {
    if ids == [] {
      assert ids + rest == rest;
    } else {
      StopsLater(s.table, ids, rest);
      var s' := s.(table := Marking(s.table, ids[0]));
      ResendSendsUpTo(s', ids[1..], rest);
      var sent := Resend(s, ids + rest).sent;
      assert sent == [sent[0]] + Resend(s', ids[1..] + rest).sent;
      forall i | 0 < i < |ids| ensures ResentAt(s.table, ids[i], sent[i]) {
        assert ids[i] == ids[1..][i - 1] && ids[i] in ids[1..];
        assert ResentAt(s'.table, ids[1..][i - 1], sent[i]);
      }
    }
  }

  lemma FirstPublishes(t: Table, n: nat)
    requires TableValid(t) && n <= |t.order|
    requires forall i :: 0 <= i < n ==> t.items[t.order[i]].PublishEntry?
    requires n < |t.order| ==> !t.items[t.order[n]].PublishEntry?
    ensures StopsAt(t, t.order[..n], t.order[n..])
  {
    var ids, rest := t.order[..n], t.order[n..];
    assert forall id :: id in ids ==> exists i :: 0 <= i < n && t.order[i] == id;
    assert rest != [] ==> rest[0] == t.order[n];
  }

  /** The broker accepts and has no session: counter and subscriptions start anew. The pending
      publishes go out again, each marked as a duplicate, up to the first pending packet that is none. */
  lemma AcceptedAnew(s: Session, n: nat, props: Props)
    requires s.role == ClientRole && s.state == Connecting && TableValid(s.table) && n <= |s.table.order|
    requires forall i :: 0 <= i < n ==> s.table.items[s.table.order[i]].PublishEntry?
    requires n < |s.table.order| ==> !s.table.items[s.table.order[n]].PublishEntry?
    ensures var o := HandlePacket(s, ConnAckPacket(0x00, false, props));
            && o.session == s.(state := Connected, nextId := 1, subscriptions := map[], table := o.session.table)
            && Duplicated(s.table, o.session.table, s.table.order[..n])
            && Resends(s.table, n, o.sent)
  {
    var s' := s.(state := Connected, nextId := 1, subscriptions := map[]);
    var ids, rest := s.table.order[..n], s.table.order[n..];
    assert ids + rest == s.table.order;
    FirstPublishes(s.table, n);
    hide Resend, StopsAt;
    ResendMarksUpTo(s', ids, rest);
    ResendSendsUpTo(s', ids, rest);
  }

  /** It has the session: the pending publishes stay, in their order, and each goes out again, marked
      as a duplicate. Requests are forgotten. */
  lemma AcceptedAgain(s: Session, props: Props)
    requires s.role == ClientRole && s.state == Connecting && TableValid(s.table)
    ensures var o := HandlePacket(s, ConnAckPacket(0x00, true, props));
            var t' := o.session.table;
            && o.session == s.(state := Connected, table := t')
            && Subsequence(t'.order, s.table.order)
            && (forall id :: id in t'.items <==> id in s.table.items && s.table.items[id].PublishEntry?)
            && (forall id :: id in t'.items <==> id in t'.order)
            && (forall id :: id in t'.items ==>
                  t'.items[id] == PublishEntry(s.table.items[id].publish.(duplicate := true), s.table.items[id].ack))
            && |o.sent| == |t'.order|
            && forall i :: 0 <= i < |o.sent| ==> ResentAt(s.table, t'.order[i], o.sent[i])
  {
    ResumptionKeeps(s, props);
    var o := HandlePacket(s, ConnAckPacket(0x00, true, props));
    forall i | 0 <= i < |o.sent| ensures ResentAt(s.table, o.session.table.order[i], o.sent[i]) {
      assert o.session.table.order[i] in o.session.table.order;
    }
  }
}
