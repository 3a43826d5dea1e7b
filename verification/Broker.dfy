/** The broker: its registered sessions, the fan-out of a message, and the retained messages. */
module BrokerStateMachine {
  import opened Bytes
  import opened Packets
  import opened Framing
  import opened Sessions
  import opened SessionFacts
  import opened StateMachine

  // ---------- Retained messages ----------

  /** A retained message replaces the one for its topic; one with an empty payload removes it. */
  function Retain(retained: map<Text, Publish>, p: Publish): map<Text, Publish> {
    if !p.retain then retained
    else if PayloadBytes(p.payload) != [] then retained[p.topic := p]
    else retained - {p.topic}
  }

  function RetainAll(retained: map<Text, Publish>, history: seq<Publish>): map<Text, Publish> {
    if history == [] then retained
    else Retain(RetainAll(retained, history[..|history| - 1]), history[|history| - 1])
  }

  /** Message `i` is the last of the history that a topic was to retain. */
  ghost predicate LastRetained(history: seq<Publish>, topic: Text, i: int) {
    && 0 <= i < |history| && history[i].retain && history[i].topic == topic
    && forall j :: i < j < |history| ==> !(history[j].retain && history[j].topic == topic)
  }

  /** After any history the store holds, for each topic, the last message published to it with
      the retain flag, and nothing if that one was empty or there was none. */
  lemma {:induction false} RetainedIsLast(history: seq<Publish>, topic: Text)
    ensures var store := RetainAll(map[], history);
            && (topic in store
                <==> exists i :: LastRetained(history, topic, i) && PayloadBytes(history[i].payload) != [])
            && (forall i :: LastRetained(history, topic, i) && topic in store ==> store[topic] == history[i])
  {
    if history != [] {
      var n := |history| - 1;
      RetainedIsLast(history[..n], topic);
      if history[n].retain && history[n].topic == topic {
        assert LastRetained(history, topic, n);
      } else {
        assert forall i :: LastRetained(history, topic, i) ==> i < n && LastRetained(history[..n], topic, i);
        assert forall i :: LastRetained(history[..n], topic, i) ==> LastRetained(history, topic, i);
      }
    }
  }

  // ---------- Delivery to one session after the other ----------

  /** The object is in this state, and its outbound bytes are these. */
  ghost predicate At(c: SessionStateMachine, b: Buffer, s: Session, data: seq<byte>)
    reads c, b
  {
    c.Valid() && c.View() == s && c.outBuffer == b && b.data == data
  }

  method Serve(c: SessionStateMachine, ghost b: Buffer, ghost s: Session, ghost data: seq<byte>,
               source: Text, p: Publish)
    returns (accepted: bool, status: Status, ghost o: Outcome)
    requires At(c, b, s, data) && PublishOk(p)
    modifies c, b
    ensures o == DeliverPublish(s, source, p) && AllOk(o.sent)
    ensures At(c, b, o.session, data + EncodeAll(o.sent)) && o.session.clientId == s.clientId
    ensures status == o.status && (accepted <==> status == Done && Accepts(s, source, p))
  {
    o := DeliverPublish(c.View(), source, p);
    accepted, status := c.DeliverPublish(source, p);
  }

  /** Different sessions, with outbound buffers of their own. */
  ghost predicate Apart(cs: seq<SessionStateMachine>, bs: seq<Buffer>) {
    |cs| == |bs| && Distinct(cs) && Distinct(bs)
  }

  /** Sessions in a state each, with their outbound bytes. */
  ghost predicate AllAt(cs: seq<SessionStateMachine>, bs: seq<Buffer>, ss: seq<Session>, data: seq<seq<byte>>)
    reads cs, bs
  {
    |cs| == |bs| == |ss| == |data| && forall i :: 0 <= i < |cs| ==> At(cs[i], bs[i], ss[i], data[i])
  }

  /** Delivering to one session leaves the others alone. */
  method ServeAt(cs: seq<SessionStateMachine>, ghost bs: seq<Buffer>,
                 ghost ss: seq<Session>, ghost data: seq<seq<byte>>, i: nat, source: Text, p: Publish)
    returns (accepted: bool, status: Status, ghost o: Outcome)
    requires Apart(cs, bs) && AllAt(cs, bs, ss, data) && PublishOk(p)
    requires i < |cs|
    modifies cs[i], bs[i]
    ensures o == DeliverPublish(ss[i], source, p) && AllOk(o.sent)
    ensures o.session.clientId == ss[i].clientId == cs[i].clientId
    ensures AllAt(cs, bs, ss[i := o.session], data[i := data[i] + EncodeAll(o.sent)])
    ensures status == o.status && (accepted <==> status == Done && Accepts(ss[i], source, p))
  {
    accepted, status, o := Serve(cs[i], bs[i], ss[i], data[i], source, p);
  }

  /** One of the first `n` sessions has this client id and accepts the message. */
  ghost predicate Accepted(ss: seq<Session>, n: nat, source: Text, p: Publish, clientId: Text) {
    exists j :: 0 <= j < n && j < |ss| && ss[j].clientId == clientId && Accepts(ss[j], source, p)
  }

  ghost predicate AcceptedBy(ids: set<Text>, ss: seq<Session>, n: nat, source: Text, p: Publish) {
    forall id :: id in ids <==> Accepted(ss, n, source, p, id)
  }

  /** The sessions `ss` after the first ones have been served with the outcomes `outs`. */
  ghost predicate Served(ss: seq<Session>, data: seq<seq<byte>>, outs: seq<Outcome>,
                         ss': seq<Session>, data': seq<seq<byte>>, source: Text, p: Publish) {
    && |outs| <= |ss| == |data| == |ss'| == |data'|
    && (forall j :: 0 <= j < |outs| ==>
          && outs[j] == DeliverPublish(ss[j], source, p) && AllOk(outs[j].sent)
          && ss'[j] == outs[j].session && data'[j] == data[j] + EncodeAll(outs[j].sent))
    && (forall j :: |outs| <= j < |ss| ==> ss'[j] == ss[j] && data'[j] == data[j])
  }

  lemma ServedMore(ss: seq<Session>, data: seq<seq<byte>>, outs: seq<Outcome>,
                   ss': seq<Session>, data': seq<seq<byte>>, source: Text, p: Publish, o: Outcome)
    requires Served(ss, data, outs, ss', data', source, p) && |outs| < |ss|
    requires o == DeliverPublish(ss[|outs|], source, p) && AllOk(o.sent)
    ensures Served(ss, data, outs + [o], ss'[|outs| := o.session],
                   data'[|outs| := data'[|outs|] + EncodeAll(o.sent)], source, p)
  {
  }

  lemma AcceptedMore(ss: seq<Session>, n: nat, source: Text, p: Publish, recipients: set<Text>, accepted: bool)
    requires n < |ss| && AcceptedBy(recipients, ss, n, source, p)
    requires accepted <==> Accepts(ss[n], source, p)
    ensures AcceptedBy(if accepted then recipients + {ss[n].clientId} else recipients, ss, n + 1, source, p)
  {
    forall id
      ensures Accepted(ss, n + 1, source, p, id)
         <==> Accepted(ss, n, source, p, id) || (accepted && id == ss[n].clientId)
    {
    }
  }

  /** The loop of `publish`. */
  method FanOut(cs: seq<SessionStateMachine>, ghost bs: seq<Buffer>, ghost ss: seq<Session>, ghost data: seq<seq<byte>>,
                source: Text, p: Publish)
    returns (recipients: set<Text>, status: Status, ghost outs: seq<Outcome>,
             ghost ss': seq<Session>, ghost data': seq<seq<byte>>)
    requires Apart(cs, bs) && AllAt(cs, bs, ss, data) && PublishOk(p)
    modifies cs, bs
    ensures AllAt(cs, bs, ss', data') && Served(ss, data, outs, ss', data', source, p)
    ensures status == Done ==> |outs| == |ss|
    ensures status != Done ==> outs != [] && outs[|outs| - 1].status == status
    ensures forall j :: 0 <= j < |outs| && (status == Done || j < |outs| - 1) ==> outs[j].status == Done
    ensures status == Done ==> AcceptedBy(recipients, ss, |ss|, source, p)
  {
    recipients, status, outs, ss', data' := {}, Done, [], ss, data;
    for i := 0 to |cs|
      invariant AllAt(cs, bs, ss', data') && Served(ss, data, outs, ss', data', source, p)
      invariant |outs| == i && status == Done && forall j :: 0 <= j < i ==> outs[j].status == Done
      invariant AcceptedBy(recipients, ss, i, source, p)
    {
      assert ss[i] in ss && ss'[i] == ss[i];
      ghost var o;
      var accepted;
      accepted, status, o := ServeAt(cs, bs, ss', data', i, source, p);
      ServedMore(ss, data, outs, ss', data', source, p, o);
      ss', data', outs := ss'[i := o.session], data'[i := data'[i] + EncodeAll(o.sent)], outs + [o];
      if status != Done {
        break;
      }
      AcceptedMore(ss, i, source, p, recipients, accepted);
      if accepted {
        recipients := recipients + {cs[i].clientId};
      }
    }
  }

  /** What a session is sent of a message. */
  ghost function Copy(s: Session, source: Text, p: Publish): seq<byte>
    requires PublishOk(p)
  {
    if Accepts(s, source, p) then Encode(PublishPacket(p)) else []
  }

  lemma DeliverMeans(s: Session, source: Text, p: Publish)
    requires PublishOk(p)
    ensures var o := DeliverPublish(s, source, p);
            && o.status == (if s.state == Connected then Done else Raised(ProtocolError))
            && (o.status != Done ==> o == Fail(s, ProtocolError))
            && o.session.clientId == s.clientId && o.session.subscriptions == s.subscriptions
            && (o.status == Done && p.packetId.None? ==>
                  o.session == s && AllOk(o.sent) && EncodeAll(o.sent) == Copy(s, source, p))
  {
    EncodeOne(PublishPacket(p));
  }

  /** A message without a packet id changes no session and is appended once to the outbound bytes
      of a session that is reached and accepts it. No message changes the subscriptions. */
  ghost predicate DeliveredTo(s: Session, data: seq<byte>, s': Session, data': seq<byte>, reached: bool,
                              source: Text, p: Publish)
    requires PublishOk(p)
  {
    && s'.clientId == s.clientId && s'.subscriptions == s.subscriptions
    && (p.packetId.None? ==> s' == s && data' == data + if reached then Copy(s, source, p) else [])
  }

  /** The sessions have been served up to the first that is not connected. */
  ghost predicate Delivered(ss: seq<Session>, data: seq<seq<byte>>, ss': seq<Session>, data': seq<seq<byte>>,
                            served: nat, status: Status, source: Text, p: Publish)
    requires PublishOk(p)
  {
    && |ss| == |data| == |ss'| == |data'| && served <= |ss|
    && (forall i :: 0 <= i < served ==> ss[i].state == Connected)
    && (served < |ss| ==> ss[served].state != Connected)
    && status == (if served == |ss| then Done else Raised(ProtocolError))
    && (forall i :: 0 <= i < |ss| ==> DeliveredTo(ss[i], data[i], ss'[i], data'[i], i < served, source, p))
  }

  lemma OutcomeMeans(s: Session, data: seq<byte>, o: Outcome, data': seq<byte>, source: Text, p: Publish)
    requires PublishOk(p) && o == DeliverPublish(s, source, p) && AllOk(o.sent) && data' == data + EncodeAll(o.sent)
    ensures o.status == if s.state == Connected then Done else Raised(ProtocolError)
    ensures DeliveredTo(s, data, o.session, data', o.status == Done, source, p)
  {
    DeliverMeans(s, source, p);
  }

  lemma UntouchedMeans(s: Session, data: seq<byte>, source: Text, p: Publish)
    requires PublishOk(p)
    ensures DeliveredTo(s, data, s, data, false, source, p)
  {
    assert data + [] == data;
  }

  lemma ServedMeans(ss: seq<Session>, data: seq<seq<byte>>, outs: seq<Outcome>,
                    ss': seq<Session>, data': seq<seq<byte>>, served: nat, status: Status, source: Text, p: Publish)
    requires PublishOk(p) && Served(ss, data, outs, ss', data', source, p)
    requires served <= |outs| && forall j :: 0 <= j < served ==> outs[j].status == Done
    requires if status == Done then served == |outs| == |ss| else served == |outs| - 1 && outs[served].status == status
    ensures Delivered(ss, data, ss', data', served, status, source, p)
  {
    forall i | 0 <= i < |ss|
      ensures i < |outs| ==> outs[i].status == if ss[i].state == Connected then Done else Raised(ProtocolError)
      ensures DeliveredTo(ss[i], data[i], ss'[i], data'[i], i < served, source, p)
    {
      if i < |outs| {
        OutcomeMeans(ss[i], data[i], outs[i], data'[i], source, p);
        if i >= served {
          assert i == served && outs[i].status == status;
        }
      } else {
        UntouchedMeans(ss[i], data[i], source, p);
      }
    }
  }

  ghost predicate RecipientsAre(recipients: set<Text>, ids: seq<Text>, ss: seq<Session>, source: Text, p: Publish)
    requires |ss| == |ids|
  {
    && (forall id :: id in recipients ==> id in ids)
    && (forall i :: 0 <= i < |ids| ==> (ids[i] in recipients <==> Accepts(ss[i], source, p)))
  }

  lemma RecipientIds(ss: seq<Session>, ids: seq<Text>, recipients: set<Text>, source: Text, p: Publish)
    requires |ss| == |ids| && Distinct(ids) && forall i :: 0 <= i < |ids| ==> ss[i].clientId == ids[i]
    requires AcceptedBy(recipients, ss, |ss|, source, p)
    ensures RecipientsAre(recipients, ids, ss, source, p)
  {
    forall i | 0 <= i < |ids| ensures ids[i] in recipients <==> Accepts(ss[i], source, p) {
      assert Accepts(ss[i], source, p) ==> Accepted(ss, |ss|, source, p, ids[i]);
    }
  }

  method DeliverAll(cs: seq<SessionStateMachine>, ghost bs: seq<Buffer>,
                    ghost ss: seq<Session>, ghost data: seq<seq<byte>>, source: Text, p: Publish)
    returns (recipients: set<Text>, status: Status, ghost served: nat,
             ghost ss': seq<Session>, ghost data': seq<seq<byte>>)
    requires Apart(cs, bs) && AllAt(cs, bs, ss, data) && PublishOk(p)
    modifies cs, bs
    ensures AllAt(cs, bs, ss', data') && Delivered(ss, data, ss', data', served, status, source, p)
    ensures status == Done ==> AcceptedBy(recipients, ss, |ss|, source, p)
  {
    ghost var outs;
    recipients, status, outs, ss', data' := FanOut(cs, bs, ss, data, source, p);
    served := if status == Done then |outs| else |outs| - 1;
    ServedMeans(ss, data, outs, ss', data', served, status, source, p);
  }

  // ---------- The broker ----------

  class Broker {
    var clients: map<Text, SessionStateMachine>
    var order: seq<Text>
    var retained: map<Text, Publish>

    /** Sessions are registered under their client ids and own their outbound buffers. */
    ghost predicate Valid()
      reads `clients, `order, clients.Values
    {
      && (forall k :: k in order <==> k in clients) && Distinct(order)
      && (forall k :: k in clients ==> clients[k].Valid() && clients[k].clientId == k)
      && (forall k, l :: k in clients && l in clients && k != l ==> clients[k].outBuffer != clients[l].outBuffer)
    }

    /** The states of the registered sessions, in order. */
    ghost function States(): seq<Session>
      requires Valid()
      reads `clients, `order, clients.Values
    {
      var cs, ids := clients, order;
      seq(|ids|, i requires 0 <= i < |ids| && ids[i] in cs reads cs.Values => cs[ids[i]].View())
    }

    /** Their outbound bytes. */
    ghost function Outputs(): seq<seq<byte>>
      requires Valid()
      reads `clients, `order, clients.Values, Buffers()
    {
      var cs, ids, bs := clients, order, Buffers();
      seq(|ids|, i requires 0 <= i < |ids| && ids[i] in cs && cs[ids[i]].outBuffer in bs reads cs.Values, bs =>
                   cs[ids[i]].outBuffer.data)
    }

    ghost function Buffers(): set<Buffer>
      reads `clients, `order, clients.Values
    {
      set k | k in clients :: clients[k].outBuffer
    }

    constructor ()
      ensures Valid() && clients == map[] && retained == map[]
    {
      clients := map[];
      order := [];
      retained := map[];
    }

    /** Registering a session again keeps its place. */
    method AddClientSession(session: SessionStateMachine)
      requires Valid() && session.Valid()
      requires forall k :: k in clients && clients[k] != session ==> clients[k].outBuffer != session.outBuffer
      modifies this`clients, this`order
      ensures Valid() && clients == old(clients)[session.clientId := session]
      ensures order == if session.clientId in old(clients) then old(order) else old(order) + [session.clientId]
    {
      if session.clientId !in clients {
        order := order + [session.clientId];
      }
      clients := clients[session.clientId := session];
    }

    /** `cs` are the registered sessions in order, with these buffers, states and outbound bytes. */
    ghost predicate Lists(cs: seq<SessionStateMachine>, bs: seq<Buffer>, ss: seq<Session>, data: seq<seq<byte>>)
      reads `clients, `order, cs, bs
    {
      && (forall k :: k in order <==> k in clients) && Distinct(order)
      && |cs| == |order| && (forall i :: 0 <= i < |order| ==> cs[i] == clients[order[i]])
      && AllAt(cs, bs, ss, data) && Apart(cs, bs)
      && (forall i :: 0 <= i < |order| ==> ss[i].clientId == order[i])
    }

    lemma ListsAll(cs: seq<SessionStateMachine>, bs: seq<Buffer>, ss: seq<Session>, data: seq<seq<byte>>)
      requires Lists(cs, bs, ss, data)
      ensures Valid() && States() == ss && Outputs() == data
    {
      forall k | k in clients
        ensures exists i :: 0 <= i < |order| && order[i] == k && At(cs[i], bs[i], ss[i], data[i])
      {
        var i :| 0 <= i < |order| && order[i] == k;
        assert At(cs[i], bs[i], ss[i], data[i]);
      }
    }

    method Values() returns (cs: seq<SessionStateMachine>, ghost bs: seq<Buffer>)
      requires Valid()
      ensures Lists(cs, bs, States(), Outputs())
      ensures (forall c :: c in cs ==> c in clients.Values) && (forall b :: b in bs ==> b in Buffers())
    {
      cs, bs := [], [];
      for i := 0 to |order|
        invariant |cs| == |bs| == i
        invariant forall j :: 0 <= j < i ==> cs[j] == clients[order[j]] && bs[j] == cs[j].outBuffer
      {
        cs, bs := cs + [clients[order[i]]], bs + [clients[order[i]].outBuffer];
      }
    }

    method RetainMessage(p: Publish)
      requires Valid()
      modifies this`retained
      ensures retained == Retain(old(retained), p)
      ensures Valid() && States() == old(States()) && Outputs() == old(Outputs())
    {
      if p.retain {
        if PayloadBytes(p.payload) != [] {
          retained := retained[p.topic := p];
        } else {
          retained := retained - {p.topic};
        }
      }
    }

    /** Each session is served in turn, up to the first that is not connected. The recipients are
        exactly the sessions that accept the message. */
    method DeliverInOrder(source: Text, p: Publish) returns (recipients: set<Text>, status: Status, ghost served: nat)
      requires Valid() && PublishOk(p)
      modifies clients.Values, Buffers()
      ensures Valid() && Delivered(old(States()), old(Outputs()), States(), Outputs(), served, status, source, p)
      ensures status == Done ==> RecipientsAre(recipients, order, old(States()), source, p)
    {
      ghost var ss, data, bs, ss', data' := States(), Outputs(), [], [], [];
      var cs;
      cs, bs := Values();
      recipients, status, served, ss', data' := DeliverAll(cs, bs, ss, data, source, p);
      ListsAll(cs, bs, ss', data');
      if status == Done {
        RecipientIds(ss, order, recipients, source, p);
      }
    }

    /** `publish`: the message is retained before it is delivered, and stays retained if the
        delivery raises. */
    method Publish(source: Text, p: Publish) returns (recipients: set<Text>, status: Status, ghost served: nat)
      requires Valid() && PublishOk(p)
      modifies this`retained, clients.Values, Buffers()
      ensures retained == Retain(old(retained), p)
      ensures Valid() && Delivered(old(States()), old(Outputs()), States(), Outputs(), served, status, source, p)
      ensures status == Done ==> RecipientsAre(recipients, order, old(States()), source, p)
    {
      RetainMessage(p);
      recipients, status, served := DeliverInOrder(source, p);
    }

    /** Any call of a registered session that keeps its client id, and replaces its outbound buffer
        by a new one at most, keeps the broker valid. */
    twostate lemma SessionMoves(id: Text)
      requires old(Valid()) && unchanged(this) && id in clients
      requires clients[id].Valid() && clients[id].clientId == id
      requires clients[id].outBuffer == old(clients[id].outBuffer) || fresh(clients[id].outBuffer)
      requires forall k :: k in clients && k != id ==> unchanged(clients[k])
      ensures Valid()
    {
    }
  }
}
