/** What a client does with its pending packets when a broker accepts its connection. */
module Resumption {
  import opened Bytes
  import opened Properties
  import opened Packets
  import opened RoundTrip
  import opened Framing
  import opened Sessions
  import opened SessionFacts

  /** Every pending publish survives the wire. */
  ghost predicate TableSafe(t: Table) {
    forall id :: id in t.items ==> EntrySafe(t.items[id])
  }

  ghost predicate EntrySafe(entry: Pending) {
    entry.PublishEntry? ==> WireSafe(PublishPacket(entry.publish))
  }

  /** `a` is what is left of `b` when some of its elements are taken out. */
  predicate Subsequence<T(==)>(a: seq<T>, b: seq<T>) {
    a == [] || (b != [] && ((a[0] == b[0] && Subsequence(a[1..], b[1..])) || Subsequence(a, b[1..])))
  }

  lemma {:induction false} OnlyPublishesKeepOrder(t: Table, order: seq<PacketId>)
    ensures Subsequence(OnlyPublishes(t, order), order)
  {
    if order != [] {
      OnlyPublishesKeepOrder(t, order[1..]);
      var tail := OnlyPublishes(t, order[1..]);
      assert ([order[0]] + tail)[1..] == tail && [] + tail == tail;
    }
  }

  // ---------- Resending ----------

  function Again(entry: Pending): Pending
    requires entry.PublishEntry?
  {
    entry.(publish := Duplicate(entry.publish))
  }

  /** Whether or not it succeeds, resending changes only duplicate flags and sends only
      messages. */
  lemma {:induction false} ResendKeeps(s: Session, ids: seq<PacketId>)
    ensures var o := Resend(s, ids);
            && o.session == s.(table := o.session.table)
            && o.session.table.items.Keys == s.table.items.Keys
            && (forall id :: id in s.table.items ==>
                  o.session.table.items[id] == s.table.items[id]
                  || (s.table.items[id].PublishEntry? && o.session.table.items[id] == Again(s.table.items[id])))
            && (forall p :: p in o.sent ==> p.PublishPacket?)
    decreases |ids|
  {
    if ids != [] && s.table.Has(ids[0]) && s.table.items[ids[0]].PublishEntry? {
      var entry := s.table.items[ids[0]];
      ResendKeeps(s.(table := s.table.Set(ids[0], Again(entry))), ids[1..]);
    }
  }

  /** These are different packet ids of pending publishes. */
  ghost predicate PublishIds(t: Table, ids: seq<PacketId>) {
    Distinct(ids) && forall id :: id in ids ==> id in t.items && t.items[id].PublishEntry?
  }

  /** The table with the entry of a publish marked for resending. */
  function Marking(t: Table, id: PacketId): Table
    requires id in t.items && t.items[id].PublishEntry?
  {
    t.Set(id, Again(t.items[id]))
  }

  lemma OthersLeft(t: Table, ids: seq<PacketId>)
    requires ids != [] && PublishIds(t, ids)
    ensures ids[0] in t.items && t.items[ids[0]].PublishEntry? && ids[0] !in ids[1..]
    ensures PublishIds(Marking(t, ids[0]), ids[1..]) && forall id :: id in ids <==> id == ids[0] || id in ids[1..]
  {
    assert ids[0] in ids;
    assert forall i :: 0 <= i < |ids[1..]| ==> ids[1..][i] == ids[i + 1] != ids[0];
  }

  /** Resending publishes marks each of them. */
  lemma {:induction false} ResendEach(s: Session, ids: seq<PacketId>)
    requires PublishIds(s.table, ids)
    ensures var o := Resend(s, ids);
            && o.status == Done
            && o.session.table.order == s.table.order && o.session.table.items.Keys == s.table.items.Keys
            && (forall id :: id in s.table.items ==>
                  o.session.table.items[id] == if id in ids then Again(s.table.items[id]) else s.table.items[id])
    decreases |ids|
  {
    if ids != [] {
      OthersLeft(s.table, ids);
      ResendEach(s.(table := Marking(s.table, ids[0])), ids[1..]);
    }
  }

  /** It sends each exactly once, in order. */
  lemma {:induction false} ResendSends(s: Session, ids: seq<PacketId>)
    requires PublishIds(s.table, ids)
    ensures var o := Resend(s, ids);
            && |o.sent| == |ids|
            && (forall i :: 0 <= i < |ids| ==>
                  ids[i] in s.table.items && s.table.items[ids[i]].PublishEntry?
                  && o.sent[i] == PublishPacket(Duplicate(s.table.items[ids[i]].publish)))
    decreases |ids|
  {
    if ids != [] {
      OthersLeft(s.table, ids);
      var s' := s.(table := Marking(s.table, ids[0]));
      ResendSends(s', ids[1..]);
      forall i | 0 < i < |ids|
        ensures ids[i] in s.table.items && s.table.items[ids[i]].PublishEntry?
        ensures Resend(s, ids).sent[i] == PublishPacket(Duplicate(s.table.items[ids[i]].publish))
      {
        assert ids[i] == ids[1..][i - 1] && ids[i] in ids[1..];
        assert Resend(s, ids).sent[i] == Resend(s', ids[1..]).sent[i - 1];
      }
    }
  }

  /** Resending stops with an AssertionError at the first pending packet that is no publish. */
  lemma {:induction false} ResendSucceeds(s: Session, ids: seq<PacketId>)
    requires Distinct(ids) && forall id :: id in ids ==> id in s.table.items
    ensures Resend(s, ids).status == Done <==> forall id :: id in ids ==> s.table.items[id].PublishEntry?
    ensures Resend(s, ids).status == Done || Resend(s, ids).status == Raised(AssertionError)
    decreases |ids|
  {
    if ids != [] {
      var id := ids[0];
      assert id in ids;
      if s.table.items[id].PublishEntry? {
        var s' := s.(table := s.table.Set(id, Again(s.table.items[id])));
        assert forall i :: 0 <= i < |ids[1..]| ==> ids[1..][i] == ids[i + 1] != id;
        ResendSucceeds(s', ids[1..]);
        assert forall k :: k in ids ==> k == id || k in ids[1..];
      }
    }
  }

  lemma {:induction false} SettledAt(ps: seq<Packet>)
    ensures |SettledAll(ps)| == |ps|
    ensures forall i :: 0 <= i < |ps| ==> SettledAll(ps)[i] == Settled(ps[i])
  {
    if ps != [] {
      SettledAt(ps[1..]);
    }
  }

  // ---------- A session that is resumed ----------

  /** The table after a resumption: the publishes of the table before, in their order, with
      their packet ids and QoS 2 progress, each marked as a duplicate. */
  ghost predicate Kept(before: Table, after: Table) {
    && Subsequence(after.order, before.order) && Distinct(after.order)
    && (forall id :: id in after.items <==> id in after.order)
    && (forall id :: id in after.order <==> id in before.items && before.items[id].PublishEntry?)
    && (forall id :: id in after.items ==> after.items[id] == Again(before.items[id]))
  }

  /** A message for each entry, in the order of the table. */
  ghost predicate OneEach(t: Table, sent: seq<Packet>) {
    && |sent| == |t.order|
    && forall i :: 0 <= i < |sent| ==>
         t.order[i] in t.items && t.items[t.order[i]].PublishEntry?
         && sent[i] == PublishPacket(t.items[t.order[i]].publish)
  }

  lemma ResetKeeps(before: Table, after: Table)
    requires TableValid(before)
    requires after.order == OnlyPublishes(before, before.order)
    requires after.items == map id | id in before.items && before.items[id].PublishEntry? :: before.items[id]
    ensures Subsequence(after.order, before.order) && Distinct(after.order)
    ensures forall id :: id in after.items <==> id in after.order
    ensures forall id :: id in after.order <==> id in before.items && before.items[id].PublishEntry?
    ensures forall id :: id in after.items ==> after.items[id] == before.items[id]
  {
    OnlyPublishesMeans(before, before.order);
    OnlyPublishesKeepOrder(before, before.order);
  }

  lemma ResendMarks(s: Session)
    requires Distinct(s.table.order) && forall id :: id in s.table.items <==> id in s.table.order
    requires forall id :: id in s.table.order ==> s.table.items[id].PublishEntry?
    ensures var o := Resend(s, s.table.order);
            && o.status == Done
            && o.session == s.(table := o.session.table)
            && o.session.table.order == s.table.order && o.session.table.items.Keys == s.table.items.Keys
            && (forall id :: id in s.table.items ==> o.session.table.items[id] == Again(s.table.items[id]))
            && OneEach(o.session.table, o.sent)
  {
    ResendEach(s, s.table.order);
    ResendSends(s, s.table.order);
    ResendKeeps(s, s.table.order);
    var o := Resend(s, s.table.order);
    forall i | 0 <= i < |o.sent|
      ensures s.table.order[i] in o.session.table.items && o.session.table.items[s.table.order[i]].PublishEntry?
      ensures o.sent[i] == PublishPacket(o.session.table.items[s.table.order[i]].publish)
    {
      assert s.table.order[i] in s.table.order;
    }
  }

  lemma ResumptionKeeps(s: Session, props: Props)
    requires s.role == ClientRole && s.state == Connecting && TableValid(s.table)
    ensures var o := HandlePacket(s, ConnAckPacket(SUCCESS, true, props));
            && o.status == Done
            && o.session == s.(state := Connected, table := o.session.table)
            && Kept(s.table, o.session.table) && OneEach(o.session.table, o.sent)
  {
    var s' := Reset(s.(state := Connected), true);
    ResetKeeps(s.table, s'.table);
    ResendMarks(s');
  }

  /** One message for each entry that was kept decodes to that entry's message. */
  lemma EachDecoded(before: Table, after: Table, sent: seq<Packet>)
    requires TableValid(before) && TableSafe(before) && Kept(before, after) && OneEach(after, sent)
    ensures AllSafe(sent)
    ensures var decoded := DecodeAll(EncodeAll(sent));
            && decoded.Ok? && decoded.rest == [] && |decoded.value| == |after.order|
            && forall i :: 0 <= i < |decoded.value| ==>
                 var p := PublishPacket(after.items[after.order[i]].publish);
                 decoded.value[i] == Settled(p) && SamePacket(decoded.value[i], p) && p.publish.duplicate
  {
    forall i | 0 <= i < |sent|
      ensures PacketOk(sent[i]) && WireSafe(sent[i]) && SamePacket(Settled(sent[i]), sent[i])
    {
      var id := after.order[i];
      assert id in before.items && EntryValid(id, before.items[id]) && EntrySafe(before.items[id]);
      SettledSame(sent[i]);
    }
    assert AllSafe(sent);
    ListRoundTrip(sent);
    SettledAt(sent);
  }

  /** When the broker resumes the session, exactly the pending publishes stay, and the outbound
      bytes gain exactly one encoding of each, in order, which decode to those publishes with the
      duplicate flag set. */
  lemma ResumptionConserves(s: Session, props: Props)
    requires s.role == ClientRole && s.state == Connecting && TableValid(s.table) && TableSafe(s.table)
    ensures var o := HandlePacket(s, ConnAckPacket(SUCCESS, true, props));
            && Kept(s.table, o.session.table)
            && AllSafe(o.sent)
            && var decoded := DecodeAll(EncodeAll(o.sent));
               && decoded.Ok? && decoded.rest == [] && |decoded.value| == |o.session.table.order|
               && forall i :: 0 <= i < |decoded.value| ==>
                    var p := PublishPacket(o.session.table.items[o.session.table.order[i]].publish);
                    decoded.value[i] == Settled(p) && SamePacket(decoded.value[i], p) && p.publish.duplicate
  {
    ResumptionKeeps(s, props);
    var o := HandlePacket(s, ConnAckPacket(SUCCESS, true, props));
    EachDecoded(s.table, o.session.table, o.sent);
  }

  /** When the broker has no session, the table stays, and the connection succeeds if and only if
      nothing but publishes is pending; else an assertion fails. */
  lemma NewSessionFails(s: Session, props: Props)
    requires s.role == ClientRole && s.state == Connecting && TableValid(s.table)
    ensures var o := HandlePacket(s, ConnAckPacket(SUCCESS, false, props));
            && o.status in {Done, Raised(AssertionError)}
            && (o.status == Done <==> forall id :: id in s.table.items ==> s.table.items[id].PublishEntry?)
            && o.session.subscriptions == map[] && o.session.counts == s.counts
            && o.session.table.items.Keys == s.table.items.Keys
  {
    var s' := Reset(s.(state := Connected), false);
    ResendSucceeds(s', s'.table.order);
    ResendKeeps(s', s'.table.order);
    assert forall id :: id in s.table.items ==> id in s'.table.order;
  }
}
