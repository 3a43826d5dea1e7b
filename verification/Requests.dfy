/** What every call of the two applications does, in numbers: the packet it sends, built from its
    arguments; the table, the counter and the maps after it; and what it leaves behind when it raises. */
module Requests {
  import opened Bytes
  import opened Properties
  import opened Subscriptions
  import opened Packets
  import opened Sessions
  import opened ReferenceCounting
  import opened Inbound

  // ---------- Requests with a packet id ----------

  /** The packet id after this one. */
  function Following(id: PacketId): PacketId {
    if id == 65535 then 1 else id + 1
  }

  /** A reply to this request that reports its packet id in use, code by code. */
  predicate ReportsEach(request: Packet, reply: Packet) {
    match request
    case PublishPacket(m) =>
      && m.packetId.Some?
      && reply == AckPacket(if m.qos == 1 then PubAck else PubRec, m.packetId.value, 0x91, Props([], []))
    case SubscribePacket(id, subs, _) =>
      && reply.CodesPacket? && AllInUse(reply.reasonCodes, |subs|)
      && reply == CodesPacket(SubAck, id, reply.reasonCodes, Props([], []))
    case UnsubscribePacket(id, patterns, _) =>
      && reply.CodesPacket? && AllInUse(reply.reasonCodes, |patterns|)
      && reply == CodesPacket(SubAck, id, reply.reasonCodes, Props([], []))
    case _ => false
  }

  /** The request goes out and is entered under the packet id. If that is in use, the table stays and
      a reply that says so goes out behind the request. */
  predicate Enters(t: Table, t': Table, id: PacketId, request: Packet, entry: Pending, sent: seq<Packet>) {
    if id in t.items then t' == t && |sent| == 2 && sent[0] == request && ReportsEach(request, sent[1])
    else Appended(t, t', id, entry) && sent == [request]
  }

  lemma RequestEnters(s: Session, id: PacketId, request: Packet, entry: Pending)
    requires match request
             case PublishPacket(m) => entry == PublishEntry(m, Unacknowledged) && m.packetId == Some(id)
             case SubscribePacket(k, subs, _) => entry == SubscribeEntry(subs) && k == id
             case UnsubscribePacket(k, patterns, _) => entry == UnsubscribeEntry(patterns) && k == id
             case _ => false
    ensures var o := SendRequest(s, id, request, entry);
            && o.status == Done && o.session == s.(table := o.session.table)
            && Enters(s.table, o.session.table, id, request, entry, o.sent)
  {
  }

  // ---------- publish ----------

  /** A message says what the call says. Nothing but a text payload sets a property. */
  function Said(topic: Text, payload: Payload, id: Option<PacketId>, retain: bool, qos: QoS): Publish {
    Publish(topic, payload, id, retain, qos, false,
            Props(if payload.TextPayload? then [(0x01, Number(1))] else [], []))
  }

  /** `publish` of a connected client. */
  lemma PublishExactly(s: Session, topic: Text, payload: Payload, retain: bool, qos: QoS)
    requires s.state == Connected
    ensures var o, id := ClientPublish(s, topic, payload, retain, qos), s.nextId;
            if |topic| >= 0x1_0000 then
              && o.status == Raised(Overflow) && o.sent == []
              && o.session == if qos == 0 then s else s.(nextId := Following(id))
            else if qos == 0 then
              o.status == Done && o.session == s && o.sent == [PublishPacket(Said(topic, payload, None, retain, qos))]
            else
              var m := Said(topic, payload, Some(id), retain, qos);
              && o.status == Done && o.session == s.(nextId := Following(id), table := o.session.table)
              && Enters(s.table, o.session.table, id, PublishPacket(m), PublishEntry(m, Unacknowledged), o.sent)
  {
    if |topic| < 0x1_0000 && qos > 0 {
      var m := Said(topic, payload, Some(s.nextId), retain, qos);
      RequestEnters(s.(nextId := Following(s.nextId)), s.nextId, PublishPacket(m), PublishEntry(m, Unacknowledged));
    }
  }

  // ---------- subscribe ----------

  /** Some subscription of the call names this pattern. */
  predicate Names(requested: seq<Subscription>, t: Text) {
    exists i :: 0 <= i < |requested| && requested[i].pattern == t
  }

  /** The subscriptions to patterns that have none yet, each pattern once: the first one of the call. */
  function NewOnes(known: set<Text>, requested: seq<Subscription>): seq<Subscription> {
    if requested == [] then []
    else
      var n := |requested| - 1;
      NewOnes(known, requested[..n])
      + if requested[n].pattern in known || Names(requested[..n], requested[n].pattern) then [] else [requested[n]]
  }

  /** Counts with 0 for what is not counted. */
  function CountOf(counts: Counts, t: Text): int {
    if t in counts then counts[t] else 0
  }

  lemma NamesFirst(first: Subscription, rest: seq<Subscription>, t: Text)
    ensures Names([first] + rest, t) <==> first.pattern == t || Names(rest, t)
  {
    var all := [first] + rest;
    if Names(rest, t) {
      var i :| 0 <= i < |rest| && rest[i].pattern == t;
      assert all[i + 1].pattern == t;
    }
    if first.pattern == t {
      assert all[0].pattern == t;
    }
  }

  lemma {:induction false} NewOnesFirst(known: set<Text>, first: Subscription, rest: seq<Subscription>)
    ensures NewOnes(known, [first] + rest)
         == (if first.pattern in known then [] else [first]) + NewOnes(known + {first.pattern}, rest)
    decreases |rest|
  {
    var all := [first] + rest;
    if rest == [] {
      assert all[..0] == [] && NewOnes(known, []) == [];
    } else {
      var n := |rest| - 1;
      var head := if first.pattern in known then [] else [first];
      assert all[..n + 1] == [first] + rest[..n] && all[n + 1] == rest[n];
      NewOnesFirst(known, first, rest[..n]);
      NamesFirst(first, rest[..n], rest[n].pattern);
      Assoc(head, NewOnes(known + {first.pattern}, rest[..n]), if rest[n].pattern in known + {first.pattern}
            || Names(rest[..n], rest[n].pattern) then [] else [rest[n]]);
    }
  }

  lemma {:induction false} CountUpNewOnes(subs: Subs, counts: Counts, requested: seq<Subscription>)
    ensures CountUp(subs, counts, requested).2 == NewOnes(subs.Keys, requested)
    decreases |requested|
  {
    if requested != [] {
      var sub, rest := requested[0], requested[1..];
      assert requested == [sub] + rest;
      NewOnesFirst(subs.Keys, sub, rest);
      if sub.pattern in subs {
        CountUpNewOnes(subs, counts[sub.pattern := CountOf(counts, sub.pattern) + 1], rest);
        assert subs.Keys + {sub.pattern} == subs.Keys;
      } else {
        CountUpNewOnes(subs[sub.pattern := sub], counts[sub.pattern := 1], rest);
        assert subs[sub.pattern := sub].Keys == subs.Keys + {sub.pattern};
      }
    }
  }

  /** This is the first subscription of the call to its pattern. */
  ghost predicate IsFirst(requested: seq<Subscription>, sub: Subscription) {
    exists i :: 0 <= i < |requested| && requested[i] == sub && !Names(requested[..i], sub.pattern)
  }

  /** The two maps at one pattern: a subscription that is there stays, a new one is the first of the
      call. A pattern with a subscription is counted on, another one is counted from 0. */
  ghost predicate CountedUp(subs: Subs, counts: Counts, requested: seq<Subscription>,
                            subs': Subs, counts': Counts, t: Text) {
    && (t in subs' <==> t in subs || Names(requested, t))
    && (t in subs ==> subs'[t] == subs[t])
    && (t in subs' && t !in subs ==> subs'[t].pattern == t && IsFirst(requested, subs'[t]))
    && (t in counts' <==> t in counts || Names(requested, t))
    && CountOf(counts', t) == (if t in subs || !Names(requested, t) then CountOf(counts, t) else 0)
                              + Occurrences(t, PatternsOf(requested))
  }

  lemma FirstLater(first: Subscription, rest: seq<Subscription>, sub: Subscription)
    requires first.pattern != sub.pattern && IsFirst(rest, sub)
    ensures IsFirst([first] + rest, sub)
  {
    var all := [first] + rest;
    var i :| 0 <= i < |rest| && rest[i] == sub && !Names(rest[..i], sub.pattern);
    assert all[..i + 1] == [first] + rest[..i] && all[i + 1] == sub;
    NamesFirst(first, rest[..i], sub.pattern);
  }

  lemma FirstNow(first: Subscription, rest: seq<Subscription>)
    ensures IsFirst([first] + rest, first)
  {
    var all := [first] + rest;
    assert all[0] == first && !Names(all[..0], first.pattern);
  }

  lemma {:induction false} CountUpMaps(subs: Subs, counts: Counts, requested: seq<Subscription>, t: Text)
    ensures var r := CountUp(subs, counts, requested); CountedUp(subs, counts, requested, r.0, r.1, t)
    decreases |requested|
  {
    if requested != [] {
      var sub, rest := requested[0], requested[1..];
      assert requested == [sub] + rest;
      NamesFirst(sub, rest, t);
      ReferenceCounting.NamesMore(t, sub, rest);
      FirstNow(sub, rest);
      var subs1 := if sub.pattern in subs then subs else subs[sub.pattern := sub];
      var counts1 := counts[sub.pattern := if sub.pattern in subs then CountOf(counts, sub.pattern) + 1 else 1];
      CountUpMaps(subs1, counts1, rest, t);
      var r := CountUp(subs1, counts1, rest);
      if t in r.0 && t !in subs1 {
        FirstLater(sub, rest, r.0[t]);
      }
    }
  }

  predicate AnyOverlong(patterns: seq<Text>) {
    exists i :: 0 <= i < |patterns| && |patterns[i]| >= 0x1_0000
  }

  lemma {:induction false} OverlongAmong(subs: seq<Subscription>)
    ensures AnyOverlong(PatternsOf(subs)) <==> exists sub :: sub in subs && |sub.pattern| >= 0x1_0000
  {
    if subs != [] {
      OverlongAmong(subs[1..]);
      var all, rest := PatternsOf(subs), PatternsOf(subs[1..]);
      assert all == [subs[0].pattern] + rest && all[1..] == rest;
      assert AnyOverlong(all) <==> |all[0]| >= 0x1_0000 || AnyOverlong(rest) by {
        if i :| 0 <= i < |rest| && |rest[i]| >= 0x1_0000 {
          assert all[i + 1] == rest[i];
        }
      }
      assert forall sub :: sub in subs <==> sub == subs[0] || sub in subs[1..];
    }
  }

  /** `subscribe` of a connected client: the maps change in any case; one SUBSCRIBE goes out for what
      is new, if anything is and nothing of it is too long. */
  lemma SubscribeExactly(s: Session, requested: seq<Subscription>)
    requires s.state == Connected
    ensures var o, id := ClientSubscribe(s, requested), s.nextId;
            var subs', counts' := o.session.subscriptions, o.session.counts;
            var new' := NewOnes(s.subscriptions.Keys, requested);
            var counted := s.(subscriptions := subs', counts := counts');
            && (forall t :: CountedUp(s.subscriptions, s.counts, requested, subs', counts', t))
            && if new' == [] then o.status == Done && o.session == counted && o.sent == []
               else if AnyOverlong(PatternsOf(new')) then
                 o.status == Raised(Overflow) && o.session == counted.(nextId := Following(id)) && o.sent == []
               else
                 && o.status == Done && o.session == counted.(nextId := Following(id), table := o.session.table)
                 && Enters(s.table, o.session.table, id, SubscribePacket(id, new', Props([], [])),
                           SubscribeEntry(new'), o.sent)
  {
    var (subs', counts', new') := CountUp(s.subscriptions, s.counts, requested);
    CountUpNewOnes(s.subscriptions, s.counts, requested);
    forall t ensures CountedUp(s.subscriptions, s.counts, requested, subs', counts', t) {
      CountUpMaps(s.subscriptions, s.counts, requested, t);
    }
    OverlongAmong(new');
    var counted := s.(subscriptions := subs', counts := counts', nextId := Following(s.nextId));
    RequestEnters(counted, s.nextId, SubscribePacket(s.nextId, new', Props([], [])), SubscribeEntry(new'));
  }

  // ---------- unsubscribe ----------

  /** The patterns whose count this call uses up, each at the place where it does. */
  function GivenUp(counts: Counts, patterns: seq<Text>): seq<Text> {
    if patterns == [] then []
    else
      var n := |patterns| - 1;
      GivenUp(counts, patterns[..n])
      + if Occurrences(patterns[n], patterns) == CountOf(counts, patterns[n]) then [patterns[n]] else []
  }

  lemma GivenUpLast(counts: Counts, patterns: seq<Text>, last: Text)
    ensures GivenUp(counts, patterns + [last])
         == GivenUp(counts, patterns)
            + if Occurrences(last, patterns + [last]) == CountOf(counts, last) then [last] else []
  {
    var all := patterns + [last];
    assert all[..|patterns|] == patterns && all[|patterns|] == last;
  }

  lemma {:induction false} GivenUpFirst(counts: Counts, counts': Counts, first: Text, rest: seq<Text>)
    requires CountOf(counts', first) == CountOf(counts, first) - 1
    requires forall t :: t != first ==> CountOf(counts', t) == CountOf(counts, t)
    ensures GivenUp(counts, [first] + rest)
         == (if CountOf(counts, first) == 1 then [first] else []) + GivenUp(counts', rest)
    decreases |rest|
  {
    if rest == [] {
      assert [first] + rest == [] + [first] && GivenUp(counts, []) == GivenUp(counts', []) == [];
      GivenUpLast(counts, [], first);
    } else {
      var init, last := rest[..|rest| - 1], rest[|rest| - 1];
      assert rest == init + [last];
      GivenUpFirst(counts, counts', first, init);
      hide GivenUp, Occurrences, CountOf;
      Assoc([first], init, [last]);
      GivenUpLast(counts, [first] + init, last);
      GivenUpLast(counts', init, last);
      OccursIn(last, first, rest);
      Assoc(if CountOf(counts, first) == 1 then [first] else [], GivenUp(counts', init),
            if Occurrences(last, rest) == CountOf(counts', last) then [last] else []);
    }
  }

  lemma {:induction false} CountDownGivesUp(subs: Subs, counts: Counts, patterns: seq<Text>)
    requires !CountDown(subs, counts, patterns).raised
    ensures CountDown(subs, counts, patterns).gone == GivenUp(counts, patterns)
    decreases |patterns|
  {
    if patterns != [] {
      var t, rest := patterns[0], patterns[1..];
      assert patterns == [t] + rest;
      var counts' := if CountOf(counts, t) == 1 then counts - {t} else counts[t := CountOf(counts, t) - 1];
      GivenUpFirst(counts, counts', t, rest);
      CountDownGivesUp(if CountOf(counts, t) == 1 then subs - {t} else subs, counts', rest);
    }
  }

  /** The count is used up exactly, by that many of the patterns. */
  predicate UsedUp(counts: Counts, patterns: seq<Text>, t: Text) {
    1 <= CountOf(counts, t) <= Occurrences(t, patterns)
  }

  /** The two maps at one pattern. A count goes down by one for each time the pattern is named, also
      below 0; it is taken out at the moment it is 0. The subscription is taken out with it. */
  ghost predicate CountedOff(subs: Subs, counts: Counts, patterns: seq<Text>, subs': Subs, counts': Counts, t: Text) {
    && (t in subs' <==> t in subs && !UsedUp(counts, patterns, t))
    && (t in subs' ==> subs'[t] == subs[t])
    && CountOf(counts', t) == CountOf(counts, t) - Occurrences(t, patterns)
    && (t in counts' <==> if Occurrences(t, patterns) == 0 then t in counts
                          else CountOf(counts, t) <= 0 || CountOf(counts', t) != 0)
  }

  lemma {:induction false} CountDownMaps(subs: Subs, counts: Counts, patterns: seq<Text>, t: Text)
    requires !CountDown(subs, counts, patterns).raised
    ensures var r := CountDown(subs, counts, patterns); CountedOff(subs, counts, patterns, r.subs, r.counts, t)
    decreases |patterns|
  {
    if patterns != [] {
      var first, rest := patterns[0], patterns[1..];
      assert patterns == [first] + rest;
      OccursIn(t, first, rest);
      if CountOf(counts, first) == 1 {
        CountDownMaps(subs - {first}, counts - {first}, rest, t);
      } else {
        CountDownMaps(subs, counts[first := CountOf(counts, first) - 1], rest, t);
      }
    }
  }

  /** KeyError: some pattern without a subscription uses up its count. What was counted down before
      it stays so, and its count is gone. */
  ghost predicate StopsAtKey(subs: Subs, counts: Counts, patterns: seq<Text>, i: nat, subs': Subs, counts': Counts) {
    && i < |patterns|
    && var d := CountDown(subs, counts, patterns[..i]);
       && !d.raised && patterns[i] !in d.subs && CountOf(d.counts, patterns[i]) == 1
       && subs' == d.subs && counts' == d.counts - {patterns[i]}
  }

  lemma {:induction false} KeyErrorLeaves(subs: Subs, counts: Counts, patterns: seq<Text>) returns (i: nat)
    requires CountDown(subs, counts, patterns).raised
    ensures var r := CountDown(subs, counts, patterns); StopsAtKey(subs, counts, patterns, i, r.subs, r.counts)
    decreases |patterns|
  {
    var first, rest := patterns[0], patterns[1..];
    if CountOf(counts, first) == 1 && first !in subs {
      i := 0;
      assert patterns[..0] == [];
    } else {
      var once := CountOf(counts, first) == 1;
      var subs1 := if once then subs - {first} else subs;
      var counts1 := if once then counts - {first} else counts[first := CountOf(counts, first) - 1];
      i := KeyErrorLeaves(subs1, counts1, rest);
      assert patterns[..i + 1][1..] == rest[..i] && patterns[i + 1] == rest[i];
      i := i + 1;
    }
  }

  /** `unsubscribe` of a connected client, if no pattern without a subscription uses up its count. */
  lemma UnsubscribeExactly(s: Session, patterns: seq<Text>)
    requires s.state == Connected
    requires forall t :: UsedUp(s.counts, patterns, t) ==> t in s.subscriptions
    ensures var o, id := ClientUnsubscribe(s, patterns), s.nextId;
            var subs', counts', gone := o.session.subscriptions, o.session.counts, GivenUp(s.counts, patterns);
            var counted := s.(subscriptions := subs', counts := counts');
            && (forall t :: CountedOff(s.subscriptions, s.counts, patterns, subs', counts', t))
            && if gone == [] then o.status == Done && o.session == counted && o.sent == []
               else if AnyOverlong(gone) then
                 o.status == Raised(Overflow) && o.session == counted.(nextId := Following(id)) && o.sent == []
               else
                 && o.status == Done && o.session == counted.(nextId := Following(id), table := o.session.table)
                 && Enters(s.table, o.session.table, id, UnsubscribePacket(id, gone, Props([], [])),
                           UnsubscribeEntry(gone), o.sent)
  {
    KeyErrorExactly(s.subscriptions, s.counts, patterns);
    var down := CountDown(s.subscriptions, s.counts, patterns);
    assert forall t :: UsesUp(s.subscriptions, s.counts, patterns, t) ==> UsedUp(s.counts, patterns, t);
    CountDownGivesUp(s.subscriptions, s.counts, patterns);
    forall t ensures CountedOff(s.subscriptions, s.counts, patterns, down.subs, down.counts, t) {
      CountDownMaps(s.subscriptions, s.counts, patterns, t);
    }
    var counted := s.(subscriptions := down.subs, counts := down.counts, nextId := Following(s.nextId));
    RequestEnters(counted, s.nextId, UnsubscribePacket(s.nextId, down.gone, Props([], [])),
                  UnsubscribeEntry(down.gone));
  }

  /** If some pattern does, the call raises KeyError in the middle and sends nothing. */
  lemma UnsubscribeRaises(s: Session, patterns: seq<Text>, t: Text) returns (i: nat)
    requires s.state == Connected && UsedUp(s.counts, patterns, t) && t !in s.subscriptions
    ensures var o := ClientUnsubscribe(s, patterns);
            && o.status == Raised(KeyMissing) && o.sent == []
            && o.session == s.(subscriptions := o.session.subscriptions, counts := o.session.counts)
            && StopsAtKey(s.subscriptions, s.counts, patterns, i, o.session.subscriptions, o.session.counts)
  {
    KeyErrorExactly(s.subscriptions, s.counts, patterns);
    assert UsesUp(s.subscriptions, s.counts, patterns, t);
    i := KeyErrorLeaves(s.subscriptions, s.counts, patterns);
  }
}
