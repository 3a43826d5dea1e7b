/** The client's reference counts for topic patterns over whole runs: they refine a counter that
    stops at 0, and decide which SUBSCRIBE and UNSUBSCRIBE requests go out. */
module ReferenceCounting {
  import opened Bytes
  import opened Properties
  import opened Subscriptions
  import opened Packets
  import opened Decoding
  import opened Sessions
  import opened Feeding
  import opened Handshake
  import opened HandshakeSteps
  import opened Resumption
  import opened AutoAcknowledge

  // ---------- The simple counter ----------

  function TallyUp(n: nat, t: Text, requested: seq<Subscription>): nat
    decreases |requested|
  {
    if requested == [] then n else TallyUp(if requested[0].pattern == t then n + 1 else n, t, requested[1..])
  }

  function TallyDown(n: nat, t: Text, patterns: seq<Text>): nat
    decreases |patterns|
  {
    if patterns == [] then n else TallyDown(if patterns[0] == t && n > 0 then n - 1 else n, t, patterns[1..])
  }

  /** A call counts if the client is connected, even if it raises for want of space. */
  function WantedAfter(s: Session, n: nat, t: Text, op: Op): nat {
    if s.state != Connected then n
    else
      match op
      case Subscribes(requested) => TallyUp(n, t, requested)
      case Unsubscribes(patterns) => TallyDown(n, t, patterns)
      case _ => n
  }

  /** How many subscriptions to `t` a run leaves wanted, with unsubscribing from nothing ignored. */
  function Wanted(h: History, n: nat, t: Text, ops: seq<Op>): nat
    decreases |ops|
  {
    if ops == [] then n else Wanted(After(h, ops[0]), WantedAfter(h.session, n, t, ops[0]), t, ops[1..])
  }

  /** The positive part of a count; a pattern may be counted below 0. */
  function Positive(counts: Counts, t: Text): nat {
    if t in counts && counts[t] > 0 then counts[t] else 0
  }

  function PatternsOf(subs: seq<Subscription>): seq<Text> {
    if subs == [] then [] else [subs[0].pattern] + PatternsOf(subs[1..])
  }

  function Occurrences(t: Text, patterns: seq<Text>): nat {
    multiset(patterns)[t]
  }

  lemma OccursIn(t: Text, first: Text, rest: seq<Text>)
    ensures Occurrences(t, [first] + rest) == (if first == t then 1 else 0) + Occurrences(t, rest)
  {
  }

  lemma {:induction false} CountUpTallies(subs: Subs, counts: Counts,
                                          requested: seq<Subscription>, t: Text)
    requires CountsAgree(subs, counts)
    ensures Positive(CountUp(subs, counts, requested).1, t) == TallyUp(Positive(counts, t), t, requested)
    decreases |requested|
  {
    if requested != [] {
      var sub := requested[0];
      if sub.pattern in subs {
        CountUpTallies(subs, counts[sub.pattern := counts[sub.pattern] + 1], requested[1..], t);
      } else {
        CountUpTallies(subs[sub.pattern := sub], counts[sub.pattern := 1], requested[1..], t);
      }
    }
  }

  lemma NamesMore(t: Text, sub: Subscription, rest: seq<Subscription>)
    ensures Occurrences(t, PatternsOf([sub] + rest))
         == (if sub.pattern == t then 1 else 0) + Occurrences(t, PatternsOf(rest))
  {
    assert ([sub] + rest)[1..] == rest;
    OccursIn(t, sub.pattern, PatternsOf(rest));
  }

  /** A pattern is newly requested exactly if it enters the map, and then once. */
  lemma {:induction false} CountUpRequests(subs: Subs, counts: Counts,
                                           requested: seq<Subscription>, t: Text)
    ensures var (subs', _, new') := CountUp(subs, counts, requested);
            && (t in subs ==> t in subs')
            && Occurrences(t, PatternsOf(new')) == if t in subs' && t !in subs then 1 else 0
    decreases |requested|
  {
    if requested != [] {
      var sub := requested[0];
      if sub.pattern in subs {
        var count := (if sub.pattern in counts then counts[sub.pattern] else 0) + 1;
        CountUpRequests(subs, counts[sub.pattern := count], requested[1..], t);
      } else {
        var subs', counts' := subs[sub.pattern := sub], counts[sub.pattern := 1];
        CountUpRequests(subs', counts', requested[1..], t);
        var new' := CountUp(subs', counts', requested[1..]).2;
        NamesMore(t, sub, new');
      }
    }
  }

  /** A pattern is given up exactly if it leaves the map, and then once. */
  lemma {:induction false} CountDownTallies(subs: Subs, counts: Counts,
                                            patterns: seq<Text>, t: Text)
    requires CountsAgree(subs, counts)
    ensures var r := CountDown(subs, counts, patterns);
            && Positive(r.counts, t) == TallyDown(Positive(counts, t), t, patterns)
            && (t in r.subs ==> t in subs)
            && Occurrences(t, r.gone) == if t in subs && t !in r.subs then 1 else 0
    decreases |patterns|
  {
    if patterns != [] {
      var pattern := patterns[0];
      var count := if pattern in counts then counts[pattern] else 0;
      if count == 1 {
        CountDownTallies(subs - {pattern}, counts - {pattern}, patterns[1..], t);
        OccursIn(t, pattern, CountDown(subs - {pattern}, counts - {pattern}, patterns[1..]).gone);
      } else {
        CountDownTallies(subs, counts[pattern := count - 1], patterns[1..], t);
      }
    }
  }

  // ---------- Requests on the wire ----------

  /** The SUBSCRIBE (true) and UNSUBSCRIBE (false) requests that name a pattern, once for each time
      they name it. */
  function EventsOf(t: Text, p: Packet): seq<bool> {
    match p
    case SubscribePacket(_, subs, _) => Repeat(true, Occurrences(t, PatternsOf(subs)))
    case UnsubscribePacket(_, patterns, _) => Repeat(false, Occurrences(t, patterns))
    case _ => []
  }

  function Events(t: Text, ps: seq<Packet>): seq<bool> {
    if ps == [] then [] else EventsOf(t, ps[0]) + Events(t, ps[1..])
  }

  lemma {:induction false} EventsAppend(t: Text, a: seq<Packet>, b: seq<Packet>)
    ensures Events(t, a + b) == Events(t, a) + Events(t, b)
  {
    if a == [] {
      assert a + b == b;
    } else {
      assert (a + b)[1..] == a[1..] + b;
      EventsAppend(t, a[1..], b);
      Assoc(EventsOf(t, a[0]), Events(t, a[1..]), Events(t, b));
    }
  }

  predicate NoRequest(p: Packet) {
    !p.SubscribePacket? && !p.UnsubscribePacket?
  }

  lemma {:induction false} NoEvents(t: Text, ps: seq<Packet>)
    requires forall p :: p in ps ==> NoRequest(p)
    ensures Events(t, ps) == []
  {
    if ps != [] {
      assert NoRequest(ps[0]);
      NoEvents(t, ps[1..]);
    }
  }

  /** SUBSCRIBE first, then in turns; the last one says whether the pattern is subscribed to. */
  ghost predicate Alternating(events: seq<bool>, subscribed: bool) {
    && (forall i :: 0 <= i < |events| ==> (events[i] <==> i % 2 == 0))
    && (subscribed <==> |events| % 2 == 1)
  }

  function Change(before: bool, after: bool): seq<bool> {
    if before == after then [] else [after]
  }

  lemma NextEvent(events: seq<bool>, before: bool, after: bool)
    requires Alternating(events, before)
    ensures Alternating(events + Change(before, after), after)
  {
  }

  /** Each packet names the pattern at most once. */
  ghost predicate NamedOnce(t: Text, ps: seq<Packet>) {
    forall p :: p in ps ==> |EventsOf(t, p)| <= 1
  }

  lemma NamesNone(t: Text, ps: seq<Packet>)
    requires forall p :: p in ps ==> NoRequest(p)
    ensures Events(t, ps) == [] && NamedOnce(t, ps)
  {
    NoEvents(t, ps);
    assert forall p :: NoRequest(p) ==> EventsOf(t, p) == [];
  }

  /** A request, perhaps followed by the reply to a packet id in use. */
  lemma RequestEvents(s: Session, id: PacketId, p: Packet, entry: Pending, t: Text)
    requires |EventsOf(t, p)| <= 1
    ensures var o := SendRequest(s, id, p, entry); Events(t, o.sent) == EventsOf(t, p) && NamedOnce(t, o.sent)
  {
    if s.table.Has(id) {
      assert [p, CollisionReply(id, entry)][1..] == [CollisionReply(id, entry)];
      NamesNone(t, [CollisionReply(id, entry)]);
    } else {
      assert [p][1..] == [];
    }
  }

  /** What a call must establish about one pattern. */
  ghost predicate Counted(s: Session, o: Outcome, t: Text, wanted: nat) {
    && o.session.role == s.role
    && CountsAgree(o.session.subscriptions, o.session.counts)
    && Positive(o.session.counts, t) == wanted
    && NamedOnce(t, o.sent)
    && (o.status != Raised(Overflow) || o.session.subscriptions == s.subscriptions ==>
          Events(t, o.sent) == Change(t in s.subscriptions, t in o.session.subscriptions))
  }

  lemma SubscribeEvents(s: Session, requested: seq<Subscription>, t: Text)
    requires CountsAgree(s.subscriptions, s.counts) && s.state == Connected
    ensures Counted(s, ClientSubscribe(s, requested), t, TallyUp(Positive(s.counts, t), t, requested))
  {
    CountUpOk(s.subscriptions, s.counts, requested);
    CountUpTallies(s.subscriptions, s.counts, requested, t);
    CountUpRequests(s.subscriptions, s.counts, requested, t);
    var (subs, counts, new') := CountUp(s.subscriptions, s.counts, requested);
    if new' != [] {
      RequestEvents(s.(subscriptions := subs, counts := counts, nextId := NextId(s.nextId)), s.nextId,
                    SubscribePacket(s.nextId, new', NO_PROPS), SubscribeEntry(new'), t);
    }
  }

  lemma UnsubscribeEvents(s: Session, patterns: seq<Text>, t: Text)
    requires CountsAgree(s.subscriptions, s.counts) && s.state == Connected
    ensures Counted(s, ClientUnsubscribe(s, patterns), t, TallyDown(Positive(s.counts, t), t, patterns))
  {
    CountDownOk(s.subscriptions, s.counts, patterns);
    CountDownTallies(s.subscriptions, s.counts, patterns, t);
    var down := CountDown(s.subscriptions, s.counts, patterns);
    if down.gone != [] {
      RequestEvents(s.(subscriptions := down.subs, counts := down.counts, nextId := NextId(s.nextId)), s.nextId,
                    UnsubscribePacket(s.nextId, down.gone, NO_PROPS), UnsubscribeEntry(down.gone), t);
    }
  }

  lemma CallCounted(s: Session, op: Op, t: Text)
    requires CountsAgree(s.subscriptions, s.counts) && !op.Feeds? && OpOk(op)
    ensures Counted(s, CallOutcome(s, op), t, WantedAfter(s, Positive(s.counts, t), t, op))
  {
    var sent := CallOutcome(s, op).sent;
    match op
    case Subscribes(requested) =>
      if s.state == Connected {
        SubscribeEvents(s, requested, t);
      }
    case Unsubscribes(patterns) =>
      if s.state == Connected {
        UnsubscribeEvents(s, patterns, t);
      }
    case _ => NamesNone(t, sent);
  }

  // ---------- What arrives ----------

  /** The broker accepts the connection but has no session, so the client clears its map while
      the counts stay. */
  predicate Clears(p: Packet) {
    p.ConnAckPacket? && p.reason == SUCCESS && !p.sessionPresent
  }

  lemma ReceivedNoRequests(s: Session, p: Packet)
    requires s.role == ClientRole && HandlePacket(s, p).status == Done
    ensures var o := HandlePacket(s, p);
            && o.session.role == ClientRole && o.session.counts == s.counts
            && o.session.subscriptions == (if Clears(p) then map[] else s.subscriptions)
            && forall q :: q in o.sent ==> NoRequest(q)
  {
    match p
    case ConnAckPacket(reason, present, _) =>
      if reason == SUCCESS {
        var s' := Reset(s.(state := Connected), present);
        ResendKeeps(s', s'.table.order);
      }
    case PublishPacket(publish) => MessageNoRequests(s, publish);
    case AckPacket(kind, id, _, _) => AckNoRequests(s, kind, id);
    case _ =>
  }

  lemma MessageNoRequests(s: Session, p: Publish)
    ensures var o := HandlePublish(s, p);
            o.session == s.(table := o.session.table) && forall q :: q in o.sent ==> NoRequest(q)
  {
  }

  lemma AckNoRequests(s: Session, kind: AckKind, id: PacketId)
    ensures var o := HandleAck(s, kind, id);
            o.session == s.(table := o.session.table) && forall q :: q in o.sent ==> NoRequest(q)
  {
  }

  predicate AnyClears(ps: seq<Packet>) {
    exists p :: p in ps && Clears(p)
  }

  /** Feeding sends no requests and leaves the counts alone; it clears the map if one of the packets
      does. */
  lemma {:induction false} FedNoRequests(s: Session, data: seq<byte>)
    requires s.role == ClientRole && Drain(s, data).error.None?
    ensures var fed := Drain(s, data);
            && fed.session.role == ClientRole && fed.session.counts == s.counts
            && fed.session.subscriptions == (if AnyClears(fed.received) then map[] else s.subscriptions)
            && forall q :: q in fed.sent ==> NoRequest(q)
    decreases |data|
  {
    if data != [] && DecodePacket(data).Ok? {
      var p, rest := DecodePacket(data).value, DecodePacket(data).rest;
      var o := HandlePacket(s, p);
      ReceivedNoRequests(s, p);
      FedNoRequests(o.session, rest);
      FirstClears(p, Drain(o.session, rest).received);
      assert Drain(s, data).received == [p] + Drain(o.session, rest).received;
    }
  }

  lemma FirstClears(p: Packet, ps: seq<Packet>)
    ensures AnyClears([p] + ps) <==> Clears(p) || AnyClears(ps)
  {
    assert p in [p] + ps;
    assert forall q :: q in [p] + ps <==> q == p || q in ps;
  }

  // ---------- Whole runs ----------

  ghost predicate KeepsMap(s: Session, data: seq<byte>) {
    s.subscriptions == map[] || !AnyClears(Drain(s, data).received)
  }

  /** The inbound bytes clear no subscriptions in the run. */
  ghost predicate NothingCleared(h: History, ops: seq<Op>)
    decreases |ops|
  {
    ops != [] ==>
      && (ops[0].Feeds? ==> KeepsMap(h.session, h.buffer + ops[0].data))
      && NothingCleared(After(h, ops[0]), ops[1..])
  }

  /** At every moment of the run, exactly the patterns counted at least once are in the map. */
  ghost predicate AlwaysAgree(h: History, ops: seq<Op>)
    decreases |ops|
  {
    && CountsAgree(h.session.subscriptions, h.session.counts)
    && (ops != [] ==> AlwaysAgree(After(h, ops[0]), ops[1..]))
  }

  /** Counts and map agree at every moment if and only if the map is never cleared while it holds
      something. */
  lemma {:induction false} AgreeExactly(h: History, ops: seq<Op>)
    requires h.session.role == ClientRole && CountsAgree(h.session.subscriptions, h.session.counts)
    requires (forall op :: op in ops ==> OpOk(op)) && !Life(h, ops).failed
    ensures AlwaysAgree(h, ops) <==> NothingCleared(h, ops)
    decreases |ops|
  {
    if ops != [] {
      var op, next := ops[0], After(h, ops[0]);
      FailureStays(next, ops[1..]);
      if op.Feeds? {
        FedNoRequests(h.session, h.buffer + op.data);
        if !KeepsMap(h.session, h.buffer + op.data) {
          Disagree(h.session.subscriptions, h.session.counts);
          assert !AlwaysAgree(next, ops[1..]);
        } else {
          AgreeExactly(next, ops[1..]);
        }
      } else {
        CallCounted(h.session, op, []);
        AgreeExactly(next, ops[1..]);
      }
    }
  }

  lemma Disagree(subs: Subs, counts: Counts)
    requires CountsAgree(subs, counts) && subs != map[]
    ensures !CountsAgree(map[], counts)
  {
    var t :| t in subs;
  }

  ghost predicate InStep(h: History, t: Text, wanted: nat) {
    && h.session.role == ClientRole
    && CountsAgree(h.session.subscriptions, h.session.counts)
    && Positive(h.session.counts, t) == wanted
  }

  lemma CallInStep(h: History, op: Op, t: Text, wanted: nat)
    requires InStep(h, t, wanted) && !op.Feeds? && OpOk(op)
    ensures InStep(Call(h, op), t, WantedAfter(h.session, wanted, t, op))
    ensures NamedOnce(t, h.sent) ==> NamedOnce(t, Call(h, op).sent)
  {
    CallCounted(h.session, op, t);
  }

  lemma FeedInStep(h: History, op: Op, t: Text, wanted: nat)
    requires InStep(h, t, wanted) && op.Feeds? && !After(h, op).failed
    requires KeepsMap(h.session, h.buffer + op.data)
    ensures InStep(After(h, op), t, wanted)
    ensures NamedOnce(t, h.sent) ==> NamedOnce(t, After(h, op).sent)
  {
    var data := h.buffer + op.data;
    FedNoRequests(h.session, data);
    NamesNone(t, Drain(h.session, data).sent);
  }

  lemma {:induction false} LifeInStep(h: History, ops: seq<Op>, t: Text, wanted: nat)
    requires InStep(h, t, wanted) && NamedOnce(t, h.sent) && NothingCleared(h, ops)
    requires (forall op :: op in ops ==> OpOk(op)) && !Life(h, ops).failed
    ensures InStep(Life(h, ops), t, Wanted(h, wanted, t, ops)) && NamedOnce(t, Life(h, ops).sent)
    decreases |ops|
  {
    if ops != [] {
      var op := ops[0];
      FailureStays(After(h, op), ops[1..]);
      if op.Feeds? {
        FeedInStep(h, op, t, wanted);
      } else {
        CallInStep(h, op, t, wanted);
      }
      LifeInStep(After(h, op), ops[1..], t, WantedAfter(h.session, wanted, t, op));
    }
  }

  // ---------- Requests that cannot be encoded ----------

  /** While the client is connected, it never subscribes to a new pattern whose length does not fit
      two bytes. */
  ghost predicate NothingOverlong(h: History, ops: seq<Op>)
    decreases |ops|
  {
    ops != [] ==>
      && (ops[0].Subscribes? && h.session.state == Connected ==> FitsOrKnown(h.session.subscriptions, ops[0].requested))
      && NothingOverlong(After(h, ops[0]), ops[1..])
  }

  predicate FitsOrKnown(subs: Subs, requested: seq<Subscription>) {
    forall sub :: sub in requested ==> sub.pattern in subs || |sub.pattern| < 0x1_0000
  }

  predicate ShortMap(subs: Subs) {
    forall t :: t in subs ==> |t| < 0x1_0000
  }

  /** After counting up, the map holds what it held and the patterns of the call. */
  lemma {:induction false} CountUpKeys(subs: Subs, counts: Counts, requested: seq<Subscription>)
    ensures var subs' := CountUp(subs, counts, requested).0;
            && (forall t :: t in subs ==> t in subs')
            && (forall sub :: sub in requested ==> sub.pattern in subs')
            && (forall t :: t in subs' && t !in subs ==> exists sub :: sub in requested && sub.pattern == t)
    decreases |requested|
  {
    if requested != [] {
      var sub := requested[0];
      assert forall other :: other in requested <==> other == sub || other in requested[1..];
      if sub.pattern in subs {
        var count := (if sub.pattern in counts then counts[sub.pattern] else 0) + 1;
        CountUpKeys(subs, counts[sub.pattern := count], requested[1..]);
      } else {
        CountUpKeys(subs[sub.pattern := sub], counts[sub.pattern := 1], requested[1..]);
      }
    }
  }

  /** What counting up finds new is in the map afterwards. */
  lemma {:induction false} CountUpEnters(subs: Subs, counts: Counts, requested: seq<Subscription>)
    ensures var r := CountUp(subs, counts, requested); forall sub :: sub in r.2 ==> sub.pattern in r.0
    decreases |requested|
  {
    if requested != [] {
      var sub := requested[0];
      if sub.pattern in subs {
        var count := (if sub.pattern in counts then counts[sub.pattern] else 0) + 1;
        CountUpEnters(subs, counts[sub.pattern := count], requested[1..]);
      } else {
        CountUpEnters(subs[sub.pattern := sub], counts[sub.pattern := 1], requested[1..]);
        CountUpKeys(subs[sub.pattern := sub], counts[sub.pattern := 1], requested[1..]);
      }
    }
  }

  /** What counting down gives up was in the map. */
  lemma {:induction false} CountDownKeys(subs: Subs, counts: Counts, patterns: seq<Text>)
    requires CountsAgree(subs, counts)
    ensures var r := CountDown(subs, counts, patterns);
            (forall t :: t in r.subs ==> t in subs) && (forall t :: t in r.gone ==> t in subs)
    decreases |patterns|
  {
    if patterns != [] {
      var pattern := patterns[0];
      var count := if pattern in counts then counts[pattern] else 0;
      if count == 1 {
        CountDownKeys(subs - {pattern}, counts - {pattern}, patterns[1..]);
      } else {
        CountDownKeys(subs, counts[pattern := count - 1], patterns[1..]);
      }
    }
  }

  /** With short patterns only, no request for them is too long. */
  lemma ShortCalls(s: Session, op: Op)
    requires ShortMap(s.subscriptions) && CountsAgree(s.subscriptions, s.counts)
    requires !op.Feeds? && (op.Subscribes? && s.state == Connected ==> FitsOrKnown(s.subscriptions, op.requested))
    ensures var o := CallOutcome(s, op);
            && ShortMap(o.session.subscriptions)
            && (o.status != Raised(Overflow) || o.session.subscriptions == s.subscriptions)
  {
    if s.state == Connected {
      match op
      case Subscribes(requested) =>
        CountUpKeys(s.subscriptions, s.counts, requested);
        CountUpEnters(s.subscriptions, s.counts, requested);
      case Unsubscribes(patterns) =>
        CountDownKeys(s.subscriptions, s.counts, patterns);
      case _ =>
    }
  }

  /** A call that subscribes to a new pattern that is too long enters it in the map and sends
      nothing. */
  lemma OverlongSubscribe(s: Session, requested: seq<Subscription>, sub: Subscription)
    requires s.state == Connected && sub in requested
    requires sub.pattern !in s.subscriptions && |sub.pattern| >= 0x1_0000
    ensures var o := ClientSubscribe(s, requested);
            o.status == Raised(Overflow) && o.sent == [] && sub.pattern in o.session.subscriptions
  {
    CountUpKeys(s.subscriptions, s.counts, requested);
    CountUpRequests(s.subscriptions, s.counts, requested, sub.pattern);
    var new' := CountUp(s.subscriptions, s.counts, requested).2;
    OccursAmong(sub.pattern, new');
  }

  lemma {:induction false} OccursAmong(t: Text, subs: seq<Subscription>)
    ensures Occurrences(t, PatternsOf(subs)) >= 1 ==> exists sub :: sub in subs && sub.pattern == t
  {
    if subs != [] {
      OccursAmong(t, subs[1..]);
      OccursIn(t, subs[0].pattern, PatternsOf(subs[1..]));
    }
  }

  /** The requests sent so far that name the pattern take turns, and the last one says whether it is
      in the map. */
  ghost predicate InTurn(h: History, t: Text) {
    Alternating(Events(t, h.sent), t in h.session.subscriptions)
  }

  /** At every moment of the run, the requests that name a pattern have taken turns, for every
      pattern. */
  ghost predicate AlwaysInTurn(h: History, ops: seq<Op>)
    decreases |ops|
  {
    && (forall t: Text :: InTurn(h, t))
    && (ops != [] ==> AlwaysInTurn(After(h, ops[0]), ops[1..]))
  }

  lemma {:induction false} InTurnAtLast(h: History, ops: seq<Op>)
    requires AlwaysInTurn(h, ops)
    ensures forall t: Text :: InTurn(Life(h, ops), t)
    decreases |ops|
  {
    if ops != [] {
      InTurnAtLast(After(h, ops[0]), ops[1..]);
    }
  }

  /** A client whose map and counts agree and hold no pattern that is too long. */
  ghost predicate InOrder(s: Session) {
    s.role == ClientRole && CountsAgree(s.subscriptions, s.counts) && ShortMap(s.subscriptions)
  }

  lemma CallInTurn(h: History, op: Op)
    requires InOrder(h.session) && !op.Feeds? && OpOk(op) && forall t: Text :: InTurn(h, t)
    requires op.Subscribes? && h.session.state == Connected ==> FitsOrKnown(h.session.subscriptions, op.requested)
    ensures InOrder(Call(h, op).session) && forall t: Text :: InTurn(Call(h, op), t)
  {
    var o := CallOutcome(h.session, op);
    ShortCalls(h.session, op);
    forall t: Text ensures InTurn(Call(h, op), t) && o.session.role == h.session.role
                           && CountsAgree(o.session.subscriptions, o.session.counts) {
      CallCounted(h.session, op, t);
      EventsAppend(t, h.sent, o.sent);
      assert InTurn(h, t);
      NextEvent(Events(t, h.sent), t in h.session.subscriptions, t in o.session.subscriptions);
    }
    assert InTurn(Call(h, op), []);
  }

  lemma FeedInTurn(h: History, op: Op)
    requires InOrder(h.session) && op.Feeds? && !After(h, op).failed && forall t: Text :: InTurn(h, t)
    requires KeepsMap(h.session, h.buffer + op.data)
    ensures InOrder(After(h, op).session) && forall t: Text :: InTurn(After(h, op), t)
  {
    var fed := Drain(h.session, h.buffer + op.data);
    FedNoRequests(h.session, h.buffer + op.data);
    forall t: Text ensures InTurn(After(h, op), t) {
      assert InTurn(h, t);
      NoEvents(t, fed.sent);
      EventsAppend(t, h.sent, fed.sent);
      assert Events(t, h.sent) + [] == Events(t, h.sent);
    }
  }

  /** A pattern that is too long enters the map without a request, out of turn. */
  lemma OutOfTurn(h: History, op: Op)
    requires op.Subscribes? && h.session.state == Connected && forall t: Text :: InTurn(h, t)
    requires !FitsOrKnown(h.session.subscriptions, op.requested)
    ensures !forall t: Text :: InTurn(Call(h, op), t)
  {
    var sub :| sub in op.requested && sub.pattern !in h.session.subscriptions && |sub.pattern| >= 0x1_0000;
    OverlongSubscribe(h.session, op.requested, sub);
    assert InTurn(h, sub.pattern) && !InTurn(Call(h, op), sub.pattern) by {
      assert h.sent + [] == h.sent;
    }
  }

  /** The requests that name a pattern take turns at every moment and for every pattern, if and only
      if the client never subscribes to a new pattern that is too long. */
  lemma {:induction false} TurnsExactly(h: History, ops: seq<Op>)
    requires InOrder(h.session) && (forall t: Text :: InTurn(h, t)) && NothingCleared(h, ops)
    requires (forall op :: op in ops ==> OpOk(op)) && !Life(h, ops).failed
    ensures AlwaysInTurn(h, ops) <==> NothingOverlong(h, ops)
    decreases |ops|
  {
    if ops != [] {
      var op, next := ops[0], After(h, ops[0]);
      FailureStays(next, ops[1..]);
      if op.Subscribes? && h.session.state == Connected && !FitsOrKnown(h.session.subscriptions, op.requested) {
        OutOfTurn(h, op);
        assert !AlwaysInTurn(next, ops[1..]);
      } else {
        if op.Feeds? {
          FeedInTurn(h, op);
        } else {
          CallInTurn(h, op);
        }
        TurnsExactly(next, ops[1..]);
      }
    }
  }

  lemma CountDownOne(subs: Subs, counts: Counts, pattern: Text)
    requires pattern in subs && pattern in counts && counts[pattern] == 1
    ensures CountDown(subs, counts, [pattern])
         == CountedDown(subs - {pattern}, counts - {pattern}, [pattern], false)
  {
    var none := CountDown(subs - {pattern}, counts - {pattern}, []);
    assert [pattern][1..] == [] && [pattern] + none.gone == [pattern];
  }

  /** The simplest case of the failure: a call that raises leaves a subscription behind that the
      broker never hears of, and giving it up sends an UNSUBSCRIBE first. */
  lemma UnsubscribeFirst(s: Session, sub: Subscription, long: Subscription)
    requires s.state == Connected && sub.pattern !in s.subscriptions && long.pattern !in s.subscriptions
    requires |sub.pattern| < 0x1_0000 <= |long.pattern| && !s.table.Has(s.nextId) && !s.table.Has(NextId(s.nextId))
    ensures var first := ClientSubscribe(s, [sub, long]);
            var second := ClientUnsubscribe(first.session, [sub.pattern]);
            && first.status == Raised(Overflow) && first.sent == []
            && second.status == Done
            && second.sent == [UnsubscribePacket(NextId(s.nextId), [sub.pattern], NO_PROPS)]
  {
    OverlongSubscribe(s, [sub, long], long);
    var s' := ClientSubscribe(s, [sub, long]).session;
    var subs, counts := s.subscriptions[sub.pattern := sub], s.counts[sub.pattern := 1];
    assert [sub, long][1..] == [long] && [long][1..] == [] && [long] + [] == [long];
    var none := CountUp(subs[long.pattern := long], counts[long.pattern := 1], []);
    assert CountUp(subs, counts, [long]) == (none.0, none.1, [long]);
    CountDownOne(s'.subscriptions, s'.counts, sub.pattern);
  }

  /** In every run of a new client, of whose calls any may raise, and in which no subscriptions are
      cleared and no `feed_bytes` raises, the positive part of a pattern's count is the simple
      counter; the pattern is in the map if and only if the counter is not 0; and no packet names
      it twice. If no pattern is too long, the requests that name it take turns on the wire,
      starting with SUBSCRIBE. */
  lemma CountsRefineCounter(clientId: Text, ops: seq<Op>, t: Text)
    requires (forall op :: op in ops ==> OpOk(op)) && !Life(NewHistory(clientId), ops).failed
    requires NothingCleared(NewHistory(clientId), ops)
    ensures var h, wanted := Life(NewHistory(clientId), ops), Wanted(NewHistory(clientId), 0, t, ops);
            && Positive(h.session.counts, t) == wanted
            && (t in h.session.subscriptions <==> wanted >= 1)
            && (forall p :: p in h.sent ==> |EventsOf(t, p)| <= 1)
            && (NothingOverlong(NewHistory(clientId), ops) ==> Alternating(Events(t, h.sent), wanted >= 1))
  {
    LifeInStep(NewHistory(clientId), ops, t, 0);
    if NothingOverlong(NewHistory(clientId), ops) {
      TurnsExactly(NewHistory(clientId), ops);
      InTurnAtLast(NewHistory(clientId), ops);
      assert InTurn(Life(NewHistory(clientId), ops), t);
    }
  }

  // ---------- Stale counts ----------

  /** The pattern has no subscription, but a count that the call uses up. */
  predicate UsesUp(subs: Subs, counts: Counts, patterns: seq<Text>, t: Text) {
    t in counts && t !in subs && 1 <= counts[t] <= Occurrences(t, patterns)
  }

  lemma UsesUpStep(subs: Subs, counts: Counts, patterns: seq<Text>, t: Text)
    requires patterns != []
    ensures var pattern, rest := patterns[0], patterns[1..];
            var count := if pattern in counts then counts[pattern] else 0;
            && (count != 1 ==>
                  (UsesUp(subs, counts, patterns, t) <==> UsesUp(subs, counts[pattern := count - 1], rest, t)))
            && (count == 1 && pattern in subs ==>
                  (UsesUp(subs, counts, patterns, t) <==> UsesUp(subs - {pattern}, counts - {pattern}, rest, t)))
            && (count == 1 && pattern !in subs ==> UsesUp(subs, counts, patterns, pattern))
  {
    assert patterns == [patterns[0]] + patterns[1..];
    OccursIn(t, patterns[0], patterns[1..]);
    OccursIn(patterns[0], patterns[0], patterns[1..]);
  }

  /** The loop of `unsubscribe` raises KeyError if and only if it uses up the count of a pattern
      that has no subscription. */
  lemma {:induction false} KeyErrorExactly(subs: Subs, counts: Counts, patterns: seq<Text>)
    ensures CountDown(subs, counts, patterns).raised <==> exists t :: UsesUp(subs, counts, patterns, t)
    decreases |patterns|
  {
    if patterns != [] {
      var pattern, rest := patterns[0], patterns[1..];
      var count := if pattern in counts then counts[pattern] else 0;
      if count == 1 && pattern !in subs {
        UsesUpStep(subs, counts, patterns, pattern);
      } else if count == 1 {
        forall t ensures UsesUp(subs, counts, patterns, t) <==> UsesUp(subs - {pattern}, counts - {pattern}, rest, t) {
          UsesUpStep(subs, counts, patterns, t);
        }
        KeyErrorExactly(subs - {pattern}, counts - {pattern}, rest);
      } else {
        var counts' := counts[pattern := count - 1];
        forall t ensures UsesUp(subs, counts, patterns, t) <==> UsesUp(subs, counts', rest, t) {
          UsesUpStep(subs, counts, patterns, t);
        }
        KeyErrorExactly(subs, counts', rest);
        assert CountDown(subs, counts, patterns).raised == CountDown(subs, counts', rest).raised;
        assert (exists t :: UsesUp(subs, counts, patterns, t)) <==> (exists t :: UsesUp(subs, counts', rest, t));
      }
    }
  }

  /** After a connection without a session the counts are stale: unsubscribing then raises KeyError
      if and only if the call names some pattern at least as often as its count, which is positive. */
  lemma ClearedCounts(s: Session, patterns: seq<Text>)
    requires s.state == Connected
    ensures ClientUnsubscribe(Reset(s, false), patterns).status == Raised(KeyMissing)
       <==> exists t :: t in s.counts && 1 <= s.counts[t] <= Occurrences(t, patterns)
  {
    KeyErrorExactly(map[], s.counts, patterns);
    assert forall t :: UsesUp(map[], s.counts, patterns, t)
                  <==> t in s.counts && 1 <= s.counts[t] <= Occurrences(t, patterns);
  }

  /** As long as counts and subscriptions agree, unsubscribing never raises KeyError. */
  lemma AgreeingCounts(s: Session, patterns: seq<Text>)
    requires s.state == Connected && CountsAgree(s.subscriptions, s.counts)
    ensures ClientUnsubscribe(s, patterns).status != Raised(KeyMissing)
  {
    KeyErrorExactly(s.subscriptions, s.counts, patterns);
  }
}
