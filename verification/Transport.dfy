/** The client and the broker session with bytes in flight instead of packets: however a transport
    cuts and delays the bytes, the two behave as the joint model does, and `feed_bytes` returns
    what the joint model says. */
module Transport {
  import opened Bytes
  import opened Packets
  import opened RoundTrip
  import opened Framing
  import opened Sessions
  import opened Feeding
  import opened Handshake
  import opened HandshakeSteps
  import opened HandshakeRuns

  // ---------- What the returned packets ask of the broker's application ----------

  datatype Answer = Acknowledging | Releasing | Completing | Granting

  predicate Asks(p: Packet, answer: Answer) {
    match answer
    case Acknowledging => p.PublishPacket?
    case Releasing => p.AckPacket? && p.kind == PubRec
    case Completing => p.AckPacket? && p.kind == PubRel
    case Granting => p.SubscribePacket?
  }

  function Asked(ps: seq<Packet>, answer: Answer): set<PacketId> {
    set p | p in ps && Asks(p, answer) && IdOf(p).Some? :: IdOf(p).value
  }

  lemma AskedAppend(a: seq<Packet>, b: seq<Packet>, answer: Answer)
    ensures Asked(a + b, answer) == Asked(a, answer) + Asked(b, answer)
  {
    forall id ensures id in Asked(a + b, answer) <==> id in Asked(a, answer) + Asked(b, answer) {
      if id in Asked(a, answer) {
        var p :| p in a && Asks(p, answer) && IdOf(p).Some? && IdOf(p).value == id;
        assert p in a + b;
      }
      if id in Asked(b, answer) {
        var p :| p in b && Asks(p, answer) && IdOf(p).Some? && IdOf(p).value == id;
        assert p in a + b;
      }
    }
  }

  lemma AskedOne(p: Packet, answer: Answer)
    ensures Asked([p], answer) == Only(Asks(p, answer), p)
    ensures Asked([Settled(p)], answer) == Asked([p], answer)
  {
    assert forall q :: q in [p] <==> q == p;
    assert forall q :: q in [Settled(p)] <==> q == Settled(p);
    SettledId(p);
    assert Asks(Settled(p), answer) == Asks(p, answer);
  }

  lemma {:induction false} MessagesInAppend(a: seq<Packet>, b: seq<Packet>)
    ensures MessagesIn(a + b) == MessagesIn(a) + MessagesIn(b)
  {
    if a == [] {
      assert a + b == b;
    } else {
      assert (a + b)[1..] == a[1..] + b;
      MessagesInAppend(a[1..], b);
      Assoc(MessagesIn([a[0]]), MessagesIn(a[1..]), MessagesIn(b));
    }
  }

  // ---------- Feeding a session of the joint model ----------

  /** The joint state after the broker has been fed: its session, what it sent, and what the
      returned packets mean for the application. */
  ghost function FedUp(j: Joint, fed: Fed, up: seq<Packet>): Joint {
    j.(broker := fed.session, up := up, down := j.down + fed.sent, failed := j.failed || fed.error.Some?,
       toAcknowledge := j.toAcknowledge + Asked(fed.received, Acknowledging),
       toRelease := j.toRelease + Asked(fed.received, Releasing),
       toComplete := j.toComplete + Asked(fed.received, Completing),
       toGrant := j.toGrant + Asked(fed.received, Granting),
       surfacedUp := j.surfacedUp + MessagesIn(fed.received))
  }

  ghost function FedDown(j: Joint, fed: Fed, down: seq<Packet>): Joint {
    j.(client := fed.session, down := down, up := j.up + fed.sent, failed := j.failed || fed.error.Some?,
       surfacedDown := j.surfacedDown + MessagesIn(fed.received))
  }

  function One(p: Packet, o: Outcome): Fed {
    Fed(o.session, [p], o.sent, [], None)
  }

  lemma OneUp(j: Joint)
    requires j.up != [] && OutcomeOf(j, ReceiveUp).status == Done
    ensures Apply(j, ReceiveUp) == FedUp(j, One(Settled(j.up[0]), OutcomeOf(j, ReceiveUp)), j.up[1..])
  {
    AskedOne(j.up[0], Acknowledging);
    AskedOne(j.up[0], Releasing);
    AskedOne(j.up[0], Completing);
    AskedOne(j.up[0], Granting);
  }

  lemma OneDown(j: Joint)
    requires j.down != [] && OutcomeOf(j, ReceiveDown).status == Done
    ensures Apply(j, ReceiveDown) == FedDown(j, One(Settled(j.down[0]), OutcomeOf(j, ReceiveDown)), j.down[1..])
  {
  }

  lemma FedTwiceUp(j: Joint, first: Fed, up1: seq<Packet>, second: Fed, up: seq<Packet>)
    requires first.error.None?
    ensures FedUp(FedUp(j, first, up1), second, up) == FedUp(j, Before(first.received, first.sent, second), up)
  {
    Assoc(j.down, first.sent, second.sent);
    AskedAppend(first.received, second.received, Acknowledging);
    AskedAppend(first.received, second.received, Releasing);
    AskedAppend(first.received, second.received, Completing);
    AskedAppend(first.received, second.received, Granting);
    MessagesInAppend(first.received, second.received);
    Assoc(j.surfacedUp, MessagesIn(first.received), MessagesIn(second.received));
  }

  lemma FedTwiceDown(j: Joint, first: Fed, down1: seq<Packet>, second: Fed, down: seq<Packet>)
    requires first.error.None?
    ensures FedDown(FedDown(j, first, down1), second, down)
         == FedDown(j, Before(first.received, first.sent, second), down)
  {
    Assoc(j.up, first.sent, second.sent);
    MessagesInAppend(first.received, second.received);
    Assoc(j.surfacedDown, MessagesIn(first.received), MessagesIn(second.received));
  }

  // ---------- Whole packets ----------

  function Times(a: Action, n: nat): seq<Action> {
    if n == 0 then [] else [a] + Times(a, n - 1)
  }

  lemma TimesMore(a: Action, n: nat)
    requires n > 0
    ensures Times(a, n)[0] == a && Times(a, n)[1..] == Times(a, n - 1)
  {
  }

  lemma FirstPackets(ps: seq<Packet>, k: nat)
    requires 0 < k <= |ps|
    ensures SettledAll(ps[..k]) == [Settled(ps[0])] + SettledAll(ps[1..][..k - 1])
    ensures ps[1..][k - 1..] == ps[k..]
  {
    assert ps[..k][1..] == ps[1..][..k - 1];
  }

  /** Handling the first `k` packets is handling the first one and then the others. */
  lemma HandleFirst(s: Session, ps: seq<Packet>, k: nat)
    requires 0 < k <= |ps| && HandlePacket(s, Settled(ps[0])).status == Done
    ensures var o := HandlePacket(s, Settled(ps[0]));
            && HandleAll(s, SettledAll(ps[..k]))
               == Before([Settled(ps[0])], o.sent, HandleAll(o.session, SettledAll(ps[1..][..k - 1])))
  {
    FirstPackets(ps, k);
    assert SettledAll(ps[..k])[0] == Settled(ps[0]);
    assert SettledAll(ps[..k])[1..] == SettledAll(ps[1..][..k - 1]);
  }

  lemma FirstUp(j: Joint)
    requires Inv(j) && j.up != []
    ensures OutcomeOf(j, ReceiveUp).status == Done && Inv(Apply(j, ReceiveUp))
    ensures Apply(j, ReceiveUp) == FedUp(j, One(Settled(j.up[0]), OutcomeOf(j, ReceiveUp)), j.up[1..])
  {
    UpLegal(j);
    OneUp(j);
    ReceiveUpStep(j);
  }

  lemma FirstDown(j: Joint)
    requires Inv(j) && j.down != []
    ensures OutcomeOf(j, ReceiveDown).status == Done && Inv(Apply(j, ReceiveDown))
    ensures Apply(j, ReceiveDown) == FedDown(j, One(Settled(j.down[0]), OutcomeOf(j, ReceiveDown)), j.down[1..])
  {
    DownLegal(j);
    OneDown(j);
    ReceiveDownStep(j);
  }

  /** `k` deliveries upwards are feeding the broker the first `k` packets; all of them are
      returned. */
  lemma {:induction false} DeliveriesUp(j: Joint, k: nat)
    requires Inv(j) && k <= |j.up|
    ensures Admissible(j, Times(ReceiveUp, k))
    ensures var fed := HandleAll(j.broker, SettledAll(j.up[..k]));
            && fed.error == None && fed.received == SettledAll(j.up[..k])
            && Run(j, Times(ReceiveUp, k)) == FedUp(j, fed, j.up[k..])
    decreases k
  {
    if k == 0 {
      FedNothing(j);
    } else {
      FirstUp(j);
      var next, p, o := Apply(j, ReceiveUp), Settled(j.up[0]), OutcomeOf(j, ReceiveUp);
      DeliveriesUp(next, k - 1);
      TimesMore(ReceiveUp, k);
      FirstPackets(j.up, k);
      HandleFirst(j.broker, j.up, k);
      FedTwiceUp(j, One(p, o), next.up, HandleAll(o.session, SettledAll(next.up[..k - 1])), j.up[k..]);
    }
  }

  lemma {:induction false} DeliveriesDown(j: Joint, k: nat)
    requires Inv(j) && k <= |j.down|
    ensures Admissible(j, Times(ReceiveDown, k))
    ensures var fed := HandleAll(j.client, SettledAll(j.down[..k]));
            && fed.error == None && fed.received == SettledAll(j.down[..k])
            && Run(j, Times(ReceiveDown, k)) == FedDown(j, fed, j.down[k..])
    decreases k
  {
    if k == 0 {
      FedNothing(j);
    } else {
      FirstDown(j);
      var next, p, o := Apply(j, ReceiveDown), Settled(j.down[0]), OutcomeOf(j, ReceiveDown);
      DeliveriesDown(next, k - 1);
      TimesMore(ReceiveDown, k);
      FirstPackets(j.down, k);
      HandleFirst(j.client, j.down, k);
      FedTwiceDown(j, One(p, o), next.down, HandleAll(o.session, SettledAll(next.down[..k - 1])), j.down[k..]);
    }
  }

  lemma FedNothing(j: Joint)
    requires !j.failed
    ensures FedUp(j, HandleAll(j.broker, SettledAll(j.up[..0])), j.up[0..]) == j
    ensures FedDown(j, HandleAll(j.client, SettledAll(j.down[..0])), j.down[0..]) == j
    ensures HandleAll(j.broker, SettledAll(j.up[..0])) == Fed(j.broker, [], [], [], None)
    ensures HandleAll(j.client, SettledAll(j.down[..0])) == Fed(j.client, [], [], [], None)
  {
    assert j.up[0..] == j.up && j.down[0..] == j.down;
    assert j.down + [] == j.down && j.up + [] == j.up;
    assert j.surfacedUp + [] == j.surfacedUp && j.surfacedDown + [] == j.surfacedDown;
    assert forall answer: Answer :: Asked([], answer) == {};
  }

  // ---------- Bytes in flight ----------

  /** `ends` is the joint state without what is in flight. The bytes in flight are those a receiver
      keeps in its inbound buffer and those that have still to arrive. `returnedUp` and
      `returnedDown` are all packets that `feed_bytes` has returned so far. */
  datatype Wires = Wires(
    ends: Joint,
    brokerBuffer: seq<byte>,
    upBytes: seq<byte>,
    clientBuffer: seq<byte>,
    downBytes: seq<byte>,
    returnedUp: seq<Packet>,
    returnedDown: seq<Packet>)

  /** A call or an answer, or the arrival of the next `n` bytes. */
  datatype Event = Acts(action: Action) | ArriveUp(n: nat) | ArriveDown(n: nat)

  ghost predicate Possible(w: Wires, e: Event) {
    match e
    case Acts(a) => !a.ReceiveUp? && !a.ReceiveDown? && Enabled(w.ends, a)
    case ArriveUp(n) => n <= |w.upBytes|
    case ArriveDown(n) => n <= |w.downBytes|
  }

  /** What goes onto a wire. That all packets sent can be encoded is proved below. */
  ghost function Written(ps: seq<Packet>): seq<byte> {
    if AllOk(ps) then EncodeAll(ps) else []
  }

  ghost function Occur(w: Wires, e: Event): Wires
    requires Possible(w, e)
  {
    match e
    case Acts(a) =>
      var after := Apply(w.ends.(up := [], down := []), a);
      w.(ends := after.(up := [], down := []),
         upBytes := w.upBytes + Written(after.up), downBytes := w.downBytes + Written(after.down))
    case ArriveUp(n) =>
      var fed := FeedBytes(w.ends.broker, w.brokerBuffer + w.upBytes[..n]);
      w.(ends := FedUp(w.ends, fed, []).(down := []),
         brokerBuffer := fed.rest, upBytes := w.upBytes[n..],
         downBytes := w.downBytes + Written(fed.sent), returnedUp := w.returnedUp + fed.received)
    case ArriveDown(n) =>
      var fed := FeedBytes(w.ends.client, w.clientBuffer + w.downBytes[..n]);
      w.(ends := FedDown(w.ends, fed, []).(up := []),
         clientBuffer := fed.rest, downBytes := w.downBytes[n..],
         upBytes := w.upBytes + Written(fed.sent), returnedDown := w.returnedDown + fed.received)
  }

  /** The bytes in flight are the encodings of the packets in flight, with no complete packet left
      in a receiver's buffer, and the returned messages are the surfaced ones. */
  ghost predicate Carries(w: Wires, j: Joint) {
    && w.ends == j.(up := [], down := [])
    && AllSafe(j.up) && w.brokerBuffer + w.upBytes == EncodeAll(j.up) && Partial(w.brokerBuffer)
    && AllSafe(j.down) && w.clientBuffer + w.downBytes == EncodeAll(j.down) && Partial(w.clientBuffer)
    && j.surfacedUp == MessagesIn(w.returnedUp) && j.surfacedDown == MessagesIn(w.returnedDown)
  }

  // ---------- Every event is some steps of the joint model ----------

  lemma InFlightSafe(j: Joint)
    requires Inv(j)
    ensures AllSafe(j.up) && AllSafe(j.down)
  {
  }

  lemma WireGrows(buffer: seq<byte>, wire: seq<byte>, ps: seq<Packet>, sent: seq<Packet>)
    requires AllOk(ps) && buffer + wire == EncodeAll(ps) && AllOk(ps + sent)
    ensures buffer + (wire + Written(sent)) == EncodeAll(ps + sent)
  {
    assert forall p :: p in sent ==> p in ps + sent;
    EncodeAllAppend(ps, sent);
    Assoc(buffer, wire, EncodeAll(sent));
  }

  lemma SameOutcome(j: Joint, a: Action)
    requires !a.ReceiveUp? && !a.ReceiveDown? && Enabled(j.(up := [], down := []), a)
    ensures Enabled(j, a)
    ensures var bare, after := Apply(j.(up := [], down := []), a), Apply(j, a);
            && bare.(up := [], down := []) == after.(up := [], down := [])
            && after.up == j.up + bare.up && after.down == j.down + bare.down
  {
    assert [] + OutcomeOf(j, a).sent == OutcomeOf(j, a).sent;
    assert j.up + [] == j.up && j.down + [] == j.down;
  }

  lemma ActCarried(w: Wires, j: Joint, a: Action)
    requires Inv(j) && Carries(w, j) && Possible(w, Acts(a))
    ensures Enabled(j, a) && Carries(Occur(w, Acts(a)), Apply(j, a))
  {
    SameOutcome(j, a);
    Step(j, a);
    InFlightSafe(Apply(j, a));
    var bare := Apply(j.(up := [], down := []), a);
    WireGrows(w.brokerBuffer, w.upBytes, j.up, bare.up);
    WireGrows(w.clientBuffer, w.downBytes, j.down, bare.down);
  }

  /** Whole packets `x` and a part of the next have arrived of the bytes `x + y`. */
  lemma StillComing(all: seq<byte>, buffer: seq<byte>, wire: seq<byte>, n: nat,
                    x: seq<byte>, part: seq<byte>, y: seq<byte>)
    requires all == buffer + wire && all == x + y && n <= |wire| && all[..|buffer| + n] == x + part
    ensures buffer + wire[..n] == x + part && part + wire[n..] == y
  {
    var m := |buffer| + n;
    assert all[..m] == buffer + wire[..n] && all[m..] == wire[n..];
    SameTail(all, m, x, part, y);
  }

  lemma SameTail(all: seq<byte>, m: nat, x: seq<byte>, part: seq<byte>, y: seq<byte>)
    requires m <= |all| && all == x + y && all[..m] == x + part
    ensures part + all[m..] == y
  {
    assert all == all[..m] + all[m..];
    Assoc(x, part, all[m..]);
    assert all[|x|..] == y && (x + (part + all[m..]))[|x|..] == part + all[m..];
  }

  lemma PartsSafe(ps: seq<Packet>, k: nat)
    requires AllSafe(ps) && k <= |ps|
    ensures AllSafe(ps[..k]) && AllSafe(ps[k..]) && EncodeAll(ps) == EncodeAll(ps[..k]) + EncodeAll(ps[k..])
  {
    SplitAt(ps, k);
    PartsEncoded(ps, ps[..k], ps[k..]);
  }

  lemma SplitAt<T>(s: seq<T>, k: nat)
    requires k <= |s|
    ensures s[..k] + s[k..] == s
  {
  }

  lemma PartsEncoded(ps: seq<Packet>, a: seq<Packet>, b: seq<Packet>)
    requires AllSafe(ps) && a + b == ps
    ensures AllSafe(a) && AllSafe(b) && EncodeAll(ps) == EncodeAll(a) + EncodeAll(b)
  {
    forall p | p in a || p in b ensures PacketOk(p) && WireSafe(p) {
      assert p in a + b;
    }
    EncodeAllAppend(a, b);
  }

  /** Of the packets `ps` on a wire, `n` more bytes arrive: that completes the first `k`, and
      leaves a part of the next. */
  lemma BytesArrive(ps: seq<Packet>, buffer: seq<byte>, wire: seq<byte>, n: nat) returns (k: nat, part: seq<byte>)
    requires AllSafe(ps) && buffer + wire == EncodeAll(ps) && n <= |wire|
    ensures k <= |ps| && AllSafe(ps[..k]) && AllSafe(ps[k..]) && Partial(part)
    ensures buffer + wire[..n] == EncodeAll(ps[..k]) + part && part + wire[n..] == EncodeAll(ps[k..])
  {
    k, part := FirstBytes(ps, |buffer| + n);
    PartsSafe(ps, k);
    StillComing(EncodeAll(ps), buffer, wire, n, EncodeAll(ps[..k]), part, EncodeAll(ps[k..]));
  }

  /** Feeding them handles the first `k`, and leaves the part in the buffer. */
  lemma Arrival(s: Session, ps: seq<Packet>, buffer: seq<byte>, wire: seq<byte>, n: nat) returns (k: nat)
    requires AllSafe(ps) && buffer + wire == EncodeAll(ps) && n <= |wire|
    ensures k <= |ps| && AllSafe(ps[k..])
    ensures var fed, all := Drain(s, buffer + wire[..n]), HandleAll(s, SettledAll(ps[..k]));
            && fed.session == all.session && fed.received == all.received
            && fed.sent == all.sent && fed.error == all.error
            && (fed.error.None? ==> Partial(fed.rest) && fed.rest + wire[n..] == EncodeAll(ps[k..]))
  {
    var part;
    k, part := BytesArrive(ps, buffer, wire, n);
    FeedEncoded(s, ps[..k], part);
  }

  lemma ArriveUpCarried(w: Wires, j: Joint, n: nat) returns (k: nat)
    requires Inv(j) && Carries(w, j) && Possible(w, ArriveUp(n))
    ensures k <= |j.up| && Admissible(j, Times(ReceiveUp, k))
    ensures Carries(Occur(w, ArriveUp(n)), Run(j, Times(ReceiveUp, k)))
  {
    k := Arrival(j.broker, j.up, w.brokerBuffer, w.upBytes, n);
    DeliveriesUp(j, k);
    var fed := Drain(j.broker, w.brokerBuffer + w.upBytes[..n]);
    RunInv(j, Times(ReceiveUp, k));
    InFlightSafe(Run(j, Times(ReceiveUp, k)));
    WireGrows(w.clientBuffer, w.downBytes, j.down, fed.sent);
    MessagesInAppend(w.returnedUp, fed.received);
  }

  lemma ArriveDownCarried(w: Wires, j: Joint, n: nat) returns (k: nat)
    requires Inv(j) && Carries(w, j) && Possible(w, ArriveDown(n))
    ensures k <= |j.down| && Admissible(j, Times(ReceiveDown, k))
    ensures Carries(Occur(w, ArriveDown(n)), Run(j, Times(ReceiveDown, k)))
  {
    k := Arrival(j.client, j.down, w.clientBuffer, w.downBytes, n);
    DeliveriesDown(j, k);
    var fed := Drain(j.client, w.clientBuffer + w.downBytes[..n]);
    RunInv(j, Times(ReceiveDown, k));
    InFlightSafe(Run(j, Times(ReceiveDown, k)));
    WireGrows(w.brokerBuffer, w.upBytes, j.up, fed.sent);
    MessagesInAppend(w.returnedDown, fed.received);
  }

  // ---------- Whole runs ----------

  ghost predicate AllPossible(w: Wires, events: seq<Event>)
    decreases |events|
  {
    events != [] ==> Possible(w, events[0]) && AllPossible(Occur(w, events[0]), events[1..])
  }

  ghost function Unfold(w: Wires, events: seq<Event>): Wires
    requires AllPossible(w, events)
    decreases |events|
  {
    if events == [] then w else Unfold(Occur(w, events[0]), events[1..])
  }

  lemma {:induction false} RunAppend(j: Joint, a: seq<Action>, b: seq<Action>)
    requires Admissible(j, a) && Admissible(Run(j, a), b)
    ensures Admissible(j, a + b) && Run(j, a + b) == Run(Run(j, a), b)
    decreases |a|
  {
    if a == [] {
      assert a + b == b;
    } else {
      FirstOf(a, b);
      RunAppend(Apply(j, a[0]), a[1..], b);
    }
  }

  lemma FirstOf(a: seq<Action>, b: seq<Action>)
    requires a != []
    ensures a + b != [] && (a + b)[0] == a[0] && (a + b)[1..] == a[1..] + b
  {
  }

  /** Whatever a transport does with the bytes, the run is one of the joint model. */
  lemma {:induction false} BytesRefine(w: Wires, j: Joint, events: seq<Event>) returns (actions: seq<Action>)
    requires Inv(j) && Carries(w, j) && AllPossible(w, events)
    ensures Admissible(j, actions) && Carries(Unfold(w, events), Run(j, actions))
    decreases |events|
  {
    if events == [] {
      actions := [];
    } else {
      var first;
      match events[0] {
        case Acts(a) =>
          ActCarried(w, j, a);
          first := [a];
          assert first[1..] == [] && Run(Apply(j, a), []) == Apply(j, a);
        case ArriveUp(n) =>
          var k := ArriveUpCarried(w, j, n);
          first := Times(ReceiveUp, k);
        case ArriveDown(n) =>
          var k := ArriveDownCarried(w, j, n);
          first := Times(ReceiveDown, k);
      }
      RunInv(j, first);
      var rest := BytesRefine(Occur(w, events[0]), Run(j, first), events[1..]);
      RunAppend(j, first, rest);
      actions := first + rest;
    }
  }

  /** Just connected, with nothing in flight. */
  ghost predicate InitialWires(w: Wires) {
    && Initial(w.ends) && w.brokerBuffer == w.upBytes == w.clientBuffer == w.downBytes == []
    && w.returnedUp == w.returnedDown == []
  }

  lemma SomethingEncoded(ps: seq<Packet>)
    requires AllOk(ps) && ps != []
    ensures EncodeAll(ps) != []
  {
    assert PacketOk(ps[0]);
  }

  /** In every run of a connection, however its bytes are cut and delayed, no call, no answer and
      no `feed_bytes` raises. At any time the messages among all packets that `feed_bytes` has
      returned are the messages sent, in order and each once, without those of the packets `up`
      and `down` whose bytes have not arrived completely. */
  lemma ReturnedExactlyOnce(w: Wires, events: seq<Event>) returns (up: seq<Packet>, down: seq<Packet>)
    requires InitialWires(w) && AllPossible(w, events)
    ensures var r := Unfold(w, events);
            && !r.ends.failed && AllOk(up) && AllOk(down)
            && r.brokerBuffer + r.upBytes == EncodeAll(up) && r.clientBuffer + r.downBytes == EncodeAll(down)
            && r.ends.sentUp == MessagesIn(r.returnedUp) + Messages(up)
            && r.ends.sentDown == MessagesIn(r.returnedDown) + Messages(down)
            && (r.brokerBuffer + r.upBytes == [] ==> MessagesIn(r.returnedUp) == r.ends.sentUp)
            && (r.clientBuffer + r.downBytes == [] ==> MessagesIn(r.returnedDown) == r.ends.sentDown)
  {
    InitialInv(w.ends);
    var actions := BytesRefine(w, w.ends, events);
    RunInv(w.ends, actions);
    var r, j := Unfold(w, events), Run(w.ends, actions);
    up, down := j.up, j.down;
    if up != [] {
      SomethingEncoded(up);
    }
    if down != [] {
      SomethingEncoded(down);
    }
    if r.brokerBuffer + r.upBytes == [] {
      assert up == [] && MessagesIn(r.returnedUp) + [] == MessagesIn(r.returnedUp);
    }
    if r.clientBuffer + r.downBytes == [] {
      assert down == [] && MessagesIn(r.returnedDown) + [] == MessagesIn(r.returnedDown);
    }
  }
}
