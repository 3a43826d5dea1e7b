/** The client's packet ids: how the counter runs, and when the id it hands out is free. */
module PacketIds {
  import opened Bytes
  import opened Packets
  import opened Decoding
  import opened Sessions
  import opened Feeding
  import Handshake
  import opened HandshakeRuns
  import opened Resumption
  import opened AutoAcknowledge
  import opened ReferenceCounting

  /** The packet id handed out after `n` others. */
  function NthId(n: nat): PacketId {
    if n == 0 then 1 else NextId(NthId(n - 1))
  }

  lemma {:induction false} NthIdIs(n: nat)
    ensures NthId(n) == n % 65535 + 1
  {
    if n > 0 {
      NthIdIs(n - 1);
      if (n - 1) % 65535 == 65534 {
        assert n == ((n - 1) / 65535 + 1) * 65535;
      }
    }
  }

  lemma SameRemainder(a: nat, b: nat)
    requires a <= b
    ensures a % 65535 == b % 65535 <==> (b - a) % 65535 == 0
  {
  }

  /** The one comes a multiple of 65535 after the other. */
  predicate InRound(a: nat, b: nat) {
    (b - a) % 65535 == 0
  }

  /** Two ids are the same if and only if a multiple of 65535 lies between them. */
  lemma SameId(a: nat, b: nat)
    requires a <= b
    ensures NthId(a) == NthId(b) <==> InRound(a, b)
  {
    NthIdIs(a);
    NthIdIs(b);
    SameRemainder(a, b);
  }

  /** One of the 65535 ids from the given one on. */
  ghost predicate HandedOut(first: nat, id: PacketId) {
    exists i :: first <= i < first + 65535 && NthId(i) == id
  }

  lemma WithRemainder(first: nat, r: nat) returns (i: nat)
    requires r < 65535
    ensures first <= i < first + 65535 && i % 65535 == r
  {
    var base := first - first % 65535;
    i := if r < first % 65535 then base + 65535 + r else base + r;
    assert base == first / 65535 * 65535;
  }

  /** Any 65535 ids in a row are those from 1 to 65535, each once. */
  lemma AnyWindow(first: nat)
    ensures forall i, j :: first <= i < j < first + 65535 ==> NthId(i) != NthId(j)
    ensures forall id: PacketId :: HandedOut(first, id) <==> 1 <= id
  {
    forall i, j | first <= i < j < first + 65535 ensures NthId(i) != NthId(j) {
      SameId(i, j);
      assert (j - i) % 65535 == j - i;
    }
    forall id: PacketId ensures HandedOut(first, id) <==> 1 <= id {
      if 1 <= id {
        var i := WithRemainder(first, id - 1);
        NthIdIs(i);
      }
      forall i: nat ensures NthId(i) >= 1 {
        NthIdIs(i);
      }
    }
  }

  // ---------- The counter over whole runs ----------

  /** How many ids have been handed out, and after how many each entry of the client's own was
      made. */
  datatype Clock = Clock(n: nat, births: map<PacketId, nat>)

  function Tick(c: Clock, h: History, op: Op): Clock {
    if op.Feeds? then c
    else
      var id, s' := h.session.nextId, Call(h, op).session;
      if s'.nextId == id then c
      else Clock(c.n + 1, if s'.table.Has(id) && !h.session.table.Has(id) then c.births[id := c.n] else c.births)
  }

  function TimeOf(c: Clock, h: History, ops: seq<Op>): Clock
    decreases |ops|
  {
    if ops == [] then c else TimeOf(Tick(c, h, ops[0]), After(h, ops[0]), ops[1..])
  }

  ghost predicate KeepsCounter(s: Session, data: seq<byte>) {
    s.nextId == 1 || !AnyClears(Drain(s, data).received)
  }

  /** The inbound bytes never set the counter back. */
  ghost predicate NothingSetBack(h: History, ops: seq<Op>)
    decreases |ops|
  {
    ops != [] ==>
      && (ops[0].Feeds? ==> KeepsCounter(h.session, h.buffer + ops[0].data))
      && NothingSetBack(After(h, ops[0]), ops[1..])
  }

  ghost predicate OnTime(h: History, c: Clock) {
    && h.session.role == ClientRole
    && h.session.nextId == NthId(c.n)
    && forall id :: id in h.mine ==> id in c.births && c.births[id] < c.n && NthId(c.births[id]) == id
  }

  /** A call takes the next id or leaves the counter alone, and makes no entry but under that id. */
  lemma CallTakes(s: Session, op: Op)
    requires !op.Feeds? && s.nextId != 0
    ensures var o := CallOutcome(s, op);
            && o.session.role == s.role
            && (o.session.nextId == s.nextId || o.session.nextId == NextId(s.nextId))
            && (o.session.nextId == s.nextId ==> o.session.table == s.table)
            && NextId(s.nextId) != s.nextId
  {
  }

  lemma CallOnTime(h: History, op: Op, c: Clock)
    requires OnTime(h, c) && !op.Feeds?
    ensures OnTime(Call(h, op), Tick(c, h, op))
  {
    NthIdIs(c.n);
    CallTakes(h.session, op);
  }

  lemma ReceivedCounter(s: Session, p: Packet)
    requires s.role == ClientRole && HandlePacket(s, p).status == Done
    ensures var s' := HandlePacket(s, p).session;
            s'.role == ClientRole && s'.nextId == if Clears(p) then 1 else s.nextId
  {
    if p.ConnAckPacket? && p.reason == SUCCESS {
      var s' := Reset(s.(state := Connected), p.sessionPresent);
      ResendKeeps(s', s'.table.order);
    }
  }

  lemma {:induction false} FeedCounter(h: History, data: seq<byte>)
    requires h.session.role == ClientRole && Drain(h.session, data).error.None? && KeepsCounter(h.session, data)
    ensures var fed := Drain(h.session, data);
            && fed.session.role == ClientRole && fed.session.nextId == h.session.nextId
            && ReceiveAll(h, fed.received).mine <= h.mine
    decreases |data|
  {
    if data != [] && DecodePacket(data).Ok? {
      var p, rest := DecodePacket(data).value, DecodePacket(data).rest;
      var next := Receive(h, p);
      ReceivedCounter(h.session, p);
      var fed := Drain(next.session, rest);
      assert p in [p] + fed.received && ([p] + fed.received)[1..] == fed.received;
      FeedCounter(next, rest);
    }
  }

  lemma {:induction false} LifeOnTime(h: History, ops: seq<Op>, c: Clock)
    requires OnTime(h, c) && NothingSetBack(h, ops) && !Life(h, ops).failed
    ensures OnTime(Life(h, ops), TimeOf(c, h, ops))
    decreases |ops|
  {
    if ops != [] {
      var op := ops[0];
      FailureStays(After(h, op), ops[1..]);
      if op.Feeds? {
        FeedCounter(h, h.buffer + op.data);
      } else {
        CallOnTime(h, op, c);
      }
      LifeOnTime(After(h, op), ops[1..], Tick(c, h, op));
    }
  }

  /** The next id belongs to an entry that is a multiple of 65535 ids old. */
  ghost predicate ComeRound(h: History, c: Clock) {
    exists id :: id in h.mine && id in c.births && InRound(c.births[id], c.n)
  }

  /** Every entry is the client's own and younger than 65535 ids. */
  ghost predicate AllYoung(h: History, c: Clock) {
    forall id :: id in h.session.table.items ==> id in h.mine && id in c.births && c.n < c.births[id] + 65535
  }

  lemma OnTimeFree(h: History, c: Clock)
    requires OnTime(h, c)
    ensures h.session.nextId == c.n % 65535 + 1
    ensures h.session.nextId in h.mine <==> ComeRound(h, c)
    ensures AllYoung(h, c) ==> !h.session.table.Has(h.session.nextId)
  {
    NthIdIs(c.n);
    forall id | id in h.mine ensures id == h.session.nextId <==> InRound(c.births[id], c.n) {
      SameId(c.births[id], c.n);
    }
    forall id | AllYoung(h, c) && id in h.session.table.items ensures id != h.session.nextId {
      Young(c.births[id], c.n);
    }
  }

  lemma Young(birth: nat, now: nat)
    requires birth < now < birth + 65535
    ensures !InRound(birth, now)
  {
  }

  /** In every run of a new client in which no `feed_bytes` raises or sets the counter back, the
      next packet id is the number of ids handed out so far, modulo 65535, plus 1. It belongs to a
      pending entry of the client's own if and only if one of them is a multiple of 65535 ids old.
      So it is free if no entry came from the broker and each is younger than 65535 ids. */
  lemma NextIdFree(clientId: Text, ops: seq<Op>)
    requires !Life(NewHistory(clientId), ops).failed && NothingSetBack(NewHistory(clientId), ops)
    ensures var h, c := Life(NewHistory(clientId), ops), TimeOf(Clock(0, map[]), NewHistory(clientId), ops);
            && h.session.nextId == c.n % 65535 + 1
            && (h.session.nextId in h.mine <==> ComeRound(h, c))
            && (AllYoung(h, c) ==> !h.session.table.Has(h.session.nextId))
  {
    LifeOnTime(NewHistory(clientId), ops, Clock(0, map[]));
    OnTimeFree(Life(NewHistory(clientId), ops), TimeOf(Clock(0, map[]), NewHistory(clientId), ops));
  }

  // ---------- What becomes of a request ----------

  /** A call that takes an id enters its request under it and sends just the request, if the id
      is free. If not, the table stays, and a reply that reports the id in use goes out behind the
      request. */
  lemma EntersIfFree(s: Session, op: Op)
    requires s.nextId != 0 && !op.Feeds? && OpOk(op)
    requires CallOutcome(s, op).status == Done && CallOutcome(s, op).session.nextId != s.nextId
    ensures var o, id := CallOutcome(s, op), s.nextId;
            if !s.table.Has(id) then
              && o.session.table.Get(id).Some? && o.session.table == s.table.Add(id, o.session.table.items[id])
              && |o.sent| == 1 && Handshake.IdOf(o.sent[0]) == Some(id) && !ReportsInUse(o.sent[0])
            else
              && o.session.table == s.table
              && |o.sent| == 2 && Handshake.IdOf(o.sent[0]) == Some(id)
              && Handshake.IdOf(o.sent[1]) == Some(id) && ReportsInUse(o.sent[1])
  {
    if s.table.Has(s.nextId) {
      var last := CallOutcome(s, op).sent[1];
      assert last.CodesPacket? ==> last.reasonCodes[0] == PACKET_IDENTIFIER_IN_USE;
    }
  }
}
