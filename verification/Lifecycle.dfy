/** Connecting, refusing and disconnecting over whole histories, of clients and of broker sessions:
    the state of a session is decided by the last CONNECT, CONNACK or DISCONNECT, these come in a
    fixed order, and nothing else can be done or sent outside the connected state. */
module Lifecycle {
  import opened Bytes
  import opened Packets
  import opened Decoding
  import opened Grammar
  import opened Accepted
  import opened Sessions
  import opened Feeding
  import opened Resumption
  import opened AutoAcknowledge
  import opened Inbound
  import opened Answers

  // ---------- What moves a connection ----------

  datatype Move = Opening(clientId: Text) | Welcomed | Rejected | Left

  /** The moves among some packets, whichever way they travel. */
  function MovesIn(ps: seq<Packet>): seq<Move> {
    if ps == [] then []
    else
      (match ps[0]
       case ConnectPacket(clientId, _, _, _, _, _, _) => [Opening(clientId)]
       case ConnAckPacket(reason, _, _) => [if reason == 0x00 then Welcomed else Rejected]
       case DisconnectPacket(_, _) => [Left]
       case _ => [])
      + MovesIn(ps[1..])
  }

  /** The last move decides. */
  function StateAfter(moves: seq<Move>): ConnState {
    if moves == [] then Disconnected
    else
      match moves[|moves| - 1]
      case Opening(_) => Connecting
      case Welcomed => Connected
      case Rejected => Disconnected
      case Left => Disconnected
  }

  predicate MayFollow(state: ConnState, move: Move) {
    match move
    case Opening(_) => state == Disconnected
    case Welcomed => state == Connecting
    case Rejected => state == Connecting
    case Left => state == Connected
  }

  /** CONNECT, its answer, and DISCONNECT take turns. */
  predicate Orderly(moves: seq<Move>) {
    forall i :: 0 <= i < |moves| ==> MayFollow(StateAfter(moves[..i]), moves[i])
  }

  /** The client id of the last CONNECT. */
  function LastName(moves: seq<Move>, name: Text): Text {
    if moves == [] then name
    else
      match moves[|moves| - 1]
      case Opening(clientId) => clientId
      case _ => LastName(moves[..|moves| - 1], name)
  }

  /** `s` is where these moves lead. */
  predicate LedTo(moves: seq<Move>, name: Text, s: Session) {
    Orderly(moves) && s.state == StateAfter(moves) && s.clientId == LastName(moves, name)
  }

  lemma NoMovesYet(name: Text, s: Session)
    requires s.state == Disconnected && s.clientId == name
    ensures LedTo([], name, s)
  {
  }

  lemma MovesDecide(moves: seq<Move>, name: Text, s: Session)
    requires LedTo(moves, name, s)
    ensures Orderly(moves) && s.state == StateAfter(moves) && s.clientId == LastName(moves, name)
    ensures s.state == Connected <==> moves != [] && moves[|moves| - 1] == Welcomed
    ensures s.state == Connecting <==> moves != [] && moves[|moves| - 1].Opening?
  {
  }

  /** At most one move more. */
  lemma OneMove(moves: seq<Move>, more: seq<Move>, name: Text, s: Session, s': Session)
    requires LedTo(moves, name, s) && |more| <= 1
    requires more == [] ==> s'.state == s.state && s'.clientId == s.clientId
    requires more != [] ==>
               && MayFollow(s.state, more[0]) && s'.state == StateAfter(more)
               && s'.clientId == if more[0].Opening? then more[0].clientId else s.clientId
    ensures LedTo(moves + more, name, s')
  {
    var all, n := moves + more, |moves|;
    if more == [] {
      assert all == moves;
    } else {
      assert all[..n] == moves && all[n] == more[0];
      forall i | 0 <= i < |all| ensures MayFollow(StateAfter(all[..i]), all[i]) {
        if i < n {
          assert all[..i] == moves[..i] && all[i] == moves[i];
        }
      }
    }
  }

  lemma {:induction false} MovesAppend(a: seq<Packet>, b: seq<Packet>)
    ensures MovesIn(a + b) == MovesIn(a) + MovesIn(b)
  {
    if a == [] {
      assert a + b == b;
    } else {
      assert (a + b)[1..] == a[1..] + b;
      MovesAppend(a[1..], b);
      Assoc(MovesIn([a[0]]), MovesIn(a[1..]), MovesIn(b));
    }
  }

  // ---------- One packet ----------

  /** Whether a packet takes effect. A CONNACK that makes a client stumble over a pending request
      has connected it before. */
  predicate Heeded(o: Outcome) {
    o.status == Done || o.status == Raised(AssertionError)
  }

  predicate Unmoving(p: Packet) {
    !p.ConnectPacket? && !p.ConnAckPacket? && !p.DisconnectPacket?
  }

  lemma {:induction false} NoMoves(ps: seq<Packet>)
    requires forall p :: p in ps ==> Unmoving(p)
    ensures MovesIn(ps) == []
  {
    if ps != [] {
      assert Unmoving(ps[0]);
      NoMoves(ps[1..]);
    }
  }

  /** What handling a packet does to the connection. */
  ghost predicate MovedBy(s: Session, p: Packet, o: Outcome) {
    && o.session.role == s.role
    && (forall q :: q in o.sent ==> Unmoving(q))
    && (o.sent != [] ==> o.session.state == Connected)
    && if !Heeded(o) || Unmoving(p) then o.session.state == s.state && o.session.clientId == s.clientId
       else
         var move := MovesIn([p])[0];
         && |MovesIn([p])| == 1 && MayFollow(s.state, move) && o.session.state == StateAfter([move])
         && o.session.clientId == if p.ConnectPacket? then p.clientId else s.clientId
  }

  lemma MessageMoves(s: Session, p: Publish)
    ensures MovedBy(s, PublishPacket(p), HandlePublish(s, p))
  {
  }

  lemma AckMoves(s: Session, p: Packet)
    requires p.AckPacket?
    ensures MovedBy(s, p, HandleAck(s, p.kind, p.packetId))
  {
  }

  lemma ConnAckMoves(s: Session, p: Packet)
    requires p.ConnAckPacket?
    ensures MovedBy(s, p, HandleConnAck(s, p.reason, p.sessionPresent))
  {
    assert [p][1..] == [];
    if s.state == Connecting && p.reason == 0x00 {
      var s' := Reset(s.(state := Connected), p.sessionPresent);
      ResendKeeps(s', s'.table.order);
      ResendHeeded(s', s'.table.order);
    }
  }

  lemma {:induction false} ResendHeeded(s: Session, ids: seq<PacketId>)
    ensures Heeded(Resend(s, ids))
    decreases |ids|
  {
    if ids != [] && s.table.Has(ids[0]) && s.table.items[ids[0]].PublishEntry? {
      var entry := s.table.items[ids[0]];
      ResendHeeded(s.(table := s.table.Set(ids[0], Again(entry))), ids[1..]);
    }
  }

  lemma OtherMoves(s: Session, p: Packet)
    requires !p.PublishPacket? && !p.AckPacket? && !p.ConnAckPacket?
    ensures MovedBy(s, p, HandlePacket(s, p))
  {
    assert [p][1..] == [];
  }

  lemma PacketMoves(s: Session, p: Packet)
    ensures MovedBy(s, p, HandlePacket(s, p))
  {
    match p
    case PublishPacket(m) => MessageMoves(s, m);
    case AckPacket(_, _, _, _) => AckMoves(s, p);
    case ConnAckPacket(_, _, _) =>
      if s.role == ClientRole {
        ConnAckMoves(s, p);
      }
    case _ => OtherMoves(s, p);
  }

  // ---------- Feeding bytes ----------

  /** The packets that take effect when bytes are fed, each with what the session answers. */
  function Traffic(s: Session, data: seq<byte>): seq<Packet>
    decreases |data|
  {
    if data == [] || DecodePacket(data).Err? then []
    else
      var p, rest, o := DecodePacket(data).value, DecodePacket(data).rest, HandlePacket(s, DecodePacket(data).value);
      (if Heeded(o) then [p] else []) + o.sent + if o.status == Done then Traffic(o.session, rest) else []
  }

  lemma PacketTraffic(moves: seq<Move>, name: Text, s: Session, p: Packet)
    requires LedTo(moves, name, s)
    ensures var o := HandlePacket(s, p);
            && o.session.role == s.role
            && LedTo(moves + MovesIn((if Heeded(o) then [p] else []) + o.sent), name, o.session)
  {
    hide HandlePacket;
    var o := HandlePacket(s, p);
    PacketMoves(s, p);
    var first := if Heeded(o) then [p] else [];
    MovesAppend(first, o.sent);
    NoMoves(o.sent);
    assert MovesIn(first) + [] == MovesIn(first) && [p][1..] == [];
    OneMove(moves, MovesIn(first), name, s, o.session);
  }

  lemma {:induction false} FeedMoves(moves: seq<Move>, name: Text, s: Session, data: seq<byte>)
    requires LedTo(moves, name, s)
    ensures Drain(s, data).session.role == s.role
    ensures LedTo(moves + MovesIn(Traffic(s, data)), name, Drain(s, data).session)
    decreases |data|
  {
    if data == [] || DecodePacket(data).Err? {
      assert moves + [] == moves;
    } else {
      var p, rest := DecodePacket(data).value, DecodePacket(data).rest;
      var o := HandlePacket(s, p);
      var first := (if Heeded(o) then [p] else []) + o.sent;
      PacketTraffic(moves, name, s, p);
      if o.status == Done {
        FeedMoves(moves + MovesIn(first), name, o.session, rest);
        MovesAppend(first, Traffic(o.session, rest));
        Assoc(moves, MovesIn(first), MovesIn(Traffic(o.session, rest)));
      } else {
        assert first + [] == first;
      }
    }
  }

  // ---------- Clients ----------

  /** All packets of a run that take effect, in both directions, in the order in which they do. */
  function Exchanged(h: History, ops: seq<Op>): seq<Packet>
    decreases |ops|
  {
    if ops == [] then []
    else
      (if ops[0].Feeds? then Traffic(h.session, h.buffer + ops[0].data) else CallOutcome(h.session, ops[0]).sent)
      + Exchanged(After(h, ops[0]), ops[1..])
  }

  /** The state in which a call can be made. */
  function NeededState(op: Op): ConnState {
    if op.Connects? then Disconnected else Connected
  }

  /** A call raises ProtocolError if and only if the client is not in the state it needs. It then
      changes nothing and sends nothing. */
  lemma CallNeedsState(s: Session, op: Op)
    requires !op.Feeds?
    ensures var o := CallOutcome(s, op);
            && (o.status == Raised(ProtocolError) <==> s.state != NeededState(op))
            && (s.state != NeededState(op) ==> o.session == s && o.sent == [])
  {
  }

  /** What a call does to the connection. */
  lemma CallMoves(s: Session, op: Op)
    requires !op.Feeds?
    ensures var o := CallOutcome(s, op);
            && o.session.role == s.role && o.session.clientId == s.clientId
            && match op
               case Connects(_) =>
                 if o.status == Done then
                   MovesIn(o.sent) == [Opening(s.clientId)] && s.state == Disconnected && o.session.state == Connecting
                 else MovesIn(o.sent) == [] && o.session.state == s.state
               case Disconnects(_) =>
                 if o.status == Done then
                   MovesIn(o.sent) == [Left] && s.state == Connected && o.session.state == Disconnected
                 else MovesIn(o.sent) == [] && o.session.state == s.state
               case _ => (forall q :: q in o.sent ==> Unmoving(q)) && o.session.state == s.state
  {
    if op.Connects? && CallOutcome(s, op).status == Done {
      assert CallOutcome(s, op).sent[1..] == [];
    }
    if op.Disconnects? && CallOutcome(s, op).status == Done {
      assert CallOutcome(s, op).sent[1..] == [];
    }
  }

  lemma CallLeads(moves: seq<Move>, s: Session, op: Op)
    requires !op.Feeds? && LedTo(moves, s.clientId, s)
    ensures LedTo(moves + MovesIn(CallOutcome(s, op).sent), s.clientId, CallOutcome(s, op).session)
  {
    hide CallOutcome;
    CallMoves(s, op);
    var o := CallOutcome(s, op);
    if !op.Connects? && !op.Disconnects? {
      NoMoves(o.sent);
    }
    OneMove(moves, MovesIn(o.sent), s.clientId, s, o.session);
  }

  lemma {:induction false} NameStays(moves: seq<Move>, name: Text)
    requires forall move :: move in moves && move.Opening? ==> move.clientId == name
    ensures LastName(moves, name) == name
  {
    if moves != [] {
      NameStays(moves[..|moves| - 1], name);
    }
  }

  lemma {:induction false} LifeLeads(moves: seq<Move>, name: Text, h: History, ops: seq<Op>)
    requires h.session.role == ClientRole && h.session.clientId == name && LedTo(moves, name, h.session)
    ensures LedTo(moves + MovesIn(Exchanged(h, ops)), name, Life(h, ops).session)
    ensures Life(h, ops).session.clientId == name
    decreases |ops|
  {
    if ops == [] {
      assert moves + [] == moves;
    } else {
      var next := After(h, ops[0]);
      var first := if ops[0].Feeds? then Traffic(h.session, h.buffer + ops[0].data)
                   else CallOutcome(h.session, ops[0]).sent;
      if ops[0].Feeds? {
        FeedMoves(moves, name, h.session, h.buffer + ops[0].data);
        ClientFed(h.session, h.buffer + ops[0].data);
      } else {
        CallMoves(h.session, ops[0]);
        CallLeads(moves, h.session, ops[0]);
      }
      LifeLeads(moves + MovesIn(first), name, next, ops[1..]);
      MovesAppend(first, Exchanged(next, ops[1..]));
      Assoc(moves, MovesIn(first), MovesIn(Exchanged(next, ops[1..])));
    }
  }

  /** Feeding a client never changes its own name. */
  lemma {:induction false} ClientFed(s: Session, data: seq<byte>)
    requires s.role == ClientRole
    ensures Drain(s, data).session.clientId == s.clientId && Drain(s, data).session.role == ClientRole
    decreases |data|
  {
    if data != [] && DecodePacket(data).Ok? {
      var p, rest := DecodePacket(data).value, DecodePacket(data).rest;
      PacketMoves(s, p);
      ClientFed(HandlePacket(s, p).session, rest);
    }
  }

  /** In every run of a new client, of calls and of arbitrary bytes, whatever raises: CONNECT, CONNACK
      and DISCONNECT have come in turns, and the last one decides the state. The client is connected
      if and only if it was a CONNACK with code 0x00, connecting if and only if it was a CONNECT. */
  lemma ClientConnection(clientId: Text, ops: seq<Op>)
    ensures var h, moves := Life(NewHistory(clientId), ops), MovesIn(Exchanged(NewHistory(clientId), ops));
            && Orderly(moves) && h.session.state == StateAfter(moves) && h.session.clientId == clientId
            && (h.session.state == Connected <==> moves != [] && moves[|moves| - 1] == Welcomed)
            && (h.session.state == Connecting <==> moves != [] && moves[|moves| - 1].Opening?)
  {
    hide Life, Exchanged, MovesIn, LedTo, Orderly, StateAfter;
    NoMovesYet(clientId, NewHistory(clientId).session);
    LifeLeads([], clientId, NewHistory(clientId), ops);
    var moves := MovesIn(Exchanged(NewHistory(clientId), ops));
    assert [] + moves == moves;
    MovesDecide(moves, clientId, Life(NewHistory(clientId), ops).session);
  }

  /** A client sends nothing unless it is connected then, but for the CONNECT itself. */
  lemma SendsWhenConnected(s: Session, op: Op, p: Packet)
    requires !op.Feeds?
    ensures CallOutcome(s, op).sent != [] ==> s.state == NeededState(op)
    ensures HandlePacket(s, p).sent != [] ==> HandlePacket(s, p).session.state == Connected
  {
    CallNeedsState(s, op);
    PacketMoves(s, p);
  }

  /** The refusal of a broker, in bytes: a CONNACK with any code but 0x00. The client is disconnected
      again; it has sent nothing, and its table, counter and maps are what they were. */
  lemma RefusedByBytes(h: History, flags: byte, code: byte)
    requires h.session.role == ClientRole && h.session.state == Connecting && h.buffer == []
    requires CodeAllowed(2, code) && code != 0x00
    ensures var data := [0x20, 3, flags, code, 0];
            After(h, Feeds(data)) == h.(session := h.session.(state := Disconnected),
                                        mine := h.mine * h.session.table.items.Keys)
  {
    var data: seq<byte> := [0x20, 3, flags, code, 0];
    BareConnAck(flags, code, []);
    assert data + [] == data && h.buffer + data == data;
    var p := ConnAckPacket(code, flags % 2 == 1, NOTHING);
    OthersArrive(h.session, p);
    RefusedOnce(h, data, p);
  }

  lemma RefusedOnce(h: History, data: seq<byte>, p: Packet)
    requires data != [] && DecodePacket(data) == Ok([], p)
    requires HandlePacket(h.session, p) == Outcome(h.session.(state := Disconnected), [], Done) && !p.PublishPacket?
    ensures Drain(h.session, data) == Fed(h.session.(state := Disconnected), [p], [], [], None)
    ensures ReceiveAll(h, [p]) == h.(session := h.session.(state := Disconnected),
                                     mine := h.mine * h.session.table.items.Keys)
  {
    var next := h.session.(state := Disconnected);
    assert Drain(next, []) == Fed(next, [], [], [], None);
    assert [p] + [] == [p] && h.sent + [] == h.sent && h.admitted + [] == h.admitted && [p][1..] == [];
  }

  // ---------- Broker sessions ----------

  /** Bytes from the client, and the calls of the broker's application. */
  datatype Task =
    | Hears(data: seq<byte>)
    | AnswersConnect(reason: ReasonCode, sessionPresent: bool)
    | Acknowledges(id: PacketId, reason: ReasonCode)
    | Releases(id: PacketId, reason: ReasonCode)
    | Completes(id: PacketId, reason: ReasonCode)
    | Grants(id: PacketId, codes: seq<ReasonCode>)
    | Delivers(source: Text, publish: Publish)

  ghost function TaskOutcome(s: Session, t: Task): Outcome
    requires !t.Hears?
  {
    match t
    case AnswersConnect(reason, present) => AcknowledgeConnect(s, reason, present)
    case Acknowledges(id, reason) => AcknowledgePublish(s, id, reason)
    case Releases(id, reason) => ReleasePublish(s, id, reason)
    case Completes(id, reason) => CompletePublish(s, id, reason)
    case Grants(id, codes) => AcknowledgeSubscribe(s, id, codes)
    case Delivers(source, publish) => DeliverPublish(s, source, publish)
  }

  /** A broker's session with its inbound buffer. */
  datatype Service = Service(session: Session, buffer: seq<byte>)

  ghost function AfterTask(x: Service, t: Task): Service {
    if !t.Hears? then x.(session := TaskOutcome(x.session, t).session)
    else
      var fed := Drain(x.session, x.buffer + t.data);
      Service(fed.session, if fed.error.None? then fed.rest else x.buffer + t.data)
  }

  ghost function AfterTasks(x: Service, tasks: seq<Task>): Service
    decreases |tasks|
  {
    if tasks == [] then x else AfterTasks(AfterTask(x, tasks[0]), tasks[1..])
  }

  /** What a task does to the connection. An answer counts even if its code cannot be sent. */
  function TaskMoves(x: Service, t: Task): seq<Move> {
    match t
    case Hears(data) => MovesIn(Traffic(x.session, x.buffer + data))
    case AnswersConnect(reason, _) =>
      if x.session.state != Connecting then [] else if reason == 0x00 then [Welcomed] else [Rejected]
    case _ => []
  }

  ghost function AllMoves(x: Service, tasks: seq<Task>): seq<Move>
    decreases |tasks|
  {
    if tasks == [] then [] else TaskMoves(x, tasks[0]) + AllMoves(AfterTask(x, tasks[0]), tasks[1..])
  }

  /** The state in which the broker's application can make a call. Outside it the call raises
      ProtocolError, changes nothing and sends nothing. */
  lemma TaskNeedsState(s: Session, t: Task)
    requires !t.Hears? && s.state != if t.AnswersConnect? then Connecting else Connected
    ensures TaskOutcome(s, t) == Outcome(s, [], Raised(ProtocolError))
  {
  }

  lemma TaskKeeps(s: Session, t: Task)
    requires !t.Hears? && !t.AnswersConnect?
    ensures TaskOutcome(s, t).session.state == s.state && TaskOutcome(s, t).session.clientId == s.clientId
  {
  }

  lemma TaskLeads(moves: seq<Move>, name: Text, x: Service, t: Task)
    requires LedTo(moves, name, x.session)
    ensures LedTo(moves + TaskMoves(x, t), name, AfterTask(x, t).session)
  {
    match t
    case Hears(data) => FeedMoves(moves, name, x.session, x.buffer + data);
    case AnswersConnect(reason, present) =>
      ConnectAnswered(x.session, reason, present);
      OneMove(moves, TaskMoves(x, t), name, x.session, AfterTask(x, t).session);
    case _ =>
      TaskKeeps(x.session, t);
      OneMove(moves, [], name, x.session, AfterTask(x, t).session);
  }

  lemma {:induction false} ServeLeads(moves: seq<Move>, name: Text, x: Service, tasks: seq<Task>)
    requires LedTo(moves, name, x.session)
    ensures LedTo(moves + AllMoves(x, tasks), name, AfterTasks(x, tasks).session)
    decreases |tasks|
  {
    if tasks == [] {
      assert moves + [] == moves;
    } else {
      TaskLeads(moves, name, x, tasks[0]);
      ServeLeads(moves + TaskMoves(x, tasks[0]), name, AfterTask(x, tasks[0]), tasks[1..]);
      Assoc(moves, TaskMoves(x, tasks[0]), AllMoves(AfterTask(x, tasks[0]), tasks[1..]));
    }
  }

  /** In every run of a broker's session, of calls and of arbitrary bytes, whatever raises: CONNECT, its
      answer and DISCONNECT have come in turns, and the last one decides the state. The session is
      connected if and only if that was the answer 0x00, connecting if and only if it was a CONNECT;
      and it has the client id of the last CONNECT. */
  lemma BrokerConnection(name: Text, tasks: seq<Task>)
    ensures var x := Service(NewSession(BrokerRole, name), []);
            var s, moves := AfterTasks(x, tasks).session, AllMoves(x, tasks);
            && Orderly(moves) && s.state == StateAfter(moves) && s.clientId == LastName(moves, name)
            && (s.state == Connected <==> moves != [] && moves[|moves| - 1] == Welcomed)
            && (s.state == Connecting <==> moves != [] && moves[|moves| - 1].Opening?)
  {
    var x := Service(NewSession(BrokerRole, name), []);
    hide AfterTasks, AllMoves, LedTo, Orderly, StateAfter;
    NoMovesYet(name, x.session);
    ServeLeads([], name, x, tasks);
    var moves := AllMoves(x, tasks);
    assert [] + moves == moves;
    MovesDecide(moves, name, AfterTasks(x, tasks).session);
  }
}
