/** The broker's subscription map against the client's, over whole runs. */
module Agreement {
  import opened Bytes
  import opened Properties
  import opened Subscriptions
  import opened Wire
  import opened Packets
  import opened RoundTrip
  import opened Sessions
  import opened SessionFacts
  import opened Handshake
  import opened HandshakeSteps
  import opened HandshakeRuns

  // ---------- Replaying requests ----------

  function InstallAll(subs: Subs, requested: seq<Subscription>): Subs
    decreases |requested|
  {
    if requested == [] then subs else InstallAll(subs[requested[0].pattern := requested[0]], requested[1..])
  }

  /** What one request does to a subscription map. */
  function Replay1(subs: Subs, p: Packet): Subs {
    match p
    case SubscribePacket(_, requested, _) => InstallAll(subs, requested)
    case UnsubscribePacket(_, patterns, _) => RemoveAll(subs, patterns)
    case _ => subs
  }

  function Replay(subs: Subs, ps: seq<Packet>): Subs
    decreases |ps|
  {
    if ps == [] then subs else Replay(Replay1(subs, ps[0]), ps[1..])
  }

  lemma {:induction false} ReplayAppend(subs: Subs, a: seq<Packet>, b: seq<Packet>)
    ensures Replay(subs, a + b) == Replay(Replay(subs, a), b)
    decreases |a|
  {
    if a == [] {
      assert a + b == b;
    } else {
      assert (a + b)[1..] == a[1..] + b;
      ReplayAppend(Replay1(subs, a[0]), a[1..], b);
    }
  }

  lemma ReplayOne(subs: Subs, a: seq<Packet>, p: Packet)
    ensures Replay(subs, a + [p]) == Replay1(Replay(subs, a), p)
  {
    ReplayAppend(subs, a, [p]);
    assert [p][1..] == [];
  }

  lemma {:induction false} ReplayQuiet(subs: Subs, ps: seq<Packet>)
    requires forall p :: p in ps ==> !p.SubscribePacket? && !p.UnsubscribePacket?
    ensures Replay(subs, ps) == subs
    decreases |ps|
  {
    if ps != [] {
      assert ps[0] in ps;
      ReplayQuiet(subs, ps[1..]);
    }
  }

  // ---------- The client's maps and its requests ----------

  lemma {:induction false} CountUpInstalls(subs: Subs, counts: Counts, requested: seq<Subscription>)
    ensures var r := CountUp(subs, counts, requested); r.0 == InstallAll(subs, r.2)
    decreases |requested|
  {
    if requested != [] {
      var sub := requested[0];
      if sub.pattern in subs {
        var count := (if sub.pattern in counts then counts[sub.pattern] else 0) + 1;
        CountUpInstalls(subs, counts[sub.pattern := count], requested[1..]);
      } else {
        var subs', counts' := subs[sub.pattern := sub], counts[sub.pattern := 1];
        CountUpInstalls(subs', counts', requested[1..]);
        var new' := CountUp(subs', counts', requested[1..]).2;
        assert ([sub] + new')[1..] == new';
      }
    }
  }

  lemma {:induction false} CountDownRemoves(subs: Subs, counts: Counts, patterns: seq<Text>)
    requires !CountDown(subs, counts, patterns).raised
    ensures var r := CountDown(subs, counts, patterns); r.subs == RemoveAll(subs, r.gone)
    decreases |patterns|
  {
    if patterns != [] {
      var t := patterns[0];
      var count := if t in counts then counts[t] else 0;
      if count == 1 {
        CountDownRemoves(subs - {t}, counts - {t}, patterns[1..]);
        var gone := CountDown(subs - {t}, counts - {t}, patterns[1..]).gone;
        assert ([t] + gone)[1..] == gone;
      } else {
        CountDownRemoves(subs, counts[t := count - 1], patterns[1..]);
      }
    }
  }

  // ---------- What is installed and removed ----------

  /** The subscriptions of a request that waits for its answer. */
  function Requested(entry: Option<Pending>): Subs {
    if entry.Some? && entry.value.SubscribeEntry? then InstallAll(map[], entry.value.subscriptions) else map[]
  }

  lemma {:induction false} InstallAllKeys(requested: seq<Subscription>)
    ensures forall t :: t in InstallAll(map[], requested) <==> exists sub :: sub in requested && sub.pattern == t
    decreases |requested|
  {
    if requested != [] {
      var sub, rest := requested[0], requested[1..];
      InstallAllKeys(rest);
      InstallAllMeans(map[sub.pattern := sub], rest);
      assert forall other :: other in requested <==> other == sub || other in rest;
    }
  }

  lemma {:induction false} InstallAllMeans(subs: Subs, requested: seq<Subscription>)
    ensures InstallAll(subs, requested) == subs + InstallAll(map[], requested)
    decreases |requested|
  {
    if requested != [] {
      var sub, rest := requested[0], requested[1..];
      InstallAllMeans(subs[sub.pattern := sub], rest);
      InstallAllMeans(map[sub.pattern := sub], rest);
      Merge(subs, sub, InstallAll(map[], rest));
    } else {
      assert subs + map[] == subs;
    }
  }

  lemma Merge(subs: Subs, sub: Subscription, more: Subs)
    ensures subs[sub.pattern := sub] + more == subs + (map[sub.pattern := sub] + more)
  {
  }

  lemma {:induction false} RemoveAllMeans(subs: Subs, patterns: seq<Text>)
    ensures RemoveAll(subs, patterns) == subs - (set t | t in patterns)
    decreases |patterns|
  {
    if patterns != [] {
      RemoveAllMeans(subs - {patterns[0]}, patterns[1..]);
      assert forall t :: t in patterns <==> t == patterns[0] || t in patterns[1..];
    }
  }

  ghost predicate DistinctPatterns(requested: seq<Subscription>) {
    forall i, j :: 0 <= i < j < |requested| ==> requested[i].pattern != requested[j].pattern
  }

  /** What counting up finds new are different patterns. */
  lemma {:induction false} CountUpNew(subs: Subs, counts: Counts, requested: seq<Subscription>)
    ensures var new' := CountUp(subs, counts, requested).2;
            DistinctPatterns(new') && forall sub :: sub in new' ==> sub.pattern !in subs
    decreases |requested|
  {
    if requested != [] {
      var sub := requested[0];
      if sub.pattern in subs {
        var count := (if sub.pattern in counts then counts[sub.pattern] else 0) + 1;
        CountUpNew(subs, counts[sub.pattern := count], requested[1..]);
      } else {
        CountUpNew(subs[sub.pattern := sub], counts[sub.pattern := 1], requested[1..]);
      }
    }
  }

  /** The patterns that an answer does not grant; any code but SUCCESS refuses. */
  function RefusedBy(requested: seq<Subscription>, codes: seq<ReasonCode>): set<Text>
    requires |requested| == |codes|
  {
    set i | 0 <= i < |codes| && codes[i] != SUCCESS :: requested[i].pattern
  }

  lemma RefusedAmong(requested: seq<Subscription>, codes: seq<ReasonCode>)
    requires |requested| == |codes|
    ensures RefusedBy(requested, codes) <= InstallAll(map[], requested).Keys
  {
    InstallAllKeys(requested);
  }

  lemma RefusedByFirst(requested: seq<Subscription>, codes: seq<ReasonCode>)
    requires |requested| == |codes| > 0
    ensures RefusedBy(requested, codes)
         == (if codes[0] != SUCCESS then {requested[0].pattern} else {}) + RefusedBy(requested[1..], codes[1..])
  {
    forall t | t in RefusedBy(requested[1..], codes[1..]) ensures t in RefusedBy(requested, codes) {
      var i :| 0 <= i < |codes[1..]| && codes[1..][i] != SUCCESS && requested[1..][i].pattern == t;
      assert codes[i + 1] != SUCCESS && requested[i + 1].pattern == t;
    }
    forall t | t in RefusedBy(requested, codes) && (codes[0] == SUCCESS || t != requested[0].pattern)
      ensures t in RefusedBy(requested[1..], codes[1..])
    {
      var i :| 0 <= i < |codes| && codes[i] != SUCCESS && requested[i].pattern == t;
      assert codes[1..][i - 1] != SUCCESS && requested[1..][i - 1].pattern == t;
    }
  }

  lemma InstallsOne(subs: Subs, sub: Subscription, granted: bool, rest: Subs, refused: set<Text>)
    requires sub.pattern !in rest && refused <= rest.Keys
    ensures (if granted then subs[sub.pattern := sub] else subs) + (rest - refused)
         == subs + ((map[sub.pattern := sub] + rest) - ((if granted then {} else {sub.pattern}) + refused))
  {
  }

  /** An answer installs the subscriptions of the request without those it refuses. */
  lemma {:induction false} InstallMeans(subs: Subs, requested: seq<Subscription>, codes: seq<ReasonCode>)
    requires |requested| == |codes| && DistinctPatterns(requested)
    ensures Install(subs, requested, codes) == subs + (InstallAll(map[], requested) - RefusedBy(requested, codes))
    decreases |requested|
  {
    if requested == [] {
      assert subs + map[] == subs;
    } else {
      var sub, rest := requested[0], requested[1..];
      var subs' := if codes[0] == SUCCESS then subs[sub.pattern := sub] else subs;
      InstallMeans(subs', rest, codes[1..]);
      InstallAllMeans(map[sub.pattern := sub], rest);
      InstallAllKeys(rest);
      RefusedByFirst(requested, codes);
      RefusedAmong(rest, codes[1..]);
      InstallsOne(subs, sub, codes[0] == SUCCESS, InstallAll(map[], rest), RefusedBy(rest, codes[1..]));
    }
  }

  lemma {:induction false} InstallGranted(subs: Subs, requested: seq<Subscription>)
    ensures Install(subs, requested, Repeat(SUCCESS, |requested|)) == InstallAll(subs, requested)
    decreases |requested|
  {
    if requested != [] {
      InstallGranted(subs[requested[0].pattern := requested[0]], requested[1..]);
      assert Repeat(SUCCESS, |requested|)[1..] == Repeat(SUCCESS, |requested[1..]|);
    }
  }

  // ---------- Careful runs ----------

  /** No UNSUBSCRIBE is processed while a SUBSCRIBE of one of its patterns waits for its answer. */
  ghost predicate Careful(j: Joint, a: Action)
    requires Enabled(j, a)
  {
    a.ReceiveUp? && j.up[0].UnsubscribePacket? ==>
      forall w, t :: w in j.toGrant && t in j.up[0].patterns ==> t !in Requested(j.broker.table.Get(w))
  }

  ghost predicate CarefulRun(j: Joint, actions: seq<Action>)
    requires Admissible(j, actions)
    decreases |actions|
  {
    actions != [] ==> Careful(j, actions[0]) && CarefulRun(Apply(j, actions[0]), actions[1..])
  }

  /** In particular an application is careful that answers each SUBSCRIBE before the next packet
      is processed. */
  lemma PromptIsCareful(j: Joint, a: Action)
    requires Enabled(j, a) && (a.ReceiveUp? ==> j.toGrant == {})
    ensures Careful(j, a)
  {
  }

  // ---------- The broker's map and the requests that wait ----------

  /** What each request that waits for its answer would install. */
  ghost function Undecided(waiting: set<PacketId>, table: Table): map<PacketId, Subs> {
    map w | w in waiting :: Requested(table.Get(w))
  }

  /** The requests that wait for their answer name no pattern twice. */
  ghost predicate WaitersDistinct(waiting: set<PacketId>, table: Table) {
    forall w :: w in waiting ==> DistinctlySubscribing(table.Get(w))
  }

  ghost predicate DistinctlySubscribing(entry: Option<Pending>) {
    Subscribing(entry) && DistinctPatterns(entry.value.subscriptions)
  }

  /** The map `g` is the map `subs` together with everything that waits, and no pattern stands in
      two of these maps. */
  ghost predicate MadeOf(g: Subs, subs: Subs, waiting: map<PacketId, Subs>) {
    && (forall t :: t in subs ==> t in g && g[t] == subs[t])
    && (forall w :: w in waiting ==> PartOf(waiting[w], g, subs))
    && Exclusive(waiting)
    && (forall t :: t in g ==> t in subs || exists w :: w in waiting && t in waiting[w])
  }

  /** The map `part` is in `g`, and has no pattern in common with `subs`. */
  ghost predicate PartOf(part: Subs, g: Subs, subs: Subs) {
    forall t :: t in part ==> t in g && g[t] == part[t] && t !in subs
  }

  /** No two requests that wait are for the same pattern. */
  ghost predicate Exclusive(waiting: map<PacketId, Subs>) {
    forall v, w, t :: v in waiting && w in waiting && t in waiting[v] && t in waiting[w] ==> v == w
  }

  /** So is the map `g` without the refused patterns. */
  ghost predicate Accounted(g: Subs, refused: set<Text>, subs: Subs, waiting: map<PacketId, Subs>) {
    refused <= g.Keys && MadeOf(g - refused, subs, waiting)
  }

  ghost predicate Accounts(g: Subs, refused: set<Text>, j: Joint) {
    && WaitersDistinct(j.toGrant, j.broker.table)
    && Accounted(g, refused, j.broker.subscriptions, Undecided(j.toGrant, j.broker.table))
  }

  lemma MadeOfSubs(g: Subs, subs: Subs)
    requires MadeOf(g, subs, map[])
    ensures g == subs
  {
  }

  lemma ExclusiveLess(waiting: map<PacketId, Subs>, w: PacketId)
    requires Exclusive(waiting)
    ensures Exclusive(waiting - {w})
  {
  }

  lemma ExclusiveMore(waiting: map<PacketId, Subs>, k: PacketId, wanted: Subs)
    requires Exclusive(waiting) && k !in waiting
    requires forall w, t :: w in waiting && t in waiting[w] ==> t !in wanted
    ensures Exclusive(waiting[k := wanted])
  {
  }

  /** What another request would install stays out of the broker's map. */
  lemma StaysPart(part: Subs, answered: Subs, g: Subs, subs: Subs, refused: set<Text>)
    requires PartOf(part, g, subs) && refused <= answered.Keys && forall t :: t in part ==> t !in answered
    ensures PartOf(part, g - refused, subs + (answered - refused))
  {
  }

  /** An answer moves the subscriptions of a request from those that wait to the broker's map, without
      those it refuses. */
  lemma AnswerMoves(g: Subs, subs: Subs, waiting: map<PacketId, Subs>, w: PacketId, refused: set<Text>)
    requires MadeOf(g, subs, waiting) && w in waiting && refused <= waiting[w].Keys
    ensures refused <= g.Keys && MadeOf(g - refused, subs + (waiting[w] - refused), waiting - {w})
  {
    ExclusiveLess(waiting, w);
    assert PartOf(waiting[w], g, subs);
    var subs', waiting' := subs + (waiting[w] - refused), waiting - {w};
    forall v | v in waiting' ensures PartOf(waiting'[v], g - refused, subs') {
      StaysPart(waiting[v], waiting[w], g, subs, refused);
    }
    forall t | t in g - refused ensures t in subs' || exists v :: v in waiting' && t in waiting'[v] {
      if t !in subs' {
        var v :| v in waiting && t in waiting[v];
        assert v in waiting' && t in waiting'[v];
      }
    }
  }

  lemma AnswerAccounted(g: Subs, refused: set<Text>, subs: Subs, waiting: map<PacketId, Subs>, w: PacketId,
                        more: set<Text>)
    requires Accounted(g, refused, subs, waiting) && w in waiting && more <= waiting[w].Keys
    ensures Accounted(g, refused + more, subs + (waiting[w] - more), waiting - {w})
  {
    AnswerMoves(g - refused, subs, waiting, w, more);
    assert (g - refused) - more == g - (refused + more);
  }

  /** A SUBSCRIBE of new patterns joins the requests that wait. */
  lemma SubscribeWaits(g: Subs, subs: Subs, waiting: map<PacketId, Subs>, k: PacketId, wanted: Subs)
    requires MadeOf(g, subs, waiting) && k !in waiting && forall t :: t in wanted ==> t !in g
    ensures MadeOf(g + wanted, subs, waiting[k := wanted])
  {
    var waiting' := waiting[k := wanted];
    ExclusiveMore(waiting, k, wanted);
    forall w | w in waiting' ensures PartOf(waiting'[w], g + wanted, subs) {
      assert w != k ==> PartOf(waiting[w], g, subs);
    }
    forall t | t in g + wanted ensures t in subs || exists w :: w in waiting' && t in waiting'[w] {
      if t in wanted {
        assert k in waiting' && t in waiting'[k];
      } else if t !in subs {
        var w :| w in waiting && t in waiting[w];
        assert w in waiting' && t in waiting'[w];
      }
    }
  }

  lemma SubscribeAccounted(g: Subs, refused: set<Text>, subs: Subs, waiting: map<PacketId, Subs>, k: PacketId,
                           wanted: Subs)
    requires Accounted(g, refused, subs, waiting) && k !in waiting && forall t :: t in wanted ==> t !in g
    ensures Accounted(g + wanted, refused, subs, waiting[k := wanted])
  {
    SubscribeWaits(g - refused, subs, waiting, k, wanted);
    assert (g + wanted) - refused == (g - refused) + wanted;
  }

  /** An UNSUBSCRIBE of patterns that no waiting request names. */
  lemma UnsubscribeTakes(g: Subs, subs: Subs, waiting: map<PacketId, Subs>, patterns: set<Text>)
    requires MadeOf(g, subs, waiting)
    requires forall w, t :: w in waiting && t in patterns ==> t !in waiting[w]
    ensures MadeOf(g - patterns, subs - patterns, waiting)
  {
  }

  lemma UnsubscribeAccounted(g: Subs, refused: set<Text>, subs: Subs, waiting: map<PacketId, Subs>,
                             patterns: set<Text>)
    requires Accounted(g, refused, subs, waiting)
    requires forall w, t :: w in waiting && t in patterns ==> t !in waiting[w]
    ensures Accounted(g - patterns, refused - patterns, subs - patterns, waiting)
  {
    UnsubscribeTakes(g - refused, subs, waiting, patterns);
    assert (g - patterns) - (refused - patterns) == (g - refused) - patterns;
  }

  // ---------- One step at the broker ----------

  /** Handling a packet of another packet id leaves the waiting requests alone. */
  lemma WaitersStay(waiting: set<PacketId>, t: Table, t': Table, k: PacketId)
    requires k !in waiting && TablesElsewhere(t, t', k)
    ensures Undecided(waiting, t') == Undecided(waiting, t)
    ensures WaitersDistinct(waiting, t) ==> WaitersDistinct(waiting, t')
  {
    forall w | w in waiting ensures t'.Get(w) == t.Get(w) {
    }
  }

  /** One that has been answered leaves the others. */
  lemma OneLessWaits(waiting: set<PacketId>, t: Table, t': Table, k: PacketId)
    requires TablesElsewhere(t, t', k)
    ensures Undecided(waiting - {k}, t') == Undecided(waiting, t) - {k}
    ensures WaitersDistinct(waiting, t) ==> WaitersDistinct(waiting - {k}, t')
  {
    forall w | w in waiting - {k} ensures t'.Get(w) == t.Get(w) {
    }
  }

  /** A request under another packet id begins to wait. */
  lemma OneMoreWaits(waiting: set<PacketId>, t: Table, t': Table, k: PacketId, requested: seq<Subscription>)
    requires k !in waiting && TablesElsewhere(t, t', k) && t'.Get(k) == Some(SubscribeEntry(requested))
    ensures Undecided(waiting + {k}, t') == Undecided(waiting, t)[k := InstallAll(map[], requested)]
    ensures WaitersDistinct(waiting, t) && DistinctPatterns(requested) ==> WaitersDistinct(waiting + {k}, t')
  {
    forall w | w in waiting ensures t'.Get(w) == t.Get(w) {
    }
  }

  /** The refused patterns after a step: an answer adds to them, an UNSUBSCRIBE takes from them. */
  ghost function NextRefused(refused: set<Text>, j: Joint, a: Action): set<Text>
    requires Enabled(j, a)
  {
    if a.AppGrants? then refused + RefusedBy(j.broker.table.items[a.id].subscriptions, a.codes)
    else if a.ReceiveUp? && j.up[0].UnsubscribePacket? then refused - (set t | t in j.up[0].patterns)
    else refused
  }

  lemma AnswerTables(s: Session, a: Action)
    requires a.AppAcknowledges? || a.AppReleases? || a.AppCompletes?
    ensures var o := match a
                     case AppAcknowledges(id, reason) => AcknowledgePublish(s, id, reason)
                     case AppReleases(id) => ReleasePublish(s, id, SUCCESS)
                     case _ => CompletePublish(s, a.id, SUCCESS);
            o.session.subscriptions == s.subscriptions && TablesElsewhere(s.table, o.session.table, a.id)
  {
  }

  lemma NotWaiting(j: Joint, id: PacketId)
    requires LegalAll(j) && (id in j.toAcknowledge || id in j.toRelease || id in j.toComplete)
    ensures id !in j.toGrant
  {
    var phase := PhaseAt(j, id);
  }

  lemma AnswerKeeps(g: Subs, refused: set<Text>, j: Joint, a: Action)
    requires Inv(j) && Enabled(j, a) && Accounts(g, refused, j)
    requires a.AppAcknowledges? || a.AppReleases? || a.AppCompletes?
    ensures Accounts(g, refused, Apply(j, a))
  {
    AnswerTables(j.broker, a);
    NotWaiting(j, a.id);
    WaitersStay(j.toGrant, j.broker.table, Apply(j, a).broker.table, a.id);
  }

  lemma DeliverTables(s: Session, source: Text, p: Publish)
    ensures var s' := DeliverPublish(s, source, p).session;
            && s'.subscriptions == s.subscriptions
            && forall id :: s.table.Has(id) ==> s'.table.Get(id) == s.table.Get(id)
  {
  }

  lemma DeliverKeeps(g: Subs, refused: set<Text>, j: Joint, a: Action)
    requires Inv(j) && Enabled(j, a) && Accounts(g, refused, j) && a.BrokerDelivers?
    ensures Accounts(g, refused, Apply(j, a))
  {
    DeliverTables(j.broker, a.source, a.publish);
    var t, t' := j.broker.table, Apply(j, a).broker.table;
    forall w | w in j.toGrant ensures t'.Get(w) == t.Get(w) {
      assert DistinctlySubscribing(t.Get(w)) && t.Has(w);
    }
    assert Undecided(j.toGrant, t') == Undecided(j.toGrant, t);
  }

  lemma GrantKeeps(g: Subs, refused: set<Text>, j: Joint, a: Action)
    requires Inv(j) && Enabled(j, a) && Accounts(g, refused, j) && a.AppGrants?
    ensures Accounts(g, NextRefused(refused, j, a), Apply(j, a))
  {
    var s, s', w := j.broker, Apply(j, a).broker, a.id;
    var requested := s.table.items[w].subscriptions;
    assert DistinctlySubscribing(s.table.Get(w));
    BrokerGrants(s, a.codes, w);
    InstallMeans(s.subscriptions, requested, a.codes);
    RefusedAmong(requested, a.codes);
    OneLessWaits(j.toGrant, s.table, s'.table, w);
    var more := RefusedBy(requested, a.codes);
    AnswerAccounted(g, refused, s.subscriptions, Undecided(j.toGrant, s.table), w, more);
  }

  /** Only the two requests concern the map. */
  lemma OthersKeep(s: Session, p: Packet)
    requires p.PublishPacket? || p.AckPacket? || p.CodesPacket?
    ensures var o := HandlePacket(s, p);
            && o.session.subscriptions == s.subscriptions
            && (forall q :: q in o.sent ==> !q.SubscribePacket? && !q.UnsubscribePacket?)
  {
  }

  lemma RequestsChange(s: Session, p: Packet)
    requires s.role == BrokerRole && s.state == Connected
    requires p.SubscribePacket? || p.UnsubscribePacket?
    requires !s.table.Has(p.packetId)
    ensures var s' := HandlePacket(s, p).session;
            && (p.SubscribePacket? ==>
                  && s'.subscriptions == s.subscriptions
                  && s'.table.Get(p.packetId) == Some(SubscribeEntry(p.subscriptions)))
            && (p.UnsubscribePacket? ==> s'.subscriptions == RemoveAll(s.subscriptions, p.patterns))
            && TablesElsewhere(s.table, s'.table, p.packetId)
  {
  }

  lemma SettledRequest(p: Packet)
    ensures p.SubscribePacket? ==>
              && Settled(p).SubscribePacket? && Settled(p).subscriptions == p.subscriptions
              && Settled(p).packetId == p.packetId
    ensures p.UnsubscribePacket? ==>
              Settled(p).UnsubscribePacket? && Settled(p).patterns == p.patterns && Settled(p).packetId == p.packetId
    ensures p.PublishPacket? || p.AckPacket? || p.CodesPacket? ==>
              Settled(p).PublishPacket? || Settled(p).AckPacket? || Settled(p).CodesPacket?
  {
  }

  /** The patterns of a SUBSCRIBE are new to the map, and different. */
  ghost predicate AllNew(g: Subs, p: Packet) {
    p.SubscribePacket? ==>
      DistinctPatterns(p.subscriptions) && forall sub :: sub in p.subscriptions ==> sub.pattern !in g
  }

  lemma ReceiveSubscribe(g: Subs, refused: set<Text>, j: Joint)
    requires Inv(j) && j.up != [] && j.up[0].SubscribePacket? && Accounts(g, refused, j) && AllNew(g, j.up[0])
    ensures Accounts(Replay1(g, j.up[0]), NextRefused(refused, j, ReceiveUp), Apply(j, ReceiveUp))
  {
    var p, s, s' := j.up[0], j.broker, Apply(j, ReceiveUp).broker;
    var k := ArrivingRequest(j);
    OneMoreWaits(j.toGrant, s.table, s'.table, k, p.subscriptions);
    InstallAllMeans(g, p.subscriptions);
    InstallAllKeys(p.subscriptions);
    SubscribeAccounted(g, refused, s.subscriptions, Undecided(j.toGrant, s.table), k,
                       InstallAll(map[], p.subscriptions));
  }

  /** A request that reaches the broker finds its packet id free. */
  lemma ArrivingRequest(j: Joint) returns (k: PacketId)
    requires Inv(j) && j.up != [] && (j.up[0].SubscribePacket? || j.up[0].UnsubscribePacket?)
    ensures var p, after := j.up[0], Apply(j, ReceiveUp);
            && k == p.packetId && k !in j.toGrant
            && TablesElsewhere(j.broker.table, after.broker.table, k)
            && (p.SubscribePacket? ==>
                  && after.toGrant == j.toGrant + {k}
                  && after.broker.subscriptions == j.broker.subscriptions
                  && after.broker.table.Get(k) == Some(SubscribeEntry(p.subscriptions)))
            && (p.UnsubscribePacket? ==>
                  && after.toGrant == j.toGrant
                  && after.broker.subscriptions == RemoveAll(j.broker.subscriptions, p.patterns))
  {
    var phase;
    k, phase := PhaseUp(j);
    SettledRequest(j.up[0]);
    RequestsChange(j.broker, Settled(j.up[0]));
  }

  lemma ReceiveUnsubscribe(g: Subs, refused: set<Text>, j: Joint)
    requires Inv(j) && j.up != [] && j.up[0].UnsubscribePacket? && Careful(j, ReceiveUp) && Accounts(g, refused, j)
    ensures Accounts(Replay1(g, j.up[0]), NextRefused(refused, j, ReceiveUp), Apply(j, ReceiveUp))
  {
    var p, s, s' := j.up[0], j.broker, Apply(j, ReceiveUp).broker;
    var k := ArrivingRequest(j);
    WaitersStay(j.toGrant, s.table, s'.table, k);
    RemoveAllMeans(g, p.patterns);
    RemoveAllMeans(s.subscriptions, p.patterns);
    UnsubscribeAccounted(g, refused, s.subscriptions, Undecided(j.toGrant, s.table), set t | t in p.patterns);
  }

  lemma ArrivingIsNotWaiting(j: Joint, k: PacketId)
    requires LegalAll(j) && j.up != [] && IdOf(j.up[0]) == Some(k)
    ensures k !in j.toGrant
  {
    var id, phase := PhaseUp(j);
  }

  lemma OthersElsewhere(s: Session, p: Packet, k: PacketId)
    requires s.role == BrokerRole && s.state == Connected
    requires (p.PublishPacket? || p.AckPacket? || p.CodesPacket?) && IdOf(p) == Some(k)
    ensures TablesElsewhere(s.table, HandlePacket(s, p).session.table, k)
  {
  }

  lemma OthersQuiet(s: Session, p: Packet)
    requires p.PublishPacket? && IdOf(p).None?
    ensures HandlePacket(s, p).session == s
  {
  }

  lemma ReceiveOther(g: Subs, refused: set<Text>, j: Joint)
    requires Inv(j) && j.up != [] && !j.up[0].SubscribePacket? && !j.up[0].UnsubscribePacket?
    requires Accounts(g, refused, j)
    ensures Accounts(g, refused, Apply(j, ReceiveUp))
  {
    var p, s, s' := j.up[0], j.broker, Apply(j, ReceiveUp).broker;
    assert p in j.up;
    SettledRequest(p);
    SettledId(p);
    OthersKeep(s, Settled(p));
    assert j.toGrant + {} == j.toGrant;
    if IdOf(p).Some? {
      ArrivingIsNotWaiting(j, IdOf(p).value);
      OthersElsewhere(s, Settled(p), IdOf(p).value);
      WaitersStay(j.toGrant, s.table, s'.table, IdOf(p).value);
    } else {
      OthersQuiet(s, Settled(p));
    }
  }

  /** The map that the packets delivered so far make. */
  ghost function Next(g: Subs, j: Joint, a: Action): Subs
    requires Enabled(j, a)
  {
    if a.ReceiveUp? then Replay1(g, j.up[0]) else g
  }

  /** In a careful step the account changes exactly when a packet reaches the broker, by
      replaying it. */
  lemma AccountStep(g: Subs, refused: set<Text>, j: Joint, a: Action)
    requires Inv(j) && Enabled(j, a) && Careful(j, a) && Accounts(g, refused, j)
    requires a.ReceiveUp? ==> AllNew(g, j.up[0])
    ensures Accounts(Next(g, j, a), NextRefused(refused, j, a), Apply(j, a))
  {
    match a
    case BrokerDelivers(_, _) => DeliverKeeps(g, refused, j, a);
    case ReceiveUp =>
      if j.up[0].SubscribePacket? {
        ReceiveSubscribe(g, refused, j);
      } else if j.up[0].UnsubscribePacket? {
        ReceiveUnsubscribe(g, refused, j);
      } else {
        ReceiveOther(g, refused, j);
      }
    case AppAcknowledges(_, _) => AnswerKeeps(g, refused, j, a);
    case AppReleases(_) => AnswerKeeps(g, refused, j, a);
    case AppCompletes(_) => AnswerKeeps(g, refused, j, a);
    case AppGrants(_, _) => GrantKeeps(g, refused, j, a);
    case _ =>
  }

  // ---------- One step at the client ----------

  /** Each SUBSCRIBE among the packets finds its patterns new, when its turn comes. */
  ghost predicate NewInTurn(g: Subs, ps: seq<Packet>)
    decreases |ps|
  {
    ps != [] ==> AllNew(g, ps[0]) && NewInTurn(Replay1(g, ps[0]), ps[1..])
  }

  lemma {:induction false} NewInTurnAppend(g: Subs, ps: seq<Packet>, p: Packet)
    requires NewInTurn(g, ps) && AllNew(Replay(g, ps), p)
    ensures NewInTurn(g, ps + [p])
    decreases |ps|
  {
    if ps == [] {
      assert ps + [p] == [p] && [p][1..] == [];
    } else {
      assert (ps + [p])[1..] == ps[1..] + [p];
      NewInTurnAppend(Replay1(g, ps[0]), ps[1..], p);
    }
  }

  /** The client's map is what the packets on the way up will make of the map `g`. */
  ghost predicate Ahead(g: Subs, j: Joint) {
    Replay(g, j.up) == j.client.subscriptions && NewInTurn(g, j.up)
  }

  lemma {:induction false} SentQuietly(g: Subs, up: seq<Packet>, sent: seq<Packet>)
    requires forall p :: p in sent ==> !p.SubscribePacket? && !p.UnsubscribePacket?
    requires NewInTurn(g, up)
    ensures Replay(g, up + sent) == Replay(g, up) && NewInTurn(g, up + sent)
    decreases |sent|
  {
    if sent == [] {
      assert up + sent == up;
    } else {
      assert sent[0] in sent;
      ReplayOne(g, up, sent[0]);
      NewInTurnAppend(g, up, sent[0]);
      assert up + sent == up + [sent[0]] + sent[1..];
      SentQuietly(g, up + [sent[0]], sent[1..]);
    }
  }

  lemma SubscribeSends(s: Session, requested: seq<Subscription>)
    requires s.state == Connected && s.nextId != 0
    requires ClientSubscribe(s, requested).session.nextId != s.nextId ==> !s.table.Has(s.nextId)
    requires forall sub :: sub in requested ==> SubscriptionOk(sub)
    ensures OneRequest(s, ClientSubscribe(s, requested))
  {
    NextIdPositive(s.nextId);
    CountUpInstalls(s.subscriptions, s.counts, requested);
    CountUpFresh(s.subscriptions, s.counts, requested);
    CountUpNew(s.subscriptions, s.counts, requested);
  }

  /** A call sends nothing and keeps the map, or sends one request that says what changes. */
  ghost predicate OneRequest(s: Session, o: Outcome) {
    if o.sent == [] then o.session.subscriptions == s.subscriptions
    else
      && |o.sent| == 1 && o.session.subscriptions == Replay1(s.subscriptions, o.sent[0])
      && AllNew(s.subscriptions, o.sent[0])
  }

  lemma UnsubscribeSends(s: Session, patterns: seq<Text>)
    requires s.state == Connected && s.nextId != 0 && CountsAgree(s.subscriptions, s.counts)
    requires ClientUnsubscribe(s, patterns).session.nextId != s.nextId ==> !s.table.Has(s.nextId)
    requires forall t :: t in patterns ==> TextFits(t)
    ensures OneRequest(s, ClientUnsubscribe(s, patterns))
  {
    NextIdPositive(s.nextId);
    CountDownOk(s.subscriptions, s.counts, patterns);
    CountDownRemoves(s.subscriptions, s.counts, patterns);
    CountDownGone(s.subscriptions, s.counts, patterns);
  }

  lemma SentAhead(g: Subs, up: seq<Packet>, s: Session, o: Outcome)
    requires Replay(g, up) == s.subscriptions && NewInTurn(g, up) && OneRequest(s, o)
    ensures Replay(g, up + o.sent) == o.session.subscriptions && NewInTurn(g, up + o.sent)
  {
    if o.sent == [] {
      assert up + o.sent == up;
    } else {
      assert o.sent == [o.sent[0]];
      ReplayOne(g, up, o.sent[0]);
      NewInTurnAppend(g, up, o.sent[0]);
    }
  }

  lemma RequestAhead(g: Subs, j: Joint, a: Action)
    requires Inv(j) && Enabled(j, a) && Ahead(g, j)
    requires a.ClientSubscribes? || a.ClientUnsubscribes?
    ensures Ahead(g, Apply(j, a))
  {
    if a.ClientSubscribes? {
      SubscribeSends(j.client, a.requested);
    } else {
      UnsubscribeSends(j.client, a.patterns);
    }
    SentAhead(g, j.up, j.client, OutcomeOf(j, a));
  }

  lemma ClientKeeps(g: Subs, j: Joint, a: Action)
    requires Inv(j) && Enabled(j, a) && Ahead(g, j) && (a.ClientPublishes? || a.ReceiveDown?)
    ensures Ahead(g, Apply(j, a))
  {
    if a.ReceiveDown? {
      var p := j.down[0];
      assert p in j.down;
      SettledRequest(p);
      if p.SubscribePacket? || p.UnsubscribePacket? {
        var _, phase := PhaseDown(j);
        assert false;
      }
      OthersKeep(j.client, Settled(p));
    }
    SentQuietly(g, j.up, OutcomeOf(j, a).sent);
  }

  lemma AheadStep(g: Subs, j: Joint, a: Action)
    requires Inv(j) && Enabled(j, a) && Ahead(g, j)
    ensures Ahead(Next(g, j, a), Apply(j, a))
  {
    if a.ClientSubscribes? || a.ClientUnsubscribes? {
      RequestAhead(g, j, a);
    } else if a.ClientPublishes? || a.ReceiveDown? {
      ClientKeeps(g, j, a);
    }
  }

  // ---------- Whole runs ----------

  /** The packets that reach the broker in a run. */
  ghost function Arrived(j: Joint, actions: seq<Action>): seq<Packet>
    requires Admissible(j, actions)
    decreases |actions|
  {
    if actions == [] then []
    else
      (if actions[0].ReceiveUp? then [j.up[0]] else []) + Arrived(Apply(j, actions[0]), actions[1..])
  }

  /** The patterns that answers have refused in a run and that no UNSUBSCRIBE has named since. */
  ghost function RefusedIn(refused: set<Text>, j: Joint, actions: seq<Action>): set<Text>
    requires Admissible(j, actions)
    decreases |actions|
  {
    if actions == [] then refused
    else RefusedIn(NextRefused(refused, j, actions[0]), Apply(j, actions[0]), actions[1..])
  }

  lemma {:induction false} AgreementRun(g: Subs, refused: set<Text>, j: Joint, actions: seq<Action>)
    requires Inv(j) && Accounts(g, refused, j) && Ahead(g, j)
    requires Admissible(j, actions) && CarefulRun(j, actions)
    ensures var r, g' := Run(j, actions), Replay(g, Arrived(j, actions));
            Accounts(g', RefusedIn(refused, j, actions), r) && Ahead(g', r)
    decreases |actions|
  {
    if actions != [] {
      var a := actions[0];
      var next := Apply(j, a);
      Step(j, a);
      AccountStep(g, refused, j, a);
      AheadStep(g, j, a);
      AgreementRun(Next(g, j, a), NextRefused(refused, j, a), next, actions[1..]);
      var tail := Arrived(next, actions[1..]);
      if a.ReceiveUp? {
        assert ([j.up[0]] + tail)[1..] == tail;
      } else {
        assert [] + tail == tail;
      }
    }
  }

  /** In every careful run, and whenever no SUBSCRIBE waits, the broker's map is the replay of the
      packets that have reached it, without the patterns that answers have refused and that have not
      been given up since. If no request is on its way, the client's map differs from it by just
      these patterns; so the two are equal, options included, if and only if there are none. */
  lemma SubscriptionAgreement(j: Joint, actions: seq<Action>)
    requires Initial(j) && j.client.subscriptions == j.broker.subscriptions == map[]
    requires Admissible(j, actions) && CarefulRun(j, actions)
    ensures var r, refused := Run(j, actions), RefusedIn({}, j, actions);
            r.toGrant == {} ==>
              && r.broker.subscriptions == Replay(map[], Arrived(j, actions)) - refused
              && ((forall p :: p in r.up ==> !p.SubscribePacket? && !p.UnsubscribePacket?) ==>
                    && r.broker.subscriptions == r.client.subscriptions - refused
                    && (r.broker.subscriptions == r.client.subscriptions <==> refused == {}))
  {
    InitialInv(j);
    AgreementRun(map[], {}, j, actions);
    var r, g, refused := Run(j, actions), Replay(map[], Arrived(j, actions)), RefusedIn({}, j, actions);
    if r.toGrant == {} {
      assert Undecided(r.toGrant, r.broker.table) == map[];
      MadeOfSubs(g - refused, r.broker.subscriptions);
      if forall p :: p in r.up ==> !p.SubscribePacket? && !p.UnsubscribePacket? {
        ReplayQuiet(g, r.up);
        if t :| t in refused {
          assert t in r.client.subscriptions && t !in r.broker.subscriptions;
        } else {
          assert g - refused == g;
        }
      }
    }
  }

  // ---------- An answer that comes late ----------

  /** Removing patterns before subscriptions are installed comes to the same as removing them
      after if and only if none of the subscriptions is for one of the patterns. */
  lemma LateInstall(subs: Subs, requested: seq<Subscription>, patterns: seq<Text>)
    ensures InstallAll(RemoveAll(subs, patterns), requested) == RemoveAll(InstallAll(subs, requested), patterns)
       <==> forall t :: t in patterns ==> t !in InstallAll(map[], requested)
  {
    var early := RemoveAll(InstallAll(subs, requested), patterns);
    var late := InstallAll(RemoveAll(subs, patterns), requested);
    InstallAllMeans(subs, requested);
    InstallAllMeans(RemoveAll(subs, patterns), requested);
    RemoveAllMeans(subs, patterns);
    RemoveAllMeans(InstallAll(subs, requested), patterns);
    if t :| t in patterns && t in InstallAll(map[], requested) {
      assert t in late && t !in early;
    } else {
      assert late == early;
    }
  }

  /** What a client puts on its way while it is connected. */
  predicate FromClient(p: Packet) {
    p.PublishPacket? || p.AckPacket? || p.SubscribePacket? || p.UnsubscribePacket?
  }

  /** The broker handles the packet, raises nothing, and finds the packet id of a request free. */
  predicate Processed(s: Session, p: Packet) {
    && FromClient(p) && HandlePacket(s, p).status == Done
    && (p.SubscribePacket? || p.UnsubscribePacket? ==> !s.table.Has(p.packetId))
  }

  /** So for all the packets, one after the other. */
  predicate AllProcessed(s: Session, ps: seq<Packet>)
    decreases |ps|
  {
    ps != [] ==> Processed(s, ps[0]) && AllProcessed(HandlePacket(s, ps[0]).session, ps[1..])
  }

  function AfterAll(s: Session, ps: seq<Packet>): Session
    decreases |ps|
  {
    if ps == [] then s else AfterAll(HandlePacket(s, ps[0]).session, ps[1..])
  }

  /** The patterns of all UNSUBSCRIBE requests among the packets. */
  function Unsubscribed(ps: seq<Packet>): seq<Text> {
    if ps == [] then []
    else (if ps[0].UnsubscribePacket? then ps[0].patterns else []) + Unsubscribed(ps[1..])
  }

  lemma RemoveTwice(subs: Subs, a: seq<Text>, b: seq<Text>)
    ensures RemoveAll(subs, a + b) == RemoveAll(RemoveAll(subs, a), b)
  {
    RemoveAllMeans(subs, a + b);
    RemoveAllMeans(subs, a);
    RemoveAllMeans(RemoveAll(subs, a), b);
  }

  lemma BrokerStays(s: Session, p: Packet)
    requires s.role == BrokerRole && s.state == Connected && Processed(s, p)
    ensures var s' := HandlePacket(s, p).session;
            && s'.role == BrokerRole && s'.state == Connected
            && s'.subscriptions
               == if p.UnsubscribePacket? then RemoveAll(s.subscriptions, p.patterns) else s.subscriptions
  {
  }

  lemma WaiterStays(s: Session, p: Packet, w: PacketId)
    requires s.role == BrokerRole && s.state == Connected && Subscribing(s.table.Get(w)) && Processed(s, p)
    ensures HandlePacket(s, p).session.table.Get(w) == s.table.Get(w)
  {
  }

  lemma {:induction false} BrokerTakesAll(s: Session, ps: seq<Packet>, w: PacketId)
    requires s.role == BrokerRole && s.state == Connected && Subscribing(s.table.Get(w)) && AllProcessed(s, ps)
    ensures var s' := AfterAll(s, ps);
            && s'.state == Connected && s'.table.Get(w) == s.table.Get(w)
            && s'.subscriptions == RemoveAll(s.subscriptions, Unsubscribed(ps))
    decreases |ps|
  {
    if ps != [] {
      BrokerStays(s, ps[0]);
      WaiterStays(s, ps[0], w);
      BrokerTakesAll(HandlePacket(s, ps[0]).session, ps[1..], w);
      var patterns := if ps[0].UnsubscribePacket? then ps[0].patterns else [];
      RemoveTwice(s.subscriptions, patterns, Unsubscribed(ps[1..]));
    }
  }

  /** Two sessions that differ only in the entry of one packet id and in their maps. */
  predicate SameBut(a: Session, b: Session, w: PacketId) {
    && a.role == b.role == BrokerRole && a.state == b.state == Connected
    && forall k: PacketId :: k != w ==> a.table.Get(k) == b.table.Get(k)
  }

  /** What happens to a packet depends on the entry under its packet id alone. */
  lemma SameEntrySameStep(a: Session, b: Session, p: Packet, k: PacketId)
    requires a.role == b.role == BrokerRole && a.state == b.state == Connected
    requires FromClient(p) && IdOf(p) == Some(k) && a.table.Get(k) == b.table.Get(k)
    ensures var a', b' := HandlePacket(a, p), HandlePacket(b, p);
            a'.status == b'.status && a'.session.table.Get(k) == b'.session.table.Get(k)
  {
    assert (a.table.Has(k) <==> a.table.Get(k).Some?) && (b.table.Has(k) <==> b.table.Get(k).Some?);
  }

  /** A request that is taken in while a SUBSCRIBE waits under the packet id can only be a message. */
  lemma OnlyMessages(s: Session, p: Packet, w: PacketId)
    requires s.role == BrokerRole && s.state == Connected && Subscribing(s.table.Get(w))
    requires Processed(s, p) && IdOf(p) == Some(w)
    ensures p.PublishPacket?
  {
  }

  lemma TakenElsewhere(s: Session, p: Packet, k: PacketId)
    requires s.role == BrokerRole && s.state == Connected && Processed(s, p) && IdOf(p) == Some(k)
    ensures TablesElsewhere(s.table, HandlePacket(s, p).session.table, k)
  {
    if p.PublishPacket? || p.AckPacket? {
      OthersElsewhere(s, p, k);
    } else {
      RequestsChange(s, p);
    }
  }

  /** A message is taken in under any packet id, and leaves the map alone. */
  lemma MessageTaken(s: Session, p: Packet)
    requires s.role == BrokerRole && s.state == Connected && p.PublishPacket?
    ensures Processed(s, p)
    ensures var s' := HandlePacket(s, p).session;
            && s'.role == BrokerRole && s'.state == Connected && s'.subscriptions == s.subscriptions
            && (IdOf(p).None? ==> s' == s)
            && forall k :: !Subscribing(s.table.Get(k)) ==> !Subscribing(s'.table.Get(k))
  {
  }

  /** What a session with a SUBSCRIBE waiting takes in, one without it takes in as well, and both
      maps change alike. */
  lemma BothTake(a: Session, b: Session, p: Packet, w: PacketId)
    requires SameBut(a, b, w) && Subscribing(a.table.Get(w)) && !Subscribing(b.table.Get(w)) && Processed(a, p)
    ensures Processed(b, p)
    ensures var a', b' := HandlePacket(a, p).session, HandlePacket(b, p).session;
            && SameBut(a', b', w) && Subscribing(a'.table.Get(w)) && !Subscribing(b'.table.Get(w))
            && b'.subscriptions
               == if p.UnsubscribePacket? then RemoveAll(b.subscriptions, p.patterns) else b.subscriptions
  {
    BrokerStays(a, p);
    WaiterStays(a, p, w);
    if p.PublishPacket? {
      MessageTaken(b, p);
    }
    if IdOf(p).Some? {
      var k := IdOf(p).value;
      if k == w {
        OnlyMessages(a, p, w);
      } else {
        assert a.table.Get(k) == b.table.Get(k) && (a.table.Has(k) <==> a.table.Get(k).Some?);
        SameEntrySameStep(a, b, p, k);
      }
      BrokerStays(b, p);
      TakenElsewhere(a, p, k);
      TakenElsewhere(b, p, k);
    }
  }

  lemma {:induction false} BothTakeAll(a: Session, b: Session, ps: seq<Packet>, w: PacketId)
    requires SameBut(a, b, w) && Subscribing(a.table.Get(w)) && !Subscribing(b.table.Get(w)) && AllProcessed(a, ps)
    ensures AllProcessed(b, ps)
    ensures AfterAll(b, ps).subscriptions == RemoveAll(b.subscriptions, Unsubscribed(ps))
    decreases |ps|
  {
    if ps != [] {
      BothTake(a, b, ps[0], w);
      BothTakeAll(HandlePacket(a, ps[0]).session, HandlePacket(b, ps[0]).session, ps[1..], w);
      var patterns := if ps[0].UnsubscribePacket? then ps[0].patterns else [];
      RemoveTwice(b.subscriptions, patterns, Unsubscribed(ps[1..]));
    }
  }

  /** A SUBSCRIBE that is granted only after other packets have been processed leaves the broker
      with the map it would have had if granted before them, if and only if no UNSUBSCRIBE among these
      packets names one of its patterns. Granting first raises nothing on them either. */
  lemma LateGrant(s: Session, w: PacketId, between: seq<Packet>)
    requires s.role == BrokerRole && s.state == Connected && Subscribing(s.table.Get(w)) && AllProcessed(s, between)
    ensures var all := Repeat(SUCCESS, |s.table.items[w].subscriptions|);
            var late := AcknowledgeSubscribe(AfterAll(s, between), w, all).session;
            var granted := AcknowledgeSubscribe(s, w, all).session;
            && AllProcessed(granted, between)
            && (late.subscriptions == AfterAll(granted, between).subscriptions
                <==> forall t :: t in Unsubscribed(between) ==> t !in Requested(s.table.Get(w)))
  {
    var requested, s' := s.table.items[w].subscriptions, AfterAll(s, between);
    var all := Repeat(SUCCESS, |requested|);
    BrokerTakesAll(s, between, w);
    BrokerGrants(s, all, w);
    BrokerGrants(s', all, w);
    InstallGranted(s.subscriptions, requested);
    InstallGranted(s'.subscriptions, requested);
    LateInstall(s.subscriptions, requested, Unsubscribed(between));
    BothTakeAll(s, AcknowledgeSubscribe(s, w, all).session, between, w);
  }

  /** The simplest case of the failure: the broker keeps a subscription that the client has given
      up. */
  lemma LateGrantWitness(s: Session, first: PacketId, second: PacketId, sub: Subscription)
    requires s.role == BrokerRole && s.state == Connected
    requires first != second && !s.table.Has(first) && !s.table.Has(second)
    ensures var p, q := SubscribePacket(first, [sub], NO_PROPS), UnsubscribePacket(second, [sub.pattern], NO_PROPS);
            var late := AcknowledgeSubscribe(AfterAll(s, [p, q]), first, [SUCCESS]).session;
            sub.pattern in late.subscriptions && sub.pattern !in Replay(s.subscriptions, [p, q])
  {
    var p, q := SubscribePacket(first, [sub], NO_PROPS), UnsubscribePacket(second, [sub.pattern], NO_PROPS);
    RequestsChange(s, p);
    var s1 := HandlePacket(s, p).session;
    RequestsChange(s1, q);
    var s2 := HandlePacket(s1, q).session;
    assert [p, q][1..] == [q] && [q][1..] == [];
    assert AfterAll(s, [p, q]) == AfterAll(s1, [q]) == AfterAll(s2, []) == s2;
    assert s2.table.Get(first) == Some(SubscribeEntry([sub]));
    assert Install(s2.subscriptions, [sub], [SUCCESS]) == s2.subscriptions[sub.pattern := sub];
    assert [p, q] == [p] + [q];
    ReplayOne(s.subscriptions, [p], q);
    RemoveAllMeans(Replay(s.subscriptions, [p]), [sub.pattern]);
  }
}
