/** What every reachable state of the replicated event log satisfies. */
module ReplicationSafety {
  import opened Common
  import opened Cluster
  import opened EventBuffer
  import opened Replication

  // ---------------------------------------------------------------- the invariant, part by part

  /** A producer belongs to a router of its session; its last event may still be unentered. */
  ghost predicate ProducersInv(producers: map<SystemId, Producer>, routers: map<RouterId, Router>)
  {
    forall p :: p in producers ==>
      && producers[p].router in routers && routers[producers[p].router].session == producers[p].session
      && producers[p].registered <= |producers[p].sent| <= producers[p].registered + 1
  }

  ghost predicate IdsInv(producers: map<SystemId, Producer>)
  {
    forall p, q, i, j ::
      (p in producers && q in producers && 0 <= i < |producers[p].sent| && 0 <= j < |producers[q].sent|
       && producers[p].sent[i].id == producers[q].sent[j].id) ==> p == q && i == j
  }

  ghost predicate SentAs(l: LocalEvent, producers: map<SystemId, Producer>)
  {
    && l.origin in producers && l.idx < |producers[l.origin].sent|
    && l.event == producers[l.origin].sent[l.idx] && l.session == producers[l.origin].session
  }

  ghost predicate LocalsInv(locals: set<LocalEvent>, producers: map<SystemId, Producer>)
  {
    forall l :: l in locals ==> SentAs(l, producers)
  }

  ghost predicate LoggedAs(g: GlobalEvent, masters: map<Session, Master>)
  {
    && g.origin == g.session.master
    && g.idx < |LogFor(masters, g.session)| && g.event == LogFor(masters, g.session)[g.idx]
  }

  ghost predicate GlobalsInv(globals: set<GlobalEvent>, masters: map<Session, Master>)
  {
    forall g :: g in globals ==> LoggedAs(g, masters)
  }

  /** A router has delivered exactly the first `next` entries of its session's log, numbered. */
  ghost predicate RouterInv(r: Router, log: seq<Event>)
  {
    && Tracks(r.buffer, log) && Settled(r.buffer)
    && r.delivered == Indexed(0, log[..r.buffer.next])
  }

  ghost predicate RoutersInv(routers: map<RouterId, Router>, masters: map<Session, Master>)
  {
    forall r :: r in routers ==> RouterInv(routers[r], LogFor(masters, routers[r].session))
  }

  ghost predicate OutboxInv(routers: map<RouterId, Router>, producers: map<SystemId, Producer>)
  {
    forall r, id :: r in routers && id in routers[r].outbox ==> SentAs(routers[r].outbox[id], producers)
  }

  ghost predicate SourcesInv(s: Session, m: Multi<SystemId, Event>, producers: map<SystemId, Producer>)
  {
    && Listed(m.order, m.buffers.Keys)
    && forall o :: o in m.buffers ==>
         && o in producers && producers[o].session == s
         && Tracks(m.buffers[o], producers[o].sent) && Settled(m.buffers[o])
  }

  /** For origin `o`: the queue holds the last stretch its buffer released, and the log holds
      what everything before that stretch leaves. */
  ghost predicate Accounted(m: Master, o: SystemId, sent: seq<Event>)
    requires |m.log| == |m.origins|
  {
    var next, queued := BufferFor(m.buffers, o).next, PendingOf(m.pending, o);
    && |queued| <= next <= |sent|
    && queued == sent[next - |queued|..next]
    && LogOf(m.log, m.origins, o) == Kept(sent[..next - |queued|])
  }

  ghost predicate MasterInv(s: Session, m: Master, producers: map<SystemId, Producer>)
  {
    && SourcesInv(s, m.buffers, producers)
    && |m.log| == |m.origins| && m.state == Fold(m.log)
    && forall o :: Accounted(m, o, SentBy(producers, o))
  }

  ghost predicate MastersInv(masters: map<Session, Master>, producers: map<SystemId, Producer>)
  {
    forall s :: s in masters ==> MasterInv(s, masters[s], producers)
  }

  ghost predicate InLog(log: seq<Event>, id: EventId)
  {
    exists j :: 0 <= j < |log| && log[j].id == id
  }

  /** An event entered for redelivery is still in its router's outbox or already in the log. */
  ghost predicate DeliveryInv(producers: map<SystemId, Producer>, routers: map<RouterId, Router>,
                              masters: map<Session, Master>)
  {
    forall p, i :: p in producers && 0 <= i < producers[p].registered && i < |producers[p].sent|
                   && producers[p].router in routers ==>
      var id := producers[p].sent[i].id;
      id in routers[producers[p].router].outbox || InLog(LogFor(masters, producers[p].session), id)
  }

  ghost predicate ConsumerInv(c: Consumer, routers: map<RouterId, Router>, masters: map<Session, Master>)
  {
    && c.router in routers && c.applied <= |routers[c.router].delivered|
    && c.applied <= |LogFor(masters, routers[c.router].session)|
    && c.state == Fold(LogFor(masters, routers[c.router].session)[..c.applied])
  }

  ghost predicate ConsumersInv(consumers: map<ConsumerId, Consumer>, routers: map<RouterId, Router>,
                               masters: map<Session, Master>)
  {
    forall c :: c in consumers ==> ConsumerInv(consumers[c], routers, masters)
  }

  ghost predicate Inv(w: World)
  {
    && ProducersInv(w.producers, w.routers)
    && IdsInv(w.producers)
    && LocalsInv(w.locals, w.producers)
    && GlobalsInv(w.globals, w.masters)
    && RoutersInv(w.routers, w.masters)
    && OutboxInv(w.routers, w.producers)
    && MastersInv(w.masters, w.producers)
    && DeliveryInv(w.producers, w.routers, w.masters)
    && ConsumersInv(w.consumers, w.routers, w.masters)
  }

  // ---------------------------------------------------------------- growing logs disturb nobody

  ghost predicate LogsGrow(masters: map<Session, Master>, masters': map<Session, Master>)
  {
    forall s :: LogFor(masters, s) <= LogFor(masters', s)
  }

  lemma GlobalsSurvive(globals: set<GlobalEvent>, masters: map<Session, Master>, masters': map<Session, Master>)
    requires GlobalsInv(globals, masters) && LogsGrow(masters, masters')
    ensures GlobalsInv(globals, masters')
  {
    forall g | g in globals ensures LoggedAs(g, masters') {
      assert LoggedAs(g, masters) && LogFor(masters, g.session) <= LogFor(masters', g.session);
    }
  }

  lemma RoutersSurvive(routers: map<RouterId, Router>, masters: map<Session, Master>, masters': map<Session, Master>)
    requires RoutersInv(routers, masters) && LogsGrow(masters, masters')
    ensures RoutersInv(routers, masters')
  {
    forall r | r in routers ensures RouterInv(routers[r], LogFor(masters', routers[r].session)) {
      var old', new' := LogFor(masters, routers[r].session), LogFor(masters', routers[r].session);
      assert RouterInv(routers[r], old') && old' <= new';
      assert old'[..routers[r].buffer.next] == new'[..routers[r].buffer.next];
    }
  }

  lemma DeliverySurvives(producers: map<SystemId, Producer>, routers: map<RouterId, Router>,
                         masters: map<Session, Master>, masters': map<Session, Master>)
    requires DeliveryInv(producers, routers, masters) && LogsGrow(masters, masters')
    ensures DeliveryInv(producers, routers, masters')
  {
    forall p, i | p in producers && 0 <= i < producers[p].registered && i < |producers[p].sent|
                  && producers[p].router in routers
      ensures var id := producers[p].sent[i].id;
              id in routers[producers[p].router].outbox || InLog(LogFor(masters', producers[p].session), id)
    {
      var id, old', new' := producers[p].sent[i].id, LogFor(masters, producers[p].session), LogFor(masters', producers[p].session);
      assert old' <= new';
      if InLog(old', id) {
        var j :| 0 <= j < |old'| && old'[j].id == id;
        assert new'[j].id == id;
      }
    }
  }

  lemma ConsumersSurvive(consumers: map<ConsumerId, Consumer>, routers: map<RouterId, Router>,
                         masters: map<Session, Master>, masters': map<Session, Master>)
    requires ConsumersInv(consumers, routers, masters) && LogsGrow(masters, masters')
    ensures ConsumersInv(consumers, routers, masters')
  {
    forall c | c in consumers ensures ConsumerInv(consumers[c], routers, masters') {
      var k := consumers[c];
      assert ConsumerInv(k, routers, masters);
      var s := routers[k.router].session;
      assert LogFor(masters, s) <= LogFor(masters', s);
      assert LogFor(masters, s)[..k.applied] == LogFor(masters', s)[..k.applied];
    }
  }

  /** Everything that only reads logs survives when one master's log grows. */
  lemma MasterGrows(w: World, w': World, s: Session, m': Master)
    requires Inv(w) && LogFor(w.masters, s) <= m'.log
    requires w' == w.(masters := w.masters[s := m'], globals := w'.globals)
    ensures GlobalsInv(w.globals, w'.masters) && RoutersInv(w'.routers, w'.masters)
    ensures DeliveryInv(w'.producers, w'.routers, w'.masters)
    ensures ConsumersInv(w'.consumers, w'.routers, w'.masters)
  {
    assert LogsGrow(w.masters, w'.masters);
    GlobalsSurvive(w.globals, w.masters, w'.masters);
    RoutersSurvive(w.routers, w.masters, w'.masters);
    DeliverySurvives(w.producers, w.routers, w.masters, w'.masters);
    ConsumersSurvive(w.consumers, w.routers, w.masters, w'.masters);
  }

  // ---------------------------------------------------------------- steps of a master

  lemma NewAccounted(o: SystemId, sent: seq<Event>)
    ensures Accounted(NEW_MASTER, o, sent)
  {
    assert sent[..0] == [];
  }

  lemma NewMaster(s: Session, producers: map<SystemId, Producer>)
    ensures MasterInv(s, NEW_MASTER, producers)
  {
    forall o ensures Accounted(NEW_MASTER, o, SentBy(producers, o)) {
      NewAccounted(o, SentBy(producers, o));
    }
  }

  lemma MastersSurvive(masters: map<Session, Master>, s: Session, m': Master, producers: map<SystemId, Producer>)
    requires MastersInv(masters, producers) && MasterInv(s, m', producers)
    ensures MastersInv(masters[s := m'], producers)
  {
  }

  lemma StartMasterKeeps(w: World, w': World, s: Session)
    requires Inv(w) && StartMaster(w, w', s)
    ensures Inv(w')
  {
    MasterGrows(w, w', s, NEW_MASTER);
    NewMaster(s, w.producers);
    MastersSurvive(w.masters, s, NEW_MASTER, w.producers);
  }

  lemma ReceivedBuffer(m: Master, l: LocalEvent, producers: map<SystemId, Producer>)
    requires SourcesInv(l.session, m.buffers, producers) && SentAs(l, producers)
    ensures var sent := producers[l.origin].sent;
            var b := BufferFor(m.buffers, l.origin);
            Accepts(b, l.idx, l.event) && Tracks(b, sent) && Tracks(Ingested(b, l.idx, l.event), sent)
  {
    TracksIngest(BufferFor(m.buffers, l.origin), producers[l.origin].sent, l.idx, l.event);
  }

  lemma ReceivedSources(s: Session, m: Master, l: LocalEvent, producers: map<SystemId, Producer>)
    requires SourcesInv(s, m.buffers, producers) && SentAs(l, producers) && l.session == s
    ensures SourcesInv(s, MasterReceives(s, m, l).buffers, producers)
  {
    var b := MultiIngested(m.buffers, l.idx, l.event, l.origin);
    MultiIngestedListed(m.buffers, l.idx, l.event, l.origin);
    ReceivedBuffer(m, l, producers);
    var d := MultiDrained(b);
    assert d.buffers.Keys == b.buffers.Keys;
    forall o | o in d.buffers
      ensures o in producers && producers[o].session == s
              && Tracks(d.buffers[o], producers[o].sent) && Settled(d.buffers[o])
    {
      assert o == l.origin || o in m.buffers.buffers;
      TracksDrain(b.buffers[o], producers[o].sent);
    }
  }

  lemma AccountedAfter(m: Master, m': Master, o: SystemId, sent: seq<Event>)
    requires |m.log| == |m.origins| && m'.log == m.log && m'.origins == m.origins && m.pending == []
    requires Accounted(m, o, sent)
    requires BufferFor(m.buffers, o).next <= BufferFor(m'.buffers, o).next <= |sent|
    requires PendingOf(m'.pending, o) == sent[BufferFor(m.buffers, o).next..BufferFor(m'.buffers, o).next]
    ensures Accounted(m', o, sent)
  {
  }

  /** What the drain releases for one origin: the next stretch of what that origin sent. */
  lemma ReceivedStretch(s: Session, m: Master, l: LocalEvent, producers: map<SystemId, Producer>, o: SystemId)
    requires SourcesInv(s, m.buffers, producers) && SentAs(l, producers) && l.session == s
    ensures var b := MultiIngested(m.buffers, l.idx, l.event, l.origin);
            var before, after := BufferFor(m.buffers, o).next, BufferFor(MultiDrained(b), o).next;
            var sent := SentBy(producers, o);
            && before <= after && (before == after || after <= |sent|)
            && (if o in b.buffers then after <= |sent| && Released(b.buffers[o]) == sent[before..after] else before == after)
  {
    var b := MultiIngested(m.buffers, l.idx, l.event, l.origin);
    ReceivedBuffer(m, l, producers);
    if o in b.buffers {
      assert o == l.origin || o in m.buffers.buffers;
      TracksDrain(b.buffers[o], SentBy(producers, o));
    }
  }

  lemma ReceivedFields(s: Session, m: Master, l: LocalEvent, b: Multi<SystemId, Event>)
    requires Listed(m.buffers.order, m.buffers.buffers.Keys) && l.session == s && m.pending == []
    requires b == MultiIngested(m.buffers, l.idx, l.event, l.origin)
    ensures Listed(b.order, b.buffers.Keys) && forall x :: x in b.order ==> x in b.buffers
    ensures var m' := MasterReceives(s, m, l);
            m'.buffers == MultiDrained(b) && m'.pending == MultiReleased(b.order, b.buffers)
  {
    MultiIngestedListed(m.buffers, l.idx, l.event, l.origin);
    assert [] + MultiReleased(b.order, b.buffers) == MultiReleased(b.order, b.buffers);
  }

  lemma ReleasedFor(b: Multi<SystemId, Event>, o: SystemId)
    requires Listed(b.order, b.buffers.Keys) && forall x :: x in b.order ==> x in b.buffers
    ensures PendingOf(MultiReleased(b.order, b.buffers), o) == if o in b.buffers then Released(b.buffers[o]) else []
  {
    PendingOfReleased(b.order, b.buffers, o);
    assert (o in (set x | x in b.order)) <==> o in b.order;
  }

  /** What one origin's queue becomes. */
  lemma ReceivedQueue(s: Session, m: Master, l: LocalEvent, producers: map<SystemId, Producer>, o: SystemId)
    requires SourcesInv(s, m.buffers, producers) && SentAs(l, producers) && l.session == s && m.pending == []
    ensures var m', sent := MasterReceives(s, m, l), SentBy(producers, o);
            var before, after := BufferFor(m.buffers, o).next, BufferFor(m'.buffers, o).next;
            && before <= after && (before == after || after <= |sent|)
            && (after <= |sent| ==> PendingOf(m'.pending, o) == sent[before..after])
  {
    var b := MultiIngested(m.buffers, l.idx, l.event, l.origin);
    ReceivedFields(s, m, l, b);
    ReleasedFor(b, o);
    ReceivedStretch(s, m, l, producers, o);
  }

  lemma ReceivedAccounted(s: Session, m: Master, l: LocalEvent, producers: map<SystemId, Producer>, o: SystemId)
    requires MasterInv(s, m, producers) && SentAs(l, producers) && l.session == s && m.pending == []
    ensures Accounted(MasterReceives(s, m, l), o, SentBy(producers, o))
  {
    assert Accounted(m, o, SentBy(producers, o));
    ReceivedQueue(s, m, l, producers, o);
    AccountedAfter(m, MasterReceives(s, m, l), o, SentBy(producers, o));
  }

  lemma DeliverLocalKeeps(w: World, w': World, s: Session, l: LocalEvent)
    requires Inv(w) && DeliverLocal(w, w', s, l)
    ensures Inv(w')
  {
    var m, m' := w.masters[s], MasterReceives(s, w.masters[s], l);
    assert MasterInv(s, m, w.producers);
    if l.session == s {
      assert SentAs(l, w.producers);
      ReceivedSources(s, m, l, w.producers);
      forall o ensures Accounted(m', o, SentBy(w.producers, o)) {
        ReceivedAccounted(s, m, l, w.producers, o);
      }
    }
    MasterGrows(w, w', s, m');
    MastersSurvive(w.masters, s, m', w.producers);
  }

  lemma LogOfMore(log: seq<Event>, origins: seq<SystemId>, e: Event, origin: SystemId, o: SystemId)
    requires |log| == |origins|
    ensures LogOf(log + [e], origins + [origin], o)
         == LogOf(log, origins, o) + if origin == o then [Kernel(e)] else []
  {
    assert (log + [e])[..|log|] == log && (origins + [origin])[..|log|] == origins;
  }

  /** Indexing takes the first event off its origin's queue, and nothing off any other. */
  lemma IndexedQueue(m: Master, now: Time, o: SystemId, m': Master)
    requires m.pending != [] && m' == MasterIndexes(m, now)
    ensures BufferFor(m'.buffers, o).next == BufferFor(m.buffers, o).next
    ensures m'.pending == m.pending[1..]
    ensures PendingOf(m.pending, o)
         == (if m.pending[0].0 == o then [m.pending[0].1] else []) + PendingOf(m'.pending, o)
  {
  }

  /** It adds that event to its origin's log, unless it is a trace report. */
  lemma IndexedLog(m: Master, now: Time, o: SystemId, m': Master)
    requires m.pending != [] && m' == MasterIndexes(m, now) && |m.log| == |m.origins|
    ensures |m'.log| == |m'.origins|
    ensures LogOf(m'.log, m'.origins, o) == LogOf(m.log, m.origins, o)
              + if m.pending[0].0 == o && !m.pending[0].1.body.TracesCollected? then [Kernel(m.pending[0].1)] else []
  {
    var (origin, event) := m.pending[0];
    LogOfMore(m.log, m.origins, Stamp(event, now), origin, o);
    assert Kernel(Stamp(event, now)) == Kernel(event);
  }

  lemma QueueStep(sent: seq<Event>, next: nat, event: Event, rest: seq<Event>, queued: seq<Event>)
    requires queued == [event] + rest && |queued| <= next <= |sent|
    requires queued == sent[next - |queued|..next]
    ensures rest == sent[next - |rest|..next]
    ensures Kept(sent[..next - |rest|])
         == Kept(sent[..next - |queued|]) + if event.body.TracesCollected? then [] else [Kernel(event)]
  {
    var k := next - |queued|;
    assert sent[k] == sent[k..next][0];
    assert rest == queued[1..];
    assert sent[..k + 1] == sent[..k] + [event];
    KeptConcat(sent[..k], [event]);
    assert Kept([event]) == (if event.body.TracesCollected? then [] else [Kernel(event)]) + Kept([]);
  }

  lemma AccountingStep(sent: seq<Event>, next: nat, own: bool, event: Event, rest: seq<Event>, queued: seq<Event>)
    requires queued == (if own then [event] else []) + rest && |queued| <= next <= |sent|
    requires queued == sent[next - |queued|..next]
    ensures rest == sent[next - |rest|..next]
    ensures Kept(sent[..next - |rest|])
         == Kept(sent[..next - |queued|]) + if own && !event.body.TracesCollected? then [Kernel(event)] else []
  {
    if own {
      QueueStep(sent, next, event, rest, queued);
    } else {
      assert queued == rest;
    }
  }

  lemma IndexedAccounted(m: Master, now: Time, o: SystemId, sent: seq<Event>, m': Master)
    requires m.pending != [] && |m.log| == |m.origins| && Accounted(m, o, sent)
    requires m' == MasterIndexes(m, now)
    ensures |m'.log| == |m'.origins| && Accounted(m', o, sent)
  {
    IndexedQueue(m, now, o, m');
    IndexedLog(m, now, o, m');
    AccountingStep(sent, BufferFor(m.buffers, o).next, m.pending[0].0 == o, m.pending[0].1,
                   PendingOf(m'.pending, o), PendingOf(m.pending, o));
  }

  lemma IndexedMaster(s: Session, m: Master, now: Time, producers: map<SystemId, Producer>, m': Master)
    requires MasterInv(s, m, producers) && m.pending != [] && m' == MasterIndexes(m, now)
    ensures MasterInv(s, m', producers) && m.log <= m'.log
    ensures m'.log != m.log ==> Apply(m.state, |m.log|, m'.log[|m.log|]) == Some(m'.state)
  {
    forall o ensures |m'.log| == |m'.origins| && Accounted(m', o, SentBy(producers, o)) {
      assert Accounted(m, o, SentBy(producers, o));
      IndexedAccounted(m, now, o, SentBy(producers, o), m');
    }
    FoldExtends(m.log, Stamp(m.pending[0].1, now));
  }

  lemma IndexKeeps(w: World, w': World, s: Session, now: Time)
    requires Inv(w) && Index(w, w', s, now)
    ensures Inv(w')
  {
    var m, m' := w.masters[s], MasterIndexes(w.masters[s], now);
    assert MasterInv(s, m, w.producers);
    IndexedMaster(s, m, now, w.producers, m');
    MasterGrows(w, w', s, m');
    MastersSurvive(w.masters, s, m', w.producers);
    forall g | g in w'.globals ensures LoggedAs(g, w'.masters) {
    }
  }

  lemma RebroadcastKeeps(w: World, w': World, s: Session, i: nat)
    requires Inv(w) && Rebroadcast(w, w', s, i)
    ensures Inv(w')
  {
  }

  // ---------------------------------------------------------------- steps of routers and producers

  lemma NewRouterInv(session: Session, log: seq<Event>)
    ensures RouterInv(NewRouter(session), log)
  {
    assert log[..0] == [];
  }

  lemma RoutersPut(routers: map<RouterId, Router>, r: RouterId, r': Router, masters: map<Session, Master>)
    requires RoutersInv(routers, masters) && RouterInv(r', LogFor(masters, r'.session))
    ensures RoutersInv(routers[r := r'], masters)
  {
  }

  lemma ConsumersFollow(consumers: map<ConsumerId, Consumer>, routers: map<RouterId, Router>, r: RouterId, r': Router,
                        masters: map<Session, Master>)
    requires ConsumersInv(consumers, routers, masters)
    requires r in routers ==> r'.session == routers[r].session && routers[r].delivered <= r'.delivered
    ensures ConsumersInv(consumers, routers[r := r'], masters)
  {
    forall c | c in consumers ensures ConsumerInv(consumers[c], routers[r := r'], masters) {
      assert ConsumerInv(consumers[c], routers, masters);
    }
  }

  lemma NewRouterDelivery(producers: map<SystemId, Producer>, routers: map<RouterId, Router>, r: RouterId, r': Router,
                          masters: map<Session, Master>)
    requires DeliveryInv(producers, routers, masters) && ProducersInv(producers, routers) && r !in routers
    ensures DeliveryInv(producers, routers[r := r'], masters) && ProducersInv(producers, routers[r := r'])
  {
  }

  lemma OpenRouterKeeps(w: World, w': World, r: RouterId, s: Session)
    requires Inv(w) && OpenRouter(w, w', r, s)
    ensures Inv(w')
  {
    NewRouterInv(s, LogFor(w.masters, s));
    RoutersPut(w.routers, r, NewRouter(s), w.masters);
    ConsumersFollow(w.consumers, w.routers, r, NewRouter(s), w.masters);
    NewRouterDelivery(w.producers, w.routers, r, NewRouter(s), w.masters);
  }

  // What follows from producers only ever adding to what they sent.

  ghost predicate ProducersGrow(producers: map<SystemId, Producer>, producers': map<SystemId, Producer>)
  {
    forall p :: p in producers ==>
      p in producers' && producers'[p].session == producers[p].session && producers[p].sent <= producers'[p].sent
  }

  lemma LocalsFollow(locals: set<LocalEvent>, producers: map<SystemId, Producer>, producers': map<SystemId, Producer>)
    requires LocalsInv(locals, producers) && ProducersGrow(producers, producers')
    ensures LocalsInv(locals, producers')
  {
    forall l | l in locals ensures SentAs(l, producers') {
      assert SentAs(l, producers);
    }
  }

  lemma OutboxFollows(routers: map<RouterId, Router>, producers: map<SystemId, Producer>, producers': map<SystemId, Producer>)
    requires OutboxInv(routers, producers) && ProducersGrow(producers, producers')
    ensures OutboxInv(routers, producers')
  {
    forall r, id | r in routers && id in routers[r].outbox ensures SentAs(routers[r].outbox[id], producers') {
      assert SentAs(routers[r].outbox[id], producers);
    }
  }

  lemma SourcesFollow(s: Session, m: Multi<SystemId, Event>, producers: map<SystemId, Producer>,
                      producers': map<SystemId, Producer>)
    requires SourcesInv(s, m, producers) && ProducersGrow(producers, producers')
    ensures SourcesInv(s, m, producers')
  {
    forall o | o in m.buffers ensures Tracks(m.buffers[o], producers'[o].sent) {
      var more := producers'[o].sent[|producers[o].sent|..];
      assert producers'[o].sent == producers[o].sent + more;
      TracksLonger(m.buffers[o], producers[o].sent, more);
    }
  }

  lemma AccountedFollows(m: Master, o: SystemId, sent: seq<Event>, sent': seq<Event>)
    requires |m.log| == |m.origins| && Accounted(m, o, sent) && sent <= sent'
    ensures Accounted(m, o, sent')
  {
    var next, queued := BufferFor(m.buffers, o).next, PendingOf(m.pending, o);
    assert sent[next - |queued|..next] == sent'[next - |queued|..next];
    assert sent[..next - |queued|] == sent'[..next - |queued|];
  }

  lemma MastersFollow(masters: map<Session, Master>, producers: map<SystemId, Producer>,
                      producers': map<SystemId, Producer>)
    requires MastersInv(masters, producers) && ProducersGrow(producers, producers')
    ensures MastersInv(masters, producers')
  {
    forall s | s in masters ensures MasterInv(s, masters[s], producers') {
      var m := masters[s];
      assert MasterInv(s, m, producers);
      SourcesFollow(s, m.buffers, producers, producers');
      forall o ensures Accounted(m, o, SentBy(producers', o)) {
        assert Accounted(m, o, SentBy(producers, o));
        AccountedFollows(m, o, SentBy(producers, o), SentBy(producers', o));
      }
    }
  }

  /** The parts that only read what was sent survive any such growth. */
  lemma ProducersFollow(w: World, producers': map<SystemId, Producer>)
    requires Inv(w) && ProducersGrow(w.producers, producers')
    ensures LocalsInv(w.locals, producers') && OutboxInv(w.routers, producers') && MastersInv(w.masters, producers')
  {
    LocalsFollow(w.locals, w.producers, producers');
    OutboxFollows(w.routers, w.producers, producers');
    MastersFollow(w.masters, w.producers, producers');
  }

  lemma NewProducer(producers: map<SystemId, Producer>, p: SystemId, q: Producer, routers: map<RouterId, Router>,
                    masters: map<Session, Master>)
    requires ProducersInv(producers, routers) && IdsInv(producers) && DeliveryInv(producers, routers, masters)
    requires p !in producers && q.router in routers && routers[q.router].session == q.session
    requires q.sent == [] && q.registered == 0
    ensures ProducersInv(producers[p := q], routers) && IdsInv(producers[p := q])
    ensures DeliveryInv(producers[p := q], routers, masters)
  {
  }

  lemma OpenProducerKeeps(w: World, w': World, p: SystemId, r: RouterId)
    requires Inv(w) && OpenProducer(w, w', p, r)
    ensures Inv(w')
  {
    ProducersFollow(w, w'.producers);
    NewProducer(w.producers, p, Producer(w.routers[r].session, r, [], 0), w.routers, w.masters);
  }

  lemma SentIds(producers: map<SystemId, Producer>, p: SystemId, e: Event, q: Producer)
    requires IdsInv(producers) && p in producers && FreshId(producers, e.id)
    requires q == producers[p].(sent := producers[p].sent + [e])
    ensures IdsInv(producers[p := q])
  {
  }

  lemma SentDelivery(producers: map<SystemId, Producer>, p: SystemId, e: Event, q: Producer,
                     routers: map<RouterId, Router>, masters: map<Session, Master>)
    requires DeliveryInv(producers, routers, masters) && p in producers
    requires q == producers[p].(sent := producers[p].sent + [e]) && q.registered <= |producers[p].sent|
    ensures DeliveryInv(producers[p := q], routers, masters)
  {
  }

  lemma SentGrows(producers: map<SystemId, Producer>, p: SystemId, e: Event, q: Producer, routers: map<RouterId, Router>)
    requires ProducersInv(producers, routers) && p in producers && producers[p].registered == |producers[p].sent|
    requires q == producers[p].(sent := producers[p].sent + [e])
    ensures ProducersInv(producers[p := q], routers) && ProducersGrow(producers, producers[p := q])
  {
  }

  lemma SentLocal(locals: set<LocalEvent>, producers': map<SystemId, Producer>, l: LocalEvent)
    requires LocalsInv(locals, producers') && SentAs(l, producers')
    ensures LocalsInv(locals + {l}, producers')
  {
  }

  lemma SendKeeps(w: World, w': World, p: SystemId, e: Event)
    requires Inv(w) && Send(w, w', p, e)
    ensures Inv(w')
  {
    var q := w.producers[p].(sent := w.producers[p].sent + [e]);
    SentGrows(w.producers, p, e, q, w.routers);
    ProducersFollow(w, w'.producers);
    SentIds(w.producers, p, e, q);
    SentDelivery(w.producers, p, e, q, w.routers, w.masters);
    SentLocal(w.locals, w'.producers, LocalEvent(p, |w.producers[p].sent|, w.producers[p].session, e));
  }

  lemma RegisteredIds(producers: map<SystemId, Producer>, p: SystemId, q: Producer)
    requires IdsInv(producers) && p in producers && q.sent == producers[p].sent
    ensures IdsInv(producers[p := q])
  {
  }

  lemma RegisteredDelivery(producers: map<SystemId, Producer>, p: SystemId, q: Producer, routers: map<RouterId, Router>,
                           r: Router, masters: map<Session, Master>)
    requires DeliveryInv(producers, routers, masters) && p in producers && producers[p].router in routers
    requires producers[p].registered < |producers[p].sent|
    requires q == producers[p].(registered := producers[p].registered + 1)
    requires r.outbox.Keys == routers[q.router].outbox.Keys + {q.sent[producers[p].registered].id}
    ensures DeliveryInv(producers[p := q], routers[q.router := r], masters)
  {
  }

  lemma RegisteredProducers(producers: map<SystemId, Producer>, p: SystemId, q: Producer, routers: map<RouterId, Router>,
                            r: Router)
    requires ProducersInv(producers, routers) && p in producers
    requires producers[p].registered < |producers[p].sent|
    requires q == producers[p].(registered := producers[p].registered + 1) && r.session == routers[q.router].session
    ensures ProducersInv(producers[p := q], routers[q.router := r])
  {
  }

  lemma OutboxPut(routers: map<RouterId, Router>, r: RouterId, r': Router, id: EventId, l: LocalEvent,
                  producers: map<SystemId, Producer>)
    requires OutboxInv(routers, producers) && r in routers && SentAs(l, producers)
    requires r'.outbox == routers[r].outbox[id := l]
    ensures OutboxInv(routers[r := r'], producers)
  {
  }

  /** The record an event leaves when it is entered for redelivery. */
  ghost predicate Entered(w: World, p: SystemId, q: Producer, r: Router, l: LocalEvent)
  {
    && p in w.producers && w.producers[p].router in w.routers
    && w.producers[p].registered < |w.producers[p].sent|
    && q == w.producers[p].(registered := w.producers[p].registered + 1)
    && l == LocalEvent(p, q.registered - 1, q.session, q.sent[q.registered - 1])
    && r == w.routers[q.router].(outbox := w.routers[q.router].outbox[l.event.id := l])
  }

  lemma EnteredProducers(w: World, p: SystemId, q: Producer, r: Router, l: LocalEvent)
    requires Inv(w) && Entered(w, p, q, r, l)
    ensures ProducersInv(w.producers[p := q], w.routers[q.router := r]) && IdsInv(w.producers[p := q])
  {
    RegisteredIds(w.producers, p, q);
    RegisteredProducers(w.producers, p, q, w.routers, r);
  }

  lemma EnteredFollow(w: World, p: SystemId, q: Producer, r: Router, l: LocalEvent)
    requires Inv(w) && Entered(w, p, q, r, l)
    ensures LocalsInv(w.locals, w.producers[p := q]) && MastersInv(w.masters, w.producers[p := q])
    ensures OutboxInv(w.routers, w.producers[p := q])
  {
    ProducersFollow(w, w.producers[p := q]);
  }

  lemma EnteredRouters(w: World, p: SystemId, q: Producer, r: Router, l: LocalEvent)
    requires Inv(w) && Entered(w, p, q, r, l)
    ensures RoutersInv(w.routers[q.router := r], w.masters)
    ensures ConsumersInv(w.consumers, w.routers[q.router := r], w.masters)
  {
    assert RouterInv(w.routers[q.router], LogFor(w.masters, r.session));
    RoutersPut(w.routers, q.router, r, w.masters);
    ConsumersFollow(w.consumers, w.routers, q.router, r, w.masters);
  }

  lemma EnteredDelivery(w: World, p: SystemId, q: Producer, r: Router, l: LocalEvent)
    requires Inv(w) && Entered(w, p, q, r, l)
    ensures DeliveryInv(w.producers[p := q], w.routers[q.router := r], w.masters)
  {
    RegisteredDelivery(w.producers, p, q, w.routers, r, w.masters);
  }

  lemma RegisterKeeps(w: World, w': World, p: SystemId)
    requires Inv(w) && Register(w, w', p)
    ensures Inv(w')
  {
    var q := w.producers[p].(registered := w.producers[p].registered + 1);
    var l := LocalEvent(p, q.registered - 1, q.session, q.sent[q.registered - 1]);
    var r := w.routers[q.router].(outbox := w.routers[q.router].outbox[l.event.id := l]);
    EnteredProducers(w, p, q, r, l);
    EnteredFollow(w, p, q, r, l);
    EnteredRouters(w, p, q, r, l);
    EnteredDelivery(w, p, q, r, l);
    OutboxPut(w.routers, q.router, r, l.event.id, l, w'.producers);
  }

  lemma RetryKeeps(w: World, w': World, r: RouterId, id: EventId)
    requires Inv(w) && Retry(w, w', r, id)
    ensures Inv(w')
  {
    assert SentAs(w.routers[r].outbox[id], w.producers);
  }

  lemma {:induction false} IndexedConcat(first: nat, a: seq<Event>, b: seq<Event>)
    ensures Indexed(first, a + b) == Indexed(first, a) + Indexed(first + |a|, b)
    decreases a
  {
    if a == [] {
      assert a + b == b;
    } else {
      assert (a + b)[1..] == a[1..] + b;
      IndexedConcat(first + 1, a[1..], b);
    }
  }

  /** A router that takes in a logged event delivers exactly the next stretch of the log. */
  lemma RouterTakesIn(r: Router, g: GlobalEvent, log: seq<Event>)
    requires RouterInv(r, log) && Addressed(r.session, g) && g.idx < |log| && g.event == log[g.idx]
    ensures Accepts(r.buffer, g.idx, g.event)
    ensures RouterInv(RouterReceives(r, g), log)
    ensures r.delivered <= RouterReceives(r, g).delivered
  {
    var b := Ingested(r.buffer, g.idx, g.event);
    TracksIngest(r.buffer, log, g.idx, g.event);
    TracksDrain(b, log);
    var before, after := b.next, Drained(b).next;
    assert log[..after] == log[..before] + log[before..after];
    IndexedConcat(0, log[..before], log[before..after]);
  }

  lemma TakenInDelivery(producers: map<SystemId, Producer>, routers: map<RouterId, Router>, r: RouterId, r': Router,
                        masters: map<Session, Master>, id: EventId)
    requires DeliveryInv(producers, routers, masters) && ProducersInv(producers, routers) && r in routers
    requires r'.session == routers[r].session && r'.outbox == routers[r].outbox - {id}
    requires InLog(LogFor(masters, routers[r].session), id)
    ensures DeliveryInv(producers, routers[r := r'], masters) && ProducersInv(producers, routers[r := r'])
  {
    forall p, i | p in producers && 0 <= i < producers[p].registered && i < |producers[p].sent|
                  && producers[p].router in routers[r := r']
      ensures producers[p].sent[i].id in routers[r := r'][producers[p].router].outbox
              || InLog(LogFor(masters, producers[p].session), producers[p].sent[i].id)
    {
      assert routers[producers[p].router].session == producers[p].session;
    }
  }

  lemma OutboxSmaller(routers: map<RouterId, Router>, r: RouterId, r': Router, producers: map<SystemId, Producer>)
    requires OutboxInv(routers, producers) && r in routers
    requires forall id :: id in r'.outbox ==> id in routers[r].outbox && r'.outbox[id] == routers[r].outbox[id]
    ensures OutboxInv(routers[r := r'], producers)
  {
  }

  lemma TakenInKeeps(w: World, r: RouterId, g: GlobalEvent, after: Router)
    requires DeliveryInv(w.producers, w.routers, w.masters) && ProducersInv(w.producers, w.routers)
    requires RoutersInv(w.routers, w.masters) && ConsumersInv(w.consumers, w.routers, w.masters)
    requires r in w.routers && Addressed(w.routers[r].session, g) && LoggedAs(g, w.masters)
    requires after == RouterReceives(w.routers[r], g)
    ensures DeliveryInv(w.producers, w.routers[r := after], w.masters) && ProducersInv(w.producers, w.routers[r := after])
    ensures RoutersInv(w.routers[r := after], w.masters)
    ensures ConsumersInv(w.consumers, w.routers[r := after], w.masters)
  {
    var before := w.routers[r];
    var log := LogFor(w.masters, before.session);
    RouterTakesIn(before, g, log);
    assert log[g.idx].id == g.event.id;
    TakenInDelivery(w.producers, w.routers, r, after, w.masters, g.event.id);
    RoutersPut(w.routers, r, after, w.masters);
    ConsumersFollow(w.consumers, w.routers, r, after, w.masters);
  }

  lemma DeliverGlobalKeeps(w: World, w': World, r: RouterId, g: GlobalEvent)
    requires Inv(w) && DeliverGlobal(w, w', r, g)
    ensures Inv(w')
  {
    if Addressed(w.routers[r].session, g) {
      assert LoggedAs(g, w.masters) && RouterInv(w.routers[r], LogFor(w.masters, w.routers[r].session));
      TakenInKeeps(w, r, g, RouterReceives(w.routers[r], g));
      OutboxSmaller(w.routers, r, RouterReceives(w.routers[r], g), w.producers);
    } else {
      assert w' == w;
    }
  }

  // ---------------------------------------------------------------- steps of consumers

  lemma JoinKeeps(w: World, w': World, c: ConsumerId, r: RouterId)
    requires Inv(w) && Join(w, w', c, r)
    ensures Inv(w')
  {
    assert LogFor(w.masters, w.routers[r].session)[..0] == [];
  }

  lemma DeliveredAt(r: Router, log: seq<Event>, i: nat)
    requires RouterInv(r, log) && i < |r.delivered|
    ensures i < |log| && r.delivered[i] == (i, log[i])
  {
    IndexedAt(0, log[..r.buffer.next]);
  }

  lemma AppliesNext(log: seq<Event>, n: nat, state: State)
    requires n < |log| && state == Fold(log[..n])
    ensures Apply(state, n, log[n]) == Some(Fold(log[..n + 1]))
  {
    var front, e := log[..n], log[n];
    assert log[..n + 1] == front + [e];
    FoldExtends(front, e);
  }

  /** The next event a consumer holds is the next log entry, and `apply` accepts it. */
  lemma NextDelivery(w: World, c: ConsumerId)
    requires Inv(w) && c in w.consumers
    requires w.consumers[c].router in w.routers
    requires w.consumers[c].applied < |w.routers[w.consumers[c].router].delivered|
    ensures var k := w.consumers[c];
            var log := LogFor(w.masters, w.routers[k.router].session);
            && k.applied < |log|
            && w.routers[k.router].delivered[k.applied] == (k.applied, log[k.applied])
            && Apply(k.state, k.applied, log[k.applied]) == Some(Fold(log[..k.applied + 1]))
  {
    var k := w.consumers[c];
    assert ConsumerInv(k, w.routers, w.masters);
    var r := w.routers[k.router];
    assert RouterInv(r, LogFor(w.masters, r.session));
    DeliveredAt(r, LogFor(w.masters, r.session), k.applied);
    AppliesNext(LogFor(w.masters, r.session), k.applied, k.state);
  }

  lemma ConsumeKeeps(w: World, w': World, c: ConsumerId)
    requires Inv(w) && Consume(w, w', c)
    ensures Inv(w')
  {
    assert ConsumerInv(w.consumers[c], w.routers, w.masters);
    NextDelivery(w, c);
    forall d | d in w'.consumers ensures ConsumerInv(w'.consumers[d], w'.routers, w'.masters) {
      if d != c {
        assert ConsumerInv(w.consumers[d], w.routers, w.masters);
      }
    }
  }

  // ---------------------------------------------------------------- every run

  lemma StepKeeps(w: World, w': World)
    requires Inv(w) && Step(w, w')
    ensures Inv(w')
  {
    if s :| StartMaster(w, w', s) {
      StartMasterKeeps(w, w', s);
    } else if r, s :| OpenRouter(w, w', r, s) {
      OpenRouterKeeps(w, w', r, s);
    } else if p, r :| OpenProducer(w, w', p, r) {
      OpenProducerKeeps(w, w', p, r);
    } else if p, e :| Send(w, w', p, e) {
      SendKeeps(w, w', p, e);
    } else if p :| Register(w, w', p) {
      RegisterKeeps(w, w', p);
    } else if r, id :| Retry(w, w', r, id) {
      RetryKeeps(w, w', r, id);
    } else if s, l :| DeliverLocal(w, w', s, l) {
      DeliverLocalKeeps(w, w', s, l);
    } else if s, now :| Index(w, w', s, now) {
      IndexKeeps(w, w', s, now);
    } else if s, i :| Rebroadcast(w, w', s, i) {
      RebroadcastKeeps(w, w', s, i);
    } else if r, g :| DeliverGlobal(w, w', r, g) {
      DeliverGlobalKeeps(w, w', r, g);
    } else if c, r :| Join(w, w', c, r) {
      JoinKeeps(w, w', c, r);
    } else {
      var c :| Consume(w, w', c);
      ConsumeKeeps(w, w', c);
    }
  }

  lemma {:induction false} EveryReachableState(ws: seq<World>, n: nat)
    requires Run(ws) && n < |ws|
    ensures Inv(ws[n])
  {
    if n > 0 {
      EveryReachableState(ws, n - 1);
      assert StepAt(ws, n - 1);
      StepKeeps(ws[n - 1], ws[n]);
    }
  }
}
