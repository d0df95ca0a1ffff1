/** The replicated event log as a step system: producers that number and resend their events,
    masters that resequence, index and broadcast them, routers that resequence the broadcast,
    and consumers that fold what their router hands them. The network is the set of messages
    ever sent: any of them may arrive any number of times, in any order, or never. */
module Replication {
  import opened Common
  import opened Cluster
  import opened EventBuffer

  /** The most log entries one request is answered with. */
  const REPLY_LIMIT := 1000

  type SystemId = nat
  type RouterId = nat
  type ConsumerId = nat

  datatype LocalEvent = LocalEvent(origin: SystemId, idx: nat, session: Session, event: Event)

  datatype GlobalEvent = GlobalEvent(origin: NodeId, idx: nat, session: Session, event: Event)

  /** One sender of an event router: what it was given so far, and how many of those events are
      entered for redelivery. An event is sent first and entered afterwards. */
  datatype Producer = Producer(session: Session, router: RouterId, sent: seq<Event>, registered: nat)

  /** `outbox` holds the events still out for delivery; `delivered` is what every receiver was given. */
  datatype Router = Router(session: Session, buffer: Buffer<Event>,
                           outbox: map<EventId, LocalEvent>, delivered: seq<(nat, Event)>)

  /** `pending` holds released events the event processor has not indexed yet. The sources in
      `pending` and `origins` are history: they record whose event each entry is. */
  datatype Master = Master(buffers: Multi<SystemId, Event>, pending: seq<(SystemId, Event)>,
                           log: seq<Event>, origins: seq<SystemId>, state: State)

  /** A worker, an API or a master's own reader: one receiver of one router at a time. */
  datatype Consumer = Consumer(router: RouterId, applied: nat, state: State)

  datatype World = World(
    masters: map<Session, Master>,
    routers: map<RouterId, Router>,
    producers: map<SystemId, Producer>,
    consumers: map<ConsumerId, Consumer>,
    locals: set<LocalEvent>,
    globals: set<GlobalEvent>)

  // ---------------------------------------------------------------- one component's step

  /** The master puts its own time on gathered information when it indexes it. */
  function Stamp(e: Event, now: Time): Event
  {
    if e.body.NodeGatheredInfo? then e.(body := e.body.(when := now)) else e
  }

  /** An event up to that time. */
  function Kernel(e: Event): Event
  {
    Stamp(e, 0)
  }

  /** The event as it is logged: gathered information carries the time of indexing, and nothing else
      is different. */
  ghost predicate Timed(e: Event, now: Time, logged: Event)
  {
    && logged.id == e.id
    && logged.body == if e.body.NodeGatheredInfo? then NodeGatheredInfo(e.body.node, now, e.body.info) else e.body
  }

  lemma StampIsTimed(e: Event, now: Time)
    ensures Timed(e, now, Stamp(e, now))
    ensures forall logged :: Timed(e, now, logged) ==> logged == Stamp(e, now)
  {
  }

  /** Two events are the same but for the time on gathered information. */
  ghost predicate SameButTime(a: Event, b: Event)
  {
    && a.id == b.id
    && if a.body.NodeGatheredInfo? && b.body.NodeGatheredInfo?
       then a.body.node == b.body.node && a.body.info == b.body.info else a.body == b.body
  }

  lemma KernelIsTimeless(a: Event, b: Event)
    ensures Kernel(a) == Kernel(b) <==> SameButTime(a, b)
  {
  }

  ghost const NEW_MASTER := Master(Multi([], map[]), [], [], [], EMPTY)

  ghost function NewRouter(session: Session): Router
  {
    Router(session, Buffer(map[], 0), map[], [])
  }

  ghost predicate Addressed(session: Session, g: GlobalEvent)
  {
    g.session == session && g.origin == session.master
  }

  ghost function RouterReceives(r: Router, g: GlobalEvent): Router
  {
    if !Addressed(r.session, g) then r
    else
      var b := Ingested(r.buffer, g.idx, g.event);
      Router(r.session, Drained(b), r.outbox - {g.event.id}, r.delivered + Indexed(b.next, Released(b)))
  }

  lemma MultiIngestedListed(m: Multi<SystemId, Event>, idx: nat, item: Event, source: SystemId)
    requires Listed(m.order, m.buffers.Keys)
    ensures var b := MultiIngested(m, idx, item, source);
            Listed(b.order, b.buffers.Keys) && forall x :: x in b.order ==> x in b.buffers
  {
    assert source !in m.buffers ==> source !in (set x | x in m.order);
    assert forall x :: x in m.order ==> x in (set y | y in m.order);
  }

  /** Events of another session are discarded; the rest are buffered and whatever is now in
      order is queued for indexing. */
  ghost function MasterReceives(session: Session, m: Master, l: LocalEvent): Master
    requires Listed(m.buffers.order, m.buffers.buffers.Keys)
  {
    if l.session != session then m else
    var b := MultiIngested(m.buffers, l.idx, l.event, l.origin);
    MultiIngestedListed(m.buffers, l.idx, l.event, l.origin);
    m.(buffers := MultiDrained(b), pending := m.pending + MultiReleased(b.order, b.buffers))
  }

  /** What `apply` returns when its index assertion holds. */
  ghost function Applied(s: State, idx: nat, e: Event): State
  {
    var r := Apply(s, idx, e);
    if r.Some? then r.value else s
  }

  /** Indexing the next pending event; a trace report is handled apart and never logged. */
  ghost function MasterIndexes(m: Master, now: Time): Master
    requires m.pending != []
  {
    var (origin, event) := m.pending[0];
    if event.body.TracesCollected? then m.(pending := m.pending[1..])
    else
      var e := Stamp(event, now);
      m.(pending := m.pending[1..], log := m.log + [e], origins := m.origins + [origin],
         state := Applied(m.state, |m.log|, e))
  }

  // ---------------------------------------------------------------- steps of the whole system

  ghost function SentBy(producers: map<SystemId, Producer>, o: SystemId): seq<Event>
  {
    if o in producers then producers[o].sent else []
  }

  ghost function LogFor(masters: map<Session, Master>, s: Session): seq<Event>
  {
    if s in masters then masters[s].log else []
  }

  /** Event identifiers are drawn at random; a new one differs from all in use. */
  ghost predicate FreshId(producers: map<SystemId, Producer>, id: EventId)
  {
    forall p, i :: p in producers && 0 <= i < |producers[p].sent| ==> producers[p].sent[i].id != id
  }

  ghost predicate Init(w: World)
  {
    w == World(map[], map[], map[], map[], {}, {})
  }

  /** A session has at most one master: its node, promoted once. */
  ghost predicate StartMaster(w: World, w': World, s: Session)
  {
    s !in w.masters && w' == w.(masters := w.masters[s := NEW_MASTER])
  }

  ghost predicate OpenRouter(w: World, w': World, r: RouterId, s: Session)
  {
    r !in w.routers && w' == w.(routers := w.routers[r := NewRouter(s)])
  }

  ghost predicate OpenProducer(w: World, w': World, p: SystemId, r: RouterId)
  {
    && p !in w.producers && r in w.routers
    && w' == w.(producers := w.producers[p := Producer(w.routers[r].session, r, [], 0)])
  }

  ghost predicate Send(w: World, w': World, p: SystemId, e: Event)
  {
    && p in w.producers && FreshId(w.producers, e.id)
    && var q := w.producers[p];
       && q.registered == |q.sent|
       && w' == w.(producers := w.producers[p := q.(sent := q.sent + [e])],
                   locals := w.locals + {LocalEvent(p, |q.sent|, q.session, e)})
  }

  ghost predicate Register(w: World, w': World, p: SystemId)
  {
    && p in w.producers
    && var q := w.producers[p];
       && q.registered < |q.sent| && q.router in w.routers
       && var e := q.sent[q.registered];
          var l := LocalEvent(p, q.registered, q.session, e);
          var r := w.routers[q.router];
          w' == w.(producers := w.producers[p := q.(registered := q.registered + 1)],
                   routers := w.routers[q.router := r.(outbox := r.outbox[e.id := l])])
  }

  ghost predicate Retry(w: World, w': World, r: RouterId, id: EventId)
  {
    && r in w.routers && id in w.routers[r].outbox
    && w' == w.(locals := w.locals + {w.routers[r].outbox[id]})
  }

  ghost predicate DeliverLocal(w: World, w': World, s: Session, l: LocalEvent)
  {
    && s in w.masters && l in w.locals && w.masters[s].pending == []
    && Listed(w.masters[s].buffers.order, w.masters[s].buffers.buffers.Keys)
    && w' == w.(masters := w.masters[s := MasterReceives(s, w.masters[s], l)])
  }

  ghost predicate Index(w: World, w': World, s: Session, now: Time)
  {
    && s in w.masters && w.masters[s].pending != []
    && var m := w.masters[s];
       var m' := MasterIndexes(m, now);
       w' == w.(masters := w.masters[s := m'],
                globals := w.globals + (if m'.log == m.log then {}
                                        else {GlobalEvent(s.master, |m.log|, s, m'.log[|m.log|])}))
  }

  /** Part of the answer to a request for the log: any entry may be broadcast again at any time. */
  ghost predicate Rebroadcast(w: World, w': World, s: Session, i: nat)
  {
    && s in w.masters && i < |w.masters[s].log|
    && w' == w.(globals := w.globals + {GlobalEvent(s.master, i, s, w.masters[s].log[i])})
  }

  ghost predicate DeliverGlobal(w: World, w': World, r: RouterId, g: GlobalEvent)
  {
    && r in w.routers && g in w.globals
    && w' == w.(routers := w.routers[r := RouterReceives(w.routers[r], g)])
  }

  /** A consumer is created, or reset for a new session: an empty state on a router that has not
      started, which is when a router still accepts receivers. */
  ghost predicate Join(w: World, w': World, c: ConsumerId, r: RouterId)
  {
    && r in w.routers && w.routers[r].delivered == []
    && w' == w.(consumers := w.consumers[c := Consumer(r, 0, EMPTY)])
  }

  /** A consumer applies the next event its receiver holds. */
  ghost predicate Consume(w: World, w': World, c: ConsumerId)
  {
    && c in w.consumers
    && var k := w.consumers[c];
       && k.router in w.routers && k.applied < |w.routers[k.router].delivered|
       && var (idx, e) := w.routers[k.router].delivered[k.applied];
          w' == w.(consumers := w.consumers[c := k.(applied := k.applied + 1, state := Applied(k.state, idx, e))])
  }

  ghost predicate Step(w: World, w': World)
  {
    || (exists s :: StartMaster(w, w', s))
    || (exists r, s :: OpenRouter(w, w', r, s))
    || (exists p, r :: OpenProducer(w, w', p, r))
    || (exists p, e :: Send(w, w', p, e))
    || (exists p :: Register(w, w', p))
    || (exists r, id :: Retry(w, w', r, id))
    || (exists s, l :: DeliverLocal(w, w', s, l))
    || (exists s, now :: Index(w, w', s, now))
    || (exists s, i :: Rebroadcast(w, w', s, i))
    || (exists r, g :: DeliverGlobal(w, w', r, g))
    || (exists c, r :: Join(w, w', c, r))
    || (exists c :: Consume(w, w', c))
  }

  ghost predicate StepAt(ws: seq<World>, i: nat)
    requires i + 1 < |ws|
  {
    Step(ws[i], ws[i + 1])
  }

  ghost predicate Run(ws: seq<World>)
  {
    && ws != [] && Init(ws[0])
    && forall i :: 0 <= i < |ws| - 1 ==> StepAt(ws, i)
  }

  // ---------------------------------------------------------------- accounting for each origin

  /** What a stretch of an origin's events leaves in the log: trace reports dropped, times aside. */
  ghost function Kept(es: seq<Event>): seq<Event>
  {
    if es == [] then []
    else (if es[0].body.TracesCollected? then [] else [Kernel(es[0])]) + Kept(es[1..])
  }

  ghost function PendingOf(pending: seq<(SystemId, Event)>, o: SystemId): seq<Event>
  {
    if pending == [] then []
    else (if pending[0].0 == o then [pending[0].1] else []) + PendingOf(pending[1..], o)
  }

  /** The log restricted to one origin. */
  ghost function LogOf(log: seq<Event>, origins: seq<SystemId>, o: SystemId): seq<Event>
    requires |log| == |origins|
  {
    if log == [] then []
    else
      var last := |log| - 1;
      LogOf(log[..last], origins[..last], o) + (if origins[last] == o then [Kernel(log[last])] else [])
  }

  lemma {:induction false} KeptConcat(a: seq<Event>, b: seq<Event>)
    ensures Kept(a + b) == Kept(a) + Kept(b)
  {
    if a == [] {
      assert a + b == b;
    } else {
      assert (a + b)[1..] == a[1..] + b;
      KeptConcat(a[1..], b);
    }
  }

  lemma PendingOfFirst(x: (SystemId, Event), rest: seq<(SystemId, Event)>, o: SystemId)
    ensures PendingOf([x] + rest, o) == (if x.0 == o then [x.1] else []) + PendingOf(rest, o)
  {
    assert ([x] + rest)[1..] == rest;
  }

  lemma {:induction false} PendingOfConcat(a: seq<(SystemId, Event)>, b: seq<(SystemId, Event)>, o: SystemId)
    ensures PendingOf(a + b, o) == PendingOf(a, o) + PendingOf(b, o)
  {
    if a == [] {
      assert a + b == b;
    } else {
      assert a + b == [a[0]] + (a[1..] + b) && a == [a[0]] + a[1..];
      PendingOfFirst(a[0], a[1..] + b, o);
      PendingOfFirst(a[0], a[1..], o);
      PendingOfConcat(a[1..], b, o);
    }
  }

  lemma {:induction false} PendingOfTagged(source: SystemId, items: seq<Event>, o: SystemId)
    ensures PendingOf(Tagged(source, items), o) == if source == o then items else []
    decreases items
  {
    if items != [] {
      assert Tagged(source, items)[1..] == Tagged(source, items[1..]);
      PendingOfTagged(source, items[1..], o);
    }
  }

  lemma {:induction false} PendingOfReleased(order: seq<SystemId>, buffers: map<SystemId, Buffer<Event>>, o: SystemId)
    requires forall x :: x in order ==> x in buffers
    requires forall i, j :: 0 <= i < j < |order| ==> order[i] != order[j]
    ensures PendingOf(MultiReleased(order, buffers), o) == if o in order then Released(buffers[o]) else []
    decreases |order|
  {
    if order != [] {
      var front, last := order[..|order| - 1], order[|order| - 1];
      PendingOfReleased(front, buffers, o);
      PendingOfConcat(MultiReleased(front, buffers), Tagged(last, Released(buffers[last])), o);
      PendingOfTagged(last, Released(buffers[last]), o);
      assert o in order <==> o in front || o == last;
      assert last !in front;
    }
  }
}
