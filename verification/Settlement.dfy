/** When an event leaves the outbox of its router: what any continuation of a run can still do. */
module Settlement {
  import opened Common
  import opened Cluster
  import opened EventBuffer
  import opened Replication
  import opened ReplicationSafety
  import opened ReplicationResults
  import opened MasterNode
  import opened CatchUp

  ghost function Last(ws: seq<World>): World
    requires ws != []
  {
    ws[|ws| - 1]
  }

  lemma OneStepMore(ws: seq<World>, w: World)
    requires Run(ws) && Step(Last(ws), w)
    ensures Run(ws + [w]) && Last(ws + [w]) == w
  {
    var more := ws + [w];
    forall j | 0 <= j < |more| - 1 ensures StepAt(more, j) {
      assert j < |ws| - 1 ==> StepAt(ws, j);
    }
  }

  // ---------------------------------------------------------------- senders only add

  ghost predicate SendsOn(q: Producer, q': Producer)
  {
    q'.session == q.session && q'.router == q.router && q.sent <= q'.sent && q.registered <= q'.registered
  }

  lemma SendersRest(w: World, w': World, p: SystemId)
    requires Step(w, w') && p in w.producers
    requires !(exists o, e :: Send(w, w', o, e)) && !(exists o :: Register(w, w', o))
    ensures p in w'.producers && w'.producers[p] == w.producers[p]
  {
  }

  lemma SendersOnlyAdd(w: World, w': World, p: SystemId)
    requires Step(w, w') && p in w.producers
    ensures p in w'.producers && SendsOn(w.producers[p], w'.producers[p])
  {
    if o, e :| Send(w, w', o, e) {
    } else if o :| Register(w, w', o) {
    } else {
      SendersRest(w, w', p);
    }
  }

  lemma StepOnlySends(ws: seq<World>, n: nat, p: SystemId)
    requires Run(ws) && n + 1 < |ws| && p in ws[n].producers
    ensures p in ws[n + 1].producers && SendsOn(ws[n].producers[p], ws[n + 1].producers[p])
  {
    assert StepAt(ws, n);
    SendersOnlyAdd(ws[n], ws[n + 1], p);
  }

  lemma SendsOnFurther(a: Producer, b: Producer, c: Producer)
    requires SendsOn(a, b) && SendsOn(b, c)
    ensures SendsOn(a, c)
  {
  }

  lemma {:induction false} RunOnlySends(ws: seq<World>, n: nat, m: nat, p: SystemId)
    requires Run(ws) && n <= m < |ws| && p in ws[n].producers
    ensures p in ws[m].producers && SendsOn(ws[n].producers[p], ws[m].producers[p])
    decreases m
  {
    if n < m {
      RunOnlySends(ws, n, m - 1, p);
      StepOnlySends(ws, m - 1, p);
      SendsOnFurther(ws[n].producers[p], ws[m - 1].producers[p], ws[m].producers[p]);
    }
  }

  ghost function LocalOf(p: SystemId, q: Producer, i: nat): LocalEvent
    requires i < |q.sent|
  {
    LocalEvent(p, i, q.session, q.sent[i])
  }

  /** Every event sent is on the network. */
  ghost predicate SentAreLocal(w: World)
  {
    forall p, i :: p in w.producers && 0 <= i < |w.producers[p].sent| ==> LocalOf(p, w.producers[p], i) in w.locals
  }

  lemma SendIsLocal(w: World, w': World, o: SystemId, e: Event)
    requires SentAreLocal(w) && Send(w, w', o, e)
    ensures SentAreLocal(w')
  {
    forall p, i | p in w'.producers && 0 <= i < |w'.producers[p].sent|
      ensures LocalOf(p, w'.producers[p], i) in w'.locals
    {
      if i < |w.producers[p].sent| {
        assert LocalOf(p, w.producers[p], i) in w.locals;
      }
    }
  }

  lemma RegisterIsLocal(w: World, w': World, o: SystemId)
    requires SentAreLocal(w) && Register(w, w', o)
    ensures SentAreLocal(w')
  {
    forall p, i | p in w'.producers && 0 <= i < |w'.producers[p].sent|
      ensures LocalOf(p, w'.producers[p], i) in w'.locals
    {
      assert LocalOf(p, w.producers[p], i) in w.locals;
    }
  }

  lemma LocalsRest(w: World, w': World)
    requires Step(w, w') && !(exists o, e :: Send(w, w', o, e)) && !(exists o :: Register(w, w', o))
    requires !(exists o, r :: OpenProducer(w, w', o, r))
    ensures w'.producers == w.producers
  {
  }

  lemma LocalsUntouched(w: World, w': World)
    requires Step(w, w') && !(exists o, e :: Send(w, w', o, e)) && !(exists r, id :: Retry(w, w', r, id))
    ensures w'.locals == w.locals
  {
  }

  lemma LocalsStay(w: World, w': World)
    requires Step(w, w')
    ensures w.locals <= w'.locals
  {
    if o, e :| Send(w, w', o, e) {
    } else if r, id :| Retry(w, w', r, id) {
    } else {
      LocalsUntouched(w, w');
    }
  }

  lemma SentStayLocal(w: World, w': World)
    requires SentAreLocal(w) && Step(w, w')
    ensures SentAreLocal(w')
  {
    if o, e :| Send(w, w', o, e) {
      SendIsLocal(w, w', o, e);
    } else if o :| Register(w, w', o) {
      RegisterIsLocal(w, w', o);
    } else if o, r :| OpenProducer(w, w', o, r) {
    } else {
      LocalsRest(w, w');
      LocalsStay(w, w');
    }
  }

  lemma {:induction false} EverySentIsLocal(ws: seq<World>, n: nat)
    requires Run(ws) && n < |ws|
    ensures SentAreLocal(ws[n])
  {
    if n > 0 {
      EverySentIsLocal(ws, n - 1);
      assert StepAt(ws, n - 1);
      SentStayLocal(ws[n - 1], ws[n]);
    }
  }

  // ---------------------------------------------------------------- getting an event into the log

  /** The run goes on, and so far only a master has moved. */
  ghost predicate MasterMoves(ws: seq<World>, more: seq<World>)
    requires ws != []
  {
    && ws <= more && Run(more)
    && forall j :: |ws| <= j < |more| ==>
         more[j].routers == Last(ws).routers && more[j].producers == Last(ws).producers && more[j].locals == Last(ws).locals
  }

  lemma MovesOn(ws: seq<World>, more: seq<World>, w: World)
    requires ws != [] && MasterMoves(ws, more) && Step(Last(more), w)
    requires w.routers == Last(more).routers && w.producers == Last(more).producers && w.locals == Last(more).locals
    ensures MasterMoves(ws, more + [w])
  {
    OneStepMore(more, w);
  }

  /** The master indexes everything it has released. */
  lemma {:induction false} IndexPending(ws: seq<World>, so: seq<World>, s: Session) returns (more: seq<World>)
    requires ws != [] && MasterMoves(ws, so) && s in Last(so).masters
    ensures MasterMoves(ws, more) && s in Last(more).masters
    ensures Last(more).masters[s].pending == [] && Last(more).masters[s].buffers == Last(so).masters[s].buffers
    decreases |Last(so).masters[s].pending|
  {
    if Last(so).masters[s].pending == [] {
      return so;
    }
    var next := IndexStep(Last(so), s, 0);
    MovesOn(ws, so, next);
    more := IndexPending(ws, so + [next], s);
  }

  ghost function NextFrom(w: World, s: Session, p: SystemId): nat
    requires s in w.masters
  {
    BufferFor(w.masters[s].buffers, p).next
  }

  lemma DrainTakesNext(b: Buffer<Event>, e: Event)
    ensures Drained(Ingested(b, b.next, e)).next > b.next
  {
    DrainReachesLeastGap(Ingested(b, b.next, e));
  }

  lemma ReceivesNext(s: Session, m: Master, l: LocalEvent)
    requires Listed(m.buffers.order, m.buffers.buffers.Keys) && l.session == s
    requires l.idx == BufferFor(m.buffers, l.origin).next
    ensures BufferFor(MasterReceives(s, m, l).buffers, l.origin).next > l.idx
  {
    MultiIngestedListed(m.buffers, l.idx, l.event, l.origin);
    DrainTakesNext(BufferFor(m.buffers, l.origin), l.event);
  }

  lemma SourcesListed(ws: seq<World>, s: Session)
    requires Run(ws) && s in Last(ws).masters
    ensures Listed(Last(ws).masters[s].buffers.order, Last(ws).masters[s].buffers.buffers.Keys)
  {
    EveryReachableState(ws, |ws| - 1);
    assert MasterInv(s, Last(ws).masters[s], Last(ws).producers);
  }

  lemma TakeIn(w: World, s: Session, l: LocalEvent) returns (w': World)
    requires s in w.masters && l in w.locals && w.masters[s].pending == []
    requires Listed(w.masters[s].buffers.order, w.masters[s].buffers.buffers.Keys)
    ensures Step(w, w') && w' == w.(masters := w.masters[s := MasterReceives(s, w.masters[s], l)])
  {
    w' := w.(masters := w.masters[s := MasterReceives(s, w.masters[s], l)]);
    assert DeliverLocal(w, w', s, l);
  }

  /** The master takes in the sender's next event, and indexes what that releases. */
  lemma TakeNext(ws: seq<World>, so: seq<World>, s: Session, p: SystemId) returns (more: seq<World>)
    requires ws != [] && MasterMoves(ws, so) && s in Last(so).masters && Last(so).masters[s].pending == []
    requires p in Last(so).producers && Last(so).producers[p].session == s
    requires NextFrom(Last(so), s, p) < |Last(so).producers[p].sent|
    ensures MasterMoves(ws, more) && s in Last(more).masters && Last(more).masters[s].pending == []
    ensures NextFrom(Last(more), s, p) > NextFrom(Last(so), s, p)
  {
    var w := Last(so);
    var l := LocalOf(p, w.producers[p], NextFrom(w, s, p));
    SourcesListed(so, s);
    EverySentIsLocal(so, |so| - 1);
    assert l in w.locals;
    ReceivesNext(s, w.masters[s], l);
    var next := TakeIn(w, s, l);
    MovesOn(ws, so, next);
    more := IndexPending(ws, so + [next], s);
  }

  lemma {:induction false} TakeUpTo(ws: seq<World>, so: seq<World>, s: Session, p: SystemId, i: nat) returns (more: seq<World>)
    requires ws != [] && MasterMoves(ws, so) && s in Last(so).masters && Last(so).masters[s].pending == []
    requires p in Last(so).producers && Last(so).producers[p].session == s && i < |Last(so).producers[p].sent|
    ensures MasterMoves(ws, more) && s in Last(more).masters && Last(more).masters[s].pending == []
    ensures NextFrom(Last(more), s, p) > i
    decreases i - NextFrom(Last(so), s, p)
  {
    if NextFrom(Last(so), s, p) > i {
      return so;
    }
    var nearer := TakeNext(ws, so, s, p);
    more := TakeUpTo(ws, nearer, s, p, i);
  }

  lemma {:induction false} KeptHas(es: seq<Event>, i: nat)
    requires i < |es| && !es[i].body.TracesCollected?
    ensures Kernel(es[i]) in Kept(es)
  {
    if i > 0 {
      KeptHas(es[1..], i - 1);
    }
  }

  lemma {:induction false} LogOfComesFrom(log: seq<Event>, origins: seq<SystemId>, o: SystemId, e: Event)
    requires |log| == |origins| && e in LogOf(log, origins, o)
    ensures exists j :: 0 <= j < |log| && Kernel(log[j]) == e
    decreases |log|
  {
    var last := |log| - 1;
    if e in LogOf(log[..last], origins[..last], o) {
      LogOfComesFrom(log[..last], origins[..last], o, e);
      var j :| 0 <= j < |log[..last]| && Kernel(log[..last][j]) == e;
      assert log[j] == log[..last][j];
    } else {
      assert Kernel(log[last]) == e;
    }
  }

  lemma AccountedIsLogged(m: Master, p: SystemId, sent: seq<Event>, i: nat)
    requires |m.log| == |m.origins| && Accounted(m, p, sent) && m.pending == []
    requires i < BufferFor(m.buffers, p).next && i < |sent| && !sent[i].body.TracesCollected?
    ensures InLog(m.log, sent[i].id)
  {
    KeptHas(sent[..BufferFor(m.buffers, p).next], i);
    LogOfComesFrom(m.log, m.origins, p, Kernel(sent[i]));
    var j :| 0 <= j < |m.log| && Kernel(m.log[j]) == Kernel(sent[i]);
    assert m.log[j].id == sent[i].id;
  }

  /** With nothing left to index, every event below a sender's index is in the log. */
  lemma TakenIsLogged(ws: seq<World>, s: Session, p: SystemId, i: nat)
    requires Run(ws) && s in Last(ws).masters && Last(ws).masters[s].pending == []
    requires i < NextFrom(Last(ws), s, p) && i < |SentBy(Last(ws).producers, p)|
    requires !SentBy(Last(ws).producers, p)[i].body.TracesCollected?
    ensures InLog(Last(ws).masters[s].log, SentBy(Last(ws).producers, p)[i].id)
  {
    EveryReachableState(ws, |ws| - 1);
    var m, sent := Last(ws).masters[s], SentBy(Last(ws).producers, p);
    assert MasterInv(s, m, Last(ws).producers);
    assert Accounted(m, p, sent);
    AccountedIsLogged(m, p, sent, i);
  }

  lemma LogIt(ws: seq<World>, p: SystemId, i: nat) returns (more: seq<World>)
    requires Run(ws) && p in Last(ws).producers && i < |Last(ws).producers[p].sent|
    requires Last(ws).producers[p].session in Last(ws).masters
    requires !Last(ws).producers[p].sent[i].body.TracesCollected?
    ensures MasterMoves(ws, more) && Last(ws).producers[p].session in Last(more).masters
    ensures InLog(Last(more).masters[Last(ws).producers[p].session].log, Last(ws).producers[p].sent[i].id)
  {
    var s := Last(ws).producers[p].session;
    more := IndexPending(ws, ws, s);
    more := TakeUpTo(ws, more, s, p, i);
    TakenIsLogged(more, s, p, i);
  }

  // ---------------------------------------------------------------- leaving the outbox

  /** An event waits: entered for redelivery, and still in its router's outbox. */
  ghost predicate Waits(w: World, p: SystemId, i: nat)
  {
    && p in w.producers && i < w.producers[p].registered && i < |w.producers[p].sent|
    && w.producers[p].router in w.routers
    && w.producers[p].sent[i].id in w.routers[w.producers[p].router].outbox
  }

  ghost predicate HasLeft(w: World, p: SystemId, i: nat)
  {
    && p in w.producers && i < w.producers[p].registered && i < |w.producers[p].sent|
    && w.producers[p].router in w.routers
    && w.producers[p].sent[i].id !in w.routers[w.producers[p].router].outbox
  }

  /** The run can go on so that the event leaves the outbox. */
  ghost predicate CanLeave(ws: seq<World>, p: SystemId, i: nat)
  {
    exists more :: ws <= more && Run(more) && HasLeft(Last(more), p, i)
  }

  /** A step in which that router takes nothing off its outbox for a log entry it has released. */
  ghost predicate NothingRepeated(w: World, w': World, r: RouterId)
  {
    && r in w.routers && r in w'.routers
    && (w.routers[r].outbox.Keys <= w'.routers[r].outbox.Keys
        || exists g :: DeliverGlobal(w, w', r, g) && w.routers[r].buffer.next <= g.idx)
  }

  ghost predicate UnrepeatedAt(ws: seq<World>, k: nat, r: RouterId)
    requires k + 1 < |ws|
  {
    NothingRepeated(ws[k], ws[k + 1], r)
  }

  /** So it is with every step from the n-th world to the m-th. */
  ghost predicate NothingRepeatedFrom(ws: seq<World>, n: nat, m: nat, r: RouterId)
    requires n <= m < |ws|
  {
    forall k :: n <= k < m ==> UnrepeatedAt(ws, k, r)
  }

  /** The same without a broadcast that repeats an entry the router has released already. */
  ghost predicate CanLeaveUnrepeated(ws: seq<World>, p: SystemId, i: nat, r: RouterId)
    requires ws != []
  {
    exists more :: ws <= more && Run(more) && HasLeft(Last(more), p, i)
                   && NothingRepeatedFrom(more, |ws| - 1, |more| - 1, r)
  }

  /** The entry reaches the router: it is broadcast again and arrives. */
  lemma DeliverEntry(ws: seq<World>, s: Session, r: RouterId, j: nat) returns (w: World, w': World, g: GlobalEvent)
    requires Run(ws) && s in Last(ws).masters && j < |Last(ws).masters[s].log|
    requires r in Last(ws).routers && Last(ws).routers[r].session == s
    ensures Step(Last(ws), w) && w.routers == Last(ws).routers && w.producers == Last(ws).producers
    ensures Step(w, w') && DeliverGlobal(w, w', r, g) && w'.producers == w.producers
    ensures g == GlobalEvent(s.master, j, s, Last(ws).masters[s].log[j]) && r in w'.routers
    ensures w'.masters == Last(ws).masters
    ensures w'.routers[r].outbox == w.routers[r].outbox - {Last(ws).masters[s].log[j].id}
  {
    g := GlobalEvent(s.master, j, s, Last(ws).masters[s].log[j]);
    w := Last(ws).(globals := Last(ws).globals + {g});
    assert Rebroadcast(Last(ws), w, s, j);
    w' := w.(routers := w.routers[r := RouterReceives(w.routers[r], g)]);
    assert DeliverGlobal(w, w', r, g);
  }

  ghost function SessionOf(w: World, p: SystemId): Session
    requires p in w.producers
  {
    w.producers[p].session
  }

  /** The router's outbox lost that one event in the last step, and nothing before. */
  ghost predicate LeavesAtLast(ws: seq<World>, more: seq<World>, r: RouterId, first: nat)
    requires ws != []
  {
    && |ws| < |more| && ws <= more && Run(more)
    && (forall j :: |ws| <= j < |more| - 1 ==> more[j].routers == Last(ws).routers)
    && exists g :: DeliverGlobal(more[|more| - 2], more[|more| - 1], r, g) && first <= g.idx
  }

  /** What the router has released of its session's log. */
  ghost function Released(ws: seq<World>, r: RouterId): seq<Event>
    requires ws != [] && r in Last(ws).routers
  {
    var router := Last(ws).routers[r];
    var log := LogFor(Last(ws).masters, router.session);
    if router.buffer.next <= |log| then log[..router.buffer.next] else log
  }

  lemma ReleasedLength(ws: seq<World>, n: nat, r: RouterId)
    requires Run(ws) && n < |ws| && r in ws[n].routers
    ensures ws[n].routers[r].buffer.next <= |LogAt(ws, n, ws[n].routers[r].session)|
  {
    EveryReachableState(ws, n);
    assert RouterInv(ws[n].routers[r], LogFor(ws[n].masters, ws[n].routers[r].session));
  }

  lemma SenderSession(ws: seq<World>, n: nat, p: SystemId)
    requires Run(ws) && n < |ws| && p in ws[n].producers
    ensures ws[n].producers[p].router in ws[n].routers
    ensures ws[n].routers[ws[n].producers[p].router].session == ws[n].producers[p].session
  {
    EveryReachableState(ws, n);
  }

  lemma StillThere(log: seq<Event>, later: seq<Event>, next: nat, j: nat)
    requires log <= later && j < next <= |log|
    ensures InLog(log[..next], later[j].id)
  {
    assert log[..next][j] == later[j];
  }

  /** An entry of the log as it has become is one the router has not released, unless it was in the
      released part before. */
  lemma EntryIsNew(ws: seq<World>, more: seq<World>, r: RouterId, j: nat)
    requires ws != [] && ws <= more && Run(ws) && Run(more) && r in Last(ws).routers
    requires j < |LogFor(Last(more).masters, Last(ws).routers[r].session)|
    requires !InLog(Released(ws, r), LogFor(Last(more).masters, Last(ws).routers[r].session)[j].id)
    ensures Last(ws).routers[r].buffer.next <= j
  {
    var next, s := Last(ws).routers[r].buffer.next, Last(ws).routers[r].session;
    ReleasedLength(ws, |ws| - 1, r);
    LogsGrowTo(more, |ws| - 1, |more| - 1, s);
    if j < next {
      StillThere(LogFor(Last(ws).masters, s), LogFor(Last(more).masters, s), next, j);
    }
  }

  lemma LeavingRun(ws: seq<World>, logged: seq<World>, r: RouterId, w: World, w': World, g: GlobalEvent, first: nat)
    requires ws != [] && MasterMoves(ws, logged)
    requires Step(Last(logged), w) && w.routers == Last(ws).routers
    requires Step(w, w') && DeliverGlobal(w, w', r, g) && first <= g.idx
    ensures LeavesAtLast(ws, logged + [w, w'], r, first) && Last(logged + [w, w']) == w'
  {
    OneStepMore(logged, w);
    OneStepMore(logged + [w], w');
    var more := logged + [w, w'];
    assert more == logged + [w] + [w'];
    forall j | |ws| <= j < |more| - 1 ensures more[j].routers == Last(ws).routers {
      assert j < |logged| ==> more[j] == logged[j];
    }
    assert DeliverGlobal(more[|more| - 2], more[|more| - 1], r, g);
  }

  lemma MovedOnly(ws: seq<World>, more: seq<World>)
    requires ws != [] && MasterMoves(ws, more)
    ensures Last(more).routers == Last(ws).routers && Last(more).producers == Last(ws).producers
    ensures Run(more) && ws <= more
  {
  }

  /** The run in which it leaves: logged, if it is not yet, then broadcast once more and delivered. */
  lemma Leave(ws: seq<World>, p: SystemId, i: nat, r: RouterId, first: nat) returns (more: seq<World>)
    requires Run(ws) && Waits(Last(ws), p, i) && r == Last(ws).producers[p].router
    requires SessionOf(Last(ws), p) in Last(ws).masters && !Last(ws).producers[p].sent[i].body.TracesCollected?
    requires first == 0 || (first == Last(ws).routers[r].buffer.next
                            && !InLog(Released(ws, r), Last(ws).producers[p].sent[i].id))
    ensures LeavesAtLast(ws, more, r, first) && HasLeft(Last(more), p, i)
  {
    var s := SessionOf(Last(ws), p);
    var id := Last(ws).producers[p].sent[i].id;
    SenderSession(ws, |ws| - 1, p);
    var logged := LogIt(ws, p, i);
    MovedOnly(ws, logged);
    var log := Last(logged).masters[s].log;
    var j :| 0 <= j < |log| && log[j].id == id;
    if first != 0 {
      EntryIsNew(ws, logged, r, j);
    }
    var w, w', g := DeliverEntry(logged, s, r, j);
    LeavingRun(ws, logged, r, w, w', g, first);
    more := logged + [w, w'];
  }

  // ---------------------------------------------------------------- exactly when it can leave

  lemma LaterSender(ws: seq<World>, more: seq<World>, p: SystemId, i: nat)
    requires ws != [] && ws <= more && Run(more) && Waits(Last(ws), p, i)
    ensures p in Last(more).producers && SendsOn(Last(ws).producers[p], Last(more).producers[p])
    ensures i < |Last(more).producers[p].sent| && Last(more).producers[p].sent[i] == Last(ws).producers[p].sent[i]
  {
    RunOnlySends(more, |ws| - 1, |more| - 1, p);
  }

  lemma TraceNeverLeaves(ws: seq<World>, more: seq<World>, p: SystemId, i: nat)
    requires ws != [] && ws <= more && Run(more) && Waits(Last(ws), p, i)
    requires Last(ws).producers[p].sent[i].body.TracesCollected?
    ensures !HasLeft(Last(more), p, i)
  {
    LaterSender(ws, more, p, i);
    TraceReportsNeverSettle(more, |more| - 1, p, i);
  }

  /** From every reachable state in which the event waits, some continuation takes it off the outbox
      if and only if it is no trace report. */
  lemma LeavesExactly(ws: seq<World>, p: SystemId, i: nat)
    requires Run(ws) && Waits(Last(ws), p, i) && SessionOf(Last(ws), p) in Last(ws).masters
    ensures CanLeave(ws, p, i) <==> !Last(ws).producers[p].sent[i].body.TracesCollected?
  {
    if Last(ws).producers[p].sent[i].body.TracesCollected? {
      forall more | ws <= more && Run(more) ensures !HasLeft(Last(more), p, i) {
        TraceNeverLeaves(ws, more, p, i);
      }
    } else {
      var more := Leave(ws, p, i, Last(ws).producers[p].router, 0);
    }
  }

  lemma LastStepUnrepeated(ws: seq<World>, more: seq<World>, r: RouterId, first: nat)
    requires ws != [] && LeavesAtLast(ws, more, r, first)
    requires r in Last(ws).routers && first == Last(ws).routers[r].buffer.next
    ensures NothingRepeatedFrom(more, |ws| - 1, |more| - 1, r)
  {
    forall j | |ws| - 1 <= j < |more| - 1 ensures UnrepeatedAt(more, j, r) {
      assert more[|ws| - 1] == Last(ws);
      assert more[j].routers == Last(ws).routers;
      if j == |more| - 2 {
        var g :| DeliverGlobal(more[|more| - 2], more[|more| - 1], r, g) && first <= g.idx;
        assert DeliverGlobal(more[j], more[j + 1], r, g);
      } else {
        assert more[j + 1].routers == Last(ws).routers;
      }
    }
  }

  lemma EntriesDiffer(ws: seq<World>, m: nat, s: Session, j: nat, g: GlobalEvent)
    requires Run(ws) && m < |ws| && j < g.idx && g in ws[m].globals && g.session == s
    requires j < |LogFor(ws[m].masters, s)|
    ensures LogFor(ws[m].masters, s)[j].id != g.event.id
  {
    EveryReachableState(ws, m);
    assert LoggedAs(g, ws[m].masters);
    NoEventLoggedTwice(ws, m, s, j, g.idx);
  }

  /** The event is in the outbox, and entry j, which the router has released, is that event. */
  ghost predicate HoldsReleased(w: World, r: RouterId, id: EventId, j: nat)
  {
    && r in w.routers && id in w.routers[r].outbox && j < w.routers[r].buffer.next
    && var log := LogFor(w.masters, w.routers[r].session);
       j < |log| && log[j].id == id
  }

  ghost predicate HoldsAt(ws: seq<World>, n: nat, r: RouterId, id: EventId)
    requires n < |ws|
  {
    exists j :: HoldsReleased(ws[n], r, id, j)
  }

  lemma StaysInOutbox(ws: seq<World>, m: nat, r: RouterId, id: EventId, j: nat)
    requires Run(ws) && m + 1 < |ws| && HoldsReleased(ws[m], r, id, j)
    requires UnrepeatedAt(ws, m, r)
    ensures r in ws[m + 1].routers && id in ws[m + 1].routers[r].outbox
  {
    if !(ws[m].routers[r].outbox.Keys <= ws[m + 1].routers[r].outbox.Keys) {
      var g :| DeliverGlobal(ws[m], ws[m + 1], r, g) && ws[m].routers[r].buffer.next <= g.idx;
      if Addressed(ws[m].routers[r].session, g) {
        EntriesDiffer(ws, m, ws[m].routers[r].session, j, g);
      }
    }
  }

  lemma StaysReleased(ws: seq<World>, m: nat, r: RouterId, id: EventId)
    requires Run(ws) && m + 1 < |ws| && HoldsAt(ws, m, r, id)
    requires UnrepeatedAt(ws, m, r)
    ensures HoldsAt(ws, m + 1, r, id)
  {
    var j :| HoldsReleased(ws[m], r, id, j);
    StaysInOutbox(ws, m, r, id, j);
    StepOnlyAdds(ws, m, r);
    assert StepAt(ws, m);
    LogsOnlyGrow(ws[m], ws[m + 1]);
    assert LogFor(ws[m].masters, ws[m].routers[r].session) <= LogFor(ws[m + 1].masters, ws[m].routers[r].session);
    assert HoldsReleased(ws[m + 1], r, id, j);
  }

  lemma UnrepeatedTo(ws: seq<World>, n: nat, m: nat, r: RouterId)
    requires n < m < |ws| && NothingRepeatedFrom(ws, n, m, r)
    ensures NothingRepeatedFrom(ws, n, m - 1, r) && UnrepeatedAt(ws, m - 1, r)
  {
  }

  lemma {:induction false} ReleasedStays(ws: seq<World>, n: nat, m: nat, r: RouterId, id: EventId)
    requires Run(ws) && n <= m < |ws| && HoldsAt(ws, n, r, id)
    requires NothingRepeatedFrom(ws, n, m, r)
    ensures HoldsAt(ws, m, r, id)
    decreases m
  {
    if n < m {
      UnrepeatedTo(ws, n, m, r);
      ReleasedStays(ws, n, m - 1, r, id);
      StaysReleased(ws, m - 1, r, id);
    }
  }

  lemma ReleasedNeverLeaves(ws: seq<World>, more: seq<World>, p: SystemId, i: nat, r: RouterId)
    requires ws != [] && ws <= more && Run(ws) && Run(more) && Waits(Last(ws), p, i) && r == Last(ws).producers[p].router
    requires InLog(Released(ws, r), Last(ws).producers[p].sent[i].id)
    requires NothingRepeatedFrom(more, |ws| - 1, |more| - 1, r)
    ensures !HasLeft(Last(more), p, i)
  {
    var id, released := Last(ws).producers[p].sent[i].id, Released(ws, r);
    var j :| 0 <= j < |released| && released[j].id == id;
    LaterSender(ws, more, p, i);
    assert more[|ws| - 1] == Last(ws);
    assert HoldsReleased(more[|ws| - 1], r, id, j);
    ReleasedStays(more, |ws| - 1, |more| - 1, r, id);
  }

  /** Without such repeats it can leave if and only if it is also not among the entries its router
      has released: an event that came back before it was entered waits for a repeat. */
  lemma LeavesUnrepeatedExactly(ws: seq<World>, p: SystemId, i: nat, r: RouterId)
    requires Run(ws) && Waits(Last(ws), p, i) && SessionOf(Last(ws), p) in Last(ws).masters
    requires r == Last(ws).producers[p].router
    ensures CanLeaveUnrepeated(ws, p, i, r)
       <==> !Last(ws).producers[p].sent[i].body.TracesCollected?
            && !InLog(Released(ws, r), Last(ws).producers[p].sent[i].id)
  {
    var e := Last(ws).producers[p].sent[i];
    if e.body.TracesCollected? {
      forall more | ws <= more && Run(more) ensures !HasLeft(Last(more), p, i) {
        TraceNeverLeaves(ws, more, p, i);
      }
    } else if InLog(Released(ws, r), e.id) {
      forall more | ws <= more && Run(more) && NothingRepeatedFrom(more, |ws| - 1, |more| - 1, r)
        ensures !HasLeft(Last(more), p, i)
      {
        ReleasedNeverLeaves(ws, more, p, i, r);
      }
    } else {
      var more := Leave(ws, p, i, r, Last(ws).routers[r].buffer.next);
      LastStepUnrepeated(ws, more, r, Last(ws).routers[r].buffer.next);
    }
  }

  // ---------------------------------------------------------------- a run that loses the race

  /** One master, one router, one sender, and one event sent but not yet entered for redelivery. */
  lemma OneEventSent(s: Session, e: Event) returns (ws: seq<World>)
    ensures Run(ws) && s in Last(ws).masters
    ensures Last(ws).routers == map[0 := NewRouter(s)] && Last(ws).producers == map[0 := Producer(s, 0, [e], 0)]
  {
    var w0 := World(map[], map[], map[], map[], {}, {});
    var w1 := w0.(masters := w0.masters[s := NEW_MASTER]);
    var w2 := w1.(routers := w1.routers[0 := NewRouter(s)]);
    var w3 := w2.(producers := w2.producers[0 := Producer(s, 0, [], 0)]);
    var q := w3.producers[0];
    var w4 := w3.(producers := w3.producers[0 := q.(sent := q.sent + [e])],
                  locals := w3.locals + {LocalEvent(0, |q.sent|, q.session, e)});
    assert StartMaster(w0, w1, s);
    OneStepMore([w0], w1);
    assert OpenRouter(w1, w2, 0, s);
    OneStepMore([w0] + [w1], w2);
    assert OpenProducer(w2, w3, 0, 0);
    OneStepMore([w0] + [w1] + [w2], w3);
    assert Send(w3, w4, 0, e);
    OneStepMore([w0] + [w1] + [w2] + [w3], w4);
    ws := [w0] + [w1] + [w2] + [w3] + [w4];
    assert q.sent + [e] == [e];
  }

  lemma OnlyEventLogged(ws: seq<World>, s: Session, e: Event)
    requires Run(ws) && s in Last(ws).masters && Last(ws).masters[s].log != []
    requires Last(ws).producers == map[0 := Producer(s, 0, [e], 0)]
    ensures Last(ws).masters[s].log[0].id == e.id
  {
    var k := LogEntryWasSent(ws, |ws| - 1, s, 0);
  }

  lemma ReleasedFirst(ws: seq<World>, w: World, w': World, g: GlobalEvent, s: Session, e: Event)
    requires Run(ws) && Step(Last(ws), w) && s in Last(ws).masters && w.routers == map[0 := NewRouter(s)]
    requires DeliverGlobal(w, w', 0, g) && g.idx == 0 && Addressed(s, g)
    ensures w'.routers.Keys == {0} && w'.routers[0].session == s && w'.routers[0].buffer.next > 0
  {
    DrainTakesNext(w.routers[0].buffer, g.event);
  }

  lemma Entered(w: World, s: Session, e: Event) returns (w': World)
    requires w.producers == map[0 := Producer(s, 0, [e], 0)] && w.routers.Keys == {0}
    ensures Register(w, w', 0) && Step(w, w') && w'.masters == w.masters
    ensures w'.producers == map[0 := Producer(s, 0, [e], 1)] && w'.routers.Keys == {0}
    ensures w'.routers[0].buffer == w.routers[0].buffer && w'.routers[0].session == w.routers[0].session
    ensures e.id in w'.routers[0].outbox
  {
    var q, r := w.producers[0], w.routers[0];
    w' := w.(producers := w.producers[0 := q.(registered := 1)],
             routers := w.routers[0 := r.(outbox := r.outbox[e.id := LocalEvent(0, 0, s, e)])]);
    assert Register(w, w', 0);
  }

  /** Sent, logged, and back at the router before it is entered: it waits although its entry is
      released, and stays for as long as that entry is not repeated. */
  lemma EchoBeforeEntry(s: Session, e: Event) returns (ws: seq<World>)
    requires !e.body.TracesCollected?
    ensures Run(ws) && Waits(Last(ws), 0, 0) && Last(ws).producers[0].sent == [e]
    ensures SessionOf(Last(ws), 0) in Last(ws).masters && Last(ws).producers[0].router == 0
    ensures !CanLeaveUnrepeated(ws, 0, 0, 0)
  {
    var sent := OneEventSent(s, e);
    var logged := LogIt(sent, 0, 0);
    MovedOnly(sent, logged);
    OnlyEventLogged(logged, s, e);
    var w, w', g := DeliverEntry(logged, s, 0, 0);
    OneStepMore(logged, w);
    OneStepMore(logged + [w], w');
    var back := logged + [w] + [w'];
    ReleasedFirst(logged, w, w', g, s, e);
    var last := Entered(w', s, e);
    OneStepMore(back, last);
    ws := back + [last];
    assert Released(ws, 0)[0].id == e.id;
    LeavesUnrepeatedExactly(ws, 0, 0, 0);
  }
}
