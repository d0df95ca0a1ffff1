/** What the replicated event log promises, over every run of the step system. */
module ReplicationResults {
  import opened Common
  import opened Cluster
  import opened EventBuffer
  import opened Replication
  import opened ReplicationSafety

  // ---------------------------------------------------------------- replicas agree

  lemma RouterDelivered(r: Router, log: seq<Event>)
    requires RouterInv(r, log)
    ensures |r.delivered| <= |log| && forall i :: 0 <= i < |r.delivered| ==> r.delivered[i] == (i, log[i])
  {
    IndexedAt(0, log[..r.buffer.next]);
  }

  /** What a router has handed its receivers is the first entries of its session's log, numbered
      from zero: no gap, no repeat, nothing of another session. */
  lemma {:induction false} DeliveredIsLogPrefix(ws: seq<World>, n: nat, r: RouterId)
    requires Run(ws) && n < |ws| && r in ws[n].routers
    ensures var d := ws[n].routers[r].delivered;
            var log := LogFor(ws[n].masters, ws[n].routers[r].session);
            |d| <= |log| && forall i :: 0 <= i < |d| ==> d[i] == (i, log[i])
  {
    EveryReachableState(ws, n);
    var log := LogFor(ws[n].masters, ws[n].routers[r].session);
    assert RouterInv(ws[n].routers[r], log);
    RouterDelivered(ws[n].routers[r], log);
  }

  /** Of two routers of one session, one has delivered a prefix of the other. */
  lemma {:induction false} ReplicasArePrefixes(ws: seq<World>, n: nat, q: RouterId, r: RouterId)
    requires Run(ws) && n < |ws| && q in ws[n].routers && r in ws[n].routers
    requires ws[n].routers[q].session == ws[n].routers[r].session
    ensures var a, b := ws[n].routers[q].delivered, ws[n].routers[r].delivered;
            a <= b || b <= a
  {
    DeliveredIsLogPrefix(ws, n, q);
    DeliveredIsLogPrefix(ws, n, r);
  }

  /** A consumer that has applied `k` events of its current session holds the fold of the first
      `k` log entries of that session, whatever sessions it went through before; so does the
      master for its whole log. */
  lemma {:induction false} ConsumersHoldFolds(ws: seq<World>, n: nat, c: ConsumerId)
    requires Run(ws) && n < |ws| && c in ws[n].consumers
    ensures var k := ws[n].consumers[c];
            && k.router in ws[n].routers
            && var log := LogFor(ws[n].masters, ws[n].routers[k.router].session);
               k.applied <= |log| && k.state == Fold(log[..k.applied])
  {
    EveryReachableState(ws, n);
    assert ConsumerInv(ws[n].consumers[c], ws[n].routers, ws[n].masters);
  }

  lemma {:induction false} MasterHoldsFold(ws: seq<World>, n: nat, s: Session)
    requires Run(ws) && n < |ws| && s in ws[n].masters
    ensures ws[n].masters[s].state == Fold(ws[n].masters[s].log)
  {
    EveryReachableState(ws, n);
    assert MasterInv(s, ws[n].masters[s], ws[n].producers);
  }

  // ---------------------------------------------------------------- no assertion fails

  /** `apply` never meets an event out of order, at a consumer or at a master. */
  lemma {:induction false} ApplyNeverAsserts(ws: seq<World>, n: nat)
    requires Run(ws) && n < |ws|
    ensures forall c :: c in ws[n].consumers ==>
              var k := ws[n].consumers[c];
              && k.router in ws[n].routers
              && var d := ws[n].routers[k.router].delivered;
                 k.applied < |d| ==> Apply(k.state, d[k.applied].0, d[k.applied].1).Some?
    ensures forall s, e :: s in ws[n].masters ==>
              Apply(ws[n].masters[s].state, |ws[n].masters[s].log|, e).Some?
  {
    EveryReachableState(ws, n);
    var w := ws[n];
    forall c | c in w.consumers
      ensures w.consumers[c].router in w.routers
      ensures var k := w.consumers[c];
              var d := w.routers[k.router].delivered;
              k.applied < |d| ==> Apply(k.state, d[k.applied].0, d[k.applied].1).Some?
    {
      assert ConsumerInv(w.consumers[c], w.routers, w.masters);
      if w.consumers[c].applied < |w.routers[w.consumers[c].router].delivered| {
        NextDelivery(w, c);
      }
    }
    forall s, e | s in w.masters ensures Apply(w.masters[s].state, |w.masters[s].log|, e).Some? {
      assert MasterInv(s, w.masters[s], w.producers);
      FoldIndex(w.masters[s].log);
    }
  }

  /** The buffers' own assertion holds for every message that can arrive, early, late or again. */
  lemma {:induction false} BuffersNeverAssert(ws: seq<World>, n: nat)
    requires Run(ws) && n < |ws|
    ensures forall r, g :: r in ws[n].routers && g in ws[n].globals && Addressed(ws[n].routers[r].session, g) ==>
              Accepts(ws[n].routers[r].buffer, g.idx, g.event)
    ensures forall r, g :: r in ws[n].routers && g in ws[n].globals && Addressed(ws[n].routers[r].session, g)
                           && g.idx in ws[n].routers[r].buffer.store ==>
              ws[n].routers[r].buffer.store[g.idx] == g.event
    ensures forall s, l :: s in ws[n].masters && l in ws[n].locals && l.session == s ==>
              Accepts(BufferFor(ws[n].masters[s].buffers, l.origin), l.idx, l.event)
  {
    EveryReachableState(ws, n);
    var w := ws[n];
    forall r, g | r in w.routers && g in w.globals && Addressed(w.routers[r].session, g)
      ensures Accepts(w.routers[r].buffer, g.idx, g.event)
      ensures g.idx in w.routers[r].buffer.store ==> w.routers[r].buffer.store[g.idx] == g.event
    {
      assert LoggedAs(g, w.masters) && RouterInv(w.routers[r], LogFor(w.masters, w.routers[r].session));
    }
    forall s, l | s in w.masters && l in w.locals && l.session == s
      ensures Accepts(BufferFor(w.masters[s].buffers, l.origin), l.idx, l.event)
    {
      assert SentAs(l, w.producers) && MasterInv(s, w.masters[s], w.producers);
      ReceivedBuffer(w.masters[s], l, w.producers);
    }
  }

  // ---------------------------------------------------------------- each origin, once and in order

  /** The log restricted to one origin is what a prefix of that origin's events leaves: in order,
      once each, trace reports dropped. */
  lemma {:induction false} LogHoldsOriginPrefix(ws: seq<World>, n: nat, s: Session, o: SystemId)
    requires Run(ws) && n < |ws| && s in ws[n].masters
    ensures |ws[n].masters[s].log| == |ws[n].masters[s].origins|
    ensures exists k :: 0 <= k <= |SentBy(ws[n].producers, o)|
              && LogOf(ws[n].masters[s].log, ws[n].masters[s].origins, o) == Kept(SentBy(ws[n].producers, o)[..k])
  {
    EveryReachableState(ws, n);
    var m := ws[n].masters[s];
    assert MasterInv(s, m, ws[n].producers);
    assert Accounted(m, o, SentBy(ws[n].producers, o));
    var k := BufferFor(m.buffers, o).next - |PendingOf(m.pending, o)|;
    assert LogOf(m.log, m.origins, o) == Kept(SentBy(ws[n].producers, o)[..k]);
  }

  lemma {:induction false} KeptComesFrom(es: seq<Event>, i: nat)
    requires i < |Kept(es)|
    ensures exists j :: 0 <= j < |es| && !es[j].body.TracesCollected? && Kept(es)[i] == Kernel(es[j])
  {
    var head := if es[0].body.TracesCollected? then [] else [Kernel(es[0])];
    if i < |head| {
      assert Kept(es)[i] == Kernel(es[0]);
    } else {
      KeptComesFrom(es[1..], i - |head|);
      var j :| 0 <= j < |es[1..]| && !es[1..][j].body.TracesCollected?
               && Kept(es[1..])[i - |head|] == Kernel(es[1..][j]);
      assert es[1..][j] == es[j + 1];
    }
  }

  ghost predicate UniqueIds(es: seq<Event>)
  {
    forall i, j :: 0 <= i < j < |es| ==> es[i].id != es[j].id
  }

  lemma {:induction false} KeptUnique(es: seq<Event>)
    requires UniqueIds(es)
    ensures UniqueIds(Kept(es))
  {
    if es != [] {
      var tail := es[1..];
      assert forall i :: 0 <= i < |tail| ==> tail[i] == es[i + 1];
      KeptUnique(tail);
      forall i | 0 <= i < |Kept(tail)| ensures Kept(tail)[i].id != es[0].id {
        KeptComesFrom(tail, i);
      }
    }
  }

  ghost function Earlier(origins: seq<SystemId>, o: SystemId): nat
  {
    if origins == [] then 0
    else Earlier(origins[..|origins| - 1], o) + if origins[|origins| - 1] == o then 1 else 0
  }

  lemma {:induction false} LogLength(log: seq<Event>, origins: seq<SystemId>, o: SystemId)
    requires |log| == |origins|
    ensures |LogOf(log, origins, o)| == Earlier(origins, o)
    decreases |log|
  {
    if log != [] {
      LogLength(log[..|log| - 1], origins[..|log| - 1], o);
    }
  }

  /** Log entry `i` stands in its origin's sequence behind the entries of that origin before it. */
  lemma {:induction false} LogPosition(log: seq<Event>, origins: seq<SystemId>, i: nat)
    requires |log| == |origins| && i < |log|
    ensures Earlier(origins[..i], origins[i]) < |LogOf(log, origins, origins[i])|
    ensures LogOf(log, origins, origins[i])[Earlier(origins[..i], origins[i])] == Kernel(log[i])
    decreases |log|
  {
    var last := |log| - 1;
    if i < last {
      assert log[..last][i] == log[i] && origins[..last][i] == origins[i] && origins[..last][..i] == origins[..i];
      LogPosition(log[..last], origins[..last], i);
    } else {
      LogLength(log[..last], origins[..last], origins[last]);
    }
  }

  lemma {:induction false} EarlierCounts(origins: seq<SystemId>, i: nat, j: nat, o: SystemId)
    requires i < j <= |origins| && origins[i] == o
    ensures Earlier(origins[..i], o) < Earlier(origins[..j], o)
    decreases j
  {
    var front := origins[..j];
    assert front[..j - 1] == origins[..j - 1];
    if i < j - 1 {
      EarlierCounts(origins, i, j - 1, o);
    }
  }

  lemma {:induction false} EarlierGrows(origins: seq<SystemId>, i: nat, j: nat)
    requires i < j < |origins| && origins[i] == origins[j]
    ensures Earlier(origins[..i], origins[i]) < Earlier(origins[..j], origins[j])
    decreases j
  {
    var front := origins[..j];
    assert front[..j - 1] == origins[..j - 1] && front[j - 1] == origins[j - 1];
    if i < j - 1 {
      EarlierCounts(origins, i, j - 1, origins[i]);
    }
  }

  /** Every log entry is one sent event, time aside, and never a trace report. */
  lemma {:induction false} LogEntryWasSent(ws: seq<World>, n: nat, s: Session, i: nat) returns (k: nat)
    requires Run(ws) && n < |ws| && s in ws[n].masters && i < |ws[n].masters[s].log|
    ensures |ws[n].masters[s].log| == |ws[n].masters[s].origins|
    ensures var sent := SentBy(ws[n].producers, ws[n].masters[s].origins[i]);
            && k < |sent| && Kernel(ws[n].masters[s].log[i]) == Kernel(sent[k])
            && !ws[n].masters[s].log[i].body.TracesCollected?
  {
    LogHoldsOriginPrefix(ws, n, s, 0);
    var m := ws[n].masters[s];
    var o := m.origins[i];
    LogHoldsOriginPrefix(ws, n, s, o);
    LogPosition(m.log, m.origins, i);
    var sent := SentBy(ws[n].producers, o);
    var upto :| 0 <= upto <= |sent| && LogOf(m.log, m.origins, o) == Kept(sent[..upto]);
    KeptComesFrom(sent[..upto], Earlier(m.origins[..i], o));
    k :| 0 <= k < |sent[..upto]| && !sent[..upto][k].body.TracesCollected?
         && Kept(sent[..upto])[Earlier(m.origins[..i], o)] == Kernel(sent[..upto][k]);
  }

  lemma OriginEntriesDiffer(log: seq<Event>, origins: seq<SystemId>, es: seq<Event>, i: nat, j: nat)
    requires |log| == |origins| && i < j < |log| && origins[i] == origins[j]
    requires LogOf(log, origins, origins[i]) == Kept(es) && UniqueIds(es)
    ensures log[i].id != log[j].id
  {
    KeptUnique(es);
    LogPosition(log, origins, i);
    LogPosition(log, origins, j);
    EarlierGrows(origins, i, j);
  }

  lemma SameIdSameEvent(producers: map<SystemId, Producer>, p: SystemId, i: nat, q: SystemId, j: nat)
    requires IdsInv(producers) && i < |SentBy(producers, p)| && j < |SentBy(producers, q)|
    requires SentBy(producers, p)[i].id == SentBy(producers, q)[j].id
    ensures p == q && i == j
  {
  }

  lemma SentUnique(producers: map<SystemId, Producer>, o: SystemId, upto: nat)
    requires IdsInv(producers) && upto <= |SentBy(producers, o)|
    ensures UniqueIds(SentBy(producers, o)[..upto])
  {
  }

  /** No event is logged twice, in spite of resending and redelivery. */
  lemma {:induction false} NoEventLoggedTwice(ws: seq<World>, n: nat, s: Session, i: nat, j: nat)
    requires Run(ws) && n < |ws| && s in ws[n].masters && i < j < |ws[n].masters[s].log|
    ensures ws[n].masters[s].log[i].id != ws[n].masters[s].log[j].id
  {
    var producers, log, origins := ws[n].producers, ws[n].masters[s].log, ws[n].masters[s].origins;
    EveryReachableState(ws, n);
    var a := LogEntryWasSent(ws, n, s, i);
    var b := LogEntryWasSent(ws, n, s, j);
    if origins[i] != origins[j] {
      if log[i].id == log[j].id {
        SameIdSameEvent(producers, origins[i], a, origins[j], b);
      }
    } else {
      LogHoldsOriginPrefix(ws, n, s, origins[i]);
      var sent := SentBy(producers, origins[i]);
      var upto :| 0 <= upto <= |sent| && LogOf(log, origins, origins[i]) == Kept(sent[..upto]);
      SentUnique(producers, origins[i], upto);
      OriginEntriesDiffer(log, origins, sent[..upto], i, j);
    }
  }

  // ---------------------------------------------------------------- nothing accepted is dropped

  ghost predicate LoggedEvent(log: seq<Event>, e: Event)
  {
    exists j :: 0 <= j < |log| && Kernel(log[j]) == Kernel(e)
  }

  /** A log entry with a sent event's identifier is that event. */
  lemma {:induction false} FoundInLog(ws: seq<World>, n: nat, s: Session, p: SystemId, i: nat)
    requires Run(ws) && n < |ws| && i < |SentBy(ws[n].producers, p)|
    requires InLog(LogFor(ws[n].masters, s), SentBy(ws[n].producers, p)[i].id)
    ensures LoggedEvent(LogFor(ws[n].masters, s), SentBy(ws[n].producers, p)[i])
  {
    var log, e := LogFor(ws[n].masters, s), SentBy(ws[n].producers, p)[i];
    var j :| 0 <= j < |log| && log[j].id == e.id;
    EveryReachableState(ws, n);
    var k := LogEntryWasSent(ws, n, s, j);
    SameIdSameEvent(ws[n].producers, p, i, ws[n].masters[s].origins[j], k);
    assert Kernel(log[j]) == Kernel(e);
  }

  /** An event entered for redelivery is still being resent by its router, or it is in the log. */
  lemma {:induction false} AcceptedEventsSurvive(ws: seq<World>, n: nat, p: SystemId, i: nat)
    requires Run(ws) && n < |ws| && p in ws[n].producers && i < ws[n].producers[p].registered
    ensures var q := ws[n].producers[p];
            && q.router in ws[n].routers && i < |q.sent|
            && (q.sent[i].id in ws[n].routers[q.router].outbox
                || LoggedEvent(LogFor(ws[n].masters, q.session), q.sent[i]))
  {
    EveryReachableState(ws, n);
    var w, q := ws[n], ws[n].producers[p];
    assert ProducersInv(w.producers, w.routers) && DeliveryInv(w.producers, w.routers, w.masters);
    if InLog(LogFor(w.masters, q.session), q.sent[i].id) {
      FoundInLog(ws, n, q.session, p, i);
    }
  }

  /** A trace report never reaches the log, so once entered it is resent for ever. */
  lemma {:induction false} TraceReportsNeverSettle(ws: seq<World>, n: nat, p: SystemId, i: nat)
    requires Run(ws) && n < |ws| && p in ws[n].producers && i < ws[n].producers[p].registered
    requires i < |ws[n].producers[p].sent| && ws[n].producers[p].sent[i].body.TracesCollected?
    ensures ws[n].producers[p].router in ws[n].routers
    ensures ws[n].producers[p].sent[i].id in ws[n].routers[ws[n].producers[p].router].outbox
  {
    AcceptedEventsSurvive(ws, n, p, i);
    var q := ws[n].producers[p];
    var log := LogFor(ws[n].masters, q.session);
    forall j | 0 <= j < |log| ensures Kernel(log[j]) != Kernel(q.sent[i]) {
      var k := LogEntryWasSent(ws, n, q.session, j);
    }
  }

  /** Indexing an event that is no trace report adds exactly one entry to the log: the event, with the
      time of indexing if it is gathered information. The master broadcasts that entry. */
  lemma IndexedWithTime(w: World, w': World, s: Session, now: Time)
    requires Index(w, w', s, now) && !w.masters[s].pending[0].1.body.TracesCollected?
    ensures s in w'.masters && |w'.masters[s].log| == |w.masters[s].log| + 1 && w.masters[s].log <= w'.masters[s].log
    ensures var i := |w.masters[s].log|;
            && Timed(w.masters[s].pending[0].1, now, w'.masters[s].log[i])
            && GlobalEvent(s.master, i, s, w'.masters[s].log[i]) in w'.globals
  {
    StampIsTimed(w.masters[s].pending[0].1, now);
  }
}
