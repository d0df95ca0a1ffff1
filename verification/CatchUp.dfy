/** Catching up from end to end: a router asks for the log from its release index, the master
    answers, and the answer reaches the router in any order, with repeats, among other traffic. */
module CatchUp {
  import opened Common
  import opened Cluster
  import opened EventBuffer
  import opened Replication
  import opened ReplicationSafety
  import opened ReplicationResults
  import opened MasterNode

  /** A router after a sequence of arrivals. */
  ghost function ReceivesAll(r: Router, gs: seq<GlobalEvent>): Router
  {
    if gs == [] then r else RouterReceives(ReceivesAll(r, gs[..|gs| - 1]), gs[|gs| - 1])
  }

  /** The log indices of those that are for this session. */
  ghost function IndicesOf(session: Session, gs: seq<GlobalEvent>): seq<nat>
  {
    if gs == [] then []
    else IndicesOf(session, gs[..|gs| - 1]) + if Addressed(session, gs[|gs| - 1]) then [gs[|gs| - 1].idx] else []
  }

  /** What arrives for the session carries entries of its log. */
  ghost predicate Genuine(session: Session, log: seq<Event>, gs: seq<GlobalEvent>)
  {
    forall k :: 0 <= k < |gs| && Addressed(session, gs[k]) ==> gs[k].idx < |log| && gs[k].event == log[gs[k].idx]
  }

  lemma {:induction false} IndicesAre(session: Session, log: seq<Event>, gs: seq<GlobalEvent>)
    requires Genuine(session, log, gs)
    ensures forall k :: 0 <= k < |IndicesOf(session, gs)| ==> IndicesOf(session, gs)[k] < |log|
    ensures forall g :: g in gs && Addressed(session, g) ==> g.idx in IndicesOf(session, gs)
  {
    if gs != [] {
      var front, last := gs[..|gs| - 1], gs[|gs| - 1];
      assert gs == front + [last];
      IndicesAre(session, log, front);
    }
  }

  lemma SameFeed(b: Buffer<Event>, log: seq<Event>, arrivals: seq<nat>, idx: nat)
    requires (forall k :: 0 <= k < |arrivals| ==> arrivals[k] < |log|) && idx < |log|
    ensures Fed(b, log, arrivals + [idx]) == Arrived(Fed(b, log, arrivals), log, idx)
  {
    assert (arrivals + [idx])[..|arrivals|] == arrivals;
  }

  /** Foreign traffic aside, the router's buffer is fed exactly the arriving entries. */
  lemma {:induction false} ReceivesAllFeeds(r: Router, log: seq<Event>, gs: seq<GlobalEvent>)
    requires Genuine(r.session, log, gs)
    ensures ReceivesAll(r, gs).session == r.session
    ensures forall k :: 0 <= k < |IndicesOf(r.session, gs)| ==> IndicesOf(r.session, gs)[k] < |log|
    ensures ReceivesAll(r, gs).buffer == Fed(r.buffer, log, IndicesOf(r.session, gs))
  {
    IndicesAre(r.session, log, gs);
    if gs != [] {
      var front, last := gs[..|gs| - 1], gs[|gs| - 1];
      ReceivesAllFeeds(r, log, front);
      if Addressed(r.session, last) {
        SameFeed(r.buffer, log, IndicesOf(r.session, front), last.idx);
      } else {
        assert IndicesOf(r.session, gs) == IndicesOf(r.session, front);
      }
    }
  }

  /** The messages of an answer to a request from index `since`, given when the log was `log`. */
  ghost function AnswerTo(session: Session, log: seq<Event>, since: nat): seq<GlobalEvent>
  {
    Broadcast(session, log[..if since + REPLY_LIMIT <= |log| then since + REPLY_LIMIT else |log|], since)
  }

  lemma AnswerCovers(session: Session, log: seq<Event>, since: nat, i: nat)
    requires since <= i < |log| && i < since + REPLY_LIMIT
    ensures GlobalEvent(session.master, i, session, log[i]) in AnswerTo(session, log, since)
  {
    var upTo := log[..if since + REPLY_LIMIT <= |log| then since + REPLY_LIMIT else |log|];
    BroadcastAt(session, upTo, since, i - since);
    assert Broadcast(session, upTo, since)[i - since] == GlobalEvent(session.master, i, session, log[i]);
  }

  /** One router on its own: an answer given when the log was `log`, to a request for an index the
      router had not passed before, among anything from a log that has grown since. */
  lemma AnswerAdvances(r: Router, since: nat, log: seq<Event>, later: seq<Event>, gs: seq<GlobalEvent>)
    requires RouterInv(r, later) && Genuine(r.session, later, gs) && log <= later && since <= r.buffer.next
    requires forall g :: g in AnswerTo(r.session, log, since) ==> g in gs
    ensures ReceivesAll(r, gs).buffer.next >= (if since + REPLY_LIMIT <= |log| then since + REPLY_LIMIT else |log|)
  {
    ReceivesAllFeeds(r, later, gs);
    IndicesAre(r.session, later, gs);
    var arrivals := IndicesOf(r.session, gs);
    var end := if since + REPLY_LIMIT <= |log| then since + REPLY_LIMIT else |log|;
    forall i: nat | r.buffer.next <= i < end ensures i in arrivals {
      AnswerCovers(r.session, log, since, i);
    }
    ArrivalsCloseGap(r.buffer, later, arrivals, end);
  }

  // ---------------------------------------------------------------- runs only add

  lemma LogPut(masters: map<Session, Master>, s: Session, m: Master)
    requires LogFor(masters, s) <= m.log
    ensures LogsGrow(masters, masters[s := m])
  {
  }

  lemma MastersRest(w: World, w': World)
    requires Step(w, w') && !(exists s :: StartMaster(w, w', s))
    requires !(exists s, l :: DeliverLocal(w, w', s, l)) && !(exists s, now :: Index(w, w', s, now))
    ensures w'.masters == w.masters
  {
  }

  lemma LogsOnlyGrow(w: World, w': World)
    requires Step(w, w')
    ensures LogsGrow(w.masters, w'.masters)
  {
    if s :| StartMaster(w, w', s) {
      LogPut(w.masters, s, NEW_MASTER);
    } else if s, l :| DeliverLocal(w, w', s, l) {
      LogPut(w.masters, s, MasterReceives(s, w.masters[s], l));
    } else if s, now :| Index(w, w', s, now) {
      LogPut(w.masters, s, MasterIndexes(w.masters[s], now));
    } else {
      MastersRest(w, w');
    }
  }

  /** A router that stays what it is, except that its buffer may know more. */
  ghost predicate Learns(r: Router, r': Router)
  {
    && r'.session == r.session && r.buffer.next <= r'.buffer.next
    && forall i: nat :: Knows(r.buffer, i) ==> Knows(r'.buffer, i)
  }

  lemma ReceivingLearns(r: Router, g: GlobalEvent, log: seq<Event>)
    requires RouterInv(r, log) && Addressed(r.session, g) && g.idx < |log| && g.event == log[g.idx]
    ensures Learns(r, RouterReceives(r, g)) && Knows(RouterReceives(r, g).buffer, g.idx)
  {
    ArrivalAddsOneIndex(r.buffer, log, g.idx);
  }

  /** What a delivery does to the router it reaches. */
  lemma DeliveryLearns(w: World, w': World, id: RouterId, g: GlobalEvent)
    requires Inv(w) && DeliverGlobal(w, w', id, g)
    ensures Learns(w.routers[id], w'.routers[id])
    ensures Addressed(w.routers[id].session, g) ==> Knows(w'.routers[id].buffer, g.idx)
  {
    var r := w.routers[id];
    if Addressed(r.session, g) {
      assert LoggedAs(g, w.masters) && RouterInv(r, LogFor(w.masters, r.session));
      ReceivingLearns(r, g, LogFor(w.masters, r.session));
    }
  }

  lemma RoutersRest(w: World, w': World, id: RouterId)
    requires Step(w, w') && !(exists r, g :: DeliverGlobal(w, w', r, g)) && id in w.routers
    ensures id in w'.routers && w'.routers[id].session == w.routers[id].session
    ensures w'.routers[id].buffer == w.routers[id].buffer
  {
  }

  lemma RoutersOnlyLearn(w: World, w': World, id: RouterId)
    requires Inv(w) && Step(w, w') && id in w.routers
    ensures id in w'.routers && Learns(w.routers[id], w'.routers[id])
  {
    if r, g :| DeliverGlobal(w, w', r, g) {
      DeliveryLearns(w, w', r, g);
    } else {
      RoutersRest(w, w', id);
    }
  }

  lemma StepOnlyAdds(ws: seq<World>, n: nat, id: RouterId)
    requires Run(ws) && n + 1 < |ws| && id in ws[n].routers
    ensures id in ws[n + 1].routers && Learns(ws[n].routers[id], ws[n + 1].routers[id])
  {
    EveryReachableState(ws, n);
    assert StepAt(ws, n);
    RoutersOnlyLearn(ws[n], ws[n + 1], id);
  }

  lemma LearnsOn(a: Router, b: Router, c: Router)
    requires Learns(a, b) && Learns(b, c)
    ensures Learns(a, c)
  {
  }

  lemma {:induction false} RunOnlyAdds(ws: seq<World>, n: nat, m: nat, id: RouterId)
    requires Run(ws) && n <= m < |ws| && id in ws[n].routers
    ensures id in ws[m].routers && Learns(ws[n].routers[id], ws[m].routers[id])
    decreases m
  {
    if n < m {
      RunOnlyAdds(ws, n, m - 1, id);
      StepOnlyAdds(ws, m - 1, id);
      LearnsOn(ws[n].routers[id], ws[m - 1].routers[id], ws[m].routers[id]);
    }
  }

  // ---------------------------------------------------------------- answered requests in a run

  /** The message reached the router at some step before the m-th world. */
  ghost predicate Reached(ws: seq<World>, m: nat, id: RouterId, g: GlobalEvent)
    requires m < |ws|
  {
    exists j :: 0 <= j < m && DeliverGlobal(ws[j], ws[j + 1], id, g)
  }

  /** A router asks from its release index, the master answers later from the log it has then, and
      later still all of the answer has arrived; other traffic goes on meanwhile, and the log grows. */
  datatype Round = Round(asked: nat, answered: nat, done: nat)

  ghost function LogAt(ws: seq<World>, n: nat, session: Session): seq<Event>
    requires n < |ws|
  {
    LogFor(ws[n].masters, session)
  }

  ghost predicate AnsweredRound(ws: seq<World>, id: RouterId, r: Round)
  {
    && r.asked <= r.answered <= r.done < |ws| && id in ws[r.asked].routers
    && var asking := ws[r.asked].routers[id];
       forall g :: g in AnswerTo(asking.session, LogAt(ws, r.answered, asking.session), asking.buffer.next) ==>
         Reached(ws, r.done, id, g)
  }

  lemma KnownAfter(ws: seq<World>, j: nat, id: RouterId, g: GlobalEvent)
    requires Run(ws) && j + 1 < |ws| && DeliverGlobal(ws[j], ws[j + 1], id, g)
    ensures id in ws[j + 1].routers
    ensures Addressed(ws[j].routers[id].session, g) ==> Knows(ws[j + 1].routers[id].buffer, g.idx)
  {
    EveryReachableState(ws, j);
    DeliveryLearns(ws[j], ws[j + 1], id, g);
  }

  lemma ReachedIsKnown(ws: seq<World>, m: nat, id: RouterId, g: GlobalEvent)
    requires Run(ws) && m < |ws| && id in ws[m].routers && Reached(ws, m, id, g)
    requires Addressed(ws[m].routers[id].session, g)
    ensures Knows(ws[m].routers[id].buffer, g.idx)
  {
    var j :| 0 <= j < m && DeliverGlobal(ws[j], ws[j + 1], id, g);
    RunOnlyAdds(ws, j, m, id);
    KnownAfter(ws, j, id, g);
    RunOnlyAdds(ws, j + 1, m, id);
  }

  /** In every run: once the answer to a request has arrived, in any order and among anything else,
      the router is a thousand entries on from where it asked, or at the end of the log as it was
      when the answer was given. */
  lemma {:induction false} RoundAdvances(ws: seq<World>, id: RouterId, r: Round)
    requires Run(ws) && AnsweredRound(ws, id, r)
    ensures id in ws[r.done].routers
    ensures var asking, log := ws[r.asked].routers[id], LogAt(ws, r.answered, ws[r.asked].routers[id].session);
            var next := ws[r.done].routers[id].buffer.next;
            next >= asking.buffer.next && (next >= asking.buffer.next + 1000 || next >= |log|)
  {
    RunOnlyAdds(ws, r.asked, r.done, id);
    var asking, after := ws[r.asked].routers[id], ws[r.done].routers[id];
    var since, log := asking.buffer.next, LogAt(ws, r.answered, asking.session);
    EveryReachableState(ws, r.done);
    assert RouterInv(after, LogAt(ws, r.done, after.session));
    forall i: nat | i < since + REPLY_LIMIT && i < |log| ensures Knows(after.buffer, i) {
      if i < since {
        assert Knows(asking.buffer, i);
      } else {
        AnswerCovers(asking.session, log, since, i);
        ReachedIsKnown(ws, r.done, id, GlobalEvent(asking.session.master, i, asking.session, log[i]));
      }
    }
    assert !Knows(after.buffer, after.buffer.next);
  }

  lemma {:induction false} LogsGrowTo(ws: seq<World>, n: nat, m: nat, s: Session)
    requires Run(ws) && n <= m < |ws|
    ensures LogAt(ws, n, s) <= LogAt(ws, m, s)
    decreases m
  {
    if n < m {
      LogsGrowTo(ws, n, m - 1, s);
      assert StepAt(ws, m - 1);
      LogsOnlyGrow(ws[m - 1], ws[m]);
      assert LogFor(ws[m - 1].masters, s) <= LogFor(ws[m].masters, s);
    }
  }

  /** Rounds one after the other, each asked once the one before is done. */
  ghost predicate Rounds(ws: seq<World>, id: RouterId, rounds: seq<Round>)
  {
    && (forall k :: 0 <= k < |rounds| ==> AnsweredRound(ws, id, rounds[k]))
    && forall k :: 0 < k < |rounds| ==> rounds[k - 1].done <= rounds[k].asked
  }

  /** Every round brings a thousand entries until the log, as it was when the first answer was
      given, is reached: a log of N entries takes one round for every thousand that were missing. */
  lemma {:induction false} RoundsCatchUp(ws: seq<World>, id: RouterId, rounds: seq<Round>)
    requires Run(ws) && rounds != [] && Rounds(ws, id, rounds)
    ensures var first, last := rounds[0], rounds[|rounds| - 1];
            && first.answered <= last.done && id in ws[last.done].routers
            && var asking, caught := ws[first.asked].routers[id], ws[last.done].routers[id];
               && caught.session == asking.session
               && (caught.buffer.next >= asking.buffer.next + 1000 * |rounds|
                   || caught.buffer.next >= |LogAt(ws, first.answered, asking.session)|)
    decreases |rounds|
  {
    var k := |rounds| - 1;
    RoundAdvances(ws, id, rounds[k]);
    RunOnlyAdds(ws, rounds[k].asked, rounds[k].done, id);
    if k > 0 {
      RoundsCatchUp(ws, id, rounds[..k]);
      RunOnlyAdds(ws, rounds[k - 1].done, rounds[k].asked, id);
      LogsGrowTo(ws, rounds[0].answered, rounds[k].answered, ws[rounds[0].asked].routers[id].session);
    }
  }
}
