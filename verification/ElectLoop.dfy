/** What a node does with election results: it becomes master or steps down, and gives everything
    that reads the log a router of the new session. */
module ElectLoop {
  import opened Common
  import opened Election

  /** The sessions the node's parts are attached to; an absent part has none. */
  datatype Loop = Loop(
    id: NodeId, router: Session, master: Option<Session>, downloads: Option<Session>,
    worker: Option<Session>, api: Option<Session>, apiRound: nat)

  /** The loop's own assertion: whoever stays master is not new. */
  ghost predicate Acceptable(l: Loop, r: Result)
  {
    r.session.master == l.id && l.master.Some? ==> !r.isNewMaster
  }

  ghost function Moved(part: Option<Session>, r: Result): Option<Session>
  {
    if r.isNewMaster && part.Some? then Some(r.session) else part
  }

  ghost function Took(l: Loop, r: Result): Loop
  {
    Loop(l.id, if r.isNewMaster then r.session else l.router,
         if r.session.master != l.id then None else if l.master.Some? then l.master else Some(r.session),
         Moved(l.downloads, r), Moved(l.worker, r), Moved(l.api, r),
         if l.api.Some? then r.wonClock else l.apiRound)
  }

  /** Every part belongs to the router's session, and the node is master exactly of its own. */
  ghost predicate Attached(l: Loop)
  {
    && l.master == (if l.router.master == l.id then Some(l.router) else None)
    && (l.downloads.Some? ==> l.downloads.value == l.router)
    && (l.worker.Some? ==> l.worker.value == l.router)
    && (l.api.Some? ==> l.api.value == l.router)
  }

  /** A result is new exactly when it names another session than the one before it. */
  ghost predicate Flagged(router: Session, r: Result)
  {
    r.isNewMaster <==> r.session != router
  }

  /** The assertion fails exactly on a second session of a node that is master already. */
  lemma AcceptableExactly(l: Loop, r: Result)
    requires Attached(l) && Flagged(l.router, r)
    ensures Acceptable(l, r)
       <==> !(l.router.master == l.id && r.session.master == l.id && r.session != l.router)
    ensures Acceptable(l, r) ==> Attached(Took(l, r)) && Took(l, r).router == r.session
  {
  }

  function StartedLoop(id: NodeId, withDownloads: bool, withWorker: bool, withApi: bool): Loop
  {
    var s := Session(id, 0);
    Loop(id, s, Some(s), if withDownloads then Some(s) else None,
         if withWorker then Some(s) else None, if withApi then Some(s) else None, 0)
  }

  /** What one result comes to: no part comes or goes but the master, and those there are follow a new
      session. */
  lemma TakingAResult(l: Loop, r: Result)
    ensures var t := Took(l, r);
            && t.id == l.id && t.router == (if r.isNewMaster then r.session else l.router)
            && t.downloads == (if r.isNewMaster && l.downloads.Some? then Some(r.session) else l.downloads)
            && t.worker == (if r.isNewMaster && l.worker.Some? then Some(r.session) else l.worker)
            && t.api == (if r.isNewMaster && l.api.Some? then Some(r.session) else l.api)
            && t.apiRound == (if l.api.Some? then r.wonClock else l.apiRound)
            && (t.master.Some? <==> r.session.master == l.id)
            && (t.master.Some? && l.master.Some? ==> t.master == l.master)
            && (t.master.Some? && l.master.None? ==> t.master.value == r.session)
  {
  }

  class NodeLoop {
    const id: NodeId
    var router: Session
    var master: Option<Session>
    var downloads: Option<Session>
    var worker: Option<Session>
    var api: Option<Session>
    var apiRound: nat

    ghost function Value(): Loop
      reads this
    {
      Loop(id, router, master, downloads, worker, api, apiRound)
    }

    constructor (id: NodeId, withDownloads: bool, withWorker: bool, withApi: bool)
      ensures Value() == StartedLoop(id, withDownloads, withWorker, withApi)
      ensures Attached(Value()) && router == Session(id, 0) && master == Some(router) && apiRound == 0
      ensures downloads == (if withDownloads then Some(router) else None)
      ensures worker == (if withWorker then Some(router) else None) && api == (if withApi then Some(router) else None)
    {
      this.id, router, master, apiRound := id, Session(id, 0), Some(Session(id, 0)), 0;
      downloads := if withDownloads then Some(Session(id, 0)) else None;
      worker := if withWorker then Some(Session(id, 0)) else None;
      api := if withApi then Some(Session(id, 0)) else None;
    }

    method OnResult(r: Result)
      requires Acceptable(Value(), r)
      modifies this
      ensures Value() == Took(old(Value()), r)
    {
      if r.isNewMaster {
        router := r.session;
      }
      if r.session.master == id && master.Some? {
        assert !r.isNewMaster;
      } else if r.session.master == id && master.None? {
        master := Some(r.session);
      } else if r.session.master != id && master.Some? {
        master := None;
      }
      if r.isNewMaster {
        if downloads.Some? {
          downloads := Some(router);
        }
        if worker.Some? {
          worker := Some(router);
        }
        if api.Some? {
          api, apiRound := Some(router), r.wonClock;
        }
      } else if api.Some? {
        apiRound := r.wonClock;
      }
    }
  }

  // ---------------------------------------------------------------- election and loop together

  /** `reigns` is history: the sessions this node has been master of. */
  datatype World = World(node: Node, queue: seq<Result>, loop: Loop, reigns: seq<Session>)

  datatype Turn = OnNode(move: Move) | Take

  ghost predicate Possible(w: World, turn: Turn)
  {
    match turn
    case OnNode(move) => WellFormed(w.node) && Enabled(w.node, move)
    case Take => w.queue != [] && Acceptable(w.loop, w.queue[0])
  }

  ghost function Next(w: World, turn: Turn): World
    requires Possible(w, turn)
  {
    match turn
    case OnNode(move) =>
      w.(node := After(w.node, move),
         queue := w.queue + if move.Finish? then [Verdict(w.node, move.campaign)] else [])
    case Take =>
      w.(queue := w.queue[1..], loop := Took(w.loop, w.queue[0]),
         reigns := w.reigns + if w.loop.master.None? && Took(w.loop, w.queue[0]).master.Some?
                              then [w.queue[0].session] else [])
  }

  ghost predicate Start(w: World)
  {
    && w.node == Started(w.node.id, w.node.seniority) && w.queue == []
    && w.loop == StartedLoop(w.node.id, w.loop.downloads.Some?, w.loop.worker.Some?, w.loop.api.Some?)
    && w.reigns == [w.node.session]
  }

  ghost predicate Run(ws: seq<World>, turns: seq<Turn>)
  {
    && |ws| == |turns| + 1 && Start(ws[0])
    && forall i :: 0 <= i < |turns| ==> Possible(ws[i], turns[i]) && ws[i + 1] == Next(ws[i], turns[i])
  }

  // ---------------------------------------------------------------- any interleaving

  /** Every queued result is flagged against the one before it. */
  ghost predicate Chained(router: Session, queue: seq<Result>)
    decreases queue
  {
    queue == [] || (Flagged(router, queue[0]) && Chained(queue[0].session, queue[1..]))
  }

  ghost function LastSession(router: Session, queue: seq<Result>): Session
  {
    if queue == [] then router else queue[|queue| - 1].session
  }

  lemma {:induction false} ChainGrows(router: Session, queue: seq<Result>, r: Result)
    requires Chained(router, queue) && Flagged(LastSession(router, queue), r)
    ensures Chained(router, queue + [r])
    decreases queue
  {
    if queue == [] {
      assert (queue + [r])[1..] == [];
    } else {
      ChainGrows(queue[0].session, queue[1..], r);
      assert (queue + [r])[1..] == queue[1..] + [r];
    }
  }

  ghost predicate LooseInv(w: World)
  {
    && w.loop.id == w.node.id && RoundInv(w.node) && Attached(w.loop)
    && Chained(w.loop.router, w.queue) && LastSession(w.loop.router, w.queue) == w.node.session
  }

  lemma TurnKeepsLoose(w: World, turn: Turn)
    requires LooseInv(w) && Possible(w, turn)
    ensures LooseInv(Next(w, turn))
  {
    if turn.OnNode? {
      MoveKeepsRound(w.node, turn.move);
      if turn.move.Finish? {
        ChainGrows(w.loop.router, w.queue, Verdict(w.node, turn.move.campaign));
      } else {
        assert w.queue + [] == w.queue;
      }
    } else {
      AcceptableExactly(w.loop, w.queue[0]);
    }
  }

  /** In every run: once all results are taken, router, worker, download coordinator and API are
      in the session the election holds current, and the node is master exactly if it won. */
  lemma {:induction false} NodeFollowsElection(ws: seq<World>, turns: seq<Turn>)
    requires Run(ws, turns)
    ensures forall i :: 0 <= i < |ws| ==> LooseInv(ws[i])
    ensures forall i :: 0 <= i < |ws| && ws[i].queue == [] ==>
              && ws[i].loop.router == ws[i].node.session && Attached(ws[i].loop)
              && (ws[i].loop.master.Some? <==> ws[i].node.session.master == ws[i].node.id)
    decreases |ws|
  {
    if |turns| > 0 {
      var last := |turns| - 1;
      NodeFollowsElection(ws[..|ws| - 1], turns[..last]);
      assert LooseInv(ws[..|ws| - 1][last]);
      TurnKeepsLoose(ws[last], turns[last]);
    }
  }

  ghost predicate SameParts(a: Loop, b: Loop)
  {
    && (a.downloads.Some? <==> b.downloads.Some?) && (a.worker.Some? <==> b.worker.Some?)
    && (a.api.Some? <==> b.api.Some?)
  }

  /** In every run the node keeps the download coordinator, the worker and the API it was started with,
      and the API knows the round of the result taken last. */
  lemma {:induction false} PartsStay(ws: seq<World>, turns: seq<Turn>, i: nat)
    requires Run(ws, turns) && i < |ws|
    ensures SameParts(ws[i].loop, ws[0].loop)
    ensures i < |turns| && turns[i].Take? && ws[0].loop.api.Some? ==>
              ws[i].queue != [] && ws[i + 1].loop.apiRound == ws[i].queue[0].wonClock
  {
    if i > 0 {
      PartsStay(ws, turns, i - 1);
    }
  }

  /** The loop gets through all queued results without its assertion failing. */
  ghost predicate CanTakeAll(l: Loop, queue: seq<Result>)
    decreases queue
  {
    queue == [] || (Acceptable(l, queue[0]) && CanTakeAll(Took(l, queue[0]), queue[1..]))
  }

  ghost function WinnerBefore(router: Session, queue: seq<Result>, k: nat): Session
    requires k < |queue|
  {
    if k == 0 then router else queue[k - 1].session
  }

  /** Result k elects the node again, and under another session than the one it won just before. */
  ghost predicate SecondReign(id: NodeId, router: Session, queue: seq<Result>, k: nat)
    requires k < |queue|
  {
    && WinnerBefore(router, queue, k).master == id && queue[k].session.master == id
    && queue[k].session != WinnerBefore(router, queue, k)
  }

  lemma {:induction false} TakesAllExactly(l: Loop, queue: seq<Result>)
    requires Attached(l) && Chained(l.router, queue)
    ensures CanTakeAll(l, queue) <==> !exists k :: 0 <= k < |queue| && SecondReign(l.id, l.router, queue, k)
    decreases queue
  {
    if queue != [] {
      AcceptableExactly(l, queue[0]);
      if SecondReign(l.id, l.router, queue, 0) {
        assert !CanTakeAll(l, queue);
      } else {
        var next := Took(l, queue[0]);
        TakesAllExactly(next, queue[1..]);
        forall k | 0 < k < |queue|
          ensures SecondReign(l.id, l.router, queue, k) <==> SecondReign(l.id, next.router, queue[1..], k - 1)
        {
        }
        if k :| 0 <= k < |queue[1..]| && SecondReign(l.id, next.router, queue[1..], k) {
          assert SecondReign(l.id, l.router, queue, k + 1);
        }
      }
    }
  }

  /** In every run, under any interleaving: the loop gets through the queued results if and only if
      none of them elects this node under a new session right after it won under another. */
  lemma QueueTakenExactly(ws: seq<World>, turns: seq<Turn>, i: nat)
    requires Run(ws, turns) && i < |ws|
    ensures var w := ws[i];
            CanTakeAll(w.loop, w.queue)
            <==> !exists k :: 0 <= k < |w.queue| && SecondReign(w.node.id, w.loop.router, w.queue, k)
  {
    NodeFollowsElection(ws, turns);
    TakesAllExactly(ws[i].loop, ws[i].queue);
  }

  // ---------------------------------------------------------------- rounds that do not overlap

  /** No campaign has yet to begin voting. */
  ghost predicate Calm(n: Node)
  {
    forall c :: c in n.campaigns ==> c.phase.Voting? || c.phase.Ended?
  }

  /** A new round may interrupt a vote, but not a campaign that still waits to begin. */
  ghost predicate Orderly(w: World, turn: Turn)
  {
    turn.OnNode? && (turn.move.Peer? || (turn.move.Hear? && StartsRound(w.node, turn.move.message))) ==>
      Calm(w.node)
  }

  ghost predicate Pending(k: Campaign)
  {
    k.phase.Scheduled? || k.phase.Waiting?
  }

  /** The campaigns are over but for the last, or the last has yet to begin and the one before it
      may still be voting. */
  ghost predicate OneAtATime(n: Node)
  {
    var k := |n.campaigns| - 1;
    && n.current == k
    && (forall i :: 0 <= i < k - 1 ==> n.campaigns[i].phase.Ended?)
    && (k > 0 ==> n.campaigns[k - 1].phase.Ended?
                  || (n.campaigns[k - 1].phase.Voting? && Pending(n.campaigns[k])))
    && (n.campaigns[k].phase.Waiting? ==> k > 0 && n.campaigns[k].phase.on == k - 1)
    && (n.campaigns[k].phase.Waiting? && n.campaigns[k - 1].phase.Voting? ==> n.campaigns[k - 1].cancelled)
    && (forall i :: 0 <= i <= k && n.campaigns[i].phase.Voting? ==> n.scope == Some(i))
    && n.done == (if !Pending(n.campaigns[k]) then Some(k) else if k == 0 then None else Some(k - 1))
    && (k > 0 ==> n.campaigns[k - 1].clock < n.clock)
  }

  /** What the node itself proposes in a campaign. */
  ghost predicate OwnStatus(n: Node, k: Campaign)
  {
    forall m :: m in k.candidates && m.session.master == n.id ==>
      && k.phase.Voting?
      && m.session == if n.session.master == n.id then n.session else Session(n.id, k.clock)
  }

  ghost predicate Proposals(n: Node)
  {
    forall i :: 0 <= i < |n.campaigns| && !n.campaigns[i].phase.Ended? ==> OwnStatus(n, n.campaigns[i])
  }

  /** No reign of this node reaches the round of a campaign that could start another. */
  ghost predicate Below(n: Node, high: nat)
  {
    var k := |n.campaigns| - 1;
    && k >= 0
    && (n.session.master == n.id ==> n.session.clock <= high)
    && (if Pending(n.campaigns[k]) then (if k == 0 then n.session.master == n.id && high <= n.clock
                                         else high < n.clock)
        else high <= n.clock)
    && (forall i :: 0 <= i < |n.campaigns| && n.campaigns[i].phase.Voting? ==>
          n.session.master == n.id || high < n.campaigns[i].clock)
  }

  ghost function High(id: NodeId, high: nat, s: Session): nat
  {
    if s.master == id && high < s.clock then s.clock else high
  }

  /** The node's own sessions among the results start later and later, and are never interrupted
      by another of its own. */
  ghost predicate Rising(id: NodeId, router: Session, high: nat, queue: seq<Result>)
    decreases queue
  {
    queue == [] ||
    var s := queue[0].session;
    && (s.master == id ==> s == router || (router.master != id && high < s.clock))
    && Rising(id, s, High(id, high, s), queue[1..])
  }

  ghost function LastHigh(id: NodeId, high: nat, queue: seq<Result>): nat
    decreases queue
  {
    if queue == [] then high else LastHigh(id, High(id, high, queue[0].session), queue[1..])
  }

  lemma {:induction false} RisingGrows(id: NodeId, router: Session, high: nat, queue: seq<Result>, r: Result)
    requires Rising(id, router, high, queue)
    requires r.session.master == id ==>
               || r.session == LastSession(router, queue)
               || (LastSession(router, queue).master != id && LastHigh(id, high, queue) < r.session.clock)
    ensures Rising(id, router, high, queue + [r])
    ensures LastHigh(id, high, queue + [r]) == High(id, LastHigh(id, high, queue), r.session)
    decreases queue
  {
    if queue == [] {
      assert queue + [r] == [r] && [r][1..] == [];
    } else {
      assert (queue + [r])[1..] == queue[1..] + [r];
      RisingGrows(id, queue[0].session, High(id, high, queue[0].session), queue[1..], r);
    }
  }

  ghost predicate Reigns(id: NodeId, reigns: seq<Session>)
  {
    && reigns != []
    && (forall s :: s in reigns ==> s.master == id)
    && forall i, j :: 0 <= i < j < |reigns| ==> reigns[i].clock < reigns[j].clock
  }

  ghost predicate NodeInv(n: Node, high: nat)
  {
    RoundInv(n) && OneAtATime(n) && Proposals(n) && Below(n, high)
  }

  /** Only the newest campaign's list, and nothing else, changes while a round goes on. */
  lemma CollectedKeeps(n: Node, high: nat, m: Message, n': Node)
    requires NodeInv(n, high) && m.session.master != n.id && m.clock == n.clock && n' == Heard(n, m) && RoundInv(n')
    ensures NodeInv(n', high)
  {
    assert OneAtATime(n');
    assert Proposals(n');
  }

  /** A new round in a calm node. */
  lemma RoundKeeps(n: Node, high: nat, clock: nat, first: seq<Message>, n': Node)
    requires NodeInv(n, high) && Calm(n) && clock > n.clock && n' == NewRound(n, clock, first) && RoundInv(n')
    requires forall m :: m in first ==> m.session.master != n.id
    ensures NodeInv(n', high)
  {
    assert n.campaigns[n.current] in n.campaigns;
    assert OneAtATime(n');
    assert Proposals(n');
  }

  lemma HearingKeeps(n: Node, high: nat, m: Message)
    requires NodeInv(n, high) && (StartsRound(n, m) ==> Calm(n))
    ensures NodeInv(Heard(n, m), high)
  {
    MoveKeepsRound(n, Hear(m));
    if StartsRound(n, m) {
      RoundKeeps(n, high, m.clock, [m], Heard(n, m));
    } else if m.session.master != n.id && m.clock == n.clock {
      CollectedKeeps(n, high, m, Heard(n, m));
    }
  }

  lemma PeerKeeps(n: Node, high: nat)
    requires NodeInv(n, high) && Calm(n)
    ensures NodeInv(PeerChanged(n), high)
  {
    MoveKeepsRound(n, Peer);
    RoundKeeps(n, high, n.clock + 1, [], PeerChanged(n));
  }

  lemma EnterOneAtATime(n: Node, c: nat, n': Node)
    requires WellFormed(n) && OneAtATime(n) && Enabled(n, Enter(c)) && n' == Entered(n, c)
    ensures OneAtATime(n') && c == |n.campaigns| - 1
  {
  }

  lemma EnterProposals(n: Node, high: nat, c: nat, n': Node)
    requires NodeInv(n, high) && Enabled(n, Enter(c)) && n' == Entered(n, c) && c == |n.campaigns| - 1
    ensures Proposals(n') && Below(n', high)
  {
  }

  lemma EnterKeeps(n: Node, high: nat, c: nat)
    requires NodeInv(n, high) && Enabled(n, Enter(c))
    ensures NodeInv(Entered(n, c), high)
  {
    MoveKeepsRound(n, Enter(c));
    EnterOneAtATime(n, c, Entered(n, c));
    EnterProposals(n, high, c, Entered(n, c));
  }

  lemma WakeKeeps(n: Node, high: nat, c: nat)
    requires NodeInv(n, high) && Enabled(n, Wake(c))
    ensures NodeInv(Begun(n, c), high)
  {
    MoveKeepsRound(n, Wake(c));
  }

  lemma StopKeeps(n: Node, high: nat, c: nat)
    requires NodeInv(n, high) && Enabled(n, Stop(c))
    ensures NodeInv(Closed(n, c), high)
  {
    MoveKeepsRound(n, Stop(c));
  }

  /** A winner of this node's own is the session it already has, or one above all its reigns. */
  lemma OwnWinner(n: Node, high: nat, c: nat)
    requires NodeInv(n, high) && Enabled(n, Finish(c))
    ensures var s := Verdict(n, c).session;
            s.master == n.id ==> s == n.session || (n.session.master != n.id && high < s.clock <= n.clock)
    ensures c < |n.campaigns| - 1 && Verdict(n, c).session.master == n.id ==> Verdict(n, c).session.clock < n.clock
  {
    var k := n.campaigns[c];
    assert Greatest(k.candidates) in k.candidates;
    assert OwnStatus(n, k);
  }

  lemma FinishKeeps(n: Node, high: nat, c: nat)
    requires NodeInv(n, high) && Enabled(n, Finish(c))
    ensures NodeInv(Won(n, c), High(n.id, high, Verdict(n, c).session))
  {
    MoveKeepsRound(n, Finish(c));
    OwnWinner(n, high, c);
    var n', high' := Won(n, c), High(n.id, high, Verdict(n, c).session);
    assert OneAtATime(n');
    assert Below(n', high');
  }

  /** A campaign that has entered stops the vote before it: from then on only its own can decide. */
  lemma OnlyTheNewestDecides(n: Node, high: nat, c: nat)
    requires NodeInv(n, high) && Enabled(n, Finish(c))
    ensures c == n.current || n.campaigns[n.current].phase.Scheduled?
    ensures c == n.current ==> SameRound(n.campaigns[c].candidates, n.clock)
  {
  }

  ghost predicate OrderlyInv(w: World)
  {
    && LooseInv(w) && Reigns(w.node.id, w.reigns)
    && var reign := w.reigns[|w.reigns| - 1];
       && (w.loop.router.master == w.node.id ==> w.loop.router == reign)
       && Rising(w.node.id, w.loop.router, reign.clock, w.queue)
       && NodeInv(w.node, LastHigh(w.node.id, reign.clock, w.queue))
  }

  lemma NodeTurnKeeps(n: Node, high: nat, move: Move)
    requires NodeInv(n, high) && Enabled(n, move)
    requires move.Peer? || (move.Hear? && StartsRound(n, move.message)) ==> Calm(n)
    ensures NodeInv(After(n, move), if move.Finish? then High(n.id, high, Verdict(n, move.campaign).session) else high)
  {
    match move
    case Hear(m) => HearingKeeps(n, high, m);
    case Peer => PeerKeeps(n, high);
    case Command => MoveKeepsRound(n, move);
    case Enter(c) => EnterKeeps(n, high, c);
    case Wake(c) => WakeKeeps(n, high, c);
    case Finish(c) => FinishKeeps(n, high, c);
    case Stop(c) => StopKeeps(n, high, c);
  }

  /** The loop never meets a result it would refuse. */
  lemma OrderlyAccepts(w: World)
    requires OrderlyInv(w) && w.queue != []
    ensures Acceptable(w.loop, w.queue[0]) && Flagged(w.loop.router, w.queue[0])
  {
    AcceptableExactly(w.loop, w.queue[0]);
  }

  lemma MoveKeepsOrderly(w: World, move: Move)
    requires OrderlyInv(w) && Possible(w, OnNode(move)) && Orderly(w, OnNode(move))
    ensures OrderlyInv(Next(w, OnNode(move)))
  {
    var reign := w.reigns[|w.reigns| - 1];
    var high := LastHigh(w.node.id, reign.clock, w.queue);
    TurnKeepsLoose(w, OnNode(move));
    NodeTurnKeeps(w.node, high, move);
    if move.Finish? {
      OwnWinner(w.node, high, move.campaign);
      RisingGrows(w.node.id, w.loop.router, reign.clock, w.queue, Verdict(w.node, move.campaign));
    } else {
      assert w.queue + [] == w.queue;
    }
  }

  lemma TakeKeepsOrderly(w: World)
    requires OrderlyInv(w) && Possible(w, Take)
    ensures OrderlyInv(Next(w, Take))
  {
    TurnKeepsLoose(w, Take);
    var s, reign := w.queue[0].session, w.reigns[|w.reigns| - 1];
    var w' := Next(w, Take);
    if s.master == w.node.id && w.loop.router.master != w.node.id {
      assert w'.reigns == w.reigns + [s];
      assert High(w.node.id, reign.clock, s) == s.clock;
    } else {
      assert w'.reigns == w.reigns;
    }
  }

  lemma StartIsOrderly(w: World)
    requires Start(w)
    ensures OrderlyInv(w)
  {
  }

  ghost predicate OrderlyRun(ws: seq<World>, turns: seq<Turn>)
  {
    Run(ws, turns) && forall i :: 0 <= i < |turns| ==> Orderly(ws[i], turns[i])
  }

  lemma TurnKeepsOrderly(w: World, turn: Turn)
    requires OrderlyInv(w) && Possible(w, turn) && Orderly(w, turn)
    ensures OrderlyInv(Next(w, turn))
  {
    if turn.OnNode? {
      MoveKeepsOrderly(w, turn.move);
    } else {
      TakeKeepsOrderly(w);
    }
  }

  lemma {:induction false} OrderlyRunHolds(ws: seq<World>, turns: seq<Turn>, i: nat)
    requires OrderlyRun(ws, turns) && i < |ws|
    ensures OrderlyInv(ws[i])
  {
    if i == 0 {
      StartIsOrderly(ws[0]);
    } else {
      OrderlyRunHolds(ws, turns, i - 1);
      TurnKeepsOrderly(ws[i - 1], turns[i - 1]);
    }
  }

  /** While no round starts before the last one's campaign votes: the loop takes every result,
      and the node is never master twice under one session. */
  lemma OrderlyRunsAreSafe(ws: seq<World>, turns: seq<Turn>, i: nat)
    requires OrderlyRun(ws, turns) && i < |ws|
    ensures ws[i].queue != [] ==> Possible(ws[i], Take)
    ensures forall j, k :: 0 <= j < k < |ws[i].reigns| ==> ws[i].reigns[j] != ws[i].reigns[k]
    ensures ws[i].loop.master.Some? ==>
              ws[i].reigns != [] && ws[i].loop.master.value == ws[i].reigns[|ws[i].reigns| - 1]
  {
    OrderlyRunHolds(ws, turns, i);
    if ws[i].queue != [] {
      OrderlyAccepts(ws[i]);
    }
  }

  // ---------------------------------------------------------------- rounds that overlap

  lemma Extend(ws: seq<World>, turns: seq<Turn>, turn: Turn) returns (more: seq<World>, all: seq<Turn>)
    requires Run(ws, turns) && Possible(ws[|ws| - 1], turn)
    ensures Run(more, all) && more[|more| - 1] == Next(ws[|ws| - 1], turn)
  {
    more, all := ws + [Next(ws[|ws| - 1], turn)], turns + [turn];
  }

  const RIVAL := Message(0, 5, Session(2, 0), 0)

  /** Node 1 once it has lost its first election to node 2. */
  ghost function Loser(): Node
  {
    var own := Message(0, 0, Session(1, 0), 0);
    Node(1, 0, 0, 0, Session(2, 0), [Campaign([own, RIVAL], 0, Ended, false)], 0, None, Some(0))
  }

  lemma LosesFirst()
    ensures var n := Heard(Entered(Started(1, 0), 0), RIVAL);
            && WellFormed(n) && Enabled(n, Finish(0)) && Won(n, 0) == Loser()
            && Verdict(n, 0) == Result(Session(2, 0), 0, true)
  {
    var n := Heard(Entered(Started(1, 0), 0), RIVAL);
    assert n.campaigns[0].candidates == [Message(0, 0, Session(1, 0), 0), RIVAL];
    assert Won(n, 0).campaigns == Loser().campaigns;
  }

  /** What a node that is no candidate sends in its round. */
  function Call(clock: nat): Message
  {
    Message(clock, -1, Session(3, clock), 0)
  }

  /** Then node 3 starts a round, and node 1 votes in it. */
  ghost function Voter(): Node
  {
    var n := Loser();
    var own := Message(1, 0, Session(1, 1), 0);
    n.(clock := 1, current := 1, scope := Some(1), done := Some(1),
       campaigns := n.campaigns + [Campaign([Call(1), own], 1, Voting, false)])
  }

  lemma StartsVoting() returns (n: Node, a: Node, b: Node)
    ensures n == Loser() && WellFormed(n) && a == Heard(n, Call(1))
    ensures WellFormed(a) && Enabled(a, Enter(1)) && b == Entered(a, 1)
    ensures WellFormed(b) && Enabled(b, Wake(1)) && Voter() == Begun(b, 1)
  {
    n := Loser();
    a := Heard(n, Call(1));
    b := Entered(a, 1);
    assert b.campaigns[1] == Campaign([Call(1)], 1, Waiting(0), false);
    assert Begun(b, 1).campaigns[1] == Voter().campaigns[1];
    assert Begun(b, 1).campaigns == Voter().campaigns;
  }

  /** Two rounds more while it votes: both their campaigns wait for the same one to end. */
  ghost function Crowded(): Node
  {
    var n := Voter();
    n.(clock := 3, current := 3,
       campaigns := n.campaigns[1 := n.campaigns[1].(cancelled := true)]
         + [Campaign([Call(2)], 2, Waiting(1), false), Campaign([Call(3)], 3, Waiting(1), false)])
  }

  lemma TwoMoreRounds() returns (n: Node, a: Node, b: Node, c: Node)
    ensures n == Voter() && WellFormed(n) && a == Heard(n, Call(2))
    ensures WellFormed(a) && Enabled(a, Enter(2)) && b == Entered(a, 2)
    ensures WellFormed(b) && c == Heard(b, Call(3))
    ensures WellFormed(c) && Enabled(c, Enter(3)) && Crowded() == Entered(c, 3)
  {
    n := Voter();
    a := Heard(n, Call(2));
    b := Entered(a, 2);
    c := Heard(b, Call(3));
    assert Entered(c, 3).campaigns == Crowded().campaigns;
  }

  lemma WakesTwice() returns (n: Node, a: Node, b: Node)
    ensures n == Crowded() && WellFormed(n) && Enabled(n, Stop(1)) && a == Closed(n, 1)
    ensures WellFormed(a) && Enabled(a, Wake(2)) && b == Begun(a, 2)
    ensures WellFormed(b) && Enabled(b, Wake(3))
  {
    n := Crowded();
    a := Closed(n, 1);
    b := Begun(a, 2);
  }

  ghost function Vote(clock: nat): Campaign
  {
    Campaign([Call(clock), Message(clock, 0, Session(1, clock), 0)], clock, Voting, false)
  }

  lemma VotesTwice(n: Node)
    requires n == Begun(Begun(Closed(Crowded(), 1), 2), 3)
    ensures WellFormed(n) && Enabled(n, Finish(2)) && Verdict(n, 2) == Result(Session(1, 2), 2, true)
    ensures var m := Won(n, 2);
            && WellFormed(m) && Enabled(m, Finish(3))
            && Verdict(m, 3) == Result(Session(1, 3), 3, true)
  {
    assert n.campaigns[2] == Vote(2);
    assert n.campaigns[3] == Vote(3);
  }

  ghost function Seen(n: Node, queue: seq<Result>): World
  {
    World(n, queue, StartedLoop(1, true, true, true), [Session(1, 0)])
  }

  lemma ExtendSeen(ws: seq<World>, turns: seq<Turn>, n: Node, queue: seq<Result>, move: Move, n': Node)
    returns (more: seq<World>, all: seq<Turn>)
    requires Run(ws, turns) && ws[|ws| - 1] == Seen(n, queue)
    requires WellFormed(n) && Enabled(n, move) && !move.Finish? && n' == After(n, move)
    ensures Run(more, all) && more[|more| - 1] == Seen(n', queue)
  {
    more, all := Extend(ws, turns, OnNode(move));
    assert queue + [] == queue;
  }

  lemma RunToLoss() returns (ws: seq<World>, turns: seq<Turn>)
    ensures Run(ws, turns) && ws[|ws| - 1] == Seen(Loser(), [Result(Session(2, 0), 0, true)])
  {
    LosesFirst();
    ws, turns := [Seen(Started(1, 0), [])], [];
    ws, turns := Extend(ws, turns, OnNode(Enter(0)));
    ws, turns := Extend(ws, turns, OnNode(Hear(RIVAL)));
    ws, turns := Extend(ws, turns, OnNode(Finish(0)));
  }

  lemma RunToVote() returns (ws: seq<World>, turns: seq<Turn>)
    ensures Run(ws, turns) && ws[|ws| - 1] == Seen(Voter(), [Result(Session(2, 0), 0, true)])
  {
    var queue := [Result(Session(2, 0), 0, true)];
    ws, turns := RunToLoss();
    var n, a, b := StartsVoting();
    ws, turns := ExtendSeen(ws, turns, n, queue, Hear(Call(1)), a);
    ws, turns := ExtendSeen(ws, turns, a, queue, Enter(1), b);
    ws, turns := ExtendSeen(ws, turns, b, queue, Wake(1), Voter());
  }

  lemma RunToCrowd() returns (ws: seq<World>, turns: seq<Turn>)
    ensures Run(ws, turns) && ws[|ws| - 1] == Seen(Crowded(), [Result(Session(2, 0), 0, true)])
  {
    var queue := [Result(Session(2, 0), 0, true)];
    ws, turns := RunToVote();
    var n, a, b, c := TwoMoreRounds();
    ws, turns := ExtendSeen(ws, turns, n, queue, Hear(Call(2)), a);
    ws, turns := ExtendSeen(ws, turns, a, queue, Enter(2), b);
    ws, turns := ExtendSeen(ws, turns, b, queue, Hear(Call(3)), c);
    ws, turns := ExtendSeen(ws, turns, c, queue, Enter(3), Crowded());
  }

  lemma RunToVotes() returns (ws: seq<World>, turns: seq<Turn>)
    ensures Run(ws, turns)
    ensures ws[|ws| - 1] == Seen(Begun(Begun(Closed(Crowded(), 1), 2), 3), [Result(Session(2, 0), 0, true)])
  {
    var queue := [Result(Session(2, 0), 0, true)];
    ws, turns := RunToCrowd();
    var n, a, b := WakesTwice();
    ws, turns := ExtendSeen(ws, turns, n, queue, Stop(1), a);
    ws, turns := ExtendSeen(ws, turns, a, queue, Wake(2), b);
    ws, turns := ExtendSeen(ws, turns, b, queue, Wake(3), Begun(b, 3));
  }

  /** Messages of two later rounds arrive while a campaign is voting: the campaigns of both wait for
      it to end. It is stopped, both wake and vote, each under its own new session, and the loop meets
      a new session of a node that is master already. */
  lemma OverlappingRoundsBreakTheLoop() returns (ws: seq<World>, turns: seq<Turn>)
    ensures Run(ws, turns)
    ensures var w := ws[|ws| - 1]; w.queue != [] && !Acceptable(w.loop, w.queue[0])
  {
    ws, turns := RunToVotes();
    VotesTwice(ws[|ws| - 1].node);
    ws, turns := Extend(ws, turns, OnNode(Finish(2)));
    ws, turns := Extend(ws, turns, OnNode(Finish(3)));
    ws, turns := Extend(ws, turns, Take);
    ws, turns := Extend(ws, turns, Take);
  }
}
