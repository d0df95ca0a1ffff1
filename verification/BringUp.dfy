/** Bringing up one instance over any number of nodes. Every node decides alone, from its own
    runner's status and from whatever it has seen so far of the others; together the decisions
    form barriers. */
module BringUp {
  import opened Common
  import opened Plan

  /** `published[j]` is every status runner j ever published, the last one being its actual
      status. `known[i]` is how far node i's supervisor has read its own runner's; `seen[i][j]` is
      how far node i's view of runner j has got, if it has seen any. Nobody fails. */
  datatype World = World(inst: Instance, published: seq<seq<Status>>, known: seq<nat>, seen: seq<seq<Option<nat>>>)

  /** A supervisor's records of tasks, which the bring-up does not depend on. */
  datatype Books = Books(completed: set<TaskId>, inProgress: set<TaskId>, cancelled: set<TaskId>)

  /** Runner j has rank j and runs on node j. */
  ghost predicate Placed(inst: Instance, n: nat)
  {
    && |inst.shards| == n
    && (forall j :: 0 <= j < n ==> inst.shards[j] == (j, Shard(j, n)))
    && (forall j: nat :: j in inst.nodes <==> j < n)
    && (forall j: nat :: j < n ==> inst.nodes[j] == j)
  }

  ghost predicate Shaped(w: World)
  {
    var n := |w.published|;
    && n > 0 && Placed(w.inst, n) && |w.known| == n && |w.seen| == n
    && (forall i :: 0 <= i < n ==> w.known[i] < |w.published[i]| && |w.seen[i]| == n)
    && (forall i, j :: 0 <= i < n && 0 <= j < n && w.seen[i][j].Some? ==> w.seen[i][j].value < |w.published[j]|)
  }

  ghost function Actual(w: World, j: nat): Status
    requires Shaped(w) && j < |w.published|
  {
    w.published[j][|w.published[j]| - 1]
  }

  ghost function ViewOf(w: World, i: nat): View
    requires Shaped(w) && i < |w.published|
  {
    map j: nat | j < |w.published| && w.seen[i][j].Some? :: w.published[j][w.seen[i][j].value]
  }

  ghost function Own(w: World, i: nat, books: Books): Supervisor
    requires Shaped(w) && i < |w.published|
  {
    Supervisor(i, Shard(i, |w.published|), w.inst, w.published[i][w.known[i]],
               books.completed, books.inProgress, books.cancelled)
  }

  ghost function Decided(w: World, i: nat, books: Books, inputs: Inputs): Plan.Decision
    requires Shaped(w) && i < |w.published|
  {
    Decide(i, [Own(w, i, books)], ViewOf(w, i), [w.inst], inputs)
  }

  // ---------------------------------------------------------------- the runner's own behaviour

  ghost predicate Directed(a: Action)
  {
    a.ConnectToGroup? || a.LoadModel? || a.StartWarmup? || a.Infer?
  }

  /** The status a runner takes on with a task, or none if the task is outside its state machine. */
  ghost function Accepts(s: Status, a: Action): Option<Status>
  {
    if a.ConnectToGroup? && s == Idle then Some(Connecting)
    else if a.LoadModel? && (s == Connected || s == Idle) then Some(Loading)
    else if a.StartWarmup? && s == Loaded then Some(WarmingUp)
    else if a.Infer? && Serving(s) then Some(Running)
    else None
  }

  ghost function Level(s: Status): nat
  {
    match s
    case Idle => 0
    case Connecting => 1
    case Connected => 2
    case Loading => 3
    case Loaded => 4
    case WarmingUp => 5
    case _ => 6
  }

  ghost predicate Alive(s: Status)
  {
    s != ShuttingDown && s != Shutdown && s != Failed
  }

  /** What a runner does by itself. Joining the group and warming up are collective: they end once
      every runner has entered them. */
  ghost predicate Proceeds(w: World, j: nat, s: Status)
    requires Shaped(w) && j < |w.published|
  {
    var a := Actual(w, j);
    || (a == Connecting && s == Connected && forall k :: 0 <= k < |w.published| ==> Level(Actual(w, k)) >= 1)
    || (a == Loading && (s == Loading || s == Loaded))
    || (a == WarmingUp && s == Ready && forall k :: 0 <= k < |w.published| ==> Level(Actual(w, k)) >= 5)
    || (a == Running && s == Ready)
  }

  // ---------------------------------------------------------------- steps

  ghost predicate Init(w: World)
  {
    && Shaped(w)
    && forall i :: 0 <= i < |w.published| ==>
         w.published[i] == [Idle] && w.known[i] == 0 && forall j :: 0 <= j < |w.published| ==> w.seen[i][j] == None
  }

  ghost function Publish(w: World, j: nat, s: Status): World
    requires Shaped(w) && j < |w.published|
  {
    w.(published := w.published[j := w.published[j] + [s]])
  }

  /** The runner has acknowledged a task: its supervisor has read everything up to there. */
  ghost function CaughtUp(w: World, i: nat): World
    requires Shaped(w) && i < |w.published|
  {
    w.(known := w.known[i := |w.published[i]| - 1])
  }

  ghost predicate Act(w: World, w': World, i: nat, books: Books, inputs: Inputs)
  {
    && Shaped(w) && i < |w.published|
    && var d := Decided(w, i, books, inputs);
       && d.Do?
       && (!Directed(d.action) ==> w' == w)
       && (Directed(d.action) ==>
             var s := Accepts(Actual(w, i), d.action);
             && s.Some?
             && w' == CaughtUp(if s.value == Actual(w, i) then w else Publish(w, i, s.value), i))
  }

  ghost predicate Proceed(w: World, w': World, j: nat, s: Status)
  {
    Shaped(w) && j < |w.published| && Proceeds(w, j, s) && w' == Publish(w, j, s)
  }

  ghost predicate Report(w: World, w': World, i: nat)
  {
    && Shaped(w) && i < |w.published| && w.known[i] + 1 < |w.published[i]|
    && w' == w.(known := w.known[i := w.known[i] + 1])
  }

  /** A node's view of a runner moves on, by any number of statuses. */
  ghost predicate Observe(w: World, w': World, i: nat, j: nat, p: nat)
  {
    && Shaped(w) && i < |w.published| && j < |w.published| && p < |w.published[j]|
    && (w.seen[i][j].Some? ==> w.seen[i][j].value <= p)
    && w' == w.(seen := w.seen[i := w.seen[i][j := Some(p)]])
  }

  ghost predicate Step(w: World, w': World)
  {
    || (exists i, books, inputs :: Act(w, w', i, books, inputs))
    || (exists j, s :: Proceed(w, w', j, s))
    || (exists i :: Report(w, w', i))
    || (exists i, j, p :: Observe(w, w', i, j, p))
  }

  ghost predicate StepAt(ws: seq<World>, i: nat)
    requires i + 1 < |ws|
  {
    Step(ws[i], ws[i + 1])
  }

  ghost predicate Run(ws: seq<World>)
  {
    ws != [] && Init(ws[0]) && forall i :: 0 <= i < |ws| - 1 ==> StepAt(ws, i)
  }

  ghost function Last(ws: seq<World>): World
    requires ws != []
  {
    ws[|ws| - 1]
  }

  lemma LastStep(ws: seq<World>, w: World)
    requires ws != [] && Step(Last(ws), w)
    ensures StepAt(ws + [w], |ws| - 1)
  {
  }

  lemma SameStep(ws: seq<World>, more: seq<World>, j: nat)
    requires Run(ws) && ws <= more && j + 1 < |ws|
    ensures StepAt(more, j)
  {
    assert StepAt(ws, j) && more[j] == ws[j] && more[j + 1] == ws[j + 1];
  }

  lemma OneStepMore(ws: seq<World>, w: World)
    requires Run(ws) && Step(Last(ws), w)
    ensures Run(ws + [w]) && Last(ws + [w]) == w
  {
    LastStep(ws, w);
    forall j | 0 <= j < |ws| - 1 ensures StepAt(ws + [w], j) {
      SameStep(ws, ws + [w], j);
    }
  }

  lemma StepOf(ws: seq<World>, i: nat)
    requires Run(ws) && i + 1 < |ws|
    ensures Step(ws[i], ws[i + 1])
  {
    assert StepAt(ws, i);
  }

  // ---------------------------------------------------------------- the invariant

  /** A runner only moves up, so whatever anyone has seen of it is a lower bound. */
  ghost predicate Climbing(h: seq<Status>)
  {
    && h != []
    && forall p :: 0 <= p < |h| ==> Alive(h[p]) && Level(h[p]) <= Level(h[|h| - 1])
  }

  /** What a runner does after its supervisor's last reading, it does by itself. */
  ghost predicate OnItsOwn(h: seq<Status>, known: nat)
  {
    forall p :: known <= p < |h| - 1 ==>
      h[p] == Connecting || h[p] == Loading || h[p] == WarmingUp || h[p] == Running
  }

  ghost predicate Histories(w: World)
    requires Shaped(w)
  {
    forall j :: 0 <= j < |w.published| ==> Climbing(w.published[j]) && OnItsOwn(w.published[j], w.known[j])
  }

  ghost predicate AllReached(w: World, level: nat)
    requires Shaped(w)
  {
    forall k :: 0 <= k < |w.published| ==> Level(Actual(w, k)) >= level
  }

  /** The barriers, one per phase. */
  ghost predicate Barriers(w: World)
    requires Shaped(w)
  {
    forall j :: 0 <= j < |w.published| ==>
      var s := Actual(w, j);
      && (j == |w.published| - 1 && Level(s) >= 1 ==> AllReached(w, 1))
      && (Level(s) >= 2 ==> AllReached(w, 1))
      && (Level(s) >= 3 ==> AllReached(w, 2))
      && (Level(s) >= 5 ==> AllReached(w, if j == 0 then 5 else 4))
      && (Level(s) >= 6 ==> AllReached(w, 5))
      && (s == Running ==> AllReached(w, 6))
  }

  /** A node whose runner has left Idle has seen every runner, unless it hosts the only one. */
  ghost predicate Acquainted(w: World)
    requires Shaped(w)
  {
    |w.published| > 1 ==>
      forall i, j :: 0 <= i < |w.published| && 0 <= j < |w.published| && Actual(w, i) != Idle ==> w.seen[i][j].Some?
  }

  ghost predicate Inv(w: World)
  {
    Shaped(w) && Histories(w) && Barriers(w) && Acquainted(w)
  }

  // ---------------------------------------------------------------- what a decision relies on

  /** What anyone has seen of a runner it has at least reached. */
  lemma SeenIsReached(w: World, i: nat, j: nat)
    requires Inv(w) && i < |w.published| && j < |w.published| && j in ViewOf(w, i)
    ensures Level(ViewOf(w, i)[j]) <= Level(Actual(w, j)) && Alive(ViewOf(w, i)[j])
  {
  }

  /** A supervisor that reads a status only a task changes is up to date. */
  lemma OwnIsActual(w: World, i: nat, books: Books)
    requires Inv(w) && i < |w.published|
    ensures var s := Own(w, i, books).status;
            && Level(s) <= Level(Actual(w, i))
            && (s == Idle || s == Connected || s == Loaded || s == Ready ==> s == Actual(w, i))
  {
  }

  lemma AllShowReached(w: World, i: nat, allowed: set<Status>, level: nat)
    requires Inv(w) && i < |w.published| && AllShow(ViewOf(w, i), w.inst.shards, allowed)
    requires forall s :: s in allowed ==> Level(s) >= level
    ensures AllReached(w, level) && forall j :: 0 <= j < |w.published| ==> w.seen[i][j].Some?
  {
    forall j: nat | j < |w.published| ensures Level(Actual(w, j)) >= level && w.seen[i][j].Some? {
      assert w.inst.shards[j] in w.inst.shards;
      SeenIsReached(w, i, j);
    }
  }

  lemma OthersShowReached(w: World, i: nat, status: Status)
    requires Inv(w) && i < |w.published| && OthersShow(ViewOf(w, i), w.inst.shards, i, status)
    ensures forall j :: 0 <= j < |w.published| && j != i ==> Level(Actual(w, j)) >= Level(status)
  {
    forall j: nat | j < |w.published| && j != i ensures Level(Actual(w, j)) >= Level(status) {
      assert w.inst.shards[j] in w.inst.shards;
      SeenIsReached(w, i, j);
    }
  }

  /** What the others have reached when a node sends its runner a task. */
  ghost predicate Safe(w: World, i: nat, a: Action)
    requires Shaped(w) && i < |w.published|
  {
    var n := |w.published|;
    match a
    case ConnectToGroup(_) =>
      && Actual(w, i) == Idle && n > 1 && (forall j :: 0 <= j < n ==> w.seen[i][j].Some?)
      && (i == n - 1 ==> forall j :: 0 <= j < n && j != i ==> Level(Actual(w, j)) >= 1)
    case LoadModel(_) =>
      if n == 1 then Actual(w, i) == Idle || Actual(w, i) == Connected
      else Actual(w, i) == Connected && AllReached(w, 2)
    case StartWarmup(_) =>
      && Actual(w, i) == Loaded && (i > 0 ==> AllReached(w, 4))
      && (i == 0 ==> forall j :: 0 <= j < n && j != i ==> Level(Actual(w, j)) >= 5)
    case Infer(_) => Serving(Actual(w, i)) && AllReached(w, 6)
    case _ => true
  }

  lemma AllServingReached(w: World, i: nat)
    requires Inv(w) && i < |w.published| && AllServing(ViewOf(w, i), w.inst.shards) == Holds
    ensures AllReached(w, 6)
  {
    AllServingShown(ViewOf(w, i), w.inst.shards);
    AllShowReached(w, i, {Ready, Running}, 6);
  }

  lemma WarrantedIsSafe(w: World, i: nat, books: Books, inputs: Inputs, r: Supervisor, a: Action)
    requires Inv(w) && i < |w.published| && Directed(a)
    requires r == Own(w, i, books) && Warrants(r, ViewOf(w, i), [w.inst], inputs, a)
    ensures Safe(w, i, a) && Accepts(Actual(w, i), a).Some?
  {
    OwnIsActual(w, i, books);
    match a
    case ConnectToGroup(_) =>
      AllShowReached(w, i, {Connecting, Idle}, 0);
      if i == |w.published| - 1 {
        OthersShowReached(w, i, Connecting);
      }
    case LoadModel(_) =>
      if r.status == Connected {
        AllShowReached(w, i, {Connected, Loading, Loaded}, 2);
      }
    case StartWarmup(_) =>
      if i > 0 {
        AllShowReached(w, i, {Loaded, WarmingUp}, 4);
      } else {
        OthersShowReached(w, i, WarmingUp);
      }
    case Infer(_) => AllServingReached(w, i);
  }

  /** However stale a node's view, what it tells its runner to do comes in time for the others. */
  lemma DecisionsAreSafe(w: World, i: nat, books: Books, inputs: Inputs)
    requires Inv(w) && i < |w.published| && Decided(w, i, books, inputs).Do?
    requires Directed(Decided(w, i, books, inputs).action)
    ensures Safe(w, i, Decided(w, i, books, inputs).action)
    ensures Accepts(Actual(w, i), Decided(w, i, books, inputs).action).Some?
  {
    var a := Decided(w, i, books, inputs).action;
    var r := DecisionSound(i, [Own(w, i, books)], ViewOf(w, i), [w.inst], inputs);
    assert r == Own(w, i, books);
    WarrantedIsSafe(w, i, books, inputs, r, a);
  }

  // ---------------------------------------------------------------- every step keeps it

  ghost predicate OthersReached(w: World, j: nat, level: nat)
    requires Shaped(w)
  {
    forall k :: 0 <= k < |w.published| && k != j ==> Level(Actual(w, k)) >= level
  }

  /** The others are far enough for runner j to publish s. */
  ghost predicate Timely(w: World, j: nat, s: Status)
    requires Shaped(w)
  {
    && (j == |w.published| - 1 && Level(s) >= 1 ==> OthersReached(w, j, 1))
    && (Level(s) >= 2 ==> OthersReached(w, j, 1))
    && (Level(s) >= 3 ==> OthersReached(w, j, 2))
    && (Level(s) >= 5 ==> OthersReached(w, j, if j == 0 then 5 else 4))
    && (Level(s) >= 6 ==> OthersReached(w, j, 5))
    && (s == Running ==> OthersReached(w, j, 6))
  }

  lemma PublishShaped(w: World, j: nat, s: Status, w': World)
    requires Shaped(w) && j < |w.published| && w' == Publish(w, j, s)
    ensures Shaped(w') && |w'.published| == |w.published| && Actual(w', j) == s
    ensures forall k :: 0 <= k < |w.published| && k != j ==> Actual(w', k) == Actual(w, k)
  {
  }

  lemma PublishBarriers(w: World, j: nat, s: Status, w': World)
    requires Shaped(w) && Barriers(w) && j < |w.published| && w' == Publish(w, j, s)
    requires Level(s) >= Level(Actual(w, j)) && Timely(w, j, s) && Shaped(w')
    ensures Barriers(w')
  {
    PublishShaped(w, j, s, w');
    forall k | 0 <= k < |w.published| ensures Level(Actual(w', k)) >= Level(Actual(w, k)) {}
  }

  lemma ClimbingGrows(h: seq<Status>, s: Status)
    requires Climbing(h) && Alive(s) && Level(s) >= Level(h[|h| - 1])
    ensures Climbing(h + [s])
  {
  }

  /** The barriers speak of the runners alone. */
  lemma BarriersFollow(w: World, w': World)
    requires Shaped(w) && Shaped(w') && w'.published == w.published && Barriers(w)
    ensures Barriers(w')
  {
    assert forall k :: 0 <= k < |w.published| ==> Actual(w', k) == Actual(w, k);
  }

  /** Views never lose a runner, and only a runner that leaves Idle needs them complete. */
  lemma AcquaintedFollows(w: World, w': World)
    requires Shaped(w) && Shaped(w') && |w'.published| == |w.published| && Acquainted(w)
    requires forall i, j :: 0 <= i < |w.published| && 0 <= j < |w.published| && w.seen[i][j].Some? ==> w'.seen[i][j].Some?
    requires forall i :: 0 <= i < |w.published| ==>
      |w.published| == 1 || Actual(w', i) == Actual(w, i) || Actual(w, i) != Idle
      || forall j :: 0 <= j < |w.published| ==> w.seen[i][j].Some?
    ensures Acquainted(w')
  {
  }

  lemma HistoriesFollow(w: World, w': World)
    requires Shaped(w) && Shaped(w') && w'.published == w.published && Histories(w)
    requires forall i :: 0 <= i < |w.published| ==> w.known[i] <= w'.known[i]
    ensures Histories(w')
  {
    forall i | 0 <= i < |w.published| ensures OnItsOwn(w'.published[i], w'.known[i]) {
      assert OnItsOwn(w.published[i], w.known[i]);
    }
  }

  lemma PublishHistories(w: World, j: nat, s: Status, w': World)
    requires Shaped(w) && Shaped(w') && Histories(w) && j < |w.published| && w' == Publish(w, j, s)
    requires Alive(s) && Level(s) >= Level(Actual(w, j))
    requires OnItsOwn(w'.published[j], w.known[j])
    ensures Histories(w')
  {
    ClimbingGrows(w.published[j], s);
  }

  lemma ProceedKeeps(w: World, w': World, j: nat, s: Status)
    requires Inv(w) && Proceed(w, w', j, s)
    ensures Inv(w')
  {
    PublishShaped(w, j, s, w');
    assert OnItsOwn(w.published[j], w.known[j]);
    PublishHistories(w, j, s, w');
    PublishBarriers(w, j, s, w');
    AcquaintedFollows(w, w');
  }

  lemma ReportKeeps(w: World, w': World, i: nat)
    requires Inv(w) && Report(w, w', i)
    ensures Inv(w')
  {
    BarriersFollow(w, w');
    HistoriesFollow(w, w');
    AcquaintedFollows(w, w');
  }

  lemma ObserveShaped(w: World, w': World, i: nat, j: nat, p: nat)
    requires Shaped(w) && Observe(w, w', i, j, p)
    ensures Shaped(w') && w'.published == w.published && w'.known == w.known
    ensures forall a, b :: 0 <= a < |w.published| && 0 <= b < |w.published| && w.seen[a][b].Some? ==> w'.seen[a][b].Some?
  {
  }

  lemma ObserveKeeps(w: World, w': World, i: nat, j: nat, p: nat)
    requires Inv(w) && Observe(w, w', i, j, p)
    ensures Inv(w')
  {
    ObserveShaped(w, w', i, j, p);
    BarriersFollow(w, w');
    HistoriesFollow(w, w');
    AcquaintedFollows(w, w');
  }

  lemma CaughtUpKeeps(w: World, i: nat, w': World)
    requires Shaped(w) && Barriers(w) && Acquainted(w) && i < |w.published| && w' == CaughtUp(w, i)
    requires forall j :: 0 <= j < |w.published| ==> Climbing(w.published[j])
    requires forall j :: 0 <= j < |w.published| && j != i ==> OnItsOwn(w.published[j], w.known[j])
    ensures Inv(w')
  {
    BarriersFollow(w, w');
    AcquaintedFollows(w, w');
  }

  lemma SafeIsTimely(w: World, i: nat, a: Action)
    requires Inv(w) && i < |w.published| && Directed(a) && Safe(w, i, a) && Accepts(Actual(w, i), a).Some?
    ensures var s := Accepts(Actual(w, i), a).value;
            && Timely(w, i, s) && Alive(s) && Level(s) >= Level(Actual(w, i))
            && (Actual(w, i) == Idle && |w.published| > 1 ==> forall j :: 0 <= j < |w.published| ==> w.seen[i][j].Some?)
  {
  }

  lemma TaskKeeps(w: World, w': World, i: nat, a: Action)
    requires Inv(w) && i < |w.published| && Directed(a) && Safe(w, i, a) && Accepts(Actual(w, i), a).Some?
    requires var s := Accepts(Actual(w, i), a).value;
             w' == CaughtUp(if s == Actual(w, i) then w else Publish(w, i, s), i)
    ensures Inv(w')
  {
    var s := Accepts(Actual(w, i), a).value;
    SafeIsTimely(w, i, a);
    if s == Actual(w, i) {
      CaughtUpKeeps(w, i, w');
    } else {
      var p := Publish(w, i, s);
      PublishShaped(w, i, s, p);
      PublishBarriers(w, i, s, p);
      ClimbingGrows(w.published[i], s);
      AcquaintedFollows(w, p);
      CaughtUpKeeps(p, i, w');
    }
  }

  lemma ActKeeps(w: World, w': World, i: nat, books: Books, inputs: Inputs)
    requires Inv(w) && Act(w, w', i, books, inputs)
    ensures Inv(w')
  {
    var a := Decided(w, i, books, inputs).action;
    if Directed(a) {
      DecisionsAreSafe(w, i, books, inputs);
      TaskKeeps(w, w', i, a);
    }
  }

  lemma InitHolds(w: World)
    requires Init(w)
    ensures Inv(w)
  {
  }

  lemma StepKeeps(w: World, w': World)
    requires Inv(w) && Step(w, w')
    ensures Inv(w')
  {
    if i, books, inputs :| Act(w, w', i, books, inputs) {
      ActKeeps(w, w', i, books, inputs);
    } else if j, s :| Proceed(w, w', j, s) {
      ProceedKeeps(w, w', j, s);
    } else if i :| Report(w, w', i) {
      ReportKeeps(w, w', i);
    } else {
      var i, j, p :| Observe(w, w', i, j, p);
      ObserveKeeps(w, w', i, j, p);
    }
  }

  lemma NextKeeps(ws: seq<World>, i: nat)
    requires Run(ws) && i + 1 < |ws| && Inv(ws[i])
    ensures Inv(ws[i + 1])
  {
    StepOf(ws, i);
    StepKeeps(ws[i], ws[i + 1]);
  }

  /** The barriers hold in every reachable state, for any number of nodes and however stale their
      views: nobody loads before all are connected, ranks above zero warm up after all have
      loaded and rank zero last, the last rank connects last, nobody serves before all are ready. */
  lemma {:induction false} EveryReachableState(ws: seq<World>, i: nat)
    requires Run(ws) && i < |ws|
    ensures Inv(ws[i])
  {
    if i == 0 {
      InitHolds(ws[0]);
    } else {
      EveryReachableState(ws, i - 1);
      NextKeeps(ws, i - 1);
    }
  }
}
