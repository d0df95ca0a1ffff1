/** Bring-up cannot get stuck: with up-to-date views and completed downloads some node or runner can
    always move on. */
module BringUpProgress {
  import opened Common
  import opened Plan
  import opened BringUp

  ghost predicate UpToDate(w: World)
    requires Shaped(w)
  {
    && (forall i :: 0 <= i < |w.published| ==> w.known[i] == |w.published[i]| - 1)
    && (forall i, j :: 0 <= i < |w.published| && 0 <= j < |w.published| ==>
          w.seen[i][j] == Some(|w.published[j]| - 1))
  }

  /** Every node has the model, and no task waits to be cancelled. */
  ghost predicate Quiet(inst: Instance, inputs: Inputs)
  {
    && Downloaded(inst, inputs)
    && (forall n :: n in inst.nodes ==> ReportOn(inst.model, inputs.downloads[n]) == Some(DownloadCompleted))
    && forall t :: t in inputs.tasks ==> t.status != TaskCancelled
  }

  lemma {:induction false} NothingToCancel(runners: seq<Supervisor>, tasks: seq<Task>)
    requires forall t :: t in tasks ==> t.status != TaskCancelled
    ensures CancelTasks(runners, tasks) == Nothing
  {
    if tasks != [] {
      assert tasks[0] in tasks;
      NothingToCancel(runners, tasks[1..]);
    }
  }

  lemma NobodyDies(w: World, i: nat, books: Books)
    requires Inv(w) && i < |w.published|
    ensures KillRunner([Own(w, i, books)], ViewOf(w, i), [w.inst]) == Nothing
  {
    var r := Own(w, i, books);
    assert w.inst in [w.inst];
    forall n | n in w.inst.nodes ensures !Shows(ViewOf(w, i), w.inst.nodes[n], Failed) {
      if w.inst.nodes[n] in ViewOf(w, i) {
        SeenIsReached(w, i, n);
      }
    }
    assert Alive(w.published[i][w.known[i]]);
    assert !MustDie(r, ViewOf(w, i), [w.inst]);
  }

  lemma NobodyIsMissing(w: World, i: nat, books: Books, inputs: Inputs)
    requires Inv(w) && i < |w.published|
    ensures CreateMissing(i, [Own(w, i, books)], ViewOf(w, i), [w.inst], inputs) == Nothing
  {
    var runners := [Own(w, i, books)];
    assert runners[0] in runners;
    assert Supervised(runners, i);
    assert !MayCreate(i, w.inst, runners, ViewOf(w, i), inputs);
    assert [w.inst][1..] == [];
  }

  /** A quiet node gets as far as connecting, loading, warming up or inferring. */
  lemma QuietDecision(w: World, i: nat, books: Books, inputs: Inputs)
    requires Inv(w) && i < |w.published| && Quiet(w.inst, inputs)
    ensures Decided(w, i, books, inputs) ==
              (var runners, view := [Own(w, i, books)], ViewOf(w, i);
               Or(Connect(runners, view), Or(Load(runners, view, inputs), Or(WarmUp(runners, view),
                  PendingTasks(runners, inputs.tasks, view, inputs)))))
  {
    var r := Own(w, i, books);
    NothingToCancel([r], inputs.tasks);
    NobodyDies(w, i, books);
    NobodyIsMissing(w, i, books, inputs);
    assert !NeedsDownload(i, r, inputs);
    assert DownloadNeeded(i, [r], inputs) == Nothing;
  }

  lemma OneRunner(r: Supervisor, applies: Supervisor -> bool)
    ensures First([r], applies) == if applies(r) then Some(r) else None
  {
    assert [r][0] == r && [r][1..] == [];
  }

  /** The rules for one runner. */
  lemma RulesForOne(r: Supervisor, view: View, inputs: Inputs)
    ensures Connect([r], view) == if MayConnect(r, view) then Do(ConnectToGroup(r.instance.id)) else Nothing
    ensures Load([r], view, inputs) == if MayLoad(r, view, inputs) then Do(LoadModel(r.instance.id)) else Nothing
    ensures WarmUp([r], view) == if MayWarmUp(r, view) then Do(StartWarmup(r.instance.id)) else Nothing
  {
    OneRunner(r, (x: Supervisor) => MayConnect(x, view));
    OneRunner(r, (x: Supervisor) => MayLoad(x, view, inputs));
    OneRunner(r, (x: Supervisor) => MayWarmUp(x, view));
  }

  // ---------------------------------------------------------------- no deadlock

  /** Runner i can move on to s: by itself, or because its node tells it to. */
  ghost predicate CanRise(w: World, i: nat, s: Status, books: Books, inputs: Inputs)
    requires Shaped(w)
  {
    && i < |w.published| && Level(Actual(w, i)) < Level(s)
    && (|| Proceeds(w, i, s)
        || (var d := Decided(w, i, books, inputs);
            d.Do? && Directed(d.action) && Accepts(Actual(w, i), d.action) == Some(s)))
  }

  lemma UpToDateView(w: World, i: nat, j: nat)
    requires Shaped(w) && UpToDate(w) && i < |w.published| && j < |w.published|
    ensures w.published[i][w.known[i]] == Actual(w, i)
    ensures j in ViewOf(w, i) && ViewOf(w, i)[j] == Actual(w, j)
  {
    assert w.seen[i][j] == Some(|w.published[j]| - 1);
  }

  lemma EachShows(w: World, i: nat, allowed: set<Status>)
    requires Shaped(w) && UpToDate(w) && i < |w.published|
    requires forall j :: 0 <= j < |w.published| ==> Actual(w, j) in allowed
    ensures AllShow(ViewOf(w, i), w.inst.shards, allowed)
  {
    forall g | g in w.inst.shards ensures g.0 in ViewOf(w, i) && ViewOf(w, i)[g.0] in allowed {
      var j :| 0 <= j < |w.inst.shards| && w.inst.shards[j] == g;
      UpToDateView(w, i, j);
    }
  }

  lemma EachOtherShows(w: World, i: nat, status: Status)
    requires Shaped(w) && UpToDate(w) && i < |w.published|
    requires forall j :: 0 <= j < |w.published| && j != i ==> Actual(w, j) == status
    ensures OthersShow(ViewOf(w, i), w.inst.shards, i, status)
  {
    forall g | g in w.inst.shards && g.0 != i ensures Shows(ViewOf(w, i), g.0, status) {
      var j :| 0 <= j < |w.inst.shards| && w.inst.shards[j] == g;
      UpToDateView(w, i, j);
    }
  }

  /** A runner at the lowest level there is. */
  ghost predicate Lowest(w: World, i: nat)
    requires Shaped(w)
  {
    i < |w.published| && AllReached(w, Level(Actual(w, i)))
  }

  /** What a quiet node tells its runner. */
  lemma QuietRules(w: World, i: nat, books: Books, inputs: Inputs)
    requires Inv(w) && i < |w.published| && Quiet(w.inst, inputs)
    ensures var r, view := Own(w, i, books), ViewOf(w, i);
            && (MayConnect(r, view) ==> Decided(w, i, books, inputs) == Do(ConnectToGroup(w.inst.id)))
            && (MayLoad(r, view, inputs) && !MayConnect(r, view) ==> Decided(w, i, books, inputs) == Do(LoadModel(w.inst.id)))
            && (MayWarmUp(r, view) ==> Decided(w, i, books, inputs) == Do(StartWarmup(w.inst.id)))
  {
    QuietDecision(w, i, books, inputs);
    RulesForOne(Own(w, i, books), ViewOf(w, i), inputs);
  }

  lemma TaskRises(w: World, i: nat, a: Action, s: Status, books: Books, inputs: Inputs)
    requires Shaped(w) && i < |w.published| && Decided(w, i, books, inputs) == Do(a) && Directed(a)
    requires Accepts(Actual(w, i), a) == Some(s) && Level(Actual(w, i)) < Level(s)
    ensures CanRise(w, i, s, books, inputs)
  {
  }

  lemma IdleMayMove(w: World, i: nat, books: Books, inputs: Inputs)
    requires Inv(w) && UpToDate(w) && Quiet(w.inst, inputs) && i < |w.published| && Actual(w, i) == Idle
    requires i == |w.published| - 1 ==> forall j :: 0 <= j < |w.published| && j != i ==> Actual(w, j) != Idle
    ensures if |w.published| > 1 then MayConnect(Own(w, i, books), ViewOf(w, i))
            else MayLoad(Own(w, i, books), ViewOf(w, i), inputs) && !MayConnect(Own(w, i, books), ViewOf(w, i))
  {
    UpToDateView(w, i, i);
    forall j | 0 <= j < |w.published| ensures Actual(w, j) in {Connecting, Idle} {
      assert Level(Actual(w, j)) < 2;
    }
    EachShows(w, i, {Connecting, Idle});
    if i == |w.published| - 1 {
      EachOtherShows(w, i, Connecting);
    }
  }

  /** The node to act when runner i is lowest and Idle: any other rank first, the last rank last. */
  lemma IdleRises(w: World, i: nat, books: Books, inputs: Inputs)
    requires Inv(w) && UpToDate(w) && Quiet(w.inst, inputs) && i < |w.published| && Actual(w, i) == Idle
    requires i == |w.published| - 1 ==> forall j :: 0 <= j < |w.published| && j != i ==> Actual(w, j) != Idle
    ensures CanRise(w, i, if |w.published| == 1 then Loading else Connecting, books, inputs)
  {
    IdleMayMove(w, i, books, inputs);
    QuietRules(w, i, books, inputs);
    if |w.published| > 1 {
      TaskRises(w, i, ConnectToGroup(w.inst.id), Connecting, books, inputs);
    } else {
      TaskRises(w, i, LoadModel(w.inst.id), Loading, books, inputs);
    }
  }

  lemma ConnectedMayLoad(w: World, i: nat, books: Books, inputs: Inputs)
    requires Inv(w) && UpToDate(w) && Quiet(w.inst, inputs) && Lowest(w, i) && Actual(w, i) == Connected
    ensures MayLoad(Own(w, i, books), ViewOf(w, i), inputs) && !MayConnect(Own(w, i, books), ViewOf(w, i))
  {
    UpToDateView(w, i, i);
    forall j | 0 <= j < |w.published| ensures Actual(w, j) in {Connected, Loading, Loaded} {
      assert Level(Actual(w, j)) < 5;
    }
    EachShows(w, i, {Connected, Loading, Loaded});
  }

  lemma ConnectedRises(w: World, i: nat, books: Books, inputs: Inputs)
    requires Inv(w) && UpToDate(w) && Quiet(w.inst, inputs) && Lowest(w, i) && Actual(w, i) == Connected
    ensures CanRise(w, i, Loading, books, inputs)
  {
    ConnectedMayLoad(w, i, books, inputs);
    QuietRules(w, i, books, inputs);
    TaskRises(w, i, LoadModel(w.inst.id), Loading, books, inputs);
  }

  lemma LoadedMayWarmUp(w: World, i: nat, books: Books)
    requires Inv(w) && UpToDate(w) && Lowest(w, i) && Actual(w, i) == Loaded
    requires i == 0 ==> forall j :: 0 < j < |w.published| ==> Actual(w, j) != Loaded
    ensures MayWarmUp(Own(w, i, books), ViewOf(w, i))
  {
    UpToDateView(w, i, i);
    forall j | 0 <= j < |w.published| ensures Actual(w, j) in {Loaded, WarmingUp} {
      assert 4 <= Level(Actual(w, j)) < 6;
    }
    if i > 0 {
      EachShows(w, i, {Loaded, WarmingUp});
    } else {
      EachOtherShows(w, i, WarmingUp);
    }
  }

  lemma WarmUpRises(w: World, i: nat, books: Books, inputs: Inputs)
    requires Inv(w) && Quiet(w.inst, inputs) && i < |w.published| && Actual(w, i) == Loaded
    requires MayWarmUp(Own(w, i, books), ViewOf(w, i))
    ensures CanRise(w, i, WarmingUp, books, inputs)
  {
    QuietRules(w, i, books, inputs);
    TaskRises(w, i, StartWarmup(w.inst.id), WarmingUp, books, inputs);
  }

  lemma LoadedRises(w: World, i: nat, books: Books, inputs: Inputs)
    requires Inv(w) && UpToDate(w) && Quiet(w.inst, inputs) && Lowest(w, i) && Actual(w, i) == Loaded
    requires i == 0 ==> forall j :: 0 < j < |w.published| ==> Actual(w, j) != Loaded
    ensures CanRise(w, i, WarmingUp, books, inputs)
  {
    LoadedMayWarmUp(w, i, books);
    WarmUpRises(w, i, books, inputs);
  }

  lemma {:induction false} FindLowest(w: World, n: nat) returns (i: nat)
    requires Shaped(w) && 0 < n <= |w.published|
    ensures i < n && forall j :: 0 <= j < n ==> Level(Actual(w, i)) <= Level(Actual(w, j))
    ensures Actual(w, i) == Idle && i == |w.published| - 1 ==> forall j :: 0 <= j < n && j != i ==> Actual(w, j) != Idle
    ensures Actual(w, i) == Loaded && i == 0 ==> forall j :: 0 < j < n ==> Actual(w, j) != Loaded
  {
    if n == 1 {
      i := 0;
    } else {
      i := FindLowest(w, n - 1);
      var l, k := Level(Actual(w, n - 1)), Level(Actual(w, i));
      if l < k || (l == k && l == 4) {
        i := n - 1;
      }
    }
  }

  lemma RiseOf(w: World, i: nat, books: Books, inputs: Inputs) returns (s: Status)
    requires Inv(w) && UpToDate(w) && Quiet(w.inst, inputs) && Lowest(w, i) && Level(Actual(w, i)) < 6
    requires Actual(w, i) == Idle && i == |w.published| - 1 ==>
               forall j :: 0 <= j < |w.published| && j != i ==> Actual(w, j) != Idle
    requires Actual(w, i) == Loaded && i == 0 ==> forall j :: 0 < j < |w.published| ==> Actual(w, j) != Loaded
    ensures CanRise(w, i, s, books, inputs)
  {
    match Actual(w, i)
    case Idle =>
      IdleRises(w, i, books, inputs);
      s := if |w.published| == 1 then Loading else Connecting;
    case Connecting => s := Connected;
    case Connected =>
      ConnectedRises(w, i, books, inputs);
      s := Loading;
    case Loading => s := Loaded;
    case Loaded =>
      LoadedRises(w, i, books, inputs);
      s := WarmingUp;
    case WarmingUp => s := Ready;
  }

  /** In every reachable state with up-to-date views in which not all runners are ready, some
      runner can move on. */
  lemma NeverStuck(w: World, books: Books, inputs: Inputs) returns (i: nat, s: Status)
    requires Inv(w) && UpToDate(w) && Quiet(w.inst, inputs)
    requires exists j :: 0 <= j < |w.published| && !Serving(Actual(w, j))
    ensures CanRise(w, i, s, books, inputs)
  {
    i := FindLowest(w, |w.published|);
    var j :| 0 <= j < |w.published| && !Serving(Actual(w, j));
    assert Climbing(w.published[i]) && Climbing(w.published[j]);
    assert Level(Actual(w, i)) <= Level(Actual(w, j)) < 6;
    s := RiseOf(w, i, books, inputs);
  }

  // ---------------------------------------------------------------- a runner the view does not hold

  lemma SingleShown(w: World)
    requires Inv(w) && |w.published| == 1
    ensures AllServing(ViewOf(w, 0), w.inst.shards) == Missing <==> w.seen[0][0] == None
  {
    assert w.inst.shards == [(0, Shard(0, 1))];
  }

  lemma HasSeenAll(w: World, i: nat)
    requires Inv(w) && i < |w.published| && |w.published| > 1 && Actual(w, i) != Idle
    ensures forall g :: g in w.inst.shards ==> g.0 in ViewOf(w, i)
  {
    forall g | g in w.inst.shards ensures g.0 in ViewOf(w, i) {
      var j :| 0 <= j < |w.inst.shards| && w.inst.shards[j] == g;
      assert w.seen[i][j].Some?;
    }
  }

  lemma OnlySingleMisses(w: World, i: nat, books: Books, inputs: Inputs)
    requires Inv(w) && i < |w.published| && Decided(w, i, books, inputs) == MissingRunner
    ensures |w.published| == 1 && w.seen[0][0] == None && Serving(Own(w, i, books).status)
    ensures CancelTasks([Own(w, i, books)], inputs.tasks) == Nothing
  {
    var r, view := Own(w, i, books), ViewOf(w, i);
    var x := DecisionSound(i, [r], view, [w.inst], inputs);
    assert x == r;
    OwnIsActual(w, i, books);
    if |w.published| > 1 {
      HasSeenAll(w, i);
      assert false;
    } else {
      SingleShown(w);
    }
    if CancelTasks([r], inputs.tasks) != Nothing {
      var y := CancelSound([r], inputs.tasks, view, [w.inst], inputs);
    }
  }

  lemma ServingDecision(w: World, i: nat, books: Books, inputs: Inputs)
    requires Inv(w) && i < |w.published| && Serving(Own(w, i, books).status)
    requires CancelTasks([Own(w, i, books)], inputs.tasks) == Nothing
    ensures Decided(w, i, books, inputs) == PendingTasks([Own(w, i, books)], inputs.tasks, ViewOf(w, i), inputs)
  {
    var r := Own(w, i, books);
    NobodyDies(w, i, books);
    NobodyIsMissing(w, i, books, inputs);
    OneRunner(r, (x: Supervisor) => NeedsDownload(i, x, inputs));
    RulesForOne(r, ViewOf(w, i), inputs);
  }

  lemma {:induction false} MissingMeansMissing(r: Supervisor, tasks: seq<Task>, view: View, inputs: Inputs)
    requires AllServing(view, r.instance.shards) == Missing
    ensures PendingTasks([r], tasks, view, inputs) == MissingRunner
       <==> exists t :: t in tasks && Runnable(t, inputs) && Takes(r, t)
  {
    if tasks != [] {
      MissingMeansMissing(r, tasks[1..], view, inputs);
      assert [r][0] == r && [r][1..] == [];
      assert InferOn(tasks[0], [r], view) == if Takes(r, tasks[0]) then MissingRunner else Nothing;
      if Runnable(tasks[0], inputs) && Takes(r, tasks[0]) {
        assert tasks[0] in tasks;
      } else {
        assert PendingTasks([r], tasks, view, inputs) == PendingTasks([r], tasks[1..], view, inputs);
        assert forall t :: t in tasks <==> t == tasks[0] || t in tasks[1..];
      }
    }
  }

  /** The look-up of a runner the view does not hold fails in one case only: a single-node
      instance, which skips the barrier that would have shown the runner, gets its first inference
      task before its node has seen the runner's status come back. */
  lemma MissingRunnerExactly(w: World, i: nat, books: Books, inputs: Inputs)
    requires Inv(w) && i < |w.published|
    ensures Decided(w, i, books, inputs) == MissingRunner
       <==> && |w.published| == 1 && w.seen[0][0] == None && Serving(Own(w, i, books).status)
            && CancelTasks([Own(w, i, books)], inputs.tasks) == Nothing
            && (exists t :: t in inputs.tasks && Runnable(t, inputs) && Takes(Own(w, i, books), t))
  {
    var r, view := Own(w, i, books), ViewOf(w, i);
    if Decided(w, i, books, inputs) == MissingRunner {
      OnlySingleMisses(w, i, books, inputs);
    }
    if && |w.published| == 1 && w.seen[0][0] == None && Serving(r.status) && CancelTasks([r], inputs.tasks) == Nothing {
      ServingDecision(w, i, books, inputs);
      SingleShown(w);
      MissingMeansMissing(r, inputs.tasks, view, inputs);
    }
  }

  /** A single node whose view of its own runner stays empty. */
  ghost function Solo(published: seq<Status>, known: nat): World
  {
    World(Instance(0, 0, [(0, Shard(0, 1))], map[0 := 0]), [published], [known], [[None]])
  }

  ghost const NO_BOOKS := Books({}, {}, {})
  ghost const CHAT := Task(7, 0, 0, TextGeneration({}), TaskPending, None)
  ghost const CHAT_INPUTS := Inputs(map[0 := [Download(0, DownloadCompleted)]], [CHAT], map[], {}, {}, {})

  lemma SoloActs(published: seq<Status>, s: Status)
    requires published != [] && Inv(Solo(published, |published| - 1))
    requires var last := published[|published| - 1]; (last == Idle && s == Loading) || (last == Loaded && s == WarmingUp)
    ensures Step(Solo(published, |published| - 1), Solo(published + [s], |published|))
  {
    var w := Solo(published, |published| - 1);
    var r, view := Own(w, 0, NO_BOOKS), ViewOf(w, 0);
    assert ReportOn(0, CHAT_INPUTS.downloads[0]) == Some(DownloadCompleted);
    assert Download(0, DownloadCompleted) in CHAT_INPUTS.downloads[0];
    QuietDecision(w, 0, NO_BOOKS, CHAT_INPUTS);
    RulesForOne(r, view, CHAT_INPUTS);
    assert Act(w, Solo(published + [s], |published|), 0, NO_BOOKS, CHAT_INPUTS);
  }

  lemma SoloProceeds(published: seq<Status>, s: Status)
    requires published != [] && Inv(Solo(published, |published| - 1))
    requires var last := published[|published| - 1]; (last == Loading && s == Loaded) || (last == WarmingUp && s == Ready)
    ensures Step(Solo(published, |published| - 1), Solo(published + [s], |published| - 1))
    ensures Step(Solo(published + [s], |published| - 1), Solo(published + [s], |published|))
    ensures Inv(Solo(published + [s], |published|))
  {
    var a, b, c := Solo(published, |published| - 1), Solo(published + [s], |published| - 1), Solo(published + [s], |published|);
    assert Proceed(a, b, 0, s);
    ProceedKeeps(a, b, 0, s);
    assert Report(b, c, 0);
    ReportKeeps(b, c, 0);
  }

  lemma SoloServes(w: World)
    requires Inv(w) && w.published == [w.published[0]] && w.inst.id == 0 && w.seen == [[None]]
    requires w.published[0][w.known[0]] == Ready
    ensures Decided(w, 0, NO_BOOKS, CHAT_INPUTS) == MissingRunner
  {
    MissingRunnerExactly(w, 0, NO_BOOKS, CHAT_INPUTS);
    assert CHAT in CHAT_INPUTS.tasks && Runnable(CHAT, CHAT_INPUTS);
    NothingToCancel([Own(w, 0, NO_BOOKS)], CHAT_INPUTS.tasks);
  }

  lemma SoloStarts(ws: seq<World>, published: seq<Status>, s: Status) returns (more: seq<World>)
    requires published != [] && Run(ws) && Last(ws) == Solo(published, |published| - 1)
    requires var last := published[|published| - 1]; (last == Idle && s == Loading) || (last == Loaded && s == WarmingUp)
    ensures Run(more) && Last(more) == Solo(published + [s], |published|)
  {
    EveryReachableState(ws, |ws| - 1);
    SoloActs(published, s);
    more := ws + [Solo(published + [s], |published|)];
    OneStepMore(ws, Solo(published + [s], |published|));
  }

  lemma SoloEnds(ws: seq<World>, published: seq<Status>, s: Status) returns (more: seq<World>)
    requires published != [] && Run(ws) && Last(ws) == Solo(published, |published| - 1)
    requires var last := published[|published| - 1]; (last == Loading && s == Loaded) || (last == WarmingUp && s == Ready)
    ensures Run(more) && Last(more) == Solo(published + [s], |published|)
  {
    EveryReachableState(ws, |ws| - 1);
    SoloProceeds(published, s);
    var b, c := Solo(published + [s], |published| - 1), Solo(published + [s], |published|);
    OneStepMore(ws, b);
    OneStepMore(ws + [b], c);
    more := ws + [b] + [c];
  }

  /** The only runner of an instance up to the end of loading. */
  lemma SoloLoads() returns (ws: seq<World>)
    ensures Run(ws) && Last(ws) == Solo([Idle] + [Loading] + [Loaded], 2)
  {
    ws := [Solo([Idle], 0)];
    ws := SoloStarts(ws, [Idle], Loading);
    ws := SoloEnds(ws, [Idle] + [Loading], Loaded);
  }

  /** And from there until it is ready. */
  lemma SoloReady() returns (ws: seq<World>)
    ensures Run(ws) && Last(ws) == Solo([Idle] + [Loading] + [Loaded] + [WarmingUp] + [Ready], 4)
  {
    ws := SoloLoads();
    ws := SoloStarts(ws, [Idle] + [Loading] + [Loaded], WarmingUp);
    ws := SoloEnds(ws, [Idle] + [Loading] + [Loaded] + [WarmingUp], Ready);
  }

  /** A run in which that look-up fails. */
  lemma LookUpFails() returns (ws: seq<World>)
    ensures Run(ws) && Shaped(Last(ws))
    ensures Decided(Last(ws), 0, NO_BOOKS, CHAT_INPUTS) == MissingRunner
  {
    ws := SoloReady();
    EveryReachableState(ws, |ws| - 1);
    SoloServes(Last(ws));
  }
}
