/** What a worker's decision means in the fields it reads, rule by rule and in both directions, and that
    no inference task is started twice. */
module PlanFacts {
  import opened Common
  import opened Plan

  // ---------------------------------------------------------------- the rules, in fields

  /** The runner's instance is gone, the runner has failed, or another of the instance is seen to have. */
  ghost predicate Doomed(r: Supervisor, view: View, instances: seq<Instance>)
  {
    || (forall i :: i in instances ==> i.id != r.instance.id)
    || r.status == Failed
    || exists n, runner :: && n in r.instance.nodes && runner == r.instance.nodes[n] && runner != r.runner
                           && runner in view && view[runner] == Failed
  }

  /** The node is to host a runner it does not have, and nothing speaks against creating it. */
  ghost predicate Lacking(node: NodeId, i: Instance, runner: RunnerId, runners: seq<Supervisor>, view: View, inputs: Inputs)
  {
    && node in i.nodes && i.nodes[node] == runner && i.id in inputs.mayCreate
    && (forall r :: r in runners ==> r.runner != runner)
    && (|| (runner in view && view[runner] == Failed)
        || forall n :: n in i.nodes && i.nodes[n] != runner && i.nodes[n] in view ==> view[i.nodes[n]] != Failed)
  }

  ghost predicate IsLastOn(model: ModelId, reports: seq<Download>, k: nat)
    requires k < |reports|
  {
    reports[k].model == model && forall j :: k < j < |reports| ==> reports[j].model != model
  }

  /** The last report on the model is one that has not begun, or there is none. */
  ghost predicate Unbegun(model: ModelId, reports: seq<Download>)
  {
    forall k :: 0 <= k < |reports| && IsLastOn(model, reports, k) ==> reports[k].state == DownloadPending
  }

  ghost predicate Undownloaded(node: NodeId, r: Supervisor, inputs: Inputs)
  {
    && r.status == Idle && r.instance.model in inputs.mayDownload
    && (node in inputs.downloads ==> Unbegun(r.instance.model, inputs.downloads[node]))
  }

  ghost predicate SeenAs(view: View, runner: RunnerId, one: Status, other: Status, third: Status)
  {
    runner in view && (view[runner] == one || view[runner] == other || view[runner] == third)
  }

  /** Every runner is seen idle or connecting, and for the last rank every other one connecting. */
  ghost predicate CanConnect(r: Supervisor, view: View)
  {
    && |r.instance.shards| != 1 && r.status == Idle && r.shard.deviceRank < r.shard.worldSize
    && (forall g :: g in r.instance.shards ==> SeenAs(view, g.0, Idle, Connecting, Connecting))
    && (r.shard.deviceRank == r.shard.worldSize - 1 ==>
          forall g :: g in r.instance.shards && g.0 != r.runner ==> g.0 in view && view[g.0] == Connecting)
  }

  ghost predicate HasModel(model: ModelId, reports: seq<Download>)
  {
    exists d :: d in reports && d.model == model && d.state == DownloadCompleted
  }

  ghost predicate CanLoad(r: Supervisor, view: View, inputs: Inputs)
  {
    && (forall n :: n in r.instance.nodes ==> n in inputs.downloads && HasModel(r.instance.model, inputs.downloads[n]))
    && (if |r.instance.shards| == 1 && r.status == Idle then true
        else r.status == Connected
             && forall g :: g in r.instance.shards ==> SeenAs(view, g.0, Connected, Loading, Loaded))
  }

  ghost predicate CanWarmUp(r: Supervisor, view: View)
  {
    && r.status == Loaded && r.shard.deviceRank >= 0
    && (r.shard.deviceRank > 0 ==> forall g :: g in r.instance.shards ==> SeenAs(view, g.0, Loaded, WarmingUp, WarmingUp))
    && (r.shard.deviceRank == 0 ==>
          forall g :: g in r.instance.shards && g.0 != r.runner ==> g.0 in view && view[g.0] == WarmingUp)
  }

  /** The task is of a kind that runs, not over, and has all its input. */
  ghost predicate Startable(t: Task, inputs: Inputs)
  {
    && (t.status == TaskPending || t.status == TaskRunning)
    && (t.kind.TextGeneration? || t.kind.ImageGeneration? || t.kind.ImageEdits?)
    && (t.kind.TextGeneration? ==> forall h :: h in t.kind.images ==> h in inputs.images)
    && (t.kind.ImageEdits? ==>
          |if t.command in inputs.chunks then inputs.chunks[t.command] else {}| >= t.kind.totalChunks)
  }

  /** The runner is of the task's instance, serves, and has not taken the task. */
  ghost predicate Untaken(r: Supervisor, t: Task)
  {
    && t.instance == r.instance.id && t.id !in r.completed && t.id !in r.inProgress
    && (r.status == Ready || r.status == Running)
  }

  ghost predicate AllSeenServing(r: Supervisor, view: View)
  {
    forall g :: g in r.instance.shards ==> SeenAs(view, g.0, Ready, Running, Running)
  }

  /** Some runner is not in the view, and those before it are seen serving. */
  ghost predicate MeetsMissing(shards: seq<(RunnerId, Shard)>, view: View)
  {
    exists k :: 0 <= k < |shards| && shards[k].0 !in view
                && forall j :: 0 <= j < k ==> SeenAs(view, shards[j].0, Ready, Running, Running)
  }

  // ---------------------------------------------------------------- helper predicates are these

  lemma {:induction false} ReportOnLast(model: ModelId, reports: seq<Download>)
    ensures (ReportOn(model, reports) == None || ReportOn(model, reports) == Some(DownloadPending)) <==> Unbegun(model, reports)
  {
    if reports != [] {
      var front, last := reports[..|reports| - 1], |reports| - 1;
      if reports[last].model != model {
        ReportOnLast(model, front);
        forall k: nat | k < |front| ensures IsLastOn(model, reports, k) <==> IsLastOn(model, front, k) {
        }
      }
    }
  }

  lemma {:induction false} AllServingMissing(view: View, shards: seq<(RunnerId, Shard)>)
    ensures AllServing(view, shards) == Missing <==> MeetsMissing(shards, view)
  {
    if shards != [] {
      var rest := shards[1..];
      AllServingMissing(view, rest);
      if k :| 0 <= k < |shards| && shards[k].0 !in view
              && forall j :: 0 <= j < k ==> SeenAs(view, shards[j].0, Ready, Running, Running) {
        if k > 0 {
          assert SeenAs(view, shards[0].0, Ready, Running, Running);
          assert rest[k - 1] == shards[k];
          forall j | 0 <= j < k - 1 ensures SeenAs(view, rest[j].0, Ready, Running, Running) {
            assert rest[j] == shards[j + 1];
          }
        }
      }
      if shards[0].0 in view && Serving(view[shards[0].0]) && MeetsMissing(rest, view) {
        var k :| 0 <= k < |rest| && rest[k].0 !in view
                 && forall j :: 0 <= j < k ==> SeenAs(view, rest[j].0, Ready, Running, Running);
        forall j | 0 <= j < k + 1 ensures SeenAs(view, shards[j].0, Ready, Running, Running) {
          assert j > 0 ==> shards[j] == rest[j - 1];
        }
        assert shards[k + 1] == rest[k];
      }
    }
  }

  lemma DoomedIs(r: Supervisor, view: View, instances: seq<Instance>)
    ensures MustDie(r, view, instances) <==> Doomed(r, view, instances)
  {
  }

  lemma LackingIs(node: NodeId, i: Instance, runners: seq<Supervisor>, view: View, inputs: Inputs)
    ensures MayCreate(node, i, runners, view, inputs)
       <==> node in i.nodes && Lacking(node, i, i.nodes[node], runners, view, inputs)
  {
  }

  lemma UndownloadedIs(node: NodeId, r: Supervisor, inputs: Inputs)
    ensures NeedsDownload(node, r, inputs) <==> Undownloaded(node, r, inputs)
  {
    ReportOnLast(r.instance.model, if node in inputs.downloads then inputs.downloads[node] else []);
  }

  lemma CanConnectIs(r: Supervisor, view: View)
    ensures MayConnect(r, view) <==> CanConnect(r, view)
  {
  }

  lemma CanLoadIs(r: Supervisor, view: View, inputs: Inputs)
    ensures MayLoad(r, view, inputs) <==> CanLoad(r, view, inputs)
  {
    forall n | n in r.instance.nodes && n in inputs.downloads
      ensures Download(r.instance.model, DownloadCompleted) in inputs.downloads[n]
         <==> HasModel(r.instance.model, inputs.downloads[n])
    {
      if d :| d in inputs.downloads[n] && d.model == r.instance.model && d.state == DownloadCompleted {
        assert d == Download(r.instance.model, DownloadCompleted);
      }
    }
  }

  lemma CanWarmUpIs(r: Supervisor, view: View)
    ensures MayWarmUp(r, view) <==> CanWarmUp(r, view)
  {
  }

  lemma StartableIs(t: Task, inputs: Inputs)
    ensures Runnable(t, inputs) <==> Startable(t, inputs)
  {
  }

  lemma UntakenIs(r: Supervisor, t: Task, view: View)
    ensures Takes(r, t) <==> Untaken(r, t)
    ensures AllServing(view, r.instance.shards) == Holds <==> AllSeenServing(r, view)
    ensures AllServing(view, r.instance.shards) == Missing <==> MeetsMissing(r.instance.shards, view)
  {
    AllServingMissing(view, r.instance.shards);
  }

  // ---------------------------------------------------------------- which runner, which task

  /** Runner k is the first the rule applies to. */
  ghost predicate IsFirst(runners: seq<Supervisor>, k: nat, rule: Supervisor -> bool)
  {
    k < |runners| && rule(runners[k]) && forall j :: 0 <= j < k ==> !rule(runners[j])
  }

  lemma {:induction false} FirstAt(runners: seq<Supervisor>, rule: Supervisor -> bool) returns (k: nat)
    requires First(runners, rule).Some?
    ensures IsFirst(runners, k, rule) && First(runners, rule).value == runners[k]
  {
    if rule(runners[0]) {
      return 0;
    }
    var i := FirstAt(runners[1..], rule);
    k := i + 1;
    forall j | 0 <= j < k ensures !rule(runners[j]) {
      assert j > 0 ==> runners[j] == runners[1..][j - 1];
    }
  }

  /** What the rules about one runner come to. */
  ghost predicate ChosenFor(node: NodeId, runners: seq<Supervisor>, k: nat, view: View, instances: seq<Instance>,
                            inputs: Inputs, a: Action)
    requires k < |runners|
  {
    var r := runners[k];
    match a
    case ShutDown(i, runner) =>
      i == r.instance.id && runner == r.runner && IsFirst(runners, k, x => Doomed(x, view, instances))
    case DownloadModel(i, model) =>
      i == r.instance.id && model == r.instance.model && IsFirst(runners, k, x => Undownloaded(node, x, inputs))
    case ConnectToGroup(i) => i == r.instance.id && IsFirst(runners, k, x => CanConnect(x, view))
    case LoadModel(i) => i == r.instance.id && IsFirst(runners, k, x => CanLoad(x, view, inputs))
    case StartWarmup(i) => i == r.instance.id && IsFirst(runners, k, x => CanWarmUp(x, view))
    case _ => false
  }

  ghost predicate AboutOneRunner(a: Action)
  {
    a.ShutDown? || a.DownloadModel? || a.ConnectToGroup? || a.LoadModel? || a.StartWarmup?
  }

  lemma KillMeans(runners: seq<Supervisor>, view: View, instances: seq<Instance>) returns (k: nat)
    requires KillRunner(runners, view, instances) != Nothing
    ensures IsFirst(runners, k, x => Doomed(x, view, instances))
    ensures KillRunner(runners, view, instances) == Do(ShutDown(runners[k].instance.id, runners[k].runner))
  {
    k := FirstAt(runners, x => MustDie(x, view, instances));
    forall x { DoomedIs(x, view, instances); }
  }

  lemma DownloadMeans(node: NodeId, runners: seq<Supervisor>, inputs: Inputs) returns (k: nat)
    requires DownloadNeeded(node, runners, inputs) != Nothing
    ensures IsFirst(runners, k, x => Undownloaded(node, x, inputs))
    ensures DownloadNeeded(node, runners, inputs) == Do(DownloadModel(runners[k].instance.id, runners[k].instance.model))
  {
    k := FirstAt(runners, x => NeedsDownload(node, x, inputs));
    forall x { UndownloadedIs(node, x, inputs); }
  }

  lemma ConnectMeans(runners: seq<Supervisor>, view: View) returns (k: nat)
    requires Connect(runners, view) != Nothing
    ensures IsFirst(runners, k, x => CanConnect(x, view))
    ensures Connect(runners, view) == Do(ConnectToGroup(runners[k].instance.id))
  {
    k := FirstAt(runners, x => MayConnect(x, view));
    forall x { CanConnectIs(x, view); }
  }

  lemma LoadMeans(runners: seq<Supervisor>, view: View, inputs: Inputs) returns (k: nat)
    requires Load(runners, view, inputs) != Nothing
    ensures IsFirst(runners, k, x => CanLoad(x, view, inputs))
    ensures Load(runners, view, inputs) == Do(LoadModel(runners[k].instance.id))
  {
    k := FirstAt(runners, x => MayLoad(x, view, inputs));
    forall x { CanLoadIs(x, view, inputs); }
  }

  lemma WarmUpMeans(runners: seq<Supervisor>, view: View) returns (k: nat)
    requires WarmUp(runners, view) != Nothing
    ensures IsFirst(runners, k, x => CanWarmUp(x, view))
    ensures WarmUp(runners, view) == Do(StartWarmup(runners[k].instance.id))
  {
    k := FirstAt(runners, x => MayWarmUp(x, view));
    forall x { CanWarmUpIs(x, view); }
  }

  /** A decision about one runner is for the first runner whose fields call for it. */
  lemma RunnerDecisionMeans(node: NodeId, runners: seq<Supervisor>, view: View, instances: seq<Instance>, inputs: Inputs)
    returns (k: nat)
    requires var d := Decide(node, runners, view, instances, inputs); d.Do? && AboutOneRunner(d.action)
    ensures k < |runners|
    ensures ChosenFor(node, runners, k, view, instances, inputs, Decide(node, runners, view, instances, inputs).action)
  {
    var d := Decide(node, runners, view, instances, inputs);
    TurnsInOrder(node, runners, view, instances, inputs, Turn(d));
    match d.action
    case ShutDown(_, _) => k := KillMeans(runners, view, instances);
    case DownloadModel(_, _) => k := DownloadMeans(node, runners, inputs);
    case ConnectToGroup(_) => k := ConnectMeans(runners, view);
    case LoadModel(_) => k := LoadMeans(runners, view, inputs);
    case StartWarmup(_) => k := WarmUpMeans(runners, view);
  }

  // ---------------------------------------------------------------- creations, cancellations, inference

  lemma {:induction false} CreateMeansAt(node: NodeId, runners: seq<Supervisor>, view: View, instances: seq<Instance>, inputs: Inputs)
    returns (k: nat)
    requires CreateMissing(node, runners, view, instances, inputs) != Nothing
    ensures k < |instances| && node in instances[k].nodes
    ensures CreateMissing(node, runners, view, instances, inputs)
         == Do(CreateRunner(instances[k].id, instances[k].nodes[node]))
    ensures Lacking(node, instances[k], instances[k].nodes[node], runners, view, inputs)
    ensures forall j :: 0 <= j < k && node in instances[j].nodes ==>
              !Lacking(node, instances[j], instances[j].nodes[node], runners, view, inputs)
    decreases instances
  {
    LackingIs(node, instances[0], runners, view, inputs);
    if MayCreate(node, instances[0], runners, view, inputs) {
      return 0;
    }
    var i := CreateMeansAt(node, runners, view, instances[1..], inputs);
    k := i + 1;
    forall j | 0 <= j < k && node in instances[j].nodes
      ensures !Lacking(node, instances[j], instances[j].nodes[node], runners, view, inputs)
    {
      assert j > 0 ==> instances[j] == instances[1..][j - 1];
    }
  }

  /** A creation is of the runner the first instance lacks on this node. */
  lemma CreationMeans(node: NodeId, runners: seq<Supervisor>, view: View, instances: seq<Instance>, inputs: Inputs)
    returns (k: nat)
    requires var d := Decide(node, runners, view, instances, inputs); d.Do? && d.action.CreateRunner?
    ensures k < |instances| && node in instances[k].nodes
    ensures Decide(node, runners, view, instances, inputs) == Do(CreateRunner(instances[k].id, instances[k].nodes[node]))
    ensures Lacking(node, instances[k], instances[k].nodes[node], runners, view, inputs)
    ensures forall j :: 0 <= j < k && node in instances[j].nodes ==>
              !Lacking(node, instances[j], instances[j].nodes[node], runners, view, inputs)
  {
    TurnsInOrder(node, runners, view, instances, inputs, Turn(Decide(node, runners, view, instances, inputs)));
    k := CreateMeansAt(node, runners, view, instances, inputs);
  }

  /** The task was cancelled, and on this runner of its instance it was not yet. */
  ghost predicate Uncancelled(r: Supervisor, t: Task)
  {
    t.status == TaskCancelled && t.instance == r.instance.id && t.id !in r.cancelled
  }

  lemma {:induction false} CancelMeansAt(runners: seq<Supervisor>, tasks: seq<Task>) returns (n: nat, k: nat)
    requires CancelTasks(runners, tasks) != Nothing
    ensures n < |tasks| && IsFirst(runners, k, x => Uncancelled(x, tasks[n]))
    ensures CancelTasks(runners, tasks) == Do(CancelTask(tasks[n].instance, tasks[n].id, runners[k].runner))
    ensures forall m, x :: 0 <= m < n && x in runners ==> !Uncancelled(x, tasks[m])
    decreases tasks
  {
    var t := tasks[0];
    if t.status == TaskCancelled && CancelFor(t, runners) != Nothing {
      n := 0;
      k := FirstAt(runners, (x: Supervisor) => t.instance == x.instance.id && t.id !in x.cancelled);
    } else {
      var i;
      i, k := CancelMeansAt(runners, tasks[1..]);
      n := i + 1;
      forall m, x | 0 <= m < n && x in runners ensures !Uncancelled(x, tasks[m]) {
        assert m > 0 ==> tasks[m] == tasks[1..][m - 1];
      }
    }
  }

  /** A cancellation is of the first task, and on its first runner, that it is due for. */
  lemma CancellationMeans(node: NodeId, runners: seq<Supervisor>, view: View, instances: seq<Instance>, inputs: Inputs)
    returns (n: nat, k: nat)
    requires var d := Decide(node, runners, view, instances, inputs); d.Do? && d.action.CancelTask?
    ensures n < |inputs.tasks| && IsFirst(runners, k, x => Uncancelled(x, inputs.tasks[n]))
    ensures Decide(node, runners, view, instances, inputs)
         == Do(CancelTask(inputs.tasks[n].instance, inputs.tasks[n].id, runners[k].runner))
    ensures forall m, x :: 0 <= m < n && x in runners ==> !Uncancelled(x, inputs.tasks[m])
  {
    TurnsInOrder(node, runners, view, instances, inputs, Turn(Decide(node, runners, view, instances, inputs)));
    n, k := CancelMeansAt(runners, inputs.tasks);
  }

  /** The runner would be told the task, or its look-up would fail. */
  ghost predicate Due(r: Supervisor, t: Task, view: View, inputs: Inputs)
  {
    Startable(t, inputs) && Untaken(r, t) && (AllSeenServing(r, view) || MeetsMissing(r.instance.shards, view))
  }

  lemma {:induction false} InferOnMeans(t: Task, runners: seq<Supervisor>, view: View, inputs: Inputs) returns (k: nat)
    requires Startable(t, inputs) && InferOn(t, runners, view) != Nothing
    ensures IsFirst(runners, k, x => Due(x, t, view, inputs))
    ensures InferOn(t, runners, view) == if AllSeenServing(runners[k], view) then Do(Infer(t)) else MissingRunner
  {
    var r := runners[0];
    UntakenIs(r, t, view);
    if Due(r, t, view, inputs) {
      return 0;
    }
    var i := InferOnMeans(t, runners[1..], view, inputs);
    k := i + 1;
    forall j | 0 <= j < k ensures !Due(runners[j], t, view, inputs) {
      assert j > 0 ==> runners[j] == runners[1..][j - 1];
    }
  }

  lemma {:induction false} NotDueOn(t: Task, runners: seq<Supervisor>, view: View, inputs: Inputs)
    requires Runnable(t, inputs) ==> InferOn(t, runners, view) == Nothing
    ensures forall x :: x in runners ==> !Due(x, t, view, inputs)
  {
    StartableIs(t, inputs);
    InfersOnWhenDue(t, runners, view);
    forall x | x in runners ensures !Due(x, t, view, inputs) {
      UntakenIs(x, t, view);
    }
  }

  lemma {:induction false} PendingMeansAt(runners: seq<Supervisor>, tasks: seq<Task>, view: View, inputs: Inputs)
    returns (n: nat, k: nat)
    requires PendingTasks(runners, tasks, view, inputs) != Nothing
    ensures n < |tasks| && IsFirst(runners, k, x => Due(x, tasks[n], view, inputs))
    ensures PendingTasks(runners, tasks, view, inputs)
         == if AllSeenServing(runners[k], view) then Do(Infer(tasks[n])) else MissingRunner
    ensures forall m, x :: 0 <= m < n && x in runners ==> !Due(x, tasks[m], view, inputs)
    decreases tasks
  {
    var t := tasks[0];
    StartableIs(t, inputs);
    if Runnable(t, inputs) && InferOn(t, runners, view) != Nothing {
      n := 0;
      k := InferOnMeans(t, runners, view, inputs);
    } else {
      NotDueOn(t, runners, view, inputs);
      var i;
      i, k := PendingMeansAt(runners, tasks[1..], view, inputs);
      n := i + 1;
      forall m, x | 0 <= m < n && x in runners ensures !Due(x, tasks[m], view, inputs) {
        assert m > 0 ==> tasks[m] == tasks[1..][m - 1];
      }
    }
  }

  /** A task is started for the first runner that serves its instance and has not taken it, once all
      runners of the instance are seen serving; tasks come in their order. The look-up fails exactly if
      the first that is due meets a runner the view does not hold. */
  lemma InferenceMeans(node: NodeId, runners: seq<Supervisor>, view: View, instances: seq<Instance>, inputs: Inputs)
    returns (n: nat, k: nat)
    requires var d := Decide(node, runners, view, instances, inputs); d == MissingRunner || (d.Do? && d.action.Infer?)
    ensures n < |inputs.tasks| && IsFirst(runners, k, x => Due(x, inputs.tasks[n], view, inputs))
    ensures Decide(node, runners, view, instances, inputs)
         == if AllSeenServing(runners[k], view) then Do(Infer(inputs.tasks[n])) else MissingRunner
    ensures forall m, x :: 0 <= m < n && x in runners ==> !Due(x, inputs.tasks[m], view, inputs)
  {
    TurnsInOrder(node, runners, view, instances, inputs, Turn(Decide(node, runners, view, instances, inputs)));
    n, k := PendingMeansAt(runners, inputs.tasks, view, inputs);
  }

  // ---------------------------------------------------------------- nothing due

  /** A decision leaves nothing undone that the fields call for under an earlier rule; without a
      decision nothing is called for at all. */
  lemma NothingEarlierDue(node: NodeId, runners: seq<Supervisor>, view: View, instances: seq<Instance>, inputs: Inputs)
    ensures var turn := Turn(Decide(node, runners, view, instances, inputs));
            && (turn > 1 ==> forall t, r :: t in inputs.tasks && r in runners ==> !Uncancelled(r, t))
            && (turn > 2 ==> forall r :: r in runners ==> !Doomed(r, view, instances))
            && (turn > 3 ==> forall i :: i in instances && node in i.nodes ==>
                               !Lacking(node, i, i.nodes[node], runners, view, inputs))
            && (turn > 4 ==> forall r :: r in runners ==> !Undownloaded(node, r, inputs))
            && (turn > 5 ==> forall r :: r in runners ==> !CanConnect(r, view))
            && (turn > 6 ==> forall r :: r in runners ==> !CanLoad(r, view, inputs))
            && (turn > 7 ==> forall r :: r in runners ==> !CanWarmUp(r, view))
            && (turn > 8 ==> forall t, r :: t in inputs.tasks && r in runners ==> !Due(r, t, view, inputs))
  {
    var turn := Turn(Decide(node, runners, view, instances, inputs));
    DecisionInOrder(node, runners, view, instances, inputs, turn);
    forall r { DoomedIs(r, view, instances); }
    forall i { LackingIs(node, i, runners, view, inputs); }
    forall r { UndownloadedIs(node, r, inputs); }
    forall r { CanConnectIs(r, view); }
    forall r { CanLoadIs(r, view, inputs); }
    forall r { CanWarmUpIs(r, view); }
    forall t { StartableIs(t, inputs); }
    forall t, r { UntakenIs(r, t, view); }
  }

  // ---------------------------------------------------------------- no task twice

  ghost predicate Taken(r: Supervisor, t: TaskId)
  {
    t in r.completed || t in r.inProgress
  }

  ghost predicate Continues(q: Supervisor, r: Supervisor)
  {
    r.runner == q.runner && r.instance.id == q.instance.id && forall t :: Taken(q, t) ==> Taken(r, t)
  }

  /** The same runners later on: none is new, and what one has taken it keeps as taken. */
  ghost predicate CarryOn(before: seq<Supervisor>, after: seq<Supervisor>)
  {
    forall r :: r in after ==> exists q :: q in before && Continues(q, r)
  }

  ghost predicate AllTook(runners: seq<Supervisor>, t: Task)
  {
    forall r :: r in runners && r.instance.id == t.instance ==> Taken(r, t.id)
  }

  lemma {:induction false} StaysTaken(history: seq<seq<Supervisor>>, t: Task, i: nat, j: nat)
    requires i <= j < |history| && AllTook(history[i], t)
    requires forall k :: 0 <= k < |history| - 1 ==> CarryOn(history[k], history[k + 1])
    ensures AllTook(history[j], t)
    decreases j
  {
    if i < j {
      StaysTaken(history, t, i, j - 1);
      assert CarryOn(history[j - 1], history[j - 1 + 1]);
      forall r | r in history[j] && r.instance.id == t.instance ensures Taken(r, t.id) {
        var q :| q in history[j - 1] && Continues(q, r);
      }
    }
  }

  /** Once every runner of its instance on the node has taken a task, no later decision of the node
      starts it, whatever else the decision reads. */
  lemma NeverStartedAgain(history: seq<seq<Supervisor>>, t: Task, i: nat, j: nat, node: NodeId, view: View,
                          instances: seq<Instance>, inputs: Inputs)
    requires i <= j < |history| && AllTook(history[i], t)
    requires forall k :: 0 <= k < |history| - 1 ==> CarryOn(history[k], history[k + 1])
    ensures forall again: Task :: again.id == t.id && again.instance == t.instance ==>
              Decide(node, history[j], view, instances, inputs) != Do(Infer(again))
  {
    StaysTaken(history, t, i, j);
    if d: Task :| d.id == t.id && d.instance == t.instance && Decide(node, history[j], view, instances, inputs) == Do(Infer(d)) {
      var n, k := InferenceMeans(node, history[j], view, instances, inputs);
    }
  }
}
