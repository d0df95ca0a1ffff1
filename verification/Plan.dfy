/** A worker's decision: what to do next, from its own runners' fresh statuses and a possibly
    stale view of everything else. */
module Plan {
  import opened Common

  type ModelId = nat

  datatype Status =
    | Idle | Connecting | Connected | Loading | Loaded | WarmingUp | Ready | Running
    | ShuttingDown | Shutdown | Failed

  datatype Shard = Shard(deviceRank: int, worldSize: int)

  /** `shards` keeps the order of the runners. */
  datatype Instance = Instance(id: InstanceId, model: ModelId,
                               shards: seq<(RunnerId, Shard)>, nodes: map<NodeId, RunnerId>)

  datatype Supervisor = Supervisor(runner: RunnerId, shard: Shard, instance: Instance, status: Status,
                                   completed: set<TaskId>, inProgress: set<TaskId>, cancelled: set<TaskId>)

  datatype DownloadState = DownloadPending | DownloadOngoing | DownloadCompleted | DownloadFailed

  datatype Download = Download(model: ModelId, state: DownloadState)

  datatype Action =
    | CancelTask(instance: InstanceId, cancelled: TaskId, runner: RunnerId)
    | ShutDown(instance: InstanceId, runner: RunnerId)
    | CreateRunner(instance: InstanceId, runner: RunnerId)
    | DownloadModel(instance: InstanceId, model: ModelId)
    | ConnectToGroup(instance: InstanceId)
    | LoadModel(instance: InstanceId)
    | StartWarmup(instance: InstanceId)
    | Infer(task: Task)

  /** A decision, nothing to do, or a look-up of a runner the view does not hold. */
  datatype Decision = Do(action: Action) | Nothing | MissingRunner

  type View = map<RunnerId, Status>

  /** Everything a decision reads besides the runners and the view of their statuses. The two
      back-offs are the sets they let through just now. */
  datatype Inputs = Inputs(
    downloads: map<NodeId, seq<Download>>, tasks: seq<Task>, chunks: map<CommandId, set<nat>>,
    images: set<ImageHash>, mayCreate: set<InstanceId>, mayDownload: set<ModelId>)

  predicate Shows(view: View, runner: RunnerId, status: Status)
  {
    runner in view && view[runner] == status
  }

  /** The first runner a rule applies to. */
  function First(runners: seq<Supervisor>, applies: Supervisor -> bool): (r: Option<Supervisor>)
    ensures r.Some? ==> r.value in runners && applies(r.value)
    ensures r.None? ==> forall x :: x in runners ==> !applies(x)
  {
    if runners == [] then None
    else if applies(runners[0]) then Some(runners[0])
    else First(runners[1..], applies)
  }

  // ---------------------------------------------------------------- cancel, kill, create, download

  function CancelFor(task: Task, runners: seq<Supervisor>): Decision
  {
    var r := First(runners, (r: Supervisor) => task.instance == r.instance.id && task.id !in r.cancelled);
    if r.None? then Nothing else Do(CancelTask(task.instance, task.id, r.value.runner))
  }

  function CancelTasks(runners: seq<Supervisor>, tasks: seq<Task>): Decision
  {
    if tasks == [] then Nothing
    else
      var first := if tasks[0].status == TaskCancelled then CancelFor(tasks[0], runners) else Nothing;
      if first != Nothing then first else CancelTasks(runners, tasks[1..])
  }

  predicate MustDie(r: Supervisor, view: View, instances: seq<Instance>)
  {
    || !(exists i :: i in instances && i.id == r.instance.id)
    || r.status == Failed
    || exists n :: n in r.instance.nodes && r.instance.nodes[n] != r.runner && Shows(view, r.instance.nodes[n], Failed)
  }

  function KillRunner(runners: seq<Supervisor>, view: View, instances: seq<Instance>): Decision
  {
    var r := First(runners, (r: Supervisor) => MustDie(r, view, instances));
    if r.None? then Nothing else Do(ShutDown(r.value.instance.id, r.value.runner))
  }

  predicate Supervised(runners: seq<Supervisor>, runner: RunnerId)
  {
    exists r :: r in runners && r.runner == runner
  }

  predicate MayCreate(node: NodeId, i: Instance, runners: seq<Supervisor>, view: View, inputs: Inputs)
  {
    && node in i.nodes
    && var runner := i.nodes[node];
       && !Supervised(runners, runner)
       && ((forall n :: n in i.nodes && i.nodes[n] != runner ==> !Shows(view, i.nodes[n], Failed))
           || Shows(view, runner, Failed))
       && i.id in inputs.mayCreate
  }

  function CreateMissing(node: NodeId, runners: seq<Supervisor>, view: View, instances: seq<Instance>, inputs: Inputs): Decision
  {
    if instances == [] then Nothing
    else if MayCreate(node, instances[0], runners, view, inputs) then
      Do(CreateRunner(instances[0].id, instances[0].nodes[node]))
    else CreateMissing(node, runners, view, instances[1..], inputs)
  }

  /** The last report about a model counts. */
  function ReportOn(model: ModelId, downloads: seq<Download>): Option<DownloadState>
  {
    if downloads == [] then None
    else
      var last := |downloads| - 1;
      if downloads[last].model == model then Some(downloads[last].state) else ReportOn(model, downloads[..last])
  }

  predicate NeedsDownload(node: NodeId, r: Supervisor, inputs: Inputs)
  {
    var report := ReportOn(r.instance.model, if node in inputs.downloads then inputs.downloads[node] else []);
    r.status == Idle && (report == None || report == Some(DownloadPending)) && r.instance.model in inputs.mayDownload
  }

  function DownloadNeeded(node: NodeId, runners: seq<Supervisor>, inputs: Inputs): Decision
  {
    var r := First(runners, (r: Supervisor) => NeedsDownload(node, r, inputs));
    if r.None? then Nothing else Do(DownloadModel(r.value.instance.id, r.value.instance.model))
  }

  // ---------------------------------------------------------------- connect, load, warm up

  predicate AllShow(view: View, shards: seq<(RunnerId, Shard)>, allowed: set<Status>)
  {
    forall g :: g in shards ==> g.0 in view && view[g.0] in allowed
  }

  predicate OthersShow(view: View, shards: seq<(RunnerId, Shard)>, own: RunnerId, status: Status)
  {
    forall g :: g in shards && g.0 != own ==> Shows(view, g.0, status)
  }

  predicate MayConnect(r: Supervisor, view: View)
  {
    && |r.instance.shards| != 1
    && r.status == Idle && AllShow(view, r.instance.shards, {Connecting, Idle})
    && (r.shard.deviceRank < r.shard.worldSize - 1
        || (r.shard.deviceRank == r.shard.worldSize - 1
            && OthersShow(view, r.instance.shards, r.runner, Connecting)))
  }

  function Connect(runners: seq<Supervisor>, view: View): Decision
  {
    var r := First(runners, (r: Supervisor) => MayConnect(r, view));
    if r.None? then Nothing else Do(ConnectToGroup(r.value.instance.id))
  }

  predicate Downloaded(i: Instance, inputs: Inputs)
  {
    forall n :: n in i.nodes ==> n in inputs.downloads && Download(i.model, DownloadCompleted) in inputs.downloads[n]
  }

  predicate MayLoad(r: Supervisor, view: View, inputs: Inputs)
  {
    && Downloaded(r.instance, inputs)
    && (|| (|r.instance.shards| == 1 && r.status == Idle)
        || (r.status == Connected && AllShow(view, r.instance.shards, {Connected, Loading, Loaded})))
  }

  function Load(runners: seq<Supervisor>, view: View, inputs: Inputs): Decision
  {
    var r := First(runners, (r: Supervisor) => MayLoad(r, view, inputs));
    if r.None? then Nothing else Do(LoadModel(r.value.instance.id))
  }

  predicate MayWarmUp(r: Supervisor, view: View)
  {
    && r.status == Loaded
    && (|| (r.shard.deviceRank > 0 && AllShow(view, r.instance.shards, {Loaded, WarmingUp}))
        || (r.shard.deviceRank == 0 && OthersShow(view, r.instance.shards, r.runner, WarmingUp)))
  }

  function WarmUp(runners: seq<Supervisor>, view: View): Decision
  {
    var r := First(runners, (r: Supervisor) => MayWarmUp(r, view));
    if r.None? then Nothing else Do(StartWarmup(r.value.instance.id))
  }

  // ---------------------------------------------------------------- inference

  datatype Check = Holds | Fails | Missing

  predicate Serving(status: Status)
  {
    status == Ready || status == Running
  }

  /** Looks the runners up in order and stops at the first that is not serving. */
  function AllServing(view: View, shards: seq<(RunnerId, Shard)>): (c: Check)
    ensures c == Holds <==> forall g :: g in shards ==> g.0 in view && Serving(view[g.0])
    ensures c == Missing ==> exists g :: g in shards && g.0 !in view
  {
    if shards == [] then Holds
    else if shards[0].0 !in view then Missing
    else if Serving(view[shards[0].0]) then AllServing(view, shards[1..])
    else Fails
  }

  lemma AllServingShown(view: View, shards: seq<(RunnerId, Shard)>)
    requires AllServing(view, shards) == Holds
    ensures AllShow(view, shards, {Ready, Running})
  {
  }

  predicate Runnable(task: Task, inputs: Inputs)
  {
    && task.kind != OtherKind
    && (task.status == TaskPending || task.status == TaskRunning)
    && (task.kind.ImageEdits? && task.kind.totalChunks > 0 ==>
          task.command in inputs.chunks && task.kind.totalChunks <= |inputs.chunks[task.command]|)
    && (task.kind.TextGeneration? ==> task.kind.images <= inputs.images)
  }

  predicate Takes(r: Supervisor, task: Task)
  {
    task.instance == r.instance.id && task.id !in r.completed && task.id !in r.inProgress && Serving(r.status)
  }

  function InferOn(task: Task, runners: seq<Supervisor>, view: View): Decision
  {
    if runners == [] then Nothing
    else
      var check := if Takes(runners[0], task) then AllServing(view, runners[0].instance.shards) else Fails;
      match check
      case Holds => Do(Infer(task))
      case Missing => MissingRunner
      case Fails => InferOn(task, runners[1..], view)
  }

  function PendingTasks(runners: seq<Supervisor>, tasks: seq<Task>, view: View, inputs: Inputs): Decision
  {
    if tasks == [] then Nothing
    else
      var first := if Runnable(tasks[0], inputs) then InferOn(tasks[0], runners, view) else Nothing;
      if first != Nothing then first else PendingTasks(runners, tasks[1..], view, inputs)
  }

  // ---------------------------------------------------------------- the decision

  function Or(a: Decision, b: Decision): Decision
  {
    if a == Nothing then b else a
  }

  function Decide(node: NodeId, runners: seq<Supervisor>, view: View, instances: seq<Instance>, inputs: Inputs): Decision
  {
    Or(CancelTasks(runners, inputs.tasks),
    Or(KillRunner(runners, view, instances),
    Or(CreateMissing(node, runners, view, instances, inputs),
    Or(DownloadNeeded(node, runners, inputs),
    Or(Connect(runners, view),
    Or(Load(runners, view, inputs),
    Or(WarmUp(runners, view),
       PendingTasks(runners, inputs.tasks, view, inputs))))))))
  }

  // ---------------------------------------------------------------- what a decision means

  /** Runner r is why the action was chosen. */
  ghost predicate Warrants(r: Supervisor, view: View, instances: seq<Instance>, inputs: Inputs, a: Action)
  {
    match a
    case CancelTask(i, cancelled, runner) =>
      && i == r.instance.id && runner == r.runner && cancelled !in r.cancelled
      && exists t :: t in inputs.tasks && t.id == cancelled && t.instance == i && t.status == TaskCancelled
    case ShutDown(i, runner) => i == r.instance.id && runner == r.runner && MustDie(r, view, instances)
    case CreateRunner(_, _) => false
    case DownloadModel(i, model) => i == r.instance.id && model == r.instance.model && r.status == Idle
    case ConnectToGroup(i) => i == r.instance.id && MayConnect(r, view)
    case LoadModel(i) => i == r.instance.id && MayLoad(r, view, inputs)
    case StartWarmup(i) => i == r.instance.id && MayWarmUp(r, view)
    case Infer(task) =>
      && task in inputs.tasks && Runnable(task, inputs) && Takes(r, task)
      && AllServing(view, r.instance.shards) == Holds
  }

  lemma {:induction false} CancelSound(runners: seq<Supervisor>, tasks: seq<Task>, view: View, instances: seq<Instance>,
                                       inputs: Inputs) returns (r: Supervisor)
    requires CancelTasks(runners, tasks) != Nothing && forall t :: t in tasks ==> t in inputs.tasks
    ensures CancelTasks(runners, tasks).Do? && r in runners
    ensures Warrants(r, view, instances, inputs, CancelTasks(runners, tasks).action)
    decreases tasks
  {
    if tasks[0].status == TaskCancelled && CancelFor(tasks[0], runners) != Nothing {
      r := First(runners, (r: Supervisor) => tasks[0].instance == r.instance.id && tasks[0].id !in r.cancelled).value;
    } else {
      r := CancelSound(runners, tasks[1..], view, instances, inputs);
    }
  }

  lemma {:induction false} InferOnSound(task: Task, runners: seq<Supervisor>, view: View) returns (r: Supervisor)
    requires InferOn(task, runners, view) != Nothing
    ensures r in runners && Takes(r, task)
    ensures InferOn(task, runners, view) ==
              if AllServing(view, r.instance.shards) == Holds then Do(Infer(task)) else MissingRunner
    ensures AllServing(view, r.instance.shards) != Fails
  {
    if Takes(runners[0], task) && AllServing(view, runners[0].instance.shards) != Fails {
      r := runners[0];
    } else {
      r := InferOnSound(task, runners[1..], view);
    }
  }

  lemma {:induction false} PendingSound(runners: seq<Supervisor>, tasks: seq<Task>, view: View, inputs: Inputs)
    returns (r: Supervisor, task: Task)
    requires PendingTasks(runners, tasks, view, inputs) != Nothing
    ensures r in runners && task in tasks && Runnable(task, inputs) && Takes(r, task)
    ensures AllServing(view, r.instance.shards) != Fails
    ensures PendingTasks(runners, tasks, view, inputs) ==
              if AllServing(view, r.instance.shards) == Holds then Do(Infer(task)) else MissingRunner
    decreases tasks
  {
    if Runnable(tasks[0], inputs) && InferOn(tasks[0], runners, view) != Nothing {
      task := tasks[0];
      r := InferOnSound(task, runners, view);
    } else {
      r, task := PendingSound(runners, tasks[1..], view, inputs);
    }
  }

  lemma {:induction false} CreateOnly(node: NodeId, runners: seq<Supervisor>, view: View, instances: seq<Instance>, inputs: Inputs)
    requires CreateMissing(node, runners, view, instances, inputs) != Nothing
    ensures var d := CreateMissing(node, runners, view, instances, inputs);
            && d.Do? && d.action.CreateRunner?
            && (exists i :: && i in instances && i.id == d.action.instance
                            && MayCreate(node, i, runners, view, inputs) && i.nodes[node] == d.action.runner)
    decreases instances
  {
    if MayCreate(node, instances[0], runners, view, inputs) {
      assert instances[0] in instances;
    } else {
      CreateOnly(node, runners, view, instances[1..], inputs);
    }
  }

  lemma LaterDecisionSound(node: NodeId, runners: seq<Supervisor>, view: View, instances: seq<Instance>, inputs: Inputs)
    returns (r: Supervisor)
    requires var d := Decide(node, runners, view, instances, inputs); d != Nothing
    requires CancelTasks(runners, inputs.tasks) == Nothing && KillRunner(runners, view, instances) == Nothing
    requires CreateMissing(node, runners, view, instances, inputs) == Nothing
    ensures r in runners
    ensures var d := Decide(node, runners, view, instances, inputs);
            if d.Do? then Warrants(r, view, instances, inputs, d.action)
            else Serving(r.status) && AllServing(view, r.instance.shards) == Missing
  {
    if DownloadNeeded(node, runners, inputs) != Nothing {
      r := First(runners, (r: Supervisor) => NeedsDownload(node, r, inputs)).value;
    } else if Connect(runners, view) != Nothing {
      r := First(runners, (r: Supervisor) => MayConnect(r, view)).value;
    } else if Load(runners, view, inputs) != Nothing {
      r := First(runners, (r: Supervisor) => MayLoad(r, view, inputs)).value;
    } else if WarmUp(runners, view) != Nothing {
      r := First(runners, (r: Supervisor) => MayWarmUp(r, view)).value;
    } else {
      var task;
      r, task := PendingSound(runners, inputs.tasks, view, inputs);
    }
  }

  /** Every decision but the creation of a runner is warranted by one of the node's own runners,
      and a missing runner is met only on behalf of one that is serving. */
  lemma DecisionSound(node: NodeId, runners: seq<Supervisor>, view: View, instances: seq<Instance>, inputs: Inputs)
    returns (r: Supervisor)
    requires var d := Decide(node, runners, view, instances, inputs);
             d == MissingRunner || (d.Do? && !d.action.CreateRunner?)
    ensures r in runners
    ensures var d := Decide(node, runners, view, instances, inputs);
            if d.Do? then Warrants(r, view, instances, inputs, d.action)
            else Serving(r.status) && AllServing(view, r.instance.shards) == Missing
  {
    if CancelTasks(runners, inputs.tasks) != Nothing {
      r := CancelSound(runners, inputs.tasks, view, instances, inputs);
    } else if KillRunner(runners, view, instances) != Nothing {
      r := First(runners, (r: Supervisor) => MustDie(r, view, instances)).value;
    } else if CreateMissing(node, runners, view, instances, inputs) == Nothing {
      r := LaterDecisionSound(node, runners, view, instances, inputs);
    } else {
      CreateOnly(node, runners, view, instances, inputs);
    }
  }

  // ---------------------------------------------------------------- which rule comes first

  ghost predicate CancelDue(runners: seq<Supervisor>, tasks: seq<Task>)
  {
    exists t, r :: && t in tasks && r in runners && t.status == TaskCancelled
                   && t.instance == r.instance.id && t.id !in r.cancelled
  }

  ghost predicate InferDue(runners: seq<Supervisor>, view: View, inputs: Inputs, tasks: seq<Task>)
  {
    exists t, r :: && t in tasks && r in runners && Runnable(t, inputs) && Takes(r, t)
                   && AllServing(view, r.instance.shards) != Fails
  }

  lemma {:induction false} CancelsWhenDue(runners: seq<Supervisor>, tasks: seq<Task>)
    ensures CancelTasks(runners, tasks) == Nothing <==> !CancelDue(runners, tasks)
    decreases tasks
  {
    if tasks != [] {
      CancelsWhenDue(runners, tasks[1..]);
      assert forall t :: t in tasks <==> t == tasks[0] || t in tasks[1..];
    }
  }

  lemma {:induction false} CreatesWhenDue(node: NodeId, runners: seq<Supervisor>, view: View, instances: seq<Instance>, inputs: Inputs)
    ensures CreateMissing(node, runners, view, instances, inputs) == Nothing
       <==> forall i :: i in instances ==> !MayCreate(node, i, runners, view, inputs)
    decreases instances
  {
    if instances != [] {
      CreatesWhenDue(node, runners, view, instances[1..], inputs);
      assert forall i :: i in instances <==> i == instances[0] || i in instances[1..];
    }
  }

  lemma {:induction false} InfersOnWhenDue(task: Task, runners: seq<Supervisor>, view: View)
    ensures InferOn(task, runners, view) == Nothing
       <==> forall r :: r in runners && Takes(r, task) ==> AllServing(view, r.instance.shards) == Fails
  {
    if runners != [] {
      InfersOnWhenDue(task, runners[1..], view);
      assert forall r :: r in runners <==> r == runners[0] || r in runners[1..];
    }
  }

  lemma {:induction false} InfersWhenDue(runners: seq<Supervisor>, tasks: seq<Task>, view: View, inputs: Inputs)
    ensures PendingTasks(runners, tasks, view, inputs) == Nothing <==> !InferDue(runners, view, inputs, tasks)
    decreases tasks
  {
    if tasks != [] {
      InfersWhenDue(runners, tasks[1..], view, inputs);
      InfersOnWhenDue(tasks[0], runners, view);
      assert forall t :: t in tasks <==> t == tasks[0] || t in tasks[1..];
    }
  }

  /** How early a decision's rule comes. */
  ghost function Turn(d: Decision): nat
  {
    if d.Nothing? then 9
    else if d.MissingRunner? then 8
    else match d.action
      case CancelTask(_, _, _) => 1
      case ShutDown(_, _) => 2
      case CreateRunner(_, _) => 3
      case DownloadModel(_, _) => 4
      case ConnectToGroup(_) => 5
      case LoadModel(_) => 6
      case StartWarmup(_) => 7
      case Infer(_) => 8
  }

  lemma FirstOf(a: Decision, b: Decision, c: Decision, d: Decision, e: Decision, f: Decision, g: Decision, h: Decision)
    requires (a == Nothing || Turn(a) == 1) && (b == Nothing || Turn(b) == 2) && (c == Nothing || Turn(c) == 3)
    requires (d == Nothing || Turn(d) == 4) && (e == Nothing || Turn(e) == 5) && (f == Nothing || Turn(f) == 6)
    requires (g == Nothing || Turn(g) == 7) && (h == Nothing || Turn(h) == 8)
    ensures var turn := Turn(Or(a, Or(b, Or(c, Or(d, Or(e, Or(f, Or(g, h))))))));
            && (turn > 1 <==> a == Nothing) && (turn > 2 ==> b == Nothing) && (turn > 3 ==> c == Nothing)
            && (turn > 4 ==> d == Nothing) && (turn > 5 ==> e == Nothing) && (turn > 6 ==> f == Nothing)
            && (turn > 7 ==> g == Nothing) && (turn > 8 ==> h == Nothing)
    ensures var decided := Or(a, Or(b, Or(c, Or(d, Or(e, Or(f, Or(g, h)))))));
            var turn := Turn(decided);
            && (turn == 1 ==> decided == a) && (turn == 2 ==> decided == b) && (turn == 3 ==> decided == c)
            && (turn == 4 ==> decided == d) && (turn == 5 ==> decided == e) && (turn == 6 ==> decided == f)
            && (turn == 7 ==> decided == g) && (turn == 8 ==> decided == h)
  {
  }

  lemma TurnOfRules(node: NodeId, runners: seq<Supervisor>, view: View, instances: seq<Instance>, inputs: Inputs)
    ensures KillRunner(runners, view, instances) == Nothing || Turn(KillRunner(runners, view, instances)) == 2
    ensures DownloadNeeded(node, runners, inputs) == Nothing || Turn(DownloadNeeded(node, runners, inputs)) == 4
    ensures Connect(runners, view) == Nothing || Turn(Connect(runners, view)) == 5
    ensures Load(runners, view, inputs) == Nothing || Turn(Load(runners, view, inputs)) == 6
    ensures WarmUp(runners, view) == Nothing || Turn(WarmUp(runners, view)) == 7
  {
  }

  lemma TurnOfCreate(node: NodeId, runners: seq<Supervisor>, view: View, instances: seq<Instance>, inputs: Inputs)
    ensures CreateMissing(node, runners, view, instances, inputs) == Nothing
            || Turn(CreateMissing(node, runners, view, instances, inputs)) == 3
  {
    if CreateMissing(node, runners, view, instances, inputs) != Nothing {
      CreateOnly(node, runners, view, instances, inputs);
    }
  }

  lemma TurnOfInfer(runners: seq<Supervisor>, tasks: seq<Task>, view: View, inputs: Inputs)
    ensures PendingTasks(runners, tasks, view, inputs) == Nothing || Turn(PendingTasks(runners, tasks, view, inputs)) == 8
  {
    if PendingTasks(runners, tasks, view, inputs) != Nothing {
      var r, task := PendingSound(runners, tasks, view, inputs);
    }
  }

  lemma {:induction false} TurnOfCancel(runners: seq<Supervisor>, tasks: seq<Task>)
    ensures CancelTasks(runners, tasks) == Nothing || Turn(CancelTasks(runners, tasks)) == 1
    decreases tasks
  {
    if tasks != [] {
      TurnOfCancel(runners, tasks[1..]);
    }
  }

  /** Each rule's decision has that rule's turn, and the first that is one is taken. */
  lemma TurnsInOrder(node: NodeId, runners: seq<Supervisor>, view: View, instances: seq<Instance>, inputs: Inputs, turn: nat)
    requires turn == Turn(Decide(node, runners, view, instances, inputs))
    ensures turn > 1 <==> CancelTasks(runners, inputs.tasks) == Nothing
    ensures turn > 2 ==> KillRunner(runners, view, instances) == Nothing
    ensures turn > 3 ==> CreateMissing(node, runners, view, instances, inputs) == Nothing
    ensures turn > 4 ==> DownloadNeeded(node, runners, inputs) == Nothing
    ensures turn > 5 ==> Connect(runners, view) == Nothing
    ensures turn > 6 ==> Load(runners, view, inputs) == Nothing
    ensures turn > 7 ==> WarmUp(runners, view) == Nothing
    ensures turn > 8 ==> PendingTasks(runners, inputs.tasks, view, inputs) == Nothing
    ensures var d := Decide(node, runners, view, instances, inputs);
            && (turn == 1 ==> d == CancelTasks(runners, inputs.tasks))
            && (turn == 2 ==> d == KillRunner(runners, view, instances))
            && (turn == 3 ==> d == CreateMissing(node, runners, view, instances, inputs))
            && (turn == 4 ==> d == DownloadNeeded(node, runners, inputs))
            && (turn == 5 ==> d == Connect(runners, view)) && (turn == 6 ==> d == Load(runners, view, inputs))
            && (turn == 7 ==> d == WarmUp(runners, view))
            && (turn == 8 ==> d == PendingTasks(runners, inputs.tasks, view, inputs))
  {
    TurnOfCancel(runners, inputs.tasks);
    TurnOfCreate(node, runners, view, instances, inputs);
    TurnOfInfer(runners, inputs.tasks, view, inputs);
    TurnOfRules(node, runners, view, instances, inputs);
    FirstOf(CancelTasks(runners, inputs.tasks), KillRunner(runners, view, instances),
            CreateMissing(node, runners, view, instances, inputs), DownloadNeeded(node, runners, inputs),
            Connect(runners, view), Load(runners, view, inputs), WarmUp(runners, view),
            PendingTasks(runners, inputs.tasks, view, inputs));
  }

  lemma RulesWhenDue(node: NodeId, runners: seq<Supervisor>, view: View, instances: seq<Instance>, inputs: Inputs)
    ensures KillRunner(runners, view, instances) == Nothing ==> forall r :: r in runners ==> !MustDie(r, view, instances)
    ensures DownloadNeeded(node, runners, inputs) == Nothing ==> forall r :: r in runners ==> !NeedsDownload(node, r, inputs)
    ensures Connect(runners, view) == Nothing ==> forall r :: r in runners ==> !MayConnect(r, view)
    ensures Load(runners, view, inputs) == Nothing ==> forall r :: r in runners ==> !MayLoad(r, view, inputs)
    ensures WarmUp(runners, view) == Nothing ==> forall r :: r in runners ==> !MayWarmUp(r, view)
  {
  }

  /** A decision leaves nothing undone that an earlier rule calls for, and a worker that decides
      nothing has nothing to do. */
  lemma DecisionInOrder(node: NodeId, runners: seq<Supervisor>, view: View, instances: seq<Instance>, inputs: Inputs, turn: nat)
    requires turn == Turn(Decide(node, runners, view, instances, inputs))
    ensures turn > 1 <==> !CancelDue(runners, inputs.tasks)
    ensures turn > 2 ==> forall r :: r in runners ==> !MustDie(r, view, instances)
    ensures turn > 3 ==> forall i :: i in instances ==> !MayCreate(node, i, runners, view, inputs)
    ensures turn > 4 ==> forall r :: r in runners ==> !NeedsDownload(node, r, inputs)
    ensures turn > 5 ==> forall r :: r in runners ==> !MayConnect(r, view)
    ensures turn > 6 ==> forall r :: r in runners ==> !MayLoad(r, view, inputs)
    ensures turn > 7 ==> forall r :: r in runners ==> !MayWarmUp(r, view)
    ensures turn > 8 ==> !InferDue(runners, view, inputs, inputs.tasks)
  {
    TurnsInOrder(node, runners, view, instances, inputs, turn);
    CancelsWhenDue(runners, inputs.tasks);
    CreatesWhenDue(node, runners, view, instances, inputs);
    InfersWhenDue(runners, inputs.tasks, view, inputs);
    RulesWhenDue(node, runners, view, instances, inputs);
  }
}
