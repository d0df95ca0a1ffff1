/** The replicated state and the events that change it: the parts of `State` that instance,
    task, link, runner and topology events touch. */
module Cluster {
  import opened Common

  type LinkId = nat
  type EventId = nat
  type Time = nat

  // ---------------------------------------------------------------- entities

  datatype Edge =
    | Socket(address: string)
    | Rdma(sourceIface: string, sinkIface: string)

  datatype Connection = Connection(source: NodeId, sink: NodeId, edge: Edge)

  /** Equal connections are stored once, so the edges form a set. */
  datatype Topology = Topology(nodes: set<NodeId>, edges: set<Connection>)

  datatype Instance = Instance(id: InstanceId, assignments: seq<(NodeId, RunnerId)>)

  datatype Link = Link(id: LinkId, prefill: seq<InstanceId>, decode: seq<InstanceId>)

  datatype RunnerStatus = Up(rank: nat) | ReadyOn(port: Option<nat>) | Shutdown

  /** One Thunderbolt port: its domain identifier and the RDMA interface behind it. */
  datatype TbIdent = TbIdent(domain: string, iface: string)

  datatype TbLink = TbLink(sourceDomain: string, sinkDomain: string)

  datatype Info =
    | RdmaCtl(enabled: bool)
    | TbIdents(idents: seq<TbIdent>)
    | TbConnections(links: seq<TbLink>)
    | OtherInfo

  datatype Body =
    | PassThrough
    | TracesCollected(task: TaskId, rank: nat)
    | Elsewhere
    | TaskCreated(taskId: TaskId, created: Task)
    | TaskDeleted(taskId: TaskId)
    | TaskStatusUpdated(taskId: TaskId, status: TaskStatus)
    | TaskFailed(taskId: TaskId, message: string)
    | InstanceCreated(instance: Instance)
    | InstanceDeleted(instanceId: InstanceId)
    | LinkCreated(link: Link)
    | LinkDeleted(linkId: LinkId)
    | RunnerStatusUpdated(runnerId: RunnerId, runnerStatus: RunnerStatus)
    | NodeTimedOut(node: NodeId)
    | NodeGatheredInfo(node: NodeId, when: Time, info: Info)
    | EdgeCreated(conn: Connection)
    | EdgeDeleted(conn: Connection)

  datatype Event = Event(id: EventId, body: Body)

  /** `thunderbolt` keeps insertion order, which decides between equal domain identifiers. */
  datatype State = State(
    instances: map<InstanceId, Instance>,
    links: map<LinkId, Link>,
    tasks: map<TaskId, Task>,
    runners: map<RunnerId, RunnerStatus>,
    ports: map<RunnerId, nat>,
    topology: Topology,
    lastSeen: map<NodeId, Time>,
    thunderbolt: seq<(NodeId, seq<TbIdent>)>,
    rdmaCtl: map<NodeId, bool>,
    lastApplied: int)

  const EMPTY := State(map[], map[], map[], map[], map[], Topology({}, {}), map[], [], map[], -1)

  // ---------------------------------------------------------------- topology changes

  function AddNode(t: Topology, node: NodeId): Topology
  {
    t.(nodes := t.nodes + {node})
  }

  function AddConnection(t: Topology, c: Connection): Topology
  {
    Topology(t.nodes + {c.source, c.sink}, t.edges + {c})
  }

  function AddConnections(t: Topology, cs: seq<Connection>): Topology
    decreases cs
  {
    if cs == [] then t else AddConnections(AddConnection(t, cs[0]), cs[1..])
  }

  function RemoveNode(t: Topology, node: NodeId): Topology
  {
    if node !in t.nodes then t
    else Topology(t.nodes - {node}, set c | c in t.edges && c.source != node && c.sink != node)
  }

  function RemoveConnection(t: Topology, c: Connection): Topology
  {
    if c.source !in t.nodes || c.sink !in t.nodes then t else t.(edges := t.edges - {c})
  }

  function ReplaceOutRdma(t: Topology, source: NodeId, cs: seq<Connection>): Topology
  {
    AddConnections(t.(edges := set c | c in t.edges && !(c.edge.Rdma? && c.source == source)), cs)
  }

  function RemoveRdmaTouching(t: Topology, node: NodeId): Topology
  {
    if node !in t.nodes then t
    else t.(edges := set c | c in t.edges && !(c.edge.Rdma? && (c.source == node || c.sink == node)))
  }

  // ---------------------------------------------------------------- gathered info

  predicate RdmaEnabled(ctl: map<NodeId, bool>, node: NodeId)
  {
    node in ctl && ctl[node]
  }

  function DomainsOf(node: NodeId, idents: seq<TbIdent>): map<string, (NodeId, string)>
  {
    if idents == [] then map[]
    else
      var last := idents[|idents| - 1];
      DomainsOf(node, idents[..|idents| - 1])[last.domain := (node, last.iface)]
  }

  /** Which node and interface a domain identifier names; the last entry wins. */
  function DomainMap(entries: seq<(NodeId, seq<TbIdent>)>): map<string, (NodeId, string)>
  {
    if entries == [] then map[]
    else
      var last := entries[|entries| - 1];
      DomainMap(entries[..|entries| - 1]) + DomainsOf(last.0, last.1)
  }

  /** The RDMA connections a node's Thunderbolt links stand for: both ends known, both enabled. */
  function RdmaConnections(node: NodeId, links: seq<TbLink>, domains: map<string, (NodeId, string)>,
                           ctl: map<NodeId, bool>): (cs: seq<Connection>)
    ensures forall c :: c in cs ==> c.source == node && c.edge.Rdma?
                                    && RdmaEnabled(ctl, node) && RdmaEnabled(ctl, c.sink)
  {
    if links == [] then []
    else
      var l := links[0];
      var rest := RdmaConnections(node, links[1..], domains, ctl);
      if l.sourceDomain in domains && l.sinkDomain in domains
         && RdmaEnabled(ctl, node) && RdmaEnabled(ctl, domains[l.sinkDomain].0)
      then [Connection(node, domains[l.sinkDomain].0,
                       Rdma(domains[l.sourceDomain].1, domains[l.sinkDomain].1))] + rest
      else rest
  }

  function PutIdents(entries: seq<(NodeId, seq<TbIdent>)>, node: NodeId, idents: seq<TbIdent>)
    : seq<(NodeId, seq<TbIdent>)>
  {
    if entries == [] then [(node, idents)]
    else if entries[0].0 == node then [(node, idents)] + entries[1..]
    else [entries[0]] + PutIdents(entries[1..], node, idents)
  }

  function DropIdents(entries: seq<(NodeId, seq<TbIdent>)>, node: NodeId): seq<(NodeId, seq<TbIdent>)>
  {
    if entries == [] then []
    else (if entries[0].0 == node then [] else [entries[0]]) + DropIdents(entries[1..], node)
  }

  function ApplyInfo(s: State, node: NodeId, when: Time, info: Info): State
  {
    var t := AddNode(s.topology, node);
    var seen := s.(lastSeen := s.lastSeen[node := when]);
    match info
    case OtherInfo => seen.(topology := t)
    case TbIdents(idents) => seen.(topology := t, thunderbolt := PutIdents(s.thunderbolt, node, idents))
    case TbConnections(links) =>
      var cs := RdmaConnections(node, links, DomainMap(s.thunderbolt), s.rdmaCtl);
      seen.(topology := ReplaceOutRdma(t, node, cs))
    case RdmaCtl(enabled) =>
      seen.(topology := if enabled then t else RemoveRdmaTouching(t, node),
            rdmaCtl := s.rdmaCtl[node := enabled])
  }

  // ---------------------------------------------------------------- links

  function Without(ids: seq<InstanceId>, id: InstanceId): seq<InstanceId>
  {
    if ids == [] then []
    else (if ids[0] == id then [] else [ids[0]]) + Without(ids[1..], id)
  }

  function TrimLink(link: Link, id: InstanceId): Link
  {
    link.(prefill := Without(link.prefill, id), decode := Without(link.decode, id))
  }

  predicate TwoSided(link: Link)
  {
    link.prefill != [] && link.decode != []
  }

  function TrimLinks(links: map<LinkId, Link>, id: InstanceId): map<LinkId, Link>
  {
    map l | l in links && TwoSided(TrimLink(links[l], id)) :: TrimLink(links[l], id)
  }

  // ---------------------------------------------------------------- applying events

  function SetStatus(task: Task, status: TaskStatus): Task
  {
    if status == TaskStatus.TaskFailed then task.(status := status) else task.(status := status, error := None)
  }

  function ApplyTasks(body: Body, tasks: map<TaskId, Task>): map<TaskId, Task>
  {
    if body.TaskCreated? then tasks[body.taskId := body.created]
    else if body.TaskDeleted? then tasks - {body.taskId}
    else if body.TaskStatusUpdated? && body.taskId in tasks
    then tasks[body.taskId := SetStatus(tasks[body.taskId], body.status)]
    else if body.TaskFailed? && body.taskId in tasks
    then tasks[body.taskId := tasks[body.taskId].(error := Some(body.message))]
    else tasks
  }

  function ApplyInstances(body: Body, instances: map<InstanceId, Instance>): map<InstanceId, Instance>
  {
    if body.InstanceCreated? then instances[body.instance.id := body.instance]
    else if body.InstanceDeleted? then instances - {body.instanceId}
    else instances
  }

  function ApplyLinks(body: Body, links: map<LinkId, Link>): map<LinkId, Link>
  {
    if body.InstanceDeleted? then TrimLinks(links, body.instanceId)
    else if body.LinkCreated? then links[body.link.id := body.link]
    else if body.LinkDeleted? then links - {body.linkId}
    else links
  }

  function ApplyRunners(id: RunnerId, status: RunnerStatus, runners: map<RunnerId, RunnerStatus>)
    : map<RunnerId, RunnerStatus>
  {
    if status.Shutdown? then runners - {id} else runners[id := status]
  }

  function ApplyPorts(id: RunnerId, status: RunnerStatus, ports: map<RunnerId, nat>): map<RunnerId, nat>
  {
    match status
    case Shutdown => ports - {id}
    case ReadyOn(port) => if port.Some? then ports[id := port.value] else ports
    case Up(_) => ports
  }

  function ApplyTimeOut(s: State, node: NodeId): State
  {
    s.(topology := RemoveNode(s.topology, node),
       lastSeen := s.lastSeen - {node},
       thunderbolt := DropIdents(s.thunderbolt, node),
       rdmaCtl := s.rdmaCtl - {node})
  }

  /** Bodies without a clause of their own (`PassThrough`, `TracesCollected`, `Elsewhere`) change nothing here. */
  function EventApply(e: Event, s: State): State
  {
    var body := e.body;
    if body.NodeTimedOut? then ApplyTimeOut(s, body.node)
    else if body.NodeGatheredInfo? then ApplyInfo(s, body.node, body.when, body.info)
    else if body.EdgeCreated? then s.(topology := AddConnection(s.topology, body.conn))
    else if body.EdgeDeleted? then s.(topology := RemoveConnection(s.topology, body.conn))
    else if body.RunnerStatusUpdated? then
      s.(runners := ApplyRunners(body.runnerId, body.runnerStatus, s.runners),
         ports := ApplyPorts(body.runnerId, body.runnerStatus, s.ports))
    else
      s.(tasks := ApplyTasks(body, s.tasks),
         instances := ApplyInstances(body, s.instances),
         links := ApplyLinks(body, s.links))
  }

  /** `apply`: None stands for its assertion failing on an event out of order. */
  function Apply(s: State, idx: nat, e: Event): Option<State>
  {
    if s.lastApplied != idx - 1 then None else Some(EventApply(e, s).(lastApplied := idx))
  }

  /** The state after a log, starting from the empty state. */
  function Fold(log: seq<Event>): State
  {
    if log == [] then EMPTY
    else
      EventApply(log[|log| - 1], Fold(log[..|log| - 1])).(lastApplied := |log| - 1)
  }

  lemma FoldIndex(log: seq<Event>)
    ensures Fold(log).lastApplied == |log| - 1
  {
  }

  /** Applying the next log entry at its own index never trips the assertion and extends the fold. */
  lemma FoldExtends(log: seq<Event>, e: Event)
    ensures Apply(Fold(log), |log|, e) == Some(Fold(log + [e]))
  {
    FoldIndex(log);
    assert (log + [e])[..|log|] == log;
  }
}
