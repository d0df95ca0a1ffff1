/** What every replica's state satisfies, whatever log it was folded from. */
module StateFacts {
  import opened Common
  import opened Cluster
  import opened Transition

  /** Gathered information and time-outs leave everything but the nodes alone. */
  lemma InfoLeavesWork(s: State, node: NodeId, when: Time, info: Info, t: State)
    requires t == ApplyInfo(s, node, when, info)
    ensures t.tasks == s.tasks && t.instances == s.instances && t.links == s.links
    ensures t.runners == s.runners && t.ports == s.ports
  {
  }

  lemma NodeEventLeavesWork(s: State, e: Event, t: State)
    requires t == EventApply(e, s) && (e.body.NodeTimedOut? || e.body.NodeGatheredInfo? || e.body.EdgeCreated? || e.body.EdgeDeleted?)
    ensures t.tasks == s.tasks && t.instances == s.instances && t.links == s.links
    ensures t.runners == s.runners && t.ports == s.ports
  {
    if e.body.NodeGatheredInfo? {
      InfoLeavesWork(s, e.body.node, e.body.when, e.body.info, t);
    }
  }

  lemma WorkEvent(s: State, e: Event, t: State)
    requires t == EventApply(e, s)
    requires !e.body.NodeTimedOut? && !e.body.NodeGatheredInfo? && !e.body.EdgeCreated? && !e.body.EdgeDeleted?
    requires !e.body.RunnerStatusUpdated?
    ensures t == s.(tasks := ApplyTasks(e.body, s.tasks), instances := ApplyInstances(e.body, s.instances),
                    links := ApplyLinks(e.body, s.links))
  {
  }

  lemma OtherBodies(body: Body, tasks: map<TaskId, Task>, instances: map<InstanceId, Instance>, links: map<LinkId, Link>)
    requires body.NodeTimedOut? || body.NodeGatheredInfo? || body.EdgeCreated? || body.EdgeDeleted? || body.RunnerStatusUpdated?
    ensures ApplyTasks(body, tasks) == tasks && ApplyInstances(body, instances) == instances && ApplyLinks(body, links) == links
  {
  }

  /** Tasks, instances and links each follow their own function of the event. */
  lemma EventParts(s: State, e: Event, t: State)
    requires t == EventApply(e, s)
    ensures t.tasks == ApplyTasks(e.body, s.tasks) && t.instances == ApplyInstances(e.body, s.instances)
    ensures t.links == ApplyLinks(e.body, s.links)
  {
    if e.body.NodeTimedOut? || e.body.NodeGatheredInfo? || e.body.EdgeCreated? || e.body.EdgeDeleted? {
      NodeEventLeavesWork(s, e, t);
      OtherBodies(e.body, s.tasks, s.instances, s.links);
    } else if e.body.RunnerStatusUpdated? {
      OtherBodies(e.body, s.tasks, s.instances, s.links);
    } else {
      WorkEvent(s, e, t);
    }
  }

  // ---------------------------------------------------------------- runners and ports

  /** A prefill port belongs to a runner that is known, so it goes with its runner. */
  ghost predicate PortsOwned(ports: map<RunnerId, nat>, runners: map<RunnerId, RunnerStatus>)
  {
    ports.Keys <= runners.Keys
  }

  lemma StatusKeepsPorts(id: RunnerId, status: RunnerStatus, ports: map<RunnerId, nat>, runners: map<RunnerId, RunnerStatus>)
    requires PortsOwned(ports, runners)
    ensures PortsOwned(ApplyPorts(id, status, ports), ApplyRunners(id, status, runners))
  {
  }

  lemma EventKeepsPorts(s: State, e: Event, t: State)
    requires PortsOwned(s.ports, s.runners) && t == EventApply(e, s)
    ensures PortsOwned(t.ports, t.runners)
  {
    if e.body.NodeTimedOut? || e.body.NodeGatheredInfo? || e.body.EdgeCreated? || e.body.EdgeDeleted? {
      NodeEventLeavesWork(s, e, t);
    } else if e.body.RunnerStatusUpdated? {
      StatusKeepsPorts(e.body.runnerId, e.body.runnerStatus, s.ports, s.runners);
    } else {
      WorkEvent(s, e, t);
    }
  }

  lemma {:induction false} PortsAlwaysOwned(log: seq<Event>)
    ensures PortsOwned(Fold(log).ports, Fold(log).runners)
  {
    if log != [] {
      PortsAlwaysOwned(log[..|log| - 1]);
      var before := Fold(log[..|log| - 1]);
      EventKeepsPorts(before, log[|log| - 1], EventApply(log[|log| - 1], before));
    }
  }

  // ---------------------------------------------------------------- what is stored under a key

  /** Instances, tasks and links are stored under their own identifiers. */
  ghost predicate Keyed(s: State)
  {
    KeyedInstances(s.instances) && KeyedTasks(s.tasks) && forall l :: l in s.links ==> s.links[l].id == l
  }

  /** A created task comes under its own identifier. */
  ghost predicate NamesItsTask(e: Event)
  {
    e.body.TaskCreated? ==> e.body.created.id == e.body.taskId
  }

  lemma BodyKeepsKeys(body: Body, tasks: map<TaskId, Task>, instances: map<InstanceId, Instance>, links: map<LinkId, Link>)
    requires KeyedTasks(tasks) && KeyedInstances(instances) && forall l :: l in links ==> links[l].id == l
    requires body.TaskCreated? ==> body.created.id == body.taskId
    ensures KeyedTasks(ApplyTasks(body, tasks)) && KeyedInstances(ApplyInstances(body, instances))
    ensures forall l :: l in ApplyLinks(body, links) ==> ApplyLinks(body, links)[l].id == l
  {
  }

  lemma EventKeepsKeys(s: State, e: Event)
    requires Keyed(s) && NamesItsTask(e)
    ensures Keyed(EventApply(e, s))
  {
    EventParts(s, e, EventApply(e, s));
    BodyKeepsKeys(e.body, s.tasks, s.instances, s.links);
  }

  lemma {:induction false} AlwaysKeyed(log: seq<Event>)
    requires forall k :: 0 <= k < |log| ==> NamesItsTask(log[k])
    ensures Keyed(Fold(log))
  {
    if log != [] {
      AlwaysKeyed(log[..|log| - 1]);
      EventKeepsKeys(Fold(log[..|log| - 1]), log[|log| - 1]);
    }
  }

  // ---------------------------------------------------------------- what is there

  /** The last of the events that make or unmake a thing made it. */
  ghost predicate LastMade(log: seq<Event>, makes: Event -> bool, unmakes: Event -> bool)
  {
    exists k :: 0 <= k < |log| && makes(log[k]) && forall j :: k < j < |log| ==> !unmakes(log[j])
  }

  lemma LastMadeGrows(log: seq<Event>, e: Event, makes: Event -> bool, unmakes: Event -> bool)
    requires !(makes(e) && unmakes(e))
    ensures LastMade(log + [e], makes, unmakes) <==> makes(e) || (LastMade(log, makes, unmakes) && !unmakes(e))
  {
    var more := log + [e];
    if LastMade(more, makes, unmakes) {
      var k :| 0 <= k < |more| && makes(more[k]) && forall j :: k < j < |more| ==> !unmakes(more[j]);
      if k < |log| {
        assert makes(log[k]) && forall j :: k < j < |log| ==> log[j] == more[j];
        assert !unmakes(more[|log|]);
      }
    }
    if makes(e) {
      assert makes(more[|log|]);
    } else if LastMade(log, makes, unmakes) && !unmakes(e) {
      var k :| 0 <= k < |log| && makes(log[k]) && forall j :: k < j < |log| ==> !unmakes(log[j]);
      assert makes(more[k]) && forall j :: k < j < |more| ==> j == |log| || more[j] == log[j];
    }
  }

  function Creates(id: TaskId): Event -> bool
  {
    (e: Event) => e.body.TaskCreated? && e.body.taskId == id
  }

  function Deletes(id: TaskId): Event -> bool
  {
    (e: Event) => e.body.TaskDeleted? && e.body.taskId == id
  }

  /** A task is in the state exactly if it was created and not deleted since; nothing else adds or
      removes one. */
  lemma {:induction false} TaskPresentExactly(log: seq<Event>, id: TaskId)
    ensures id in Fold(log).tasks <==> LastMade(log, Creates(id), Deletes(id))
  {
    if log != [] {
      var front, e := log[..|log| - 1], log[|log| - 1];
      assert log == front + [e];
      TaskPresentExactly(front, id);
      EventParts(Fold(front), e, EventApply(e, Fold(front)));
      LastMadeGrows(front, e, Creates(id), Deletes(id));
    }
  }

  function Places(id: InstanceId): Event -> bool
  {
    (e: Event) => e.body.InstanceCreated? && e.body.instance.id == id
  }

  function Removes(id: InstanceId): Event -> bool
  {
    (e: Event) => e.body.InstanceDeleted? && e.body.instanceId == id
  }

  /** The same for instances. */
  lemma {:induction false} InstancePresentExactly(log: seq<Event>, id: InstanceId)
    ensures id in Fold(log).instances <==> LastMade(log, Places(id), Removes(id))
  {
    if log != [] {
      var front, e := log[..|log| - 1], log[|log| - 1];
      assert log == front + [e];
      InstancePresentExactly(front, id);
      EventParts(Fold(front), e, EventApply(e, Fold(front)));
      LastMadeGrows(front, e, Places(id), Removes(id));
    }
  }

  // ---------------------------------------------------------------- links

  /** The loop over the links when an instance goes: a link that loses a side goes with it, one that
      loses nothing is kept as it is. */
  method TrimEachLink(links: map<LinkId, Link>, id: InstanceId) returns (kept: map<LinkId, Link>)
    ensures kept == TrimLinks(links, id)
  {
    kept := map[];
    var left := links.Keys;
    while left != {}
      invariant left <= links.Keys
      invariant kept == map l | l in links && l !in left && TwoSided(TrimLink(links[l], id)) :: TrimLink(links[l], id)
      decreases |left|
    {
      var l :| l in left;
      left := left - {l};
      var prefill, decode := Without(links[l].prefill, id), Without(links[l].decode, id);
      if prefill == [] || decode == [] {
        continue;
      }
      if prefill == links[l].prefill && decode == links[l].decode {
        kept := kept[l := links[l]];
      } else {
        kept := kept[l := links[l].(prefill := prefill, decode := decode)];
      }
    }
  }

  /** Every link has instances on both sides. */
  ghost predicate LinksTwoSided(links: map<LinkId, Link>)
  {
    forall l :: l in links ==> TwoSided(links[l])
  }

  lemma BodyKeepsLinks(body: Body, links: map<LinkId, Link>)
    requires LinksTwoSided(links)
    ensures LinksTwoSided(ApplyLinks(body, links)) <==> (body.LinkCreated? ==> TwoSided(body.link))
  {
    if body.LinkCreated? {
      assert ApplyLinks(body, links)[body.link.id] == body.link;
    }
  }

  /** Only the creation of a one-sided link can leave one; deleting instances never does. */
  lemma EventKeepsLinks(s: State, e: Event)
    requires LinksTwoSided(s.links)
    ensures LinksTwoSided(EventApply(e, s).links) <==> (e.body.LinkCreated? ==> TwoSided(e.body.link))
  {
    EventParts(s, e, EventApply(e, s));
    BodyKeepsLinks(e.body, s.links);
  }

  lemma {:induction false} LinksAlwaysTwoSided(log: seq<Event>)
    requires forall k :: 0 <= k < |log| && log[k].body.LinkCreated? ==> TwoSided(log[k].body.link)
    ensures LinksTwoSided(Fold(log).links)
  {
    if log != [] {
      LinksAlwaysTwoSided(log[..|log| - 1]);
      EventKeepsLinks(Fold(log[..|log| - 1]), log[|log| - 1]);
    }
  }

  // ---------------------------------------------------------------- nodes

  /** Nothing that goes with a node is left of it. */
  ghost predicate Forgotten(s: State, node: NodeId)
  {
    && node !in s.topology.nodes && node !in s.lastSeen && node !in s.rdmaCtl
    && (forall c :: c in s.topology.edges ==> c.source != node && c.sink != node)
    && forall k :: 0 <= k < |s.thunderbolt| ==> s.thunderbolt[k].0 != node
  }

  /** How many of the first i entries are other nodes'. */
  ghost function OthersBefore(idents: seq<(NodeId, seq<TbIdent>)>, node: NodeId, i: nat): nat
    requires i <= |idents|
    decreases i
  {
    if i == 0 then 0 else (if idents[0].0 == node then 0 else 1) + OthersBefore(idents[1..], node, i - 1)
  }

  /** The others' entries are all there, each behind those of the others that were before it. */
  ghost predicate OthersInOrder(kept: seq<(NodeId, seq<TbIdent>)>, idents: seq<(NodeId, seq<TbIdent>)>, node: NodeId)
  {
    && |kept| == OthersBefore(idents, node, |idents|)
    && forall i :: 0 <= i < |idents| && idents[i].0 != node ==>
         OthersBefore(idents, node, i) < |kept| && kept[OthersBefore(idents, node, i)] == idents[i]
  }

  lemma {:induction false} DroppedIdents(idents: seq<(NodeId, seq<TbIdent>)>, node: NodeId)
    ensures forall k :: 0 <= k < |DropIdents(idents, node)| ==> DropIdents(idents, node)[k].0 != node
    ensures OthersInOrder(DropIdents(idents, node), idents, node)
  {
    if idents != [] {
      var rest := idents[1..];
      DroppedIdents(rest, node);
      forall i | 0 <= i < |idents| && idents[i].0 != node
        ensures OthersBefore(idents, node, i) < |DropIdents(idents, node)|
        ensures DropIdents(idents, node)[OthersBefore(idents, node, i)] == idents[i]
      {
        if i > 0 {
          assert rest[i - 1] == idents[i];
        }
      }
    }
  }

  /** After a time-out the node is forgotten, and of the others nothing. */
  lemma TimedOutNodeForgotten(s: State, e: Event)
    requires e.body.NodeTimedOut? && forall c :: c in s.topology.edges ==> c.source in s.topology.nodes && c.sink in s.topology.nodes
    ensures var t, node := EventApply(e, s), e.body.node;
            && Forgotten(t, node)
            && t.topology.nodes == s.topology.nodes - {node}
            && t.topology.edges == (set c | c in s.topology.edges && c.source != node && c.sink != node)
            && t.lastSeen == s.lastSeen - {node} && t.rdmaCtl == s.rdmaCtl - {node}
            && OthersInOrder(t.thunderbolt, s.thunderbolt, node)
            && t.instances == s.instances && t.tasks == s.tasks && t.links == s.links
            && t.runners == s.runners && t.ports == s.ports
  {
    DroppedIdents(s.thunderbolt, e.body.node);
  }

  // ---------------------------------------------------------------- tasks

  /** A failure report leaves the task's status alone and its message is kept; it goes with the
      next status that is not a failure. */
  lemma FailureMessageLife(s: State, failed: Event, next: Event)
    requires failed.body.TaskFailed? && failed.body.taskId in s.tasks
    requires next.body.TaskStatusUpdated? && next.body.taskId == failed.body.taskId
    ensures var t := EventApply(failed, s).tasks[failed.body.taskId];
            t.status == s.tasks[failed.body.taskId].status && t.error == Some(failed.body.message)
    ensures var u := EventApply(next, EventApply(failed, s)).tasks[failed.body.taskId];
            u.status == next.body.status && (u.error.Some? <==> next.body.status == TaskStatus.TaskFailed)
  {
  }
}
