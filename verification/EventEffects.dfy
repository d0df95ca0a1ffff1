/** What every event does to the state, field by field: each lemma names the whole new state in terms of
    the old one. */
module EventEffects {
  import opened Common
  import opened Cluster

  // ---------------------------------------------------------------- tasks, instances, links, runners

  lemma TaskEventEffect(e: Event, s: State)
    ensures e.body.TaskCreated? ==> EventApply(e, s) == s.(tasks := s.tasks[e.body.taskId := e.body.created])
    ensures e.body.TaskDeleted? ==>
              EventApply(e, s) == s.(tasks := map t | t in s.tasks && t != e.body.taskId :: s.tasks[t])
  {
  }

  /** The task with another status and message, if the state knows it. */
  ghost function WithTask(s: State, id: TaskId, status: TaskStatus, error: Option<string>): State
  {
    if id !in s.tasks then s
    else
      var t := s.tasks[id];
      s.(tasks := s.tasks[id := Task(t.id, t.instance, t.command, t.kind, status, error)])
  }

  lemma TaskStatusEffect(e: Event, s: State)
    requires e.body.TaskStatusUpdated? && e.body.taskId in s.tasks
    ensures var status := e.body.status;
            EventApply(e, s) == WithTask(s, e.body.taskId, status,
                                         if status == TaskStatus.TaskFailed then s.tasks[e.body.taskId].error else None)
  {
  }

  lemma TaskFailureEffect(e: Event, s: State)
    requires e.body.TaskFailed? && e.body.taskId in s.tasks
    ensures EventApply(e, s) == WithTask(s, e.body.taskId, s.tasks[e.body.taskId].status, Some(e.body.message))
  {
  }

  lemma UnknownTaskEffect(e: Event, s: State)
    requires (e.body.TaskStatusUpdated? || e.body.TaskFailed?) && e.body.taskId !in s.tasks
    ensures EventApply(e, s) == s
  {
  }

  /** How many of the first i identifiers are not `id`. */
  ghost function OthersUpTo(ids: seq<InstanceId>, id: InstanceId, i: nat): nat
    requires i <= |ids|
  {
    if i == 0 then 0 else OthersUpTo(ids, id, i - 1) + if ids[i - 1] == id then 0 else 1
  }

  /** The identifiers other than `id`, in their order. */
  ghost predicate IsWithout(kept: seq<InstanceId>, ids: seq<InstanceId>, id: InstanceId)
  {
    && |kept| == OthersUpTo(ids, id, |ids|)
    && forall i :: 0 <= i < |ids| && ids[i] != id ==>
         OthersUpTo(ids, id, i) < |kept| && kept[OthersUpTo(ids, id, i)] == ids[i]
  }

  lemma {:induction false} OthersUpToTail(ids: seq<InstanceId>, id: InstanceId, i: nat)
    requires 0 < i <= |ids|
    ensures OthersUpTo(ids, id, i) == (if ids[0] == id then 0 else 1) + OthersUpTo(ids[1..], id, i - 1)
  {
    if i > 1 {
      OthersUpToTail(ids, id, i - 1);
    }
  }

  lemma {:induction false} WithoutIs(ids: seq<InstanceId>, id: InstanceId)
    ensures IsWithout(Without(ids, id), ids, id)
  {
    if ids != [] {
      WithoutIs(ids[1..], id);
      OthersUpToTail(ids, id, |ids|);
      forall i | 0 <= i < |ids| && ids[i] != id
        ensures OthersUpTo(ids, id, i) < |Without(ids, id)| && Without(ids, id)[OthersUpTo(ids, id, i)] == ids[i]
      {
        if i > 0 {
          OthersUpToTail(ids, id, i);
          assert ids[1..][i - 1] == ids[i];
        }
      }
    }
  }

  /** The link after the instance is gone from both of its sides. */
  ghost predicate IsTrimmed(l: Link, before: Link, id: InstanceId)
  {
    l.id == before.id && IsWithout(l.prefill, before.prefill, id) && IsWithout(l.decode, before.decode, id)
  }

  /** Some other instance is on both sides. */
  ghost predicate Survives(l: Link, id: InstanceId)
  {
    (exists i :: i in l.prefill && i != id) && exists i :: i in l.decode && i != id
  }

  lemma {:induction false} WithoutEmpty(ids: seq<InstanceId>, id: InstanceId)
    ensures Without(ids, id) != [] <==> exists i :: i in ids && i != id
  {
    if ids != [] {
      WithoutEmpty(ids[1..], id);
      assert forall i :: i in ids <==> i == ids[0] || i in ids[1..];
      assert ids[0] in ids;
    }
  }

  lemma TrimmedIs(l: Link, id: InstanceId)
    ensures IsTrimmed(TrimLink(l, id), l, id)
    ensures TwoSided(TrimLink(l, id)) <==> Survives(l, id)
  {
    WithoutIs(l.prefill, id);
    WithoutIs(l.decode, id);
    WithoutEmpty(l.prefill, id);
    WithoutEmpty(l.decode, id);
  }

  lemma InstanceEventEffect(e: Event, s: State)
    ensures e.body.InstanceCreated? ==>
              EventApply(e, s) == s.(instances := s.instances[e.body.instance.id := e.body.instance])
    ensures e.body.InstanceDeleted? ==>
              var t, id := EventApply(e, s), e.body.instanceId;
              && t == s.(instances := map i | i in s.instances && i != id :: s.instances[i], links := t.links)
              && (forall l :: l in t.links <==> l in s.links && Survives(s.links[l], id))
              && forall l :: l in t.links ==> IsTrimmed(t.links[l], s.links[l], id)
  {
    if e.body.InstanceDeleted? {
      forall l | l in s.links
        ensures IsTrimmed(TrimLink(s.links[l], e.body.instanceId), s.links[l], e.body.instanceId)
        ensures TwoSided(TrimLink(s.links[l], e.body.instanceId)) <==> Survives(s.links[l], e.body.instanceId)
      {
        TrimmedIs(s.links[l], e.body.instanceId);
      }
    }
  }

  lemma LinkEventEffect(e: Event, s: State)
    ensures e.body.LinkCreated? ==> EventApply(e, s) == s.(links := s.links[e.body.link.id := e.body.link])
    ensures e.body.LinkDeleted? ==>
              EventApply(e, s) == s.(links := map l | l in s.links && l != e.body.linkId :: s.links[l])
  {
  }

  lemma RunnerEventEffect(e: Event, s: State)
    requires e.body.RunnerStatusUpdated?
    ensures var id, status := e.body.runnerId, e.body.runnerStatus;
            EventApply(e, s) ==
              if status == Shutdown then
                s.(runners := map r | r in s.runners && r != id :: s.runners[r],
                   ports := map r | r in s.ports && r != id :: s.ports[r])
              else if status.ReadyOn? && status.port.Some? then
                s.(runners := s.runners[id := status], ports := s.ports[id := status.port.value])
              else s.(runners := s.runners[id := status])
  {
  }

  /** Events without a clause of their own leave the state as it is. */
  lemma OtherEventEffect(e: Event, s: State)
    requires e.body.PassThrough? || e.body.TracesCollected? || e.body.Elsewhere?
    ensures EventApply(e, s) == s
  {
  }

  // ---------------------------------------------------------------- edges and nodes

  lemma EdgeEventEffect(e: Event, s: State)
    ensures e.body.EdgeCreated? ==>
              var c := e.body.conn;
              EventApply(e, s) == s.(topology := Topology(s.topology.nodes + {c.source} + {c.sink}, s.topology.edges + {c}))
    ensures e.body.EdgeDeleted? && e.body.conn.source in s.topology.nodes && e.body.conn.sink in s.topology.nodes ==>
              EventApply(e, s) == s.(topology := Topology(s.topology.nodes, s.topology.edges - {e.body.conn}))
    ensures e.body.EdgeDeleted? && !(e.body.conn.source in s.topology.nodes && e.body.conn.sink in s.topology.nodes) ==>
              EventApply(e, s) == s
  {
    if e.body.EdgeCreated? {
      assert s.topology.nodes + {e.body.conn.source} + {e.body.conn.sink}
          == s.topology.nodes + {e.body.conn.source, e.body.conn.sink};
    }
  }

  /** Every gathered information notes when its node was seen, and that there is such a node. */
  ghost predicate SeenNow(t: State, s: State, node: NodeId, when: Time)
  {
    && t == s.(topology := t.topology, lastSeen := s.lastSeen[node := when], thunderbolt := t.thunderbolt,
               rdmaCtl := t.rdmaCtl)
    && node in t.topology.nodes
  }

  lemma OtherInfoEffect(e: Event, s: State)
    requires e.body.NodeGatheredInfo? && e.body.info.OtherInfo?
    ensures var t := EventApply(e, s);
            && SeenNow(t, s, e.body.node, e.body.when) && t.thunderbolt == s.thunderbolt && t.rdmaCtl == s.rdmaCtl
            && t.topology == Topology(s.topology.nodes + {e.body.node}, s.topology.edges)
  {
  }

  /** Whether RDMA is enabled is noted; when it is not, every RDMA edge at the node goes. */
  lemma RdmaCtlEffect(e: Event, s: State)
    requires e.body.NodeGatheredInfo? && e.body.info.RdmaCtl?
    ensures var t, node := EventApply(e, s), e.body.node;
            && SeenNow(t, s, node, e.body.when) && t.thunderbolt == s.thunderbolt
            && t.rdmaCtl == s.rdmaCtl[node := e.body.info.enabled]
            && t.topology.nodes == s.topology.nodes + {node}
            && forall c :: c in t.topology.edges <==>
                 c in s.topology.edges
                 && (e.body.info.enabled || c.edge.Socket? || (c.source != node && c.sink != node))
  {
  }

  ghost predicate IsFirstOf(entries: seq<(NodeId, seq<TbIdent>)>, node: NodeId, k: nat)
  {
    k < |entries| && entries[k].0 == node && forall j :: 0 <= j < k ==> entries[j].0 != node
  }

  /** A node's identifiers take the place of its earlier ones, or come last. */
  lemma {:induction false} PutIdentsIs(entries: seq<(NodeId, seq<TbIdent>)>, node: NodeId, idents: seq<TbIdent>)
    ensures var put := PutIdents(entries, node, idents);
            && |put| == (if exists k :: 0 <= k < |entries| && entries[k].0 == node then |entries| else |entries| + 1)
            && forall k :: 0 <= k < |put| ==>
                 put[k] == if IsFirstOf(entries, node, k) then (node, idents) else if k < |entries| then entries[k] else (node, idents)
  {
    if entries != [] && entries[0].0 != node {
      var rest := entries[1..];
      PutIdentsIs(rest, node, idents);
      forall k | 0 < k < |entries| ensures IsFirstOf(entries, node, k) <==> IsFirstOf(rest, node, k - 1) {
        assert entries[k] == rest[k - 1];
        if IsFirstOf(rest, node, k - 1) {
          forall j | 0 <= j < k ensures entries[j].0 != node {
            assert j > 0 ==> entries[j] == rest[j - 1];
          }
        }
        if IsFirstOf(entries, node, k) {
          forall j | 0 <= j < k - 1 ensures rest[j].0 != node {
            assert rest[j] == entries[j + 1];
          }
        }
      }
      if k :| 0 <= k < |rest| && rest[k].0 == node {
        assert entries[k + 1].0 == node;
      }
      if k :| 0 <= k < |entries| && entries[k].0 == node {
        assert rest[k - 1].0 == node;
      }
    }
  }

  lemma TbIdentsEffect(e: Event, s: State)
    requires e.body.NodeGatheredInfo? && e.body.info.TbIdents?
    ensures var t, node, before := EventApply(e, s), e.body.node, s.thunderbolt;
            && SeenNow(t, s, node, e.body.when) && t.rdmaCtl == s.rdmaCtl
            && t.topology == Topology(s.topology.nodes + {node}, s.topology.edges)
            && |t.thunderbolt| == (if exists k :: 0 <= k < |before| && before[k].0 == node then |before| else |before| + 1)
            && forall k :: 0 <= k < |t.thunderbolt| ==>
                 t.thunderbolt[k] == if k < |before| && !IsFirstOf(before, node, k) then before[k]
                                     else (node, e.body.info.idents)
  {
    PutIdentsIs(s.thunderbolt, e.body.node, e.body.info.idents);
  }

  // ---------------------------------------------------------------- Thunderbolt links

  /** Identifier j carries the domain, and no later one does. */
  ghost predicate LastIdent(idents: seq<TbIdent>, domain: string, j: nat)
  {
    j < |idents| && idents[j].domain == domain && forall m :: j < m < |idents| ==> idents[m].domain != domain
  }

  ghost predicate Unnamed(idents: seq<TbIdent>, domain: string)
  {
    forall m :: 0 <= m < |idents| ==> idents[m].domain != domain
  }

  /** Identifier j of entry i carries the domain, and no later one of any entry does. */
  ghost predicate LastNamed(entries: seq<(NodeId, seq<TbIdent>)>, domain: string, i: nat, j: nat)
  {
    && i < |entries| && LastIdent(entries[i].1, domain, j)
    && forall k :: i < k < |entries| ==> Unnamed(entries[k].1, domain)
  }

  lemma {:induction false} DomainsOfAt(node: NodeId, idents: seq<TbIdent>, domain: string, j: nat)
    requires LastIdent(idents, domain, j)
    ensures domain in DomainsOf(node, idents) && DomainsOf(node, idents)[domain] == (node, idents[j].iface)
  {
    var front, last := idents[..|idents| - 1], |idents| - 1;
    if j < last {
      DomainsOfAt(node, front, domain, j);
    }
  }

  lemma {:induction false} DomainsOfNone(node: NodeId, idents: seq<TbIdent>, domain: string)
    ensures domain in DomainsOf(node, idents) <==> !Unnamed(idents, domain)
  {
    if idents != [] {
      DomainsOfNone(node, idents[..|idents| - 1], domain);
    }
  }

  lemma {:induction false} LastIdentExists(idents: seq<TbIdent>, domain: string) returns (j: nat)
    requires !Unnamed(idents, domain)
    ensures LastIdent(idents, domain, j)
  {
    var last := |idents| - 1;
    if idents[last].domain == domain {
      return last;
    }
    j := LastIdentExists(idents[..last], domain);
  }

  lemma {:induction false} DomainMapAt(entries: seq<(NodeId, seq<TbIdent>)>, domain: string, i: nat, j: nat)
    requires LastNamed(entries, domain, i, j)
    ensures domain in DomainMap(entries) && DomainMap(entries)[domain] == (entries[i].0, entries[i].1[j].iface)
  {
    var front, last := entries[..|entries| - 1], |entries| - 1;
    if i < last {
      assert Unnamed(entries[last].1, domain);
      DomainsOfNone(entries[last].0, entries[last].1, domain);
      forall k | i < k < |front| ensures Unnamed(front[k].1, domain) {
        assert Unnamed(entries[k].1, domain);
      }
      DomainMapAt(front, domain, i, j);
    } else {
      DomainsOfAt(entries[last].0, entries[last].1, domain, j);
    }
  }

  lemma {:induction false} DomainMapNames(entries: seq<(NodeId, seq<TbIdent>)>, domain: string) returns (i: nat, j: nat)
    requires domain in DomainMap(entries)
    ensures LastNamed(entries, domain, i, j)
  {
    var front, last := entries[..|entries| - 1], |entries| - 1;
    DomainsOfNone(entries[last].0, entries[last].1, domain);
    if Unnamed(entries[last].1, domain) {
      i, j := DomainMapNames(front, domain);
      forall k | i < k < |entries| ensures Unnamed(entries[k].1, domain) {
        assert k < last ==> Unnamed(front[k].1, domain);
      }
    } else {
      i := last;
      j := LastIdentExists(entries[last].1, domain);
    }
  }

  /** The edge a reported link stands for: both its domains are known, each by the identifier listed
      last, and RDMA is enabled at both ends. */
  ghost predicate StandsFor(s: State, node: NodeId, link: TbLink, c: Connection)
  {
    exists i: nat, j: nat, k: nat, m: nat ::
      && LastNamed(s.thunderbolt, link.sourceDomain, i, j) && LastNamed(s.thunderbolt, link.sinkDomain, k, m)
      && node in s.rdmaCtl && s.rdmaCtl[node] && s.thunderbolt[k].0 in s.rdmaCtl && s.rdmaCtl[s.thunderbolt[k].0]
      && c == Connection(node, s.thunderbolt[k].0, Rdma(s.thunderbolt[i].1[j].iface, s.thunderbolt[k].1[m].iface))
  }

  ghost predicate Reported(s: State, node: NodeId, links: seq<TbLink>, c: Connection)
  {
    exists n :: 0 <= n < |links| && StandsFor(s, node, links[n], c)
  }

  /** What a single link adds to the list. */
  lemma LinkAdds(s: State, node: NodeId, l: TbLink, c: Connection)
    ensures var domains := DomainMap(s.thunderbolt);
            StandsFor(s, node, l, c)
            <==> && l.sourceDomain in domains && l.sinkDomain in domains
                 && RdmaEnabled(s.rdmaCtl, node) && RdmaEnabled(s.rdmaCtl, domains[l.sinkDomain].0)
                 && c == Connection(node, domains[l.sinkDomain].0, Rdma(domains[l.sourceDomain].1, domains[l.sinkDomain].1))
  {
    var domains := DomainMap(s.thunderbolt);
    if l.sourceDomain in domains && l.sinkDomain in domains {
      var i, j := DomainMapNames(s.thunderbolt, l.sourceDomain);
      var k, m := DomainMapNames(s.thunderbolt, l.sinkDomain);
      DomainMapAt(s.thunderbolt, l.sourceDomain, i, j);
      DomainMapAt(s.thunderbolt, l.sinkDomain, k, m);
    }
    if StandsFor(s, node, l, c) {
      var i: nat, j: nat, k: nat, m: nat :|
        && LastNamed(s.thunderbolt, l.sourceDomain, i, j) && LastNamed(s.thunderbolt, l.sinkDomain, k, m)
        && node in s.rdmaCtl && s.rdmaCtl[node] && s.thunderbolt[k].0 in s.rdmaCtl && s.rdmaCtl[s.thunderbolt[k].0]
        && c == Connection(node, s.thunderbolt[k].0, Rdma(s.thunderbolt[i].1[j].iface, s.thunderbolt[k].1[m].iface));
      DomainMapAt(s.thunderbolt, l.sourceDomain, i, j);
      DomainMapAt(s.thunderbolt, l.sinkDomain, k, m);
    }
  }

  lemma {:induction false} ConnectionsAre(s: State, node: NodeId, links: seq<TbLink>, c: Connection)
    ensures c in RdmaConnections(node, links, DomainMap(s.thunderbolt), s.rdmaCtl) <==> Reported(s, node, links, c)
  {
    if links != [] {
      var rest := links[1..];
      ConnectionsAre(s, node, rest, c);
      LinkAdds(s, node, links[0], c);
      if n :| 0 <= n < |rest| && StandsFor(s, node, rest[n], c) {
        assert links[n + 1] == rest[n];
      }
      if n :| 0 <= n < |links| && StandsFor(s, node, links[n], c) {
        assert n > 0 ==> rest[n - 1] == links[n];
      }
    }
  }

  lemma {:induction false} AddedAre(t: Topology, cs: seq<Connection>)
    ensures forall c :: c in AddConnections(t, cs).edges <==> c in t.edges || c in cs
    ensures forall n :: n in AddConnections(t, cs).nodes <==>
              n in t.nodes || exists c :: c in cs && (c.source == n || c.sink == n)
    decreases cs
  {
    if cs != [] {
      AddedAre(AddConnection(t, cs[0]), cs[1..]);
      assert forall c :: c in cs <==> c == cs[0] || c in cs[1..];
    }
  }

  /** A report of Thunderbolt links replaces the node's outgoing RDMA edges by exactly those the links
      stand for; all other edges stay. */
  lemma TbConnectionsEffect(e: Event, s: State)
    requires e.body.NodeGatheredInfo? && e.body.info.TbConnections?
    ensures var t, node, links := EventApply(e, s), e.body.node, e.body.info.links;
            && SeenNow(t, s, node, e.body.when) && t.thunderbolt == s.thunderbolt && t.rdmaCtl == s.rdmaCtl
            && (forall c :: c in t.topology.edges <==>
                  (c in s.topology.edges && (c.edge.Socket? || c.source != node)) || Reported(s, node, links, c))
            && forall n :: n in t.topology.nodes <==>
                 n in s.topology.nodes || n == node || exists c :: Reported(s, node, links, c) && c.sink == n
  {
    var node, links := e.body.node, e.body.info.links;
    var cs := RdmaConnections(node, links, DomainMap(s.thunderbolt), s.rdmaCtl);
    forall c ensures c in cs <==> Reported(s, node, links, c) {
      ConnectionsAre(s, node, links, c);
    }
    var base := AddNode(s.topology, node);
    AddedAre(base.(edges := set c | c in base.edges && !(c.edge.Rdma? && c.source == node)), cs);
  }
}
