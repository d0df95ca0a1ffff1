/** The mutable topology object and the RDMA-edge invariant its operations keep. */
module TopologyGraph {
  import opened Common
  import opened Cluster

  ghost predicate WellFormed(t: Topology)
  {
    forall c :: c in t.edges ==> c.source in t.nodes && c.sink in t.nodes
  }

  /** The graph object: `edges` is the edge list in insertion order, without duplicates. */
  class Graph {
    var nodes: set<NodeId>
    var edges: seq<Connection>

    ghost function Value(): Topology
      reads this
    {
      Topology(nodes, set c | c in edges)
    }

    constructor ()
      ensures Value() == Topology({}, {})
    {
      nodes, edges := {}, [];
    }

    method AddNode(node: NodeId)
      modifies this
      ensures Value() == Cluster.AddNode(old(Value()), node)
    {
      if node in nodes {
        return;
      }
      nodes := nodes + {node};
    }

    method AddConnection(c: Connection)
      requires WellFormed(Value())
      modifies this
      ensures Value() == Cluster.AddConnection(old(Value()), c)
    {
      if c in edges {
        assert c in Value().edges;
        return;
      }
      AddNode(c.source);
      AddNode(c.sink);
      edges := edges + [c];
    }

    method RemoveNode(node: NodeId)
      modifies this
      ensures Value() == Cluster.RemoveNode(old(Value()), node)
    {
      if node !in nodes {
        return;
      }
      Keep((c: Connection) => c.source != node && c.sink != node);
      nodes := nodes - {node};
    }

    method RemoveConnection(c: Connection)
      modifies this
      ensures Value() == Cluster.RemoveConnection(old(Value()), c)
    {
      if c.source !in nodes || c.sink !in nodes {
        return;
      }
      Keep((d: Connection) => d != c);
    }

    method ReplaceAllOutRdma(source: NodeId, cs: seq<Connection>)
      requires WellFormed(Value())
      modifies this
      ensures Value() == ReplaceOutRdma(old(Value()), source, cs)
    {
      Keep((c: Connection) => !(c.edge.Rdma? && c.source == source));
      ghost var pruned := set c: Connection | c in old(Value()).edges && !(c.edge.Rdma? && c.source == source);
      assert Value() == old(Value()).(edges := pruned);
      ghost var target := AddConnections(Value(), cs);
      for i := 0 to |cs|
        invariant WellFormed(Value())
        invariant AddConnections(Value(), cs[i..]) == target
      {
        AddConnection(cs[i]);
      }
      assert cs[|cs|..] == [];
    }

    method RemoveAllRdmaTouching(node: NodeId)
      modifies this
      ensures Value() == RemoveRdmaTouching(old(Value()), node)
    {
      if node !in nodes {
        return;
      }
      Keep((c: Connection) => !(c.edge.Rdma? && (c.source == node || c.sink == node)));
    }

    /** Drops the edges that fail `keep`, one index at a time. */
    method Keep(keep: Connection -> bool)
      modifies this
      ensures nodes == old(nodes)
      ensures forall c :: c in edges <==> c in old(edges) && keep(c)
    {
      var kept: seq<Connection> := [];
      for i := 0 to |edges|
        invariant forall c :: c in kept <==> c in edges[..i] && keep(c)
      {
        assert edges[..i + 1] == edges[..i] + [edges[i]];
        if keep(edges[i]) {
          kept := kept + [edges[i]];
        }
      }
      assert edges[..|edges|] == edges;
      edges := kept;
    }
  }

  // ---------------------------------------------------------------- the invariant

  /** Every RDMA edge joins two nodes whose rdma_ctl was last seen enabled. */
  ghost predicate RdmaGated(s: State)
  {
    && WellFormed(s.topology)
    && forall c :: c in s.topology.edges && c.edge.Rdma? ==>
         RdmaEnabled(s.rdmaCtl, c.source) && RdmaEnabled(s.rdmaCtl, c.sink)
  }

  /** Connection reports from the pinger carry socket edges only. */
  ghost predicate SocketReportsOnly(log: seq<Event>)
  {
    forall i :: 0 <= i < |log| && log[i].body.EdgeCreated? ==> log[i].body.conn.edge.Socket?
  }

  lemma {:induction false} AddedConnections(t: Topology, cs: seq<Connection>)
    requires WellFormed(t)
    ensures WellFormed(AddConnections(t, cs))
    ensures AddConnections(t, cs).edges == t.edges + set c | c in cs
    decreases cs
  {
    if cs != [] {
      AddedConnections(Cluster.AddConnection(t, cs[0]), cs[1..]);
      assert cs == [cs[0]] + cs[1..];
    }
  }

  lemma ThunderboltReportKeepsGate(s: State, node: NodeId, when: Time, links: seq<TbLink>)
    requires RdmaGated(s)
    ensures RdmaGated(ApplyInfo(s, node, when, TbConnections(links)))
  {
    var t := Cluster.AddNode(s.topology, node);
    var cs := RdmaConnections(node, links, DomainMap(s.thunderbolt), s.rdmaCtl);
    AddedConnections(t.(edges := set c | c in t.edges && !(c.edge.Rdma? && c.source == node)), cs);
  }

  lemma GatheredInfoKeepsGate(s: State, node: NodeId, when: Time, info: Info)
    requires RdmaGated(s)
    ensures RdmaGated(ApplyInfo(s, node, when, info))
  {
    match info
    case TbConnections(links) => ThunderboltReportKeepsGate(s, node, when, links);
    case RdmaCtl(enabled) =>
    case OtherInfo =>
    case TbIdents(_) =>
  }

  /** What an event must satisfy for the gate to survive it: an RDMA edge it reports joins
      nodes already recorded as enabled. */
  ghost predicate ReportsGatedEdge(s: State, e: Event)
  {
    e.body.EdgeCreated? && e.body.conn.edge.Rdma? ==>
      RdmaEnabled(s.rdmaCtl, e.body.conn.source) && RdmaEnabled(s.rdmaCtl, e.body.conn.sink)
  }

  lemma OtherEventsLeaveTopology(s: State, e: Event)
    requires !e.body.NodeGatheredInfo? && !e.body.NodeTimedOut? && !e.body.EdgeCreated? && !e.body.EdgeDeleted?
    ensures EventApply(e, s).topology == s.topology && EventApply(e, s).rdmaCtl == s.rdmaCtl
  {
  }

  lemma TimeOutKeepsGate(s: State, e: Event)
    requires RdmaGated(s) && e.body.NodeTimedOut?
    ensures RdmaGated(EventApply(e, s))
  {
    var t := EventApply(e, s);
    assert t.topology == Cluster.RemoveNode(s.topology, e.body.node) && t.rdmaCtl == s.rdmaCtl - {e.body.node};
  }

  lemma EdgeEventKeepsGate(s: State, e: Event)
    requires RdmaGated(s) && (e.body.EdgeCreated? || e.body.EdgeDeleted?)
    ensures RdmaGated(EventApply(e, s)) <==> ReportsGatedEdge(s, e)
  {
    var t := EventApply(e, s);
    assert t.rdmaCtl == s.rdmaCtl;
    if e.body.EdgeCreated? {
      assert t.topology == Cluster.AddConnection(s.topology, e.body.conn);
      assert e.body.conn in t.topology.edges;
    } else {
      assert t.topology == Cluster.RemoveConnection(s.topology, e.body.conn);
    }
  }

  /** Exactly the events that report an ungated RDMA edge break the gate. */
  lemma EventKeepsGate(s: State, e: Event)
    requires RdmaGated(s)
    ensures RdmaGated(EventApply(e, s)) <==> ReportsGatedEdge(s, e)
  {
    if e.body.NodeGatheredInfo? {
      GatheredInfoKeepsGate(s, e.body.node, e.body.when, e.body.info);
    } else if e.body.NodeTimedOut? {
      TimeOutKeepsGate(s, e);
    } else if e.body.EdgeCreated? || e.body.EdgeDeleted? {
      EdgeEventKeepsGate(s, e);
    } else {
      OtherEventsLeaveTopology(s, e);
    }
  }

  /** In every state a log leads to, each RDMA edge has both endpoints recorded as enabled:
      through disabling, time-outs, nodes coming back and connections being replaced. */
  lemma {:induction false} RdmaEdgesAlwaysGated(log: seq<Event>)
    requires SocketReportsOnly(log)
    ensures RdmaGated(Fold(log))
  {
    if log != [] {
      var last := |log| - 1;
      RdmaEdgesAlwaysGated(log[..last]);
      EventKeepsGate(Fold(log[..last]), log[last]);
    }
  }

  /** After a node is disabled or times out, no RDMA edge names it. */
  lemma {:induction false} DisabledNodeHasNoRdmaEdge(log: seq<Event>, e: Event, node: NodeId, c: Connection)
    requires SocketReportsOnly(log)
    requires e.body == NodeTimedOut(node)
          || (e.body.NodeGatheredInfo? && e.body.node == node && e.body.info == RdmaCtl(false))
    requires c in Fold(log + [e]).topology.edges && c.edge.Rdma?
    ensures c.source != node && c.sink != node
  {
    assert SocketReportsOnly(log + [e]);
    RdmaEdgesAlwaysGated(log + [e]);
    assert (log + [e])[..|log|] == log;
    assert !RdmaEnabled(Fold(log + [e]).rdmaCtl, node);
  }
}
