/** What an assignment comes to in its fields: who hosts which runner, which rank a runner has in
    which world, where its layers begin and end, and when there is none. */
module ShardFacts {
  import opened Common
  import opened Allocation
  import opened Shards

  /** Every node hosts its runner, every runner has its shard, and nobody else is in the assignment. */
  lemma AssignmentMeans(a: Assignments, nodes: seq<NodeId>, ids: seq<RunnerId>, shards: seq<Shard>)
    requires Assigns(a, nodes, ids, shards)
    ensures |nodes| == |ids| == |shards| && a.Assigned?
    ensures a.runners.Keys == (set n | n in nodes) && a.shards.Keys == (set id | id in ids)
    ensures forall i :: 0 <= i < |nodes| ==> a.runners[nodes[i]] == ids[i] && a.shards[ids[i]] == shards[i]
  {
    forall n | n in nodes ensures n in a.runners {
      var i :| 0 <= i < |nodes| && nodes[i] == n;
      assert ids[i] in a.shards;
    }
    forall id | id in ids ensures id in a.shards {
      var i :| 0 <= i < |ids| && ids[i] == id;
      assert nodes[i] in a.runners;
    }
  }

  /** The layers of one pipeline, read off the shards: rank by rank from the first layer to the last. */
  ghost predicate Chained(shards: seq<Shard>, n: nat, layers: nat)
    requires 0 < n <= |shards|
  {
    && shards[0].first == 0 && shards[n - 1].end == layers
    && forall i :: 0 <= i < n - 1 ==> shards[i].end == shards[i + 1].first
  }

  lemma PipelineRank(shares: seq<nat>, i: nat)
    requires i < |shares|
    ensures var s := PipelineShards(shares)[i]; s == PipelineShard(i, |shares|, s.first, s.first + shares[i])
    ensures i == 0 ==> PipelineShards(shares)[i].first == 0
    ensures i == |shares| - 1 ==> PipelineShards(shares)[i].end == Sum(shares)
    ensures i < |shares| - 1 ==> PipelineShards(shares)[i].end == PipelineShards(shares)[i + 1].first
  {
    assert shares[..|shares|] == shares;
    FirstsMeet(shares, i);
  }

  /** Each rank of a pipeline knows its place and the pipeline's length, and runs its share from where
      the rank before it ends. */
  lemma PipelineShardsMean(shares: seq<nat>)
    requires shares != []
    ensures |PipelineShards(shares)| == |shares| && Chained(PipelineShards(shares), |shares|, Sum(shares))
    ensures forall i :: 0 <= i < |shares| ==> var s := PipelineShards(shares)[i];
              s == PipelineShard(i, |shares|, s.first, s.first + shares[i])
  {
    forall i: nat | i < |shares|
      ensures var s := PipelineShards(shares)[i]; s == PipelineShard(i, |shares|, s.first, s.first + shares[i])
      ensures i < |shares| - 1 ==> PipelineShards(shares)[i].end == PipelineShards(shares)[i + 1].first
    {
      PipelineRank(shares, i);
    }
    PipelineRank(shares, 0);
    PipelineRank(shares, |shares| - 1);
  }

  lemma BranchRank(shares: seq<nat>, i: nat)
    requires i < 2 * |shares|
    ensures var p := PipelineShards(shares)[if i < |shares| then i else 2 * |shares| - 1 - i];
            CfgShards(shares)[i] == CfgShard(i, 2 * |shares|, p.first, p.end, if i < |shares| then 0 else 1, p.rank, |shares|)
  {
  }

  /** With two branches each half of the ring runs the same pipeline, the first half in ring order and
      the second in the opposite order, so that opposite positions run the same layers. */
  lemma BranchShardsMean(shares: seq<nat>)
    ensures |CfgShards(shares)| == 2 * |shares|
    ensures forall i :: 0 <= i < 2 * |shares| ==>
              var stage := if i < |shares| then i else 2 * |shares| - 1 - i;
              var p := PipelineShards(shares)[stage];
              CfgShards(shares)[i]
              == CfgShard(i, 2 * |shares|, p.first, p.end, if i < |shares| then 0 else 1, stage, |shares|)
  {
    forall i: nat | i < 2 * |shares|
      ensures var stage := if i < |shares| then i else 2 * |shares| - 1 - i;
              var p := PipelineShards(shares)[stage];
              CfgShards(shares)[i]
              == CfgShard(i, 2 * |shares|, p.first, p.end, if i < |shares| then 0 else 1, stage, |shares|)
    {
      BranchRank(shares, i);
    }
  }

  /** The memory of the nodes together. */
  ghost function Together(nodes: seq<NodeId>, memory: map<NodeId, nat>): nat
    requires forall n :: n in nodes ==> n in memory
  {
    Sum(MemoryOf(nodes, memory))
  }

  ghost predicate AllHold(card: ModelCard, nodes: seq<NodeId>, memory: map<NodeId, nat>, shares: seq<nat>)
    requires (forall n :: n in nodes ==> n in memory) && |shares| == |nodes|
  {
    forall i :: 0 <= i < |nodes| ==> HoldsPart(card, shares[i], memory[nodes[i]])
  }

  /** The first node whose memory does not hold its part. */
  ghost predicate FirstToFail(card: ModelCard, nodes: seq<NodeId>, memory: map<NodeId, nat>, shares: seq<nat>, node: nat)
    requires (forall n :: n in nodes ==> n in memory) && |shares| == |nodes|
  {
    && node < |nodes| && !HoldsPart(card, shares[node], memory[nodes[node]])
    && forall i :: 0 <= i < node ==> HoldsPart(card, shares[i], memory[nodes[i]])
  }

  lemma PlanIs(card: ModelCard, nodes: seq<NodeId>, memory: map<NodeId, nat>, p: Shards.Plan)
    requires (forall n :: n in nodes ==> n in memory) && PlanFor(card, MemoryOf(nodes, memory), p)
    requires Together(nodes, memory) > 0 && card.layers >= |nodes|
    ensures |Allocated(MemoryOf(nodes, memory), card.layers)| == |nodes|
    ensures p.Shares? ==> && p.layers == Allocated(MemoryOf(nodes, memory), card.layers)
                          && AllHold(card, nodes, memory, p.layers)
    ensures p.Refused? ==> && p.why.NotEnoughMemory?
                           && FirstToFail(card, nodes, memory, Allocated(MemoryOf(nodes, memory), card.layers), p.why.node)
  {
    PlanNodeByNode(card, nodes, memory, p);
  }

  /** What comes of a plan for these nodes: what stands in its way, in the order it is looked at, and
      otherwise the shards made of the shares. */
  ghost predicate ComesTo(card: ModelCard, nodes: seq<NodeId>, memory: map<NodeId, nat>, a: Assignments, placed: bool)
    requires forall n :: n in nodes ==> n in memory
  {
    if Together(nodes, memory) == 0 then a == Failed(ZeroMemory)
    else if card.layers < |nodes| then a == Failed(NotEnoughLayers)
    else
      var shares := Allocated(MemoryOf(nodes, memory), card.layers);
      && |shares| == |nodes|
      && (AllHold(card, nodes, memory, shares) <==> placed)
      && (!placed ==> && a.Failed? && a.why.NotEnoughMemory?
                        && FirstToFail(card, nodes, memory, shares, a.why.node))
  }

  lemma PlanComesTo(card: ModelCard, nodes: seq<NodeId>, memory: map<NodeId, nat>, p: Shards.Plan, a: Assignments,
                    placed: bool)
    requires (forall n :: n in nodes ==> n in memory) && PlanFor(card, MemoryOf(nodes, memory), p)
    requires if p.Refused? then a == Failed(p.why) && !placed else placed
    ensures ComesTo(card, nodes, memory, a, placed)
    ensures placed ==> p.Shares? && p.layers == Allocated(MemoryOf(nodes, memory), card.layers)
  {
    if Together(nodes, memory) > 0 && card.layers >= |nodes| {
      PlanIs(card, nodes, memory, p);
    }
  }

  /** One pipeline over the cycle. */
  lemma PipelineOutcome(card: ModelCard, nodes: seq<NodeId>, memory: map<NodeId, nat>, ids: seq<RunnerId>, a: Assignments)
    requires (forall n :: n in nodes ==> n in memory) && Piped(card, nodes, memory, ids, a)
    ensures nodes == [] ==> a == Failed(EmptyCycle)
    ensures nodes != [] ==> ComesTo(card, nodes, memory, a, a.Assigned?)
    ensures a.Assigned? ==> card.layers > 0 && |nodes| > 0 && Together(nodes, memory) > 0
    ensures a.Assigned? ==> Assigns(a, nodes, ids, PipelineShards(Allocated(MemoryOf(nodes, memory), card.layers)))
  {
    if nodes != [] {
      var p :| PlanFor(card, MemoryOf(nodes, memory), p) && PipedAs(p, nodes, ids, a);
      PlanComesTo(card, nodes, memory, p, a, a.Assigned?);
    }
  }

  /** Two pipelines: the first half of the ring decides for both. */
  lemma BranchesOutcome(card: ModelCard, nodes: seq<NodeId>, memory: map<NodeId, nat>, ids: seq<RunnerId>, a: Assignments)
    requires (forall n :: n in nodes ==> n in memory) && |nodes| >= 2 && |nodes| % 2 == 0
    requires Branched(card, nodes, memory, ids, a)
    ensures ComesTo(card, nodes[..|nodes| / 2], memory, a, a.Assigned?)
    ensures a.Assigned? ==> card.layers > 0 && Together(nodes[..|nodes| / 2], memory) > 0
    ensures a.Assigned? ==>
              Assigns(a, nodes, ids, CfgShards(Allocated(MemoryOf(nodes[..|nodes| / 2], memory), card.layers)))
  {
    var half := nodes[..|nodes| / 2];
    var p :| PlanFor(card, MemoryOf(half, memory), p) && BranchedAs(p, nodes, ids, a);
    PlanComesTo(card, half, memory, p, a, a.Assigned?);
  }
}
