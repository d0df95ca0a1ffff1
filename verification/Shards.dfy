/** Shard assignments: which layers every node of a cycle runs, as one pipeline, as two pipelines
    for the two branches of classifier-free guidance, or whole on every node. */
module Shards {
  import opened Common
  import opened Allocation

  datatype ModelCard = ModelCard(layers: nat, storage: nat, usesCfg: bool)

  datatype Sharding = Pipeline | Tensor

  /** Layers `first` up to but not including `end`. */
  datatype Shard =
    | PipelineShard(rank: nat, world: nat, first: nat, end: nat)
    | CfgShard(rank: nat, world: nat, first: nat, end: nat, cfgRank: nat, pipelineRank: nat, pipelineWorld: nat)
    | TensorShard(rank: nat, world: nat, first: nat, end: nat)

  datatype Failure = EmptyCycle | ZeroMemory | NotEnoughLayers | NotEnoughMemory(node: nat)

  datatype Plan = Shares(layers: seq<nat>) | Refused(why: Failure)

  datatype Assignments = Assigned(shards: map<RunnerId, Shard>, runners: map<NodeId, RunnerId>) | Failed(why: Failure)

  // ---------------------------------------------------------------- layers for a list of nodes

  function MemoryOf(nodes: seq<NodeId>, memory: map<NodeId, nat>): (r: seq<nat>)
    requires forall n :: n in nodes ==> n in memory
    ensures |r| == |nodes|
  {
    if nodes == [] then [] else MemoryOf(nodes[..|nodes| - 1], memory) + [memory[nodes[|nodes| - 1]]]
  }

  lemma {:induction false} MemoryAt(nodes: seq<NodeId>, memory: map<NodeId, nat>, i: nat)
    requires (forall n :: n in nodes ==> n in memory) && i < |nodes|
    ensures MemoryOf(nodes, memory)[i] == memory[nodes[i]]
  {
    if i < |nodes| - 1 {
      MemoryAt(nodes[..|nodes| - 1], memory, i);
    }
  }

  /** The model's storage a share of the layers takes, rounded down. */
  function Needs(card: ModelCard, share: nat): nat
    requires card.layers > 0
  {
    card.storage * share / card.layers
  }

  /** Every node up to n has room for its share. */
  ghost predicate Fits(card: ModelCard, shares: seq<nat>, memory: seq<nat>, n: nat)
    requires n <= |shares| == |memory|
  {
    card.layers > 0 && forall i :: 0 <= i < n ==> Needs(card, shares[i]) <= memory[i]
  }

  /** What the allocation comes to: errors in the order they are checked. */
  ghost predicate PlanFor(card: ModelCard, memory: seq<nat>, p: Plan)
  {
    if Sum(memory) == 0 then p == Refused(ZeroMemory)
    else if card.layers < |memory| then p == Refused(NotEnoughLayers)
    else
      var shares := Allocated(memory, card.layers);
      || (p == Plan.Shares(shares) && Fits(card, shares, memory, |memory|))
      || (&& p.Refused? && p.why.NotEnoughMemory? && p.why.node < |memory| && card.layers > 0
          && Fits(card, shares, memory, p.why.node)
          && Needs(card, shares[p.why.node]) > memory[p.why.node])
  }

  lemma SumOfNone(memory: seq<nat>)
    requires Sum(memory) > 0
    ensures memory != []
  {
  }

  method FirstShort(card: ModelCard, shares: seq<nat>, available: seq<nat>) returns (short: Option<nat>)
    requires |shares| == |available| && card.layers > 0
    ensures short.None? ==> Fits(card, shares, available, |available|)
    ensures short.Some? ==> && short.value < |available| && Fits(card, shares, available, short.value)
                            && Needs(card, shares[short.value]) > available[short.value]
  {
    for i := 0 to |available|
      invariant Fits(card, shares, available, i)
    {
      if Needs(card, shares[i]) > available[i] {
        return Some(i);
      }
    }
    short := None;
  }

  /** The node's memory holds its part of the storage, the part being rounded down. */
  ghost predicate HoldsPart(card: ModelCard, share: nat, available: nat)
  {
    card.storage * share < (available + 1) * card.layers
  }

  lemma NeedsExactly(card: ModelCard, share: nat, available: nat)
    requires card.layers > 0
    ensures Needs(card, share) <= available <==> HoldsPart(card, share, available)
  {
    var x, l := card.storage * share, card.layers;
    assert x == l * (x / l) + x % l;
    Multiply(l, x / l + 1, available + 1);
    Multiply(l, available + 1, x / l);
    assert l * (x / l + 1) == l * (x / l) + l;
    assert (available + 1) * l == l * (available + 1);
  }

  /** The outcome, node by node: the shares if every node's memory holds its part of the storage, and
      otherwise the first node whose memory does not. */
  ghost predicate PlanByNode(card: ModelCard, nodes: seq<NodeId>, memory: map<NodeId, nat>, shares: seq<nat>, p: Plan)
    requires (forall n :: n in nodes ==> n in memory) && |shares| == |nodes|
  {
    if forall i :: 0 <= i < |nodes| ==> HoldsPart(card, shares[i], memory[nodes[i]]) then p == Plan.Shares(shares)
    else p.Refused? && p.why.NotEnoughMemory? && p.why.node < |nodes|
         && !HoldsPart(card, shares[p.why.node], memory[nodes[p.why.node]])
         && forall i :: 0 <= i < p.why.node ==> HoldsPart(card, shares[i], memory[nodes[i]])
  }

  lemma PlanNodeByNode(card: ModelCard, nodes: seq<NodeId>, memory: map<NodeId, nat>, p: Plan)
    requires (forall n :: n in nodes ==> n in memory) && PlanFor(card, MemoryOf(nodes, memory), p)
    requires Sum(MemoryOf(nodes, memory)) > 0 && card.layers >= |nodes|
    ensures PlanByNode(card, nodes, memory, Allocated(MemoryOf(nodes, memory), card.layers), p)
  {
    var available := MemoryOf(nodes, memory);
    var shares := Allocated(available, card.layers);
    SumOfNone(available);
    forall i | 0 <= i < |nodes|
      ensures Needs(card, shares[i]) <= available[i] <==> HoldsPart(card, shares[i], memory[nodes[i]])
    {
      MemoryAt(nodes, memory, i);
      NeedsExactly(card, shares[i], available[i]);
    }
  }

  method AllocateAndValidate(nodes: seq<NodeId>, memory: map<NodeId, nat>, card: ModelCard) returns (p: Plan)
    requires forall n :: n in nodes ==> n in memory
    ensures PlanFor(card, MemoryOf(nodes, memory), p)
    ensures Sum(MemoryOf(nodes, memory)) == 0 ==> p == Refused(ZeroMemory)
    ensures Sum(MemoryOf(nodes, memory)) > 0 && card.layers < |nodes| ==> p == Refused(NotEnoughLayers)
    ensures Sum(MemoryOf(nodes, memory)) > 0 && card.layers >= |nodes| ==>
              PlanByNode(card, nodes, memory, Allocated(MemoryOf(nodes, memory), card.layers), p)
  {
    var available := MemoryOf(nodes, memory);
    if Sum(available) == 0 {
      return Refused(ZeroMemory);
    }
    SumOfNone(available);
    var r := AllocateProportionally(card.layers, available);
    if r.TooFewLayers? {
      return Refused(NotEnoughLayers);
    }
    var short := FirstShort(card, r.shares, available);
    p := if short.Some? then Refused(NotEnoughMemory(short.value)) else Plan.Shares(r.shares);
    PlanNodeByNode(card, nodes, memory, p);
  }

  // ---------------------------------------------------------------- tiling

  /** Rank i's range starts where the ranks before it end. */
  function First(shares: seq<nat>, i: nat): nat
    requires i <= |shares|
  {
    Sum(shares[..i])
  }

  predicate Covers(shares: seq<nat>, i: nat, layer: nat)
    requires i < |shares|
  {
    First(shares, i) <= layer < First(shares, i) + shares[i]
  }

  lemma {:induction false} FirstsMeet(shares: seq<nat>, i: nat)
    requires i < |shares|
    ensures First(shares, i + 1) == First(shares, i) + shares[i]
  {
    assert shares[..i + 1][..i] == shares[..i];
  }

  lemma {:induction false} FirstsRise(shares: seq<nat>, i: nat, j: nat)
    requires i <= j <= |shares|
    ensures First(shares, i) <= First(shares, j)
  {
    if i < j {
      FirstsRise(shares, i, j - 1);
      FirstsMeet(shares, j - 1);
    }
  }

  lemma {:induction false} SomeRankCovers(shares: seq<nat>, n: nat, layer: nat) returns (i: nat)
    requires n <= |shares| && layer < First(shares, n)
    ensures i < n && Covers(shares, i, layer)
  {
    FirstsMeet(shares, n - 1);
    if First(shares, n - 1) <= layer {
      i := n - 1;
    } else {
      i := SomeRankCovers(shares, n - 1, layer);
    }
  }

  /** Exactly one rank runs the layer. */
  ghost predicate RunOnce(shares: seq<nat>, layer: nat)
  {
    exists i :: 0 <= i < |shares| && Covers(shares, i, layer)
                && forall j :: 0 <= j < |shares| && Covers(shares, j, layer) ==> j == i
  }

  lemma OnlyOneCovers(shares: seq<nat>, i: nat, j: nat, layer: nat)
    requires i < |shares| && j < |shares| && Covers(shares, i, layer) && Covers(shares, j, layer)
    ensures i == j
  {
    FirstsMeet(shares, i);
    FirstsMeet(shares, j);
    if i < j {
      FirstsRise(shares, i + 1, j);
    } else if j < i {
      FirstsRise(shares, j + 1, i);
    }
  }

  /** The ranges tile the model in rank order: they start at zero, meet, and end at the last
      layer, so every layer is run exactly once. */
  lemma RangesTile(shares: seq<nat>, layers: nat, layer: nat)
    requires Sum(shares) == layers
    ensures layer < layers ==> RunOnce(shares, layer)
    ensures First(shares, 0) == 0 && First(shares, |shares|) == layers
    ensures forall i :: 0 <= i < |shares| ==> First(shares, i + 1) == First(shares, i) + shares[i]
  {
    assert shares[..|shares|] == shares;
    forall i: nat | i < |shares| ensures First(shares, i + 1) == First(shares, i) + shares[i] {
      FirstsMeet(shares, i);
    }
    if layer < layers {
      var i := SomeRankCovers(shares, |shares|, layer);
      forall j: nat | j < |shares| && Covers(shares, j, layer) ensures j == i {
        OnlyOneCovers(shares, i, j, layer);
      }
    }
  }

  // ---------------------------------------------------------------- two pipelines

  /** Where a ring position belongs: the first pipeline ascending, the second descending. */
  function Position(half: nat, rank: nat): (r: (nat, nat))
    requires rank < 2 * half
    ensures r.0 < 2 && r.1 < half
  {
    if rank < half then (0, rank) else (1, 2 * half - 1 - rank)
  }

  /** The ring position of a stage, both ways. */
  function RankOf(half: nat, branch: nat, stage: nat): (rank: nat)
    requires branch < 2 && stage < half
    ensures rank < 2 * half && Position(half, rank) == (branch, stage)
  {
    if branch == 0 then stage else 2 * half - 1 - stage
  }

  /** The ring positions are the stages of both pipelines, each once, and the last stages are
      neighbours in the ring. */
  lemma PositionsAreStages(half: nat, rank: nat)
    requires rank < 2 * half
    ensures RankOf(half, Position(half, rank).0, Position(half, rank).1) == rank
    ensures RankOf(half, 1, half - 1) == RankOf(half, 0, half - 1) + 1
  {
  }

  /** Ring position r's shard when one pipeline's ranks have `shares`. */
  function CfgShardAt(shares: seq<nat>, r: nat): Shard
    requires r < 2 * |shares|
  {
    var (g, s) := Position(|shares|, r);
    CfgShard(r, 2 * |shares|, First(shares, s), First(shares, s) + shares[s], g, s, |shares|)
  }

  predicate Runs(s: Shard, layer: nat)
  {
    s.first <= layer < s.end
  }

  /** Each branch runs every layer exactly once. */
  lemma BranchesTile(shares: seq<nat>, layers: nat, branch: nat, layer: nat) returns (r: nat)
    requires Sum(shares) == layers && branch < 2 && layer < layers
    ensures r < 2 * |shares| && CfgShardAt(shares, r).cfgRank == branch && Runs(CfgShardAt(shares, r), layer)
    ensures forall q: nat :: q < 2 * |shares| && q != r && Runs(CfgShardAt(shares, q), layer) ==>
              CfgShardAt(shares, q).cfgRank != branch
  {
    assert shares[..|shares|] == shares;
    var s := SomeRankCovers(shares, |shares|, layer);
    r := RankOf(|shares|, branch, s);
    forall q: nat | q < 2 * |shares| && q != r && Runs(CfgShardAt(shares, q), layer)
      ensures CfgShardAt(shares, q).cfgRank != branch
    {
      OnlyOneCovers(shares, s, Position(|shares|, q).1, layer);
      PositionsAreStages(|shares|, q);
    }
  }

  // ---------------------------------------------------------------- building the assignments

  function PipelineShardAt(shares: seq<nat>, i: nat): Shard
    requires i < |shares|
  {
    PipelineShard(i, |shares|, First(shares, i), First(shares, i) + shares[i])
  }

  function PipelineShards(shares: seq<nat>): (r: seq<Shard>)
    ensures |r| == |shares| && forall i :: 0 <= i < |r| ==> r[i] == PipelineShardAt(shares, i)
  {
    seq(|shares|, i requires 0 <= i < |shares| => PipelineShardAt(shares, i))
  }

  function CfgShards(shares: seq<nat>): (r: seq<Shard>)
    ensures |r| == 2 * |shares| && forall i :: 0 <= i < |r| ==> r[i] == CfgShardAt(shares, i)
  {
    seq(2 * |shares|, i requires 0 <= i < 2 * |shares| => CfgShardAt(shares, i))
  }

  function TensorShards(world: nat, layers: nat): (r: seq<Shard>)
    ensures |r| == world && forall i :: 0 <= i < |r| ==> r[i] == TensorShard(i, world, 0, layers)
  {
    seq(world, i requires 0 <= i => TensorShard(i, world, 0, layers))
  }

  /** Node i of the cycle hosts runner i, which runs shard i, and there is nothing else. */
  ghost predicate Assigns(a: Assignments, nodes: seq<NodeId>, ids: seq<RunnerId>, shards: seq<Shard>)
  {
    && a.Assigned? && |nodes| == |ids| == |shards|
    && (forall i :: 0 <= i < |ids| ==> ids[i] in a.shards && a.shards[ids[i]] == shards[i])
    && (forall i :: 0 <= i < |ids| ==> nodes[i] in a.runners && a.runners[nodes[i]] == ids[i])
    && (forall id :: id in a.shards ==> id in ids) && (forall n :: n in a.runners ==> n in nodes)
  }

  method Register(nodes: seq<NodeId>, ids: seq<RunnerId>, shards: seq<Shard>) returns (a: Assignments)
    requires |nodes| == |ids| == |shards| && Distinct(nodes) && Distinct(ids)
    ensures Assigns(a, nodes, ids, shards)
  {
    var byRunner: map<RunnerId, Shard>, byNode: map<NodeId, RunnerId> := map[], map[];
    for i := 0 to |nodes|
      invariant forall k :: 0 <= k < i ==> ids[k] in byRunner && byRunner[ids[k]] == shards[k]
      invariant forall k :: 0 <= k < i ==> nodes[k] in byNode && byNode[nodes[k]] == ids[k]
      invariant (forall id :: id in byRunner ==> id in ids) && forall n :: n in byNode ==> n in nodes
    {
      byRunner, byNode := byRunner[ids[i] := shards[i]], byNode[nodes[i] := ids[i]];
    }
    a := Assigned(byRunner, byNode);
  }

  ghost predicate PipedAs(p: Plan, nodes: seq<NodeId>, ids: seq<RunnerId>, a: Assignments)
  {
    if p.Refused? then a == Failed(p.why) else Assigns(a, nodes, ids, PipelineShards(p.layers))
  }

  /** The shards of one pipeline over all nodes. */
  ghost predicate Piped(card: ModelCard, nodes: seq<NodeId>, memory: map<NodeId, nat>, ids: seq<RunnerId>, a: Assignments)
    requires forall n :: n in nodes ==> n in memory
  {
    if nodes == [] then a == Failed(EmptyCycle)
    else exists p :: PlanFor(card, MemoryOf(nodes, memory), p) && PipedAs(p, nodes, ids, a)
  }

  method AssignPipeline(card: ModelCard, nodes: seq<NodeId>, memory: map<NodeId, nat>, ids: seq<RunnerId>)
    returns (a: Assignments)
    requires (forall n :: n in nodes ==> n in memory) && |ids| == |nodes| && Distinct(nodes) && Distinct(ids)
    ensures Piped(card, nodes, memory, ids, a)
  {
    if nodes == [] {
      return Failed(EmptyCycle);
    }
    var p := AllocateAndValidate(nodes, memory, card);
    if p.Refused? {
      assert PipedAs(p, nodes, ids, Failed(p.why));
      return Failed(p.why);
    }
    a := Register(nodes, ids, PipelineShards(p.layers));
    assert PipedAs(p, nodes, ids, a);
  }

  ghost predicate BranchedAs(p: Plan, nodes: seq<NodeId>, ids: seq<RunnerId>, a: Assignments)
  {
    if p.Refused? then a == Failed(p.why) else Assigns(a, nodes, ids, CfgShards(p.layers))
  }

  /** Two pipelines over the two halves of the ring; the shares come from the first half alone. */
  ghost predicate Branched(card: ModelCard, nodes: seq<NodeId>, memory: map<NodeId, nat>, ids: seq<RunnerId>, a: Assignments)
    requires forall n :: n in nodes ==> n in memory
    requires |nodes| >= 2 && |nodes| % 2 == 0
  {
    exists p :: PlanFor(card, MemoryOf(nodes[..|nodes| / 2], memory), p) && BranchedAs(p, nodes, ids, a)
  }

  method AssignBranches(card: ModelCard, nodes: seq<NodeId>, memory: map<NodeId, nat>, ids: seq<RunnerId>)
    returns (a: Assignments)
    requires (forall n :: n in nodes ==> n in memory) && |ids| == |nodes| && Distinct(nodes) && Distinct(ids)
    requires |nodes| >= 2 && |nodes| % 2 == 0
    ensures Branched(card, nodes, memory, ids, a)
  {
    var half := |nodes| / 2;
    var p := AllocateAndValidate(nodes[..half], memory, card);
    if p.Refused? {
      assert BranchedAs(p, nodes, ids, Failed(p.why));
      return Failed(p.why);
    }
    a := Register(nodes, ids, CfgShards(p.layers));
    assert BranchedAs(p, nodes, ids, a);
  }

  method AssignWhole(card: ModelCard, nodes: seq<NodeId>, ids: seq<RunnerId>) returns (a: Assignments)
    requires |ids| == |nodes| && Distinct(nodes) && Distinct(ids)
    ensures Assigns(a, nodes, ids, TensorShards(|nodes|, card.layers))
  {
    a := Register(nodes, ids, TensorShards(|nodes|, card.layers));
  }

  method GetShardAssignments(card: ModelCard, nodes: seq<NodeId>, sharding: Sharding, memory: map<NodeId, nat>,
                             ids: seq<RunnerId>) returns (a: Assignments)
    requires (forall n :: n in nodes ==> n in memory) && |ids| == |nodes| && Distinct(nodes) && Distinct(ids)
    ensures sharding == Tensor ==>
              && Assigns(a, nodes, ids, TensorShards(|nodes|, card.layers))
              && forall i :: 0 <= i < |nodes| ==> a.shards[ids[i]] == TensorShard(i, |nodes|, 0, card.layers)
    ensures sharding == Pipeline ==>
              if card.usesCfg && |nodes| >= 2 && |nodes| % 2 == 0 then Branched(card, nodes, memory, ids, a)
              else Piped(card, nodes, memory, ids, a)
  {
    match sharding
    case Pipeline =>
      if card.usesCfg && |nodes| >= 2 && |nodes| % 2 == 0 {
        a := AssignBranches(card, nodes, memory, ids);
      } else {
        a := AssignPipeline(card, nodes, memory, ids);
      }
    case Tensor => a := AssignWhole(card, nodes, ids);
  }

  // ---------------------------------------------------------------- what an assignment guarantees

  lemma PlannedShares(card: ModelCard, memory: seq<nat>, p: Plan)
    requires PlanFor(card, memory, p) && p.Shares?
    ensures |p.layers| == |memory| && Sum(p.layers) == card.layers > 0
    ensures forall i :: 0 <= i < |memory| ==> p.layers[i] >= 1 && Needs(card, p.layers[i]) <= memory[i]
  {
    AllocationComplete(memory, card.layers);
  }

  lemma PipedShares(card: ModelCard, nodes: seq<NodeId>, memory: map<NodeId, nat>, ids: seq<RunnerId>, a: Assignments)
    returns (shares: seq<nat>)
    requires (forall n :: n in nodes ==> n in memory) && Piped(card, nodes, memory, ids, a) && a.Assigned?
    ensures Assigns(a, nodes, ids, PipelineShards(shares)) && Sum(shares) == card.layers > 0
    ensures |shares| == |nodes|
    ensures forall i :: 0 <= i < |nodes| ==> shares[i] >= 1 && Needs(card, shares[i]) <= memory[nodes[i]]
  {
    var available := MemoryOf(nodes, memory);
    var p :| PlanFor(card, available, p) && PipedAs(p, nodes, ids, a);
    PlannedShares(card, available, p);
    shares := p.layers;
    forall i | 0 <= i < |nodes| ensures shares[i] >= 1 && Needs(card, shares[i]) <= memory[nodes[i]] {
      MemoryAt(nodes, memory, i);
    }
  }

  lemma PipelineTiles(shares: seq<nat>, nodes: seq<NodeId>, ids: seq<RunnerId>, a: Assignments, layer: nat)
    returns (node: nat)
    requires Assigns(a, nodes, ids, PipelineShards(shares)) && layer < Sum(shares)
    ensures forall i :: 0 <= i < |nodes| ==> ids[i] in a.shards && a.shards[ids[i]] == PipelineShardAt(shares, i)
    ensures node < |nodes| && Runs(a.shards[ids[node]], layer)
    ensures forall i :: 0 <= i < |nodes| && i != node ==> !Runs(a.shards[ids[i]], layer)
  {
    assert shares[..|shares|] == shares;
    node := SomeRankCovers(shares, |shares|, layer);
    forall i | 0 <= i < |nodes| && Runs(PipelineShardAt(shares, i), layer) ensures i == node {
      OnlyOneCovers(shares, i, node, layer);
    }
  }

  /** A pipeline that was assigned runs every layer on exactly one node, and every node has a layer
      and the memory for what it runs. */
  lemma PipelineRunsTheModel(card: ModelCard, nodes: seq<NodeId>, memory: map<NodeId, nat>, ids: seq<RunnerId>,
                             a: Assignments, layer: nat) returns (node: nat)
    requires (forall n :: n in nodes ==> n in memory) && Piped(card, nodes, memory, ids, a) && a.Assigned?
    requires layer < card.layers && |ids| == |nodes|
    ensures forall i :: 0 <= i < |nodes| ==> ids[i] in a.shards
    ensures node < |nodes| && Runs(a.shards[ids[node]], layer)
    ensures forall i :: 0 <= i < |nodes| && i != node ==> !Runs(a.shards[ids[i]], layer)
    ensures forall i :: 0 <= i < |nodes| ==> var s := a.shards[ids[i]];
              s.first < s.end && card.layers > 0 && Needs(card, s.end - s.first) <= memory[nodes[i]]
  {
    var shares := PipedShares(card, nodes, memory, ids, a);
    node := PipelineTiles(shares, nodes, ids, a, layer);
    forall i | 0 <= i < |nodes|
      ensures var s := a.shards[ids[i]]; s.first < s.end && card.layers > 0 && Needs(card, s.end - s.first) <= memory[nodes[i]]
    {
      var s := a.shards[ids[i]];
      assert s.end - s.first == shares[i];
    }
  }

  /** Node i of the cycle has the memory for the layers it runs. */
  ghost predicate HasRoom(card: ModelCard, s: Shard, available: nat)
  {
    card.layers > 0 && s.first <= s.end && Needs(card, s.end - s.first) <= available
  }

  /** Node i has the memory for its layers exactly if it has it for its stage's share. */
  lemma RoomAt(card: ModelCard, shares: seq<nat>, nodes: seq<NodeId>, ids: seq<RunnerId>, a: Assignments, i: nat,
               available: nat)
    requires Assigns(a, nodes, ids, CfgShards(shares)) && i < |nodes| && card.layers > 0
    ensures |nodes| == 2 * |shares| && ids[i] in a.shards
    ensures HasRoom(card, a.shards[ids[i]], available) <==> Needs(card, shares[Position(|shares|, i).1]) <= available
    ensures shares[Position(|shares|, i).1] >= 1 ==> a.shards[ids[i]].first < a.shards[ids[i]].end
  {
    assert a.shards[ids[i]] == CfgShardAt(shares, i);
  }

  lemma BranchTiles(shares: seq<nat>, nodes: seq<NodeId>, ids: seq<RunnerId>, a: Assignments, branch: nat, layer: nat)
    returns (node: nat)
    requires Assigns(a, nodes, ids, CfgShards(shares)) && branch < 2 && layer < Sum(shares)
    ensures forall i :: 0 <= i < |nodes| ==> ids[i] in a.shards && a.shards[ids[i]].CfgShard?
    ensures node < |nodes| && a.shards[ids[node]].cfgRank == branch && Runs(a.shards[ids[node]], layer)
    ensures forall i :: 0 <= i < |nodes| && i != node && Runs(a.shards[ids[i]], layer) ==> a.shards[ids[i]].cfgRank != branch
  {
    node := BranchesTile(shares, Sum(shares), branch, layer);
    assert forall i :: 0 <= i < |nodes| ==> a.shards[ids[i]] == CfgShardAt(shares, i);
  }

  /** What the layers of one branch come to: the first half's allocation. */
  ghost function StageShares(card: ModelCard, nodes: seq<NodeId>, memory: map<NodeId, nat>): seq<nat>
    requires forall n :: n in nodes ==> n in memory
  {
    var available := MemoryOf(nodes[..|nodes| / 2], memory);
    if Sum(available) == 0 then [] else Allocated(available, card.layers)
  }

  /** The plan the branches were assigned by. */
  lemma BranchedPlan(card: ModelCard, nodes: seq<NodeId>, memory: map<NodeId, nat>, ids: seq<RunnerId>, a: Assignments)
    returns (shares: seq<nat>)
    requires (forall n :: n in nodes ==> n in memory) && |nodes| >= 2 && |nodes| % 2 == 0
    requires Branched(card, nodes, memory, ids, a) && a.Assigned?
    ensures PlanFor(card, MemoryOf(nodes[..|nodes| / 2], memory), Plan.Shares(shares))
    ensures shares == StageShares(card, nodes, memory) && Assigns(a, nodes, ids, CfgShards(shares))
  {
    var available := MemoryOf(nodes[..|nodes| / 2], memory);
    var p :| PlanFor(card, available, p) && BranchedAs(p, nodes, ids, a);
    shares := p.layers;
  }

  lemma BranchedShares(card: ModelCard, nodes: seq<NodeId>, memory: map<NodeId, nat>, ids: seq<RunnerId>, a: Assignments)
    returns (shares: seq<nat>)
    requires (forall n :: n in nodes ==> n in memory) && |nodes| >= 2 && |nodes| % 2 == 0
    requires Branched(card, nodes, memory, ids, a) && a.Assigned?
    ensures shares == StageShares(card, nodes, memory) && Assigns(a, nodes, ids, CfgShards(shares))
    ensures |shares| == |nodes| / 2 && Sum(shares) == card.layers > 0
  {
    shares := BranchedPlan(card, nodes, memory, ids, a);
    PlannedShares(card, MemoryOf(nodes[..|nodes| / 2], memory), Plan.Shares(shares));
  }

  lemma FirstHalfShare(card: ModelCard, nodes: seq<NodeId>, memory: map<NodeId, nat>, shares: seq<nat>, stage: nat)
    requires (forall n :: n in nodes ==> n in memory) && stage < |nodes| / 2
    requires PlanFor(card, MemoryOf(nodes[..|nodes| / 2], memory), Plan.Shares(shares))
    ensures |shares| == |nodes| / 2 && card.layers > 0
    ensures shares[stage] >= 1 && Needs(card, shares[stage]) <= memory[nodes[stage]]
  {
    PlannedShares(card, MemoryOf(nodes[..|nodes| / 2], memory), Plan.Shares(shares));
    MemoryAt(nodes[..|nodes| / 2], memory, stage);
  }

  /** Every node has a layer, and every node of the first half the memory for its layers. */
  lemma FirstHalfFits(card: ModelCard, nodes: seq<NodeId>, memory: map<NodeId, nat>, ids: seq<RunnerId>,
                      a: Assignments, i: nat)
    requires (forall n :: n in nodes ==> n in memory) && |nodes| >= 2 && |nodes| % 2 == 0
    requires Branched(card, nodes, memory, ids, a) && a.Assigned? && i < |nodes|
    ensures |ids| == |nodes| && ids[i] in a.shards && a.shards[ids[i]].first < a.shards[ids[i]].end
    ensures i < |nodes| / 2 ==> HasRoom(card, a.shards[ids[i]], memory[nodes[i]])
  {
    var shares := BranchedPlan(card, nodes, memory, ids, a);
    FirstHalfShare(card, nodes, memory, shares, Position(|shares|, i).1);
    RoomAt(card, shares, nodes, ids, a, i, memory[nodes[i]]);
  }

  /** With two branches every layer runs on exactly one node of each branch, every node has a layer,
      and the nodes of the first half have the memory for theirs. */
  lemma BranchesRunTheModel(card: ModelCard, nodes: seq<NodeId>, memory: map<NodeId, nat>, ids: seq<RunnerId>,
                            a: Assignments, branch: nat, layer: nat) returns (node: nat)
    requires (forall n :: n in nodes ==> n in memory) && |nodes| >= 2 && |nodes| % 2 == 0 && |ids| == |nodes|
    requires Branched(card, nodes, memory, ids, a) && a.Assigned? && branch < 2 && layer < card.layers
    ensures forall i :: 0 <= i < |nodes| ==> ids[i] in a.shards && a.shards[ids[i]].CfgShard?
    ensures node < |nodes| && a.shards[ids[node]].cfgRank == branch && Runs(a.shards[ids[node]], layer)
    ensures forall i :: 0 <= i < |nodes| && i != node && Runs(a.shards[ids[i]], layer) ==> a.shards[ids[i]].cfgRank != branch
    ensures forall i :: 0 <= i < |nodes| ==> a.shards[ids[i]].first < a.shards[ids[i]].end
    ensures forall i :: 0 <= i < |nodes| / 2 ==> HasRoom(card, a.shards[ids[i]], memory[nodes[i]])
  {
    var shares := BranchedShares(card, nodes, memory, ids, a);
    node := BranchTiles(shares, nodes, ids, a, branch, layer);
    forall i | 0 <= i < |nodes|
      ensures a.shards[ids[i]].first < a.shards[ids[i]].end
      ensures i < |nodes| / 2 ==> HasRoom(card, a.shards[ids[i]], memory[nodes[i]])
    {
      FirstHalfFits(card, nodes, memory, ids, a, i);
    }
  }

  /** A node of the second half has the memory for its layers exactly if it has it for the share of
      the stage as far from the start of the ring as the node is from its end. */
  lemma SecondHalfFits(card: ModelCard, nodes: seq<NodeId>, memory: map<NodeId, nat>, ids: seq<RunnerId>,
                       a: Assignments, i: nat)
    requires (forall n :: n in nodes ==> n in memory) && |nodes| >= 2 && |nodes| % 2 == 0
    requires Branched(card, nodes, memory, ids, a) && a.Assigned? && |nodes| / 2 <= i < |nodes|
    ensures |ids| == |nodes| && card.layers > 0 && |StageShares(card, nodes, memory)| == |nodes| / 2
    ensures ids[i] in a.shards
    ensures HasRoom(card, a.shards[ids[i]], memory[nodes[i]])
       <==> Needs(card, StageShares(card, nodes, memory)[|nodes| - 1 - i]) <= memory[nodes[i]]
  {
    var shares := BranchedShares(card, nodes, memory, ids, a);
    assert Position(|shares|, i).1 == |nodes| - 1 - i;
    RoomAt(card, shares, nodes, ids, a, i, memory[nodes[i]]);
  }

  ghost predicate RoomOf(card: ModelCard, memory: map<NodeId, nat>, a: Assignments, node: NodeId, id: RunnerId)
    requires node in memory && a.Assigned?
  {
    id in a.shards && HasRoom(card, a.shards[id], memory[node])
  }

  ghost predicate AllHaveRoom(card: ModelCard, nodes: seq<NodeId>, memory: map<NodeId, nat>, ids: seq<RunnerId>,
                              a: Assignments)
    requires (forall n :: n in nodes ==> n in memory) && a.Assigned? && |ids| == |nodes|
  {
    forall i :: 0 <= i < |nodes| ==> RoomOf(card, memory, a, nodes[i], ids[i])
  }

  ghost predicate StageFitsAt(card: ModelCard, nodes: seq<NodeId>, memory: map<NodeId, nat>, i: nat)
    requires (forall n :: n in nodes ==> n in memory) && i < |nodes|
  {
    var shares := StageShares(card, nodes, memory);
    card.layers > 0 && |nodes| - 1 - i < |shares| && Needs(card, shares[|nodes| - 1 - i]) <= memory[nodes[i]]
  }

  /** The shares of the first half, in the opposite order, fit the nodes of the second half. */
  ghost predicate StagesFitTwice(card: ModelCard, nodes: seq<NodeId>, memory: map<NodeId, nat>)
    requires forall n :: n in nodes ==> n in memory
  {
    forall i :: |nodes| / 2 <= i < |nodes| ==> StageFitsAt(card, nodes, memory, i)
  }

  lemma RoomExactly(card: ModelCard, nodes: seq<NodeId>, memory: map<NodeId, nat>, ids: seq<RunnerId>,
                    a: Assignments, i: nat)
    requires (forall n :: n in nodes ==> n in memory) && |nodes| >= 2 && |nodes| % 2 == 0 && |ids| == |nodes|
    requires Branched(card, nodes, memory, ids, a) && a.Assigned? && i < |nodes|
    ensures RoomOf(card, memory, a, nodes[i], ids[i]) <==> i < |nodes| / 2 || StageFitsAt(card, nodes, memory, i)
  {
    if i < |nodes| / 2 {
      FirstHalfFits(card, nodes, memory, ids, a, i);
    } else {
      SecondHalfFits(card, nodes, memory, ids, a, i);
    }
  }

  /** The second half runs the same shares in the opposite order: every node has the memory for its
      layers if and only if the first half's shares fit the second half that way. */
  lemma AllFitExactly(card: ModelCard, nodes: seq<NodeId>, memory: map<NodeId, nat>, ids: seq<RunnerId>, a: Assignments)
    requires (forall n :: n in nodes ==> n in memory) && |nodes| >= 2 && |nodes| % 2 == 0 && |ids| == |nodes|
    requires Branched(card, nodes, memory, ids, a) && a.Assigned?
    ensures AllHaveRoom(card, nodes, memory, ids, a) <==> StagesFitTwice(card, nodes, memory)
  {
    forall i: nat | i < |nodes|
      ensures RoomOf(card, memory, a, nodes[i], ids[i]) <==> i < |nodes| / 2 || StageFitsAt(card, nodes, memory, i)
    {
      RoomExactly(card, nodes, memory, ids, a, i);
    }
  }

  lemma OnlyLayer()
    ensures Sum([10]) == 10 && Allocated([10], 1) == [1]
  {
    assert [10][..0] == [] && Sum([10]) == 10;
    AllocationComplete([10], 1);
    var shares := Allocated([10], 1);
    assert shares == [shares[0]] && shares[..0] == [];
  }

  /** A ring of two whose second node has no memory at all is assigned a one-layer model on each. */
  lemma SecondHalfShort(memory: map<NodeId, nat>) returns (a: Assignments)
    requires memory == map[0 := 10, 1 := 0]
    ensures Branched(ModelCard(1, 10, true), [0, 1], memory, [0, 1], a) && a.Assigned?
    ensures !AllHaveRoom(ModelCard(1, 10, true), [0, 1], memory, [0, 1], a)
  {
    var card, nodes: seq<NodeId>, ids: seq<RunnerId> := ModelCard(1, 10, true), [0, 1], [0, 1];
    OnlyLayer();
    assert nodes[..|nodes| / 2] == [0] && MemoryOf([0], memory) == [10];
    var p := Plan.Shares([1]);
    assert Needs(card, 1) == 10 && PlanFor(card, [10], p);
    var shards := CfgShards([1]);
    a := Assigned(map[0 := shards[0], 1 := shards[1]], map[0 := 0, 1 := 1]);
    assert BranchedAs(p, nodes, ids, a);
    SecondHalfFits(card, nodes, memory, ids, a, 1);
    assert StageShares(card, nodes, memory) == [1] && !RoomOf(card, memory, a, nodes[1], ids[1]);
  }

  /** What the first n nodes need together. */
  ghost function NeedsUpTo(card: ModelCard, shares: seq<nat>, n: nat): nat
    requires card.layers > 0 && n <= |shares|
  {
    if n == 0 then 0 else NeedsUpTo(card, shares, n - 1) + Needs(card, shares[n - 1])
  }

  lemma {:induction false} PartsFit(card: ModelCard, shares: seq<nat>, n: nat)
    requires card.layers > 0 && n <= |shares|
    ensures NeedsUpTo(card, shares, n) * card.layers <= card.storage * Sum(shares[..n])
  {
    if n > 0 {
      var need, x, l := Needs(card, shares[n - 1]), card.storage * shares[n - 1], card.layers;
      PartsFit(card, shares, n - 1);
      assert shares[..n][..n - 1] == shares[..n - 1];
      assert need * l <= x by {
        assert x == l * (x / l) + x % l;
      }
      assert (NeedsUpTo(card, shares, n - 1) + need) * l == NeedsUpTo(card, shares, n - 1) * l + need * l;
      assert card.storage * (Sum(shares[..n - 1]) + shares[n - 1]) == card.storage * Sum(shares[..n - 1]) + x;
    }
  }

  lemma Cancel(a: nat, b: nat, l: nat)
    requires l > 0 && a * l <= b * l
    ensures a <= b
  {
    if b < a {
      Multiply(l, b, a);
    }
  }

  lemma PartsWithin(card: ModelCard, shares: seq<nat>)
    requires Sum(shares) == card.layers > 0
    ensures NeedsUpTo(card, shares, |shares|) <= card.storage
  {
    PartsFit(card, shares, |shares|);
    assert shares[..|shares|] == shares;
    Cancel(NeedsUpTo(card, shares, |shares|), card.storage, card.layers);
  }

  /** The nodes of an assigned pipeline need no more than the model's storage together. */
  lemma PipelineNeedsTogether(card: ModelCard, nodes: seq<NodeId>, memory: map<NodeId, nat>, ids: seq<RunnerId>,
                              a: Assignments) returns (shares: seq<nat>)
    requires (forall n :: n in nodes ==> n in memory) && Piped(card, nodes, memory, ids, a) && a.Assigned?
    ensures |shares| == |nodes| == |ids| && card.layers > 0
    ensures forall i :: 0 <= i < |nodes| ==> ids[i] in a.shards && a.shards[ids[i]].end - a.shards[ids[i]].first == shares[i]
    ensures NeedsUpTo(card, shares, |shares|) <= card.storage
  {
    shares := PipedShares(card, nodes, memory, ids, a);
    assert forall i :: 0 <= i < |nodes| ==> a.shards[ids[i]] == PipelineShardAt(shares, i);
    PartsWithin(card, shares);
  }

  /** With two branches nobody looks at the memory of the second half: whatever it is, the outcome
      stays the same. */
  lemma SecondHalfUnchecked(card: ModelCard, nodes: seq<NodeId>, memory: map<NodeId, nat>, other: map<NodeId, nat>,
                            ids: seq<RunnerId>, a: Assignments)
    requires (forall n :: n in nodes ==> n in memory && n in other) && |nodes| >= 2 && |nodes| % 2 == 0
    requires forall i :: 0 <= i < |nodes| / 2 ==> memory[nodes[i]] == other[nodes[i]]
    ensures Branched(card, nodes, memory, ids, a) <==> Branched(card, nodes, other, ids, a)
  {
    var half := nodes[..|nodes| / 2];
    forall i | 0 <= i < |half| ensures MemoryOf(half, memory)[i] == MemoryOf(half, other)[i] {
      MemoryAt(half, memory, i);
      MemoryAt(half, other, i);
    }
    assert MemoryOf(half, memory) == MemoryOf(half, other);
  }
}
