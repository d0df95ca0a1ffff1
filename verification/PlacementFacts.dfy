/** What the search for a group and the pick within it mean in the fields they read. */
module PlacementFacts {
  import opened Allocation
  import opened Common
  import opened Placement
  import Shards

  // ---------------------------------------------------------------- the conditions, in fields

  ghost function Total(c: Cycle, memory: map<NodeId, nat>): nat
    requires forall i :: 0 <= i < |c| ==> c[i] in memory
  {
    if c == [] then 0 else memory[c[0]] + Total(c[1..], memory)
  }

  /** Long enough, with every required node, all nodes known, and together the memory for the model. */
  ghost predicate Suits(q: Query, c: Cycle)
  {
    && |c| >= q.minNodes
    && (forall n :: n in q.required ==> exists i :: 0 <= i < |c| && c[i] == n)
    && (forall i :: 0 <= i < |c| ==> c[i] in q.memory)
    && Total(c, q.memory) >= q.model.storage
  }

  /** A tensor sharding needs the hidden size, and unless it is DeepSeek V4 also the heads, to divide
      evenly; a Gemma 4 pipeline runs on one node. */
  ghost predicate Divides(q: Query, length: nat)
  {
    if q.sharding == Shards.Pipeline then q.model.isGemma4 ==> length == 1
    else
      && length > 0 && (exists k: nat :: q.model.hiddenSize == k * length)
      && (q.model.isDeepSeekV4 || q.model.kvHeads == None || exists k: nat :: q.model.kvHeads.value == k * length)
  }

  ghost predicate Prohibited(q: Query, why: Obstacle)
  {
    || (why == NoTensorSupport && q.sharding == Shards.Tensor && !q.model.supportsTensor)
    || (why == NoPipelineSupport && q.sharding == Shards.Pipeline && q.model.isDeepSeekV31In8Bit)
  }

  lemma {:induction false} TotalIsSum(c: Cycle, memory: map<NodeId, nat>)
    requires forall i :: 0 <= i < |c| ==> c[i] in memory
    ensures forall n :: n in c ==> n in memory
    ensures MemorySum(c, memory) == Total(c, memory)
  {
    if c != [] {
      TotalIsSum(c[1..], memory);
      assert c == [c[0]] + c[1..];
      MemorySumConcat([c[0]], c[1..], memory);
      assert [c[0]][..0] == [] && MemorySum([c[0]], memory) == MemorySum([], memory) + memory[c[0]];
    }
  }

  lemma SuitsIs(q: Query, c: Cycle)
    ensures Fits(q, c) <==> Suits(q, c)
  {
    if forall i :: 0 <= i < |c| ==> c[i] in q.memory {
      TotalIsSum(c, q.memory);
    }
  }

  lemma Exactly(k: nat, length: nat)
    requires length > 0
    ensures k * length % length == 0
  {
    var x := k * length;
    var n, r := x / length, x % length;
    assert x == length * n + r && x == length * k;
    Multiply(length, n + 1, k);
    Multiply(length, k + 1, n);
    assert length * (n + 1) == length * n + length && length * (k + 1) == length * k + length;
  }

  lemma Multiple(x: nat, length: nat)
    requires length > 0
    ensures x % length == 0 <==> exists k: nat :: x == k * length
  {
    if x % length == 0 {
      assert x == x / length * length;
    }
    if k: nat :| x == k * length {
      Exactly(k, length);
    }
  }

  lemma DividesIs(q: Query, length: nat)
    ensures Allows(q, length) <==> Divides(q, length)
  {
    if length > 0 {
      Multiple(q.model.hiddenSize, length);
      if q.model.kvHeads.Some? {
        Multiple(q.model.kvHeads.value, length);
      }
    }
  }

  // ---------------------------------------------------------------- the search

  ghost predicate SomeSuits(q: Query, all: seq<Cycle>)
  {
    exists c :: c in all && Suits(q, c)
  }

  ghost predicate Serves(q: Query, c: Cycle)
  {
    Suits(q, c) && Divides(q, |c|)
  }

  /** Which cycles the group holds: exactly the shortest of those that suit and that the sharding can
      divide the model over. */
  ghost predicate ShortestServing(q: Query, all: seq<Cycle>, cycles: seq<Cycle>)
  {
    && cycles != []
    && forall c :: c in cycles <==> c in all && Serves(q, c) && forall d :: d in all && Serves(q, d) ==> |c| <= |d|
  }

  /** The search's outcome: without a cycle that suits, no memory; then what the model never supports;
      then, if the sharding can divide over none of them, that; otherwise the shortest. */
  ghost predicate Outcome(q: Query, all: seq<Cycle>, choice: Choice)
  {
    if !SomeSuits(q, all) then choice == Choice.Refused(NoMemory)
    else if Prohibited(q, NoTensorSupport) then choice == Choice.Refused(NoTensorSupport)
    else if Prohibited(q, NoPipelineSupport) then choice == Choice.Refused(NoPipelineSupport)
    else if forall c :: c in all ==> !Serves(q, c) then choice == Choice.Refused(NoUsableLength)
    else choice.Group? && ShortestServing(q, all, choice.cycles)
  }

  lemma ServesIs(q: Query, c: Cycle)
    ensures Usable(q, c) <==> Serves(q, c)
  {
    SuitsIs(q, c);
    DividesIs(q, |c|);
  }

  lemma GroupMeans(q: Query, all: seq<Cycle>, n: nat, cycles: seq<Cycle>)
    requires IsLeastLength(UsableOf(q, all), n) && cycles == OfLength(UsableOf(q, all), n)
    ensures ShortestServing(q, all, cycles)
  {
    forall c ensures Usable(q, c) <==> Serves(q, c) {
      ServesIs(q, c);
    }
    var least :| least in UsableOf(q, all) && |least| == n;
    assert least in cycles;
    forall c ensures c in cycles <==> c in all && Serves(q, c) && forall d :: d in all && Serves(q, d) ==> |c| <= |d| {
      if c in all && Serves(q, c) && forall d :: d in all && Serves(q, d) ==> |c| <= |d| {
        assert Serves(q, least) && |c| <= |least|;
        assert c in UsableOf(q, all) && n <= |c|;
      }
      if c in cycles {
        forall d | d in all && Serves(q, d) ensures |c| <= |d| {
          assert d in UsableOf(q, all);
        }
      }
    }
  }

  lemma PlainChoiceMeans(q: Query, all: seq<Cycle>, choice: Choice)
    requires PlainChoice(q, all, choice)
    ensures Outcome(q, all, choice)
  {
    var fits, usable := (c: Cycle) => Fits(q, c), (c: Cycle) => Usable(q, c);
    forall c ensures (Fits(q, c) <==> Suits(q, c)) && (Usable(q, c) <==> Serves(q, c)) {
      SuitsIs(q, c);
      ServesIs(q, c);
    }
    FilterEmpty(all, fits);
    FilterEmpty(all, usable);
    if choice.Group? {
      var n := GroupChosen(q, all, choice);
      GroupMeans(q, all, n, choice.cycles);
    }
  }

  /** What the walk over the groups returns, in fields: the search's outcome, except that a bounded
      search of a larger cluster that found no memory or no length reports its bound. */
  lemma WalkMeans(q: Query, all: seq<Cycle>, bound: Option<nat>, nodeCount: nat, choice: Choice)
    requires WalkFinds(q, all, bound, nodeCount, choice)
    ensures if choice.Truncated? then
              && bound == Some(choice.maxNodes) && choice.maxNodes < nodeCount
              && (choice.why == NoMemory || choice.why == NoUsableLength) && Outcome(q, all, Choice.Refused(choice.why))
            else
              && Outcome(q, all, choice)
              && (choice == Choice.Refused(NoMemory) || choice == Choice.Refused(NoUsableLength) ==>
                    bound == None || nodeCount <= bound.value)
  {
    var plain :| PlainChoice(q, all, plain) && choice == Reported(plain, bound, nodeCount);
    PlainChoiceMeans(q, all, plain);
  }

  // ---------------------------------------------------------------- the pick

  /** Strictly behind in what is downloaded, or level there and behind in memory. */
  ghost predicate Behind(site: Site, a: Cycle, b: Cycle)
  {
    if site.downloaded(a) == site.downloaded(b) then site.memory(a) < site.memory(b)
    else site.downloaded(a) < site.downloaded(b)
  }

  lemma {:induction false} BestIsFirst(site: Site, cycles: seq<Cycle>) returns (k: nat)
    requires cycles != []
    ensures k < |cycles| && cycles[k] == Best(site, cycles)
    ensures forall j :: 0 <= j < k ==> Behind(site, cycles[j], cycles[k])
    ensures forall j :: 0 <= j < |cycles| ==> !Behind(site, cycles[k], cycles[j])
  {
    var last := |cycles| - 1;
    if last == 0 {
      return 0;
    }
    k := BestIsFirst(site, cycles[..last]);
    if Better(site, cycles[last], cycles[k]) {
      forall j | 0 <= j < last ensures Behind(site, cycles[j], cycles[last]) {
        assert !Behind(site, cycles[k], cycles[..last][j]);
      }
      k := last;
    }
  }

  /** Cycles that may be picked: supported, wired if that is needed, and touching a leaf if any does. */
  ghost predicate Pickable(site: Site, needsRdma: bool, group: seq<Cycle>, c: Cycle)
  {
    && c in group && site.supports(c) && (needsRdma ==> site.onRdma(c))
    && (site.hasLeaf(c) || forall d :: d in group && site.supports(d) && (needsRdma ==> site.onRdma(d)) ==> !site.hasLeaf(d))
  }

  /** The pick: no backend if none is supported, no RDMA if that is needed and none supported has it,
      and otherwise a pickable cycle that no pickable one is ahead of. */
  lemma PickMeans(site: Site, needsRdma: bool, group: seq<Cycle>)
    ensures var p := Pick(site, needsRdma, group);
            && (p == NoBackend <==> forall c :: c in group ==> !site.supports(c))
            && (p == NoRdma <==> needsRdma && (exists c :: c in group && site.supports(c))
                                 && forall c :: c in group && site.supports(c) ==> !site.onRdma(c))
            && (p.Picked? ==> Pickable(site, needsRdma, group, p.cycle))
            && (p.Picked? ==> forall c :: Pickable(site, needsRdma, group, c) ==> !Behind(site, p.cycle, c))
  {
    var supported := Filter(group, site.supports);
    var wired := if needsRdma then Filter(supported, site.onRdma) else supported;
    var leaves := Filter(wired, site.hasLeaf);
    FilterEmpty(group, site.supports);
    FilterEmpty(supported, site.onRdma);
    FilterEmpty(wired, site.hasLeaf);
    if wired != [] {
      var candidates := if leaves != [] then leaves else wired;
      var k := BestIsFirst(site, candidates);
      forall c | Pickable(site, needsRdma, group, c) ensures !Behind(site, candidates[k], c) {
        assert c in candidates;
      }
      assert candidates[k] in candidates;
    }
  }
}
