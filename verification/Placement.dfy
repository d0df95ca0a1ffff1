/** Choosing where to place a model: the smallest group of equally long cycles that can hold it,
    found by walking the groups shortest first, and the best cycle within that group. */
module Placement {
  import opened Common
  import Shards
  import Cycles

  type Cycle = seq<NodeId>

  /** A model's card, with what the sharding rules read from its names. */
  datatype Model = Model(storage: nat, hiddenSize: nat, kvHeads: Option<nat>, supportsTensor: bool,
                         isDeepSeekV4: bool, isGemma4: bool, isDeepSeekV31In8Bit: bool)

  datatype Query = Query(model: Model, sharding: Shards.Sharding, minNodes: nat,
                         memory: map<NodeId, nat>, required: set<NodeId>)

  datatype Obstacle = NoMemory | NoTensorSupport | NoPipelineSupport | NoUsableLength

  datatype Choice = Group(cycles: seq<Cycle>) | Refused(why: Obstacle) | Truncated(why: Obstacle, maxNodes: nat)

  // ---------------------------------------------------------------- the conditions on one cycle

  function MemorySum(c: Cycle, memory: map<NodeId, nat>): nat
    requires forall n :: n in c ==> n in memory
  {
    if c == [] then 0 else MemorySum(c[..|c| - 1], memory) + memory[c[|c| - 1]]
  }

  predicate HasMemory(q: Query, c: Cycle)
  {
    (forall n :: n in c ==> n in q.memory) && MemorySum(c, q.memory) >= q.model.storage
  }

  predicate HasRequired(q: Query, c: Cycle)
  {
    forall n :: n in q.required ==> n in c
  }

  predicate Allows(q: Query, length: nat)
  {
    match q.sharding
    case Tensor =>
      length > 0 && q.model.hiddenSize % length == 0
      && (q.model.isDeepSeekV4 || q.model.kvHeads.None? || q.model.kvHeads.value % length == 0)
    case Pipeline => q.model.isGemma4 ==> length == 1
  }

  predicate Fits(q: Query, c: Cycle)
  {
    |c| >= q.minNodes && HasRequired(q, c) && HasMemory(q, c)
  }

  predicate Usable(q: Query, c: Cycle)
  {
    Fits(q, c) && Allows(q, |c|)
  }

  /** A sharding this model never supports. */
  function Unsupported(q: Query): Option<Obstacle>
  {
    if q.sharding == Shards.Tensor && !q.model.supportsTensor then Some(NoTensorSupport)
    else if q.sharding == Shards.Pipeline && q.model.isDeepSeekV31In8Bit then Some(NoPipelineSupport)
    else None
  }

  // ---------------------------------------------------------------- filtering everything

  function Filter(s: seq<Cycle>, keep: Cycle -> bool): (r: seq<Cycle>)
    ensures forall c :: c in r <==> c in s && keep(c)
  {
    if s == [] then [] else Filter(s[..|s| - 1], keep) + if keep(s[|s| - 1]) then [s[|s| - 1]] else []
  }

  lemma {:induction false} FilterAlike(s: seq<Cycle>, p: Cycle -> bool, q: Cycle -> bool)
    requires forall c :: c in s ==> p(c) == q(c)
    ensures Filter(s, p) == Filter(s, q)
  {
    if s != [] {
      FilterAlike(s[..|s| - 1], p, q);
    }
  }

  lemma {:induction false} FilterTwice(s: seq<Cycle>, p: Cycle -> bool, q: Cycle -> bool, both: Cycle -> bool)
    requires forall c :: c in s ==> both(c) == (p(c) && q(c))
    ensures Filter(Filter(s, p), q) == Filter(s, both)
  {
    if s != [] {
      var front, last := s[..|s| - 1], s[|s| - 1];
      FilterTwice(front, p, q, both);
      if p(last) {
        assert (Filter(front, p) + [last])[..|Filter(front, p)|] == Filter(front, p);
      } else {
        assert Filter(front, p) + [] == Filter(front, p);
      }
    }
  }

  lemma FilterEmpty(s: seq<Cycle>, keep: Cycle -> bool)
    ensures Filter(s, keep) == [] <==> forall c :: c in s ==> !keep(c)
  {
    if Filter(s, keep) != [] {
      assert Filter(s, keep)[0] in Filter(s, keep);
    }
  }

  function OfLength(s: seq<Cycle>, n: nat): seq<Cycle>
  {
    Filter(s, (c: Cycle) => |c| == n)
  }

  ghost predicate IsLeastLength(s: seq<Cycle>, n: nat)
  {
    (exists c :: c in s && |c| == n) && forall c :: c in s ==> n <= |c|
  }

  /** The plain search: filter every cycle, complain about the first filter that leaves nothing,
      and take the shortest survivors. */
  ghost predicate PlainChoice(q: Query, all: seq<Cycle>, choice: Choice)
  {
    var fitting := Filter(all, (c: Cycle) => Fits(q, c));
    var usable := Filter(all, (c: Cycle) => Usable(q, c));
    if fitting == [] then choice == Refused(NoMemory)
    else if Unsupported(q).Some? then choice == Refused(Unsupported(q).value)
    else if usable == [] then choice == Refused(NoUsableLength)
    else exists n :: IsLeastLength(usable, n) && choice == Group(OfLength(usable, n))
  }

  /** A bounded search that found nothing says so, unless it saw every cycle there can be. */
  function Reported(choice: Choice, bound: Option<nat>, nodeCount: nat): Choice
  {
    if choice.Refused? && (choice.why == NoMemory || choice.why == NoUsableLength)
       && bound.Some? && nodeCount > bound.value
    then Truncated(choice.why, bound.value) else choice
  }

  lemma PlainChoiceIsUnique(q: Query, all: seq<Cycle>, a: Choice, b: Choice)
    requires PlainChoice(q, all, a) && PlainChoice(q, all, b)
    ensures a == b
  {
  }

  // ---------------------------------------------------------------- the walk over the groups

  ghost function GroupIn(groups: map<nat, seq<Cycle>>, n: nat): seq<Cycle>
  {
    if n in groups then groups[n] else []
  }

  /** Cycles by length, each group in the order the search produced them. */
  ghost predicate Grouped(all: seq<Cycle>, groups: map<nat, seq<Cycle>>)
  {
    && (forall n: nat :: GroupIn(groups, n) == OfLength(all, n))
    && forall n :: n in groups ==> groups[n] != []
  }

  method AddToGroup(groups: map<nat, seq<Cycle>>, c: Cycle) returns (r: map<nat, seq<Cycle>>)
    ensures r == groups[|c| := GroupIn(groups, |c|) + [c]]
  {
    r := groups;
    if |c| !in r {
      r := r[|c| := []];
    }
    r := r[|c| := r[|c|] + [c]];
  }

  lemma OfLengthGrows(s: seq<Cycle>, c: Cycle, n: nat)
    ensures OfLength(s + [c], n) == OfLength(s, n) + if |c| == n then [c] else []
  {
    assert (s + [c])[..|s|] == s;
  }

  lemma GroupStep(all: seq<Cycle>, i: nat, before: map<nat, seq<Cycle>>)
    requires i < |all| && Grouped(all[..i], before)
    ensures Grouped(all[..i + 1], before[|all[i]| := GroupIn(before, |all[i]|) + [all[i]]])
  {
    var c := all[i];
    var groups := before[|c| := GroupIn(before, |c|) + [c]];
    assert all[..i + 1] == all[..i] + [c];
    forall n: nat ensures GroupIn(groups, n) == OfLength(all[..i + 1], n) {
      OfLengthGrows(all[..i], c, n);
    }
  }

  method GroupByLength(all: seq<Cycle>) returns (groups: map<nat, seq<Cycle>>)
    ensures Grouped(all, groups)
  {
    groups := map[];
    for i := 0 to |all|
      invariant Grouped(all[..i], groups)
    {
      GroupStep(all, i, groups);
      groups := AddToGroup(groups, all[i]);
    }
    assert all[..|all|] == all;
  }

  method FilterByMemory(q: Query, cycles: seq<Cycle>) returns (r: seq<Cycle>)
    ensures r == Filter(cycles, (c: Cycle) => HasMemory(q, c))
  {
    r := [];
    for i := 0 to |cycles|
      invariant r == Filter(cycles[..i], (c: Cycle) => HasMemory(q, c))
    {
      assert cycles[..i + 1][..i] == cycles[..i];
      var c := cycles[i];
      if !(forall n :: n in c ==> n in q.memory) {
        continue;
      }
      if MemorySum(c, q.memory) >= q.model.storage {
        r := r + [c];
      }
    }
    assert cycles[..|cycles|] == cycles;
  }

  // ---------------------------------------------------------------- the walk stops at the right group

  ghost function Fitting(q: Query, all: seq<Cycle>): seq<Cycle>
  {
    Filter(all, (c: Cycle) => Fits(q, c))
  }

  ghost function UsableOf(q: Query, all: seq<Cycle>): seq<Cycle>
  {
    Filter(all, (c: Cycle) => Usable(q, c))
  }

  /** What one group of n-node cycles leaves: with memory, and usable. */
  lemma GroupFilters(q: Query, all: seq<Cycle>, n: nat)
    requires n >= q.minNodes
    ensures Filter(Filter(OfLength(all, n), (c: Cycle) => HasRequired(q, c)), (c: Cycle) => HasMemory(q, c))
         == OfLength(Filter(all, (c: Cycle) => Fits(q, c)), n)
    ensures OfLength(Filter(all, (c: Cycle) => Usable(q, c)), n)
         == if Allows(q, n) then OfLength(Filter(all, (c: Cycle) => Fits(q, c)), n) else []
  {
    var sized := (c: Cycle) => |c| == n;
    var required := (c: Cycle) => HasRequired(q, c);
    var memory := (c: Cycle) => HasMemory(q, c);
    var fits := (c: Cycle) => Fits(q, c);
    var usable := (c: Cycle) => Usable(q, c);
    var fitsSized := (c: Cycle) => Fits(q, c) && |c| == n;
    var sizedRequired := (c: Cycle) => |c| == n && HasRequired(q, c);
    FilterTwice(all, sized, required, sizedRequired);
    FilterTwice(all, sizedRequired, memory, fitsSized);
    FilterTwice(all, fits, sized, fitsSized);
    if Allows(q, n) {
      FilterTwice(all, usable, sized, fitsSized);
    } else {
      FilterEmpty(Filter(all, usable), sized);
    }
  }

  /** The cycles whose length the sharding can use. */
  function AllowedOf(q: Query, cycles: seq<Cycle>): seq<Cycle>
  {
    Filter(cycles, (c: Cycle) => Allows(q, |c|))
  }

  /** One group's turn: who fits, and who of those can be used. */
  lemma GroupTurn(q: Query, all: seq<Cycle>, n: nat, withMemory: seq<Cycle>)
    requires n >= q.minNodes && withMemory == OfLength(Filter(all, (c: Cycle) => Fits(q, c)), n)
    ensures AllowedOf(q, withMemory) == OfLength(Filter(all, (c: Cycle) => Usable(q, c)), n)
  {
    GroupFilters(q, all, n);
    var allows := (c: Cycle) => Allows(q, |c|);
    if Allows(q, n) {
      FilterAlike(withMemory, allows, (c: Cycle) => |c| == n);
      FilterTwice(Filter(all, (c: Cycle) => Fits(q, c)), (c: Cycle) => |c| == n, (c: Cycle) => |c| == n, (c: Cycle) => |c| == n);
    } else {
      FilterEmpty(withMemory, allows);
    }
  }

  lemma {:induction false} FilterAll(s: seq<Cycle>, keep: Cycle -> bool)
    requires forall c :: c in s ==> keep(c)
    ensures Filter(s, keep) == s
  {
    if s != [] {
      var front, last := s[..|s| - 1], s[|s| - 1];
      assert s == front + [last] && last in s;
      FilterAll(front, keep);
      assert Filter(s, keep) == Filter(front, keep) + [last];
    }
  }

  method WithMemory(q: Query, group: seq<Cycle>, ghost all: seq<Cycle>, ghost n: nat) returns (r: seq<Cycle>)
    requires group == OfLength(all, n) && n >= q.minNodes
    ensures r == OfLength(Fitting(q, all), n)
  {
    var required := group;
    if q.required != {} {
      required := Filter(group, (c: Cycle) => HasRequired(q, c));
    } else {
      FilterAll(group, (c: Cycle) => HasRequired(q, c));
    }
    r := FilterByMemory(q, required);
    GroupFilters(q, all, n);
  }

  method UsableWith(q: Query, withMemory: seq<Cycle>, ghost all: seq<Cycle>, ghost n: nat) returns (allowed: seq<Cycle>)
    requires withMemory == OfLength(Fitting(q, all), n) && n >= q.minNodes
    ensures allowed == OfLength(UsableOf(q, all), n)
  {
    allowed := AllowedOf(q, withMemory);
    GroupTurn(q, all, n, withMemory);
  }

  lemma UsableFit(q: Query, all: seq<Cycle>, n: nat)
    ensures OfLength(Fitting(q, all), n) == [] ==> OfLength(UsableOf(q, all), n) == []
  {
    FilterEmpty(Fitting(q, all), (c: Cycle) => |c| == n);
    FilterEmpty(UsableOf(q, all), (c: Cycle) => |c| == n);
  }

  /** No cycle has one of the first k lengths. */
  ghost predicate NoneAmong(cycles: seq<Cycle>, lengths: seq<nat>, k: nat)
    requires k <= |lengths|
  {
    forall j :: 0 <= j < k ==> OfLength(cycles, lengths[j]) == []
  }

  ghost predicate NoneUsable(q: Query, all: seq<Cycle>, lengths: seq<nat>, k: nat)
    requires k <= |lengths|
  {
    NoneAmong(UsableOf(q, all), lengths, k)
  }

  ghost predicate SomeFit(q: Query, all: seq<Cycle>, lengths: seq<nat>, k: nat)
    requires k <= |lengths|
  {
    !NoneAmong(Fitting(q, all), lengths, k)
  }

  lemma OneLengthOn(cycles: seq<Cycle>, lengths: seq<nat>, k: nat)
    requires k < |lengths|
    ensures NoneAmong(cycles, lengths, k + 1) <==> NoneAmong(cycles, lengths, k) && OfLength(cycles, lengths[k]) == []
  {
  }

  /** The plain search's choice, with the bound reported. */
  ghost predicate WalkFinds(q: Query, all: seq<Cycle>, bound: Option<nat>, nodeCount: nat, choice: Choice)
  {
    exists plain :: PlainChoice(q, all, plain) && choice == Reported(plain, bound, nodeCount)
  }

  lemma FoundPlainly(q: Query, all: seq<Cycle>, bound: Option<nat>, nodeCount: nat, plain: Choice)
    requires PlainChoice(q, all, plain)
    ensures WalkFinds(q, all, bound, nodeCount, Reported(plain, bound, nodeCount))
  {
  }

  method NothingFound(q: Query, checkedModel: bool, bound: Option<nat>, nodeCount: nat) returns (choice: Choice)
    ensures choice == Reported(Choice.Refused(if checkedModel then NoUsableLength else NoMemory), bound, nodeCount)
  {
    var reason := if checkedModel then NoUsableLength else NoMemory;
    if bound.Some? && nodeCount > bound.value {
      return Truncated(reason, bound.value);
    }
    choice := Choice.Refused(reason);
  }

  lemma SomethingFits(q: Query, all: seq<Cycle>, n: nat, bound: Option<nat>, nodeCount: nat)
    requires OfLength(Fitting(q, all), n) != [] && Unsupported(q).Some?
    ensures WalkFinds(q, all, bound, nodeCount, Choice.Refused(Unsupported(q).value))
  {
    assert OfLength(Fitting(q, all), n)[0] in OfLength(Fitting(q, all), n);
    FoundPlainly(q, all, bound, nodeCount, Choice.Refused(Unsupported(q).value));
  }

  /** The lengths are those of every cycle long enough. */
  ghost predicate Covers(q: Query, all: seq<Cycle>, groups: map<nat, seq<Cycle>>, lengths: seq<nat>)
  {
    && Grouped(all, groups)
    && (forall n :: n in lengths <==> n in groups && n >= q.minNodes)
    && forall i, j :: 0 <= i < j < |lengths| ==> lengths[i] < lengths[j]
  }

  /** The length of a cycle that fits has its turn. */
  lemma LengthHasTurn(q: Query, all: seq<Cycle>, groups: map<nat, seq<Cycle>>, lengths: seq<nat>, c: Cycle) returns (m: nat)
    requires Covers(q, all, groups, lengths) && c in Fitting(q, all)
    ensures m < |lengths| && lengths[m] == |c| && OfLength(Fitting(q, all), |c|) != []
    ensures c in UsableOf(q, all) ==> OfLength(UsableOf(q, all), |c|) != []
  {
    FilterEmpty(all, (x: Cycle) => |x| == |c|);
    assert GroupIn(groups, |c|) == OfLength(all, |c|) != [];
    assert |c| in lengths;
    m :| 0 <= m < |lengths| && lengths[m] == |c|;
    FilterEmpty(Fitting(q, all), (x: Cycle) => |x| == |c|);
    FilterEmpty(UsableOf(q, all), (x: Cycle) => |x| == |c|);
  }

  lemma FirstIsLeast(q: Query, all: seq<Cycle>, groups: map<nat, seq<Cycle>>, lengths: seq<nat>, k: nat, c: Cycle)
    requires Covers(q, all, groups, lengths) && k < |lengths| && NoneUsable(q, all, lengths, k) && c in UsableOf(q, all)
    ensures lengths[k] <= |c|
  {
    var m := LengthHasTurn(q, all, groups, lengths, c);
  }

  lemma LeastChosen(q: Query, all: seq<Cycle>, n: nat)
    requires Unsupported(q).None? && OfLength(UsableOf(q, all), n) != []
    requires forall c :: c in UsableOf(q, all) ==> n <= |c|
    ensures PlainChoice(q, all, Group(OfLength(UsableOf(q, all), n)))
  {
    var first := OfLength(UsableOf(q, all), n)[0];
    assert first in OfLength(UsableOf(q, all), n) && first in Fitting(q, all);
    assert IsLeastLength(UsableOf(q, all), n);
  }

  lemma ShortestFound(q: Query, all: seq<Cycle>, groups: map<nat, seq<Cycle>>, lengths: seq<nat>, k: nat,
                      bound: Option<nat>, nodeCount: nat)
    requires Covers(q, all, groups, lengths) && k < |lengths| && Unsupported(q).None?
    requires NoneUsable(q, all, lengths, k) && OfLength(UsableOf(q, all), lengths[k]) != []
    ensures WalkFinds(q, all, bound, nodeCount, Group(OfLength(UsableOf(q, all), lengths[k])))
  {
    forall c | c in UsableOf(q, all) ensures lengths[k] <= |c| {
      FirstIsLeast(q, all, groups, lengths, k, c);
    }
    LeastChosen(q, all, lengths[k]);
    FoundPlainly(q, all, bound, nodeCount, Group(OfLength(UsableOf(q, all), lengths[k])));
  }

  lemma NoCycleUsable(q: Query, all: seq<Cycle>, groups: map<nat, seq<Cycle>>, lengths: seq<nat>, c: Cycle)
    requires Covers(q, all, groups, lengths) && NoneUsable(q, all, lengths, |lengths|) && c in Fitting(q, all)
    ensures c !in UsableOf(q, all) && SomeFit(q, all, lengths, |lengths|)
  {
    var m := LengthHasTurn(q, all, groups, lengths, c);
    assert OfLength(UsableOf(q, all), lengths[m]) == [];
  }

  lemma NothingUsable(q: Query, all: seq<Cycle>, groups: map<nat, seq<Cycle>>, lengths: seq<nat>, checked: bool,
                      bound: Option<nat>, nodeCount: nat)
    requires Covers(q, all, groups, lengths) && (checked ==> Unsupported(q).None?)
    requires NoneUsable(q, all, lengths, |lengths|) && checked == SomeFit(q, all, lengths, |lengths|)
    ensures WalkFinds(q, all, bound, nodeCount,
                      Reported(Choice.Refused(if checked then NoUsableLength else NoMemory), bound, nodeCount))
  {
    forall c | c in Fitting(q, all) ensures c !in UsableOf(q, all) && checked {
      NoCycleUsable(q, all, groups, lengths, c);
    }
    FilterEmpty(all, (c: Cycle) => Usable(q, c));
    FilterEmpty(all, (c: Cycle) => Fits(q, c));
    if checked {
      var j :| 0 <= j < |lengths| && OfLength(Fitting(q, all), lengths[j]) != [];
      assert OfLength(Fitting(q, all), lengths[j])[0] in OfLength(Fitting(q, all), lengths[j]);
    }
    FoundPlainly(q, all, bound, nodeCount, Choice.Refused(if checked then NoUsableLength else NoMemory));
  }

  /** The walk returns what the plain search would, with the search's bound reported. */
  method SmallestPlaceable(q: Query, groups: map<nat, seq<Cycle>>, bound: Option<nat>, nodeCount: nat, ghost all: seq<Cycle>)
    returns (choice: Choice)
    requires Grouped(all, groups)
    ensures WalkFinds(q, all, bound, nodeCount, choice)
  {
    var lengths := Ascending(set n | n in groups && n >= q.minNodes);
    var checkedModel := false;
    for k := 0 to |lengths|
      invariant NoneUsable(q, all, lengths, k) && checkedModel == SomeFit(q, all, lengths, k)
      invariant checkedModel ==> Unsupported(q).None?
    {
      var n := lengths[k];
      assert n in lengths;
      OneLengthOn(UsableOf(q, all), lengths, k);
      OneLengthOn(Fitting(q, all), lengths, k);
      UsableFit(q, all, n);
      var withMemory := WithMemory(q, groups[n], all, n);
      if withMemory == [] {
        continue;
      }
      if !checkedModel {
        if Unsupported(q).Some? {
          choice := Choice.Refused(Unsupported(q).value);
          SomethingFits(q, all, n, bound, nodeCount);
          return;
        }
        checkedModel := true;
      }
      var allowed := UsableWith(q, withMemory, all, n);
      if allowed != [] {
        choice := Group(allowed);
        ShortestFound(q, all, groups, lengths, k, bound, nodeCount);
        return;
      }
    }
    choice := NothingFound(q, checkedModel, bound, nodeCount);
    NothingUsable(q, all, groups, lengths, checkedModel, bound, nodeCount);
  }

  // ---------------------------------------------------------------- searching only short cycles

  lemma {:induction false} MemorySumConcat(a: Cycle, b: Cycle, memory: map<NodeId, nat>)
    requires (forall n :: n in a ==> n in memory) && forall n :: n in b ==> n in memory
    ensures forall n :: n in a + b ==> n in memory
    ensures MemorySum(a + b, memory) == MemorySum(a, memory) + MemorySum(b, memory)
  {
    if b == [] {
      assert a + b == a;
    } else {
      assert (a + b)[..|a + b| - 1] == a + b[..|b| - 1];
      MemorySumConcat(a, b[..|b| - 1], memory);
    }
  }

  lemma RotatedMemory(q: Query, c: Cycle, r: nat)
    requires r < |c|
    ensures HasMemory(q, Cycles.Rotated(c, r)) == HasMemory(q, c)
    ensures forall n :: n in Cycles.Rotated(c, r) <==> n in c
  {
    var d := Cycles.Rotated(c, r);
    assert c == c[..r] + c[r..] && d == c[r..] + c[..r];
    assert forall n :: n in d <==> n in c;
    if forall n :: n in c ==> n in q.memory {
      MemorySumConcat(c[..r], c[r..], q.memory);
      MemorySumConcat(c[r..], c[..r], q.memory);
    }
  }

  lemma UsableAlike(q: Query, c: Cycle, d: Cycle, length: nat)
    requires |c| == |d| == length && (forall n :: n in c <==> n in d) && HasMemory(q, c) == HasMemory(q, d)
    ensures Fits(q, c) == Fits(q, d) && Usable(q, c) == Usable(q, d)
  {
    assert HasRequired(q, c) == HasRequired(q, d);
  }

  /** Where a cycle starts makes no difference to whether it can be used. */
  lemma RotationKeepsUse(q: Query, c: Cycle)
    requires c != []
    ensures Usable(q, Cycles.Canonical(c)) == Usable(q, c) && Fits(q, Cycles.Canonical(c)) == Fits(q, c)
    ensures |Cycles.Canonical(c)| == |c|
  {
    RotatedMemory(q, c, Cycles.LeastAt(c));
    UsableAlike(q, Cycles.Canonical(c), c, |c|);
  }

  lemma {:induction false} SingletonsAre(vs: seq<NodeId>, c: Cycle)
    ensures c in Cycles.Singletons(vs) <==> |c| == 1 && c[0] in vs
  {
    if vs != [] {
      var last := |vs| - 1;
      assert vs == vs[..last] + [vs[last]];
      SingletonsAre(vs[..last], c);
      assert |c| == 1 ==> c == [c[0]];
    }
  }

  lemma CanonicalIsShort(g: Cycles.Graph, k: nat, c: Cycle)
    requires Cycles.ValidGraph(g) && k >= 1 && Cycles.SimpleCycle(g, c) && |c| <= k
    ensures Cycles.Canonical(c) in Cycles.CyclesFrom(g, g.vertices, k)
  {
    Cycles.CanonicalIsCycle(g, c);
    Cycles.ShortCyclesExactly(g, k, Cycles.Canonical(c));
  }

  lemma EnumeratedShort(g: Cycles.Graph, all: seq<Cycle>, k: nat, c: Cycle)
    requires Cycles.ValidGraph(g) && Cycles.Enumerates(g, all) && k >= 1 && c in all && |c| <= k
    ensures c != [] && Cycles.Canonical(c) in Cycles.CyclesFrom(g, g.vertices, k)
  {
    var i :| 0 <= i < |all| && all[i] == c;
    assert Cycles.SimpleCycle(g, all[i]);
    CanonicalIsShort(g, k, c);
  }

  /** Each short cycle of the full enumeration is in the short one, written from its lowest vertex. */
  lemma FullToShort(g: Cycles.Graph, all: seq<Cycle>, k: nat, c: Cycle)
    requires Cycles.ValidGraph(g) && Cycles.Enumerates(g, all) && k >= 1
    requires c in all + Cycles.Singletons(g.vertices) && |c| <= k
    ensures c != [] && Cycles.Canonical(c) in Cycles.CyclesFrom(g, g.vertices, k) + Cycles.Singletons(g.vertices)
  {
    SingletonsAre(g.vertices, c);
    if c in all {
      EnumeratedShort(g, all, k, c);
    } else {
      assert Cycles.Canonical(c) == c;
    }
  }

  lemma ShortToFull(g: Cycles.Graph, all: seq<Cycle>, k: nat, d: Cycle) returns (c: Cycle)
    requires Cycles.ValidGraph(g) && Cycles.Enumerates(g, all) && k >= 1
    requires d in Cycles.CyclesFrom(g, g.vertices, k) + Cycles.Singletons(g.vertices)
    ensures c in all + Cycles.Singletons(g.vertices) && c != [] && Cycles.Canonical(c) == d && |c| == |d| <= k
  {
    SingletonsAre(g.vertices, d);
    Cycles.ShortCyclesExactly(g, k, d);
    if d in Cycles.CyclesFrom(g, g.vertices, k) {
      var i := Cycles.Enumerated(g, all, d);
      c := all[i];
    } else {
      c := d;
    }
  }

  /** The chosen group's cycles, each written from its lowest vertex. */
  ghost function Rings(cycles: seq<Cycle>): set<Cycle>
  {
    set c | c in cycles :: Cycles.Canonical(c)
  }

  /** A least usable length in the short enumeration is the least in the full one. */
  lemma LeastAgree(q: Query, g: Cycles.Graph, all: seq<Cycle>, k: nat, n: nat)
    requires Cycles.ValidGraph(g) && Cycles.Enumerates(g, all) && k >= 1
    requires IsLeastLength(UsableOf(q, Cycles.CyclesFrom(g, g.vertices, k) + Cycles.Singletons(g.vertices)), n)
    ensures n <= k && IsLeastLength(UsableOf(q, all + Cycles.Singletons(g.vertices)), n)
  {
    var full, short := all + Cycles.Singletons(g.vertices), Cycles.CyclesFrom(g, g.vertices, k) + Cycles.Singletons(g.vertices);
    var d :| d in UsableOf(q, short) && |d| == n;
    var c := ShortToFull(g, all, k, d);
    RotationKeepsUse(q, c);
    forall x | x in UsableOf(q, full) ensures n <= |x| {
      if |x| <= k {
        FullToShort(g, all, k, x);
        RotationKeepsUse(q, x);
        assert Cycles.Canonical(x) in UsableOf(q, short);
      }
    }
    assert c in UsableOf(q, full) && |c| == n;
  }

  /** Two groups in which each member has the other's ring, written from its lowest vertex. */
  lemma SameImages(a: seq<Cycle>, b: seq<Cycle>)
    requires forall c :: c in a ==> Cycles.Canonical(c) in b
    requires forall d :: d in b ==> Cycles.Canonical(d) == d && d in Rings(a)
    ensures Rings(a) == Rings(b)
  {
    forall x | x in Rings(a) ensures x in Rings(b) {
      var c :| c in a && Cycles.Canonical(c) == x;
      assert x in b;
    }
  }

  lemma InGroup(q: Query, cycles: seq<Cycle>, n: nat, c: Cycle)
    ensures c in OfLength(UsableOf(q, cycles), n) <==> c in cycles && Usable(q, c) && |c| == n
  {
  }

  lemma RingKept(q: Query, g: Cycles.Graph, all: seq<Cycle>, k: nat, c: Cycle)
    requires Cycles.ValidGraph(g) && Cycles.Enumerates(g, all) && 1 <= k && |c| <= k
    requires c in all + Cycles.Singletons(g.vertices) && Usable(q, c)
    ensures Cycles.Canonical(c) in Cycles.CyclesFrom(g, g.vertices, k) + Cycles.Singletons(g.vertices)
    ensures Usable(q, Cycles.Canonical(c)) && |Cycles.Canonical(c)| == |c|
  {
    FullToShort(g, all, k, c);
    RotationKeepsUse(q, c);
  }

  lemma RingCame(q: Query, g: Cycles.Graph, all: seq<Cycle>, k: nat, d: Cycle) returns (c: Cycle)
    requires Cycles.ValidGraph(g) && Cycles.Enumerates(g, all) && 1 <= k
    requires d in Cycles.CyclesFrom(g, g.vertices, k) + Cycles.Singletons(g.vertices) && Usable(q, d)
    ensures c in all + Cycles.Singletons(g.vertices) && Usable(q, c) && |c| == |d| && Cycles.Canonical(c) == d
  {
    c := ShortToFull(g, all, k, d);
    RotationKeepsUse(q, c);
  }

  lemma ShortIsCanonical(g: Cycles.Graph, k: nat, d: Cycle)
    requires Cycles.ValidGraph(g) && k >= 1
    requires d in Cycles.CyclesFrom(g, g.vertices, k) + Cycles.Singletons(g.vertices)
    ensures Cycles.Canonical(d) == d
  {
    SingletonsAre(g.vertices, d);
    Cycles.ShortCyclesExactly(g, k, d);
    if d in Cycles.CyclesFrom(g, g.vertices, k) {
      Cycles.CanonicalIsCycle(g, d);
    }
  }

  lemma SameRings(q: Query, g: Cycles.Graph, all: seq<Cycle>, k: nat, n: nat)
    requires Cycles.ValidGraph(g) && Cycles.Enumerates(g, all) && 1 <= k && n <= k
    ensures Rings(OfLength(UsableOf(q, all + Cycles.Singletons(g.vertices)), n))
         == Rings(OfLength(UsableOf(q, Cycles.CyclesFrom(g, g.vertices, k) + Cycles.Singletons(g.vertices)), n))
  {
    var full, short := all + Cycles.Singletons(g.vertices), Cycles.CyclesFrom(g, g.vertices, k) + Cycles.Singletons(g.vertices);
    var a, b := OfLength(UsableOf(q, full), n), OfLength(UsableOf(q, short), n);
    forall c | c in a ensures Cycles.Canonical(c) in b {
      InGroup(q, full, n, c);
      RingKept(q, g, all, k, c);
      InGroup(q, short, n, Cycles.Canonical(c));
    }
    forall d | d in b ensures Cycles.Canonical(d) == d && d in Rings(a) {
      InGroup(q, short, n, d);
      ShortIsCanonical(g, k, d);
      var c := RingCame(q, g, all, k, d);
      InGroup(q, full, n, c);
    }
    SameImages(a, b);
  }

  lemma GroupChosen(q: Query, all: seq<Cycle>, choice: Choice) returns (n: nat)
    requires PlainChoice(q, all, choice) && choice.Group?
    ensures IsLeastLength(UsableOf(q, all), n) && choice == Group(OfLength(UsableOf(q, all), n)) && Unsupported(q).None?
  {
    n :| IsLeastLength(UsableOf(q, all), n) && choice == Group(OfLength(UsableOf(q, all), n));
  }

  lemma GroupForced(q: Query, all: seq<Cycle>, choice: Choice, n: nat)
    requires PlainChoice(q, all, choice) && IsLeastLength(UsableOf(q, all), n) && Unsupported(q).None?
    ensures choice == Group(OfLength(UsableOf(q, all), n))
  {
    var c :| c in UsableOf(q, all) && |c| == n;
    assert c in Fitting(q, all);
  }

  /** Bounding the search costs nothing but long rings: whenever it finds a group, enumerating
      every cycle finds the same rings, up to where each starts. */
  lemma BoundedSearchAgrees(q: Query, g: Cycles.Graph, all: seq<Cycle>, k: nat, bounded: Choice, full: Choice)
    requires Cycles.ValidGraph(g) && Cycles.Enumerates(g, all) && k >= 1
    requires PlainChoice(q, Cycles.CyclesFrom(g, g.vertices, k) + Cycles.Singletons(g.vertices), bounded)
    requires PlainChoice(q, all + Cycles.Singletons(g.vertices), full) && bounded.Group?
    ensures full.Group? && Rings(full.cycles) == Rings(bounded.cycles)
  {
    var n := GroupChosen(q, Cycles.CyclesFrom(g, g.vertices, k) + Cycles.Singletons(g.vertices), bounded);
    LeastAgree(q, g, all, k, n);
    SameRings(q, g, all, k, n);
    GroupForced(q, all + Cycles.Singletons(g.vertices), full, n);
  }

  lemma {:induction false} DistinctFit(s: seq<NodeId>, vs: seq<NodeId>)
    requires Distinct(s) && forall v :: v in s ==> v in vs
    ensures |s| <= |vs|
  {
    if s != [] {
      var last := s[|s| - 1];
      assert last in s && last in vs;
      var i :| 0 <= i < |vs| && vs[i] == last;
      var rest := vs[..i] + vs[i + 1..];
      forall v | v in s[..|s| - 1] ensures v in rest {
        assert v in s && v in vs;
        var j :| 0 <= j < |vs| && vs[j] == v;
        assert j < i ==> rest[j] == v;
        assert j > i ==> rest[j - 1] == v;
      }
      DistinctFit(s[..|s| - 1], rest);
    }
  }

  lemma NoLongerThanNodes(g: Cycles.Graph, all: seq<Cycle>, c: Cycle)
    requires Cycles.Enumerates(g, all) && c in all + Cycles.Singletons(g.vertices)
    ensures |c| <= |g.vertices| && c != []
  {
    SingletonsAre(g.vertices, c);
    if i :| 0 <= i < |all| && all[i] == c {
      assert Cycles.SimpleCycle(g, all[i]);
      DistinctFit(c, g.vertices);
    }
  }

  lemma SameEmptiness(q: Query, g: Cycles.Graph, all: seq<Cycle>, k: nat)
    requires Cycles.ValidGraph(g) && Cycles.Enumerates(g, all) && k >= 1 && |g.vertices| <= k
    ensures var full, short := all + Cycles.Singletons(g.vertices), Cycles.CyclesFrom(g, g.vertices, k) + Cycles.Singletons(g.vertices);
            && (Fitting(q, full) == [] <==> Fitting(q, short) == [])
            && (UsableOf(q, full) == [] <==> UsableOf(q, short) == [])
  {
    var full, short := all + Cycles.Singletons(g.vertices), Cycles.CyclesFrom(g, g.vertices, k) + Cycles.Singletons(g.vertices);
    forall c | c in full
      ensures Fits(q, c) ==> Cycles.Canonical(c) in Fitting(q, short)
      ensures Usable(q, c) ==> Cycles.Canonical(c) in UsableOf(q, short)
    {
      NoLongerThanNodes(g, all, c);
      FullToShort(g, all, k, c);
      RotationKeepsUse(q, c);
    }
    forall d | d in short
      ensures Fits(q, d) ==> Fitting(q, full) != []
      ensures Usable(q, d) ==> UsableOf(q, full) != []
    {
      var c := ShortToFull(g, all, k, d);
      RotationKeepsUse(q, c);
      assert Fits(q, c) ==> c in Fitting(q, full);
      assert Usable(q, c) ==> c in UsableOf(q, full);
    }
    FilterEmpty(full, (c: Cycle) => Fits(q, c));
    FilterEmpty(full, (c: Cycle) => Usable(q, c));
    FilterEmpty(short, (c: Cycle) => Fits(q, c));
    FilterEmpty(short, (c: Cycle) => Usable(q, c));
  }

  /** A bounded search that could not have missed a ring fails exactly as the full one does. */
  lemma CompleteSearchAgrees(q: Query, g: Cycles.Graph, all: seq<Cycle>, k: nat, bounded: Choice, full: Choice)
    requires Cycles.ValidGraph(g) && Cycles.Enumerates(g, all) && k >= 1 && |g.vertices| <= k
    requires PlainChoice(q, Cycles.CyclesFrom(g, g.vertices, k) + Cycles.Singletons(g.vertices), bounded)
    requires PlainChoice(q, all + Cycles.Singletons(g.vertices), full)
    ensures bounded.Refused? <==> full.Refused?
    ensures bounded.Refused? ==> full == bounded
  {
    SameEmptiness(q, g, all, k);
  }

  // ---------------------------------------------------------------- the search and the pick

  datatype Search = Search(groups: map<nat, seq<Cycle>>, bound: Option<nat>) | BadBudget

  /** Every cycle if the budget allows, otherwise the short ones. */
  method SearchPlacementCycles(g: Cycles.Graph, all: seq<Cycle>, maxCycles: int, maxNodes: nat)
    returns (r: Search, ghost searched: seq<Cycle>)
    requires Cycles.ValidGraph(g)
    ensures r.BadBudget? <==> maxCycles < 1 || (|all| > maxCycles && maxNodes < 2)
    ensures r.Search? ==> Grouped(searched, r.groups)
    ensures r.Search? && r.bound.None? ==> |all| <= maxCycles && searched == all + Cycles.Singletons(g.vertices)
    ensures r.Search? && r.bound.Some? ==>
              && |all| > maxCycles && r.bound.value == maxNodes >= 2
              && searched == Cycles.CyclesFrom(g, g.vertices, maxNodes) + Cycles.Singletons(g.vertices)
  {
    searched := [];
    var every := Cycles.GetCyclesWithinBudget(g, all, maxCycles);
    if every.BadBound? {
      return BadBudget, [];
    }
    if every.Found? {
      var groups := GroupByLength(every.cycles);
      return Search(groups, None), every.cycles;
    }
    var short := Cycles.GetCyclesUpTo(g, maxNodes);
    if short.BadBound? {
      return BadBudget, [];
    }
    var groups := GroupByLength(short.cycles);
    return Search(groups, Some(maxNodes)), short.cycles;
  }

  /** What the pick knows of a cycle. */
  datatype Site = Site(supports: Cycle -> bool, onRdma: Cycle -> bool, hasLeaf: Cycle -> bool,
                       downloaded: Cycle -> real, memory: Cycle -> nat)

  datatype Picked = Picked(cycle: Cycle) | NoBackend | NoRdma

  predicate Better(site: Site, a: Cycle, b: Cycle)
  {
    site.downloaded(a) > site.downloaded(b)
    || (site.downloaded(a) == site.downloaded(b) && site.memory(a) > site.memory(b))
  }

  /** The first of the best. */
  function Best(site: Site, cycles: seq<Cycle>): (c: Cycle)
    requires cycles != []
    ensures c in cycles && forall d :: d in cycles ==> !Better(site, d, c)
  {
    var last := |cycles| - 1;
    if last == 0 then cycles[0]
    else
      var c := Best(site, cycles[..last]);
      assert forall d :: d in cycles ==> d in cycles[..last] || d == cycles[last];
      if Better(site, cycles[last], c) then cycles[last] else c
  }

  function Pick(site: Site, needsRdma: bool, group: seq<Cycle>): Picked
  {
    var supported := Filter(group, site.supports);
    var wired := if needsRdma then Filter(supported, site.onRdma) else supported;
    var leaves := Filter(wired, site.hasLeaf);
    if supported == [] then NoBackend
    else if wired == [] then NoRdma
    else Picked(Best(site, if leaves != [] then leaves else wired))
  }

  ghost predicate Eligible(site: Site, needsRdma: bool, group: seq<Cycle>, c: Cycle)
  {
    c in group && site.supports(c) && (needsRdma ==> site.onRdma(c))
  }

  /** The pick is eligible, touches a leaf node if any eligible cycle does, and nothing eligible
      that is no worse in that respect has more of the model downloaded, or as much and more
      memory; nothing is picked only if nothing is eligible. */
  lemma PickIsBest(site: Site, needsRdma: bool, group: seq<Cycle>)
    ensures Pick(site, needsRdma, group).Picked? <==> exists c :: Eligible(site, needsRdma, group, c)
    ensures Pick(site, needsRdma, group).Picked? ==>
              var p := Pick(site, needsRdma, group).cycle;
              && Eligible(site, needsRdma, group, p)
              && forall c :: Eligible(site, needsRdma, group, c) ==>
                   && (site.hasLeaf(c) ==> site.hasLeaf(p))
                   && (site.hasLeaf(c) == site.hasLeaf(p) ==> !Better(site, c, p))
  {
    var supported := Filter(group, site.supports);
    var wired := if needsRdma then Filter(supported, site.onRdma) else supported;
    assert forall c :: c in wired <==> Eligible(site, needsRdma, group, c);
    FilterEmpty(wired, site.hasLeaf);
    if wired != [] {
      assert wired[0] in wired && Eligible(site, needsRdma, group, wired[0]);
      assert wired[0] in supported;
    }
  }
}
