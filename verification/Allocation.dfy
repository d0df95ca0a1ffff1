/** Dividing a model's layers over nodes in proportion to their memory: largest remainders first,
    then a repair that leaves no node without a layer. Quotas are exact: node i's is
    `memory[i] * layers / total`. */
module Allocation {

  datatype Allotment = Layers(shares: seq<nat>) | NoNodes | TooFewLayers

  function Sum(s: seq<nat>): nat
  {
    if s == [] then 0 else Sum(s[..|s| - 1]) + s[|s| - 1]
  }

  function Scaled(memory: seq<nat>, layers: nat): (r: seq<nat>)
    ensures |r| == |memory|
  {
    if memory == [] then []
    else Scaled(memory[..|memory| - 1], layers) + [memory[|memory| - 1] * layers]
  }

  function Quotients(s: seq<nat>, total: nat): (r: seq<nat>)
    requires total > 0
    ensures |r| == |s|
  {
    if s == [] then [] else Quotients(s[..|s| - 1], total) + [s[|s| - 1] / total]
  }

  function Remainders(s: seq<nat>, total: nat): (r: seq<nat>)
    requires total > 0
    ensures |r| == |s|
  {
    if s == [] then [] else Remainders(s[..|s| - 1], total) + [s[|s| - 1] % total]
  }

  // ---------------------------------------------------------------- the order of the remainders

  /** Greater remainders come first, and of equal ones the lower index. */
  predicate Before(rem: seq<nat>, a: nat, b: nat)
    requires a < |rem| && b < |rem|
  {
    rem[a] > rem[b] || (rem[a] == rem[b] && a < b)
  }

  predicate InRange(order: seq<nat>, n: nat)
  {
    forall k :: 0 <= k < |order| ==> order[k] < n
  }

  function Inserted(rem: seq<nat>, order: seq<nat>, i: nat): (r: seq<nat>)
    requires i < |rem| && InRange(order, |rem|)
    ensures InRange(r, |rem|)
  {
    if order == [] then [i]
    else if Before(rem, i, order[|order| - 1]) then Inserted(rem, order[..|order| - 1], i) + [order[|order| - 1]]
    else order + [i]
  }

  function ByRemainder(rem: seq<nat>, n: nat): (r: seq<nat>)
    requires n <= |rem|
    ensures InRange(r, |rem|)
  {
    if n == 0 then [] else Inserted(rem, ByRemainder(rem, n - 1), n - 1)
  }

  ghost predicate Ordered(rem: seq<nat>, order: seq<nat>)
    requires InRange(order, |rem|)
  {
    forall a, b :: 0 <= a < b < |order| ==> Before(rem, order[a], order[b])
  }

  lemma PlacedBefore(rem: seq<nat>, order: seq<nat>, a: nat, b: nat)
    requires InRange(order, |rem|) && Ordered(rem, order) && a < |order| && b < |order| && a != b
    ensures a < b <==> Before(rem, order[a], order[b])
  {
  }

  lemma {:induction false} InsertedOrdered(rem: seq<nat>, order: seq<nat>, i: nat)
    requires i < |rem| && InRange(order, |rem|) && Ordered(rem, order) && i !in order
    ensures Ordered(rem, Inserted(rem, order, i))
    ensures |Inserted(rem, order, i)| == |order| + 1
    ensures forall x :: x in Inserted(rem, order, i) <==> x == i || x in order
  {
    if order != [] {
      var front, last := order[..|order| - 1], order[|order| - 1];
      assert forall x :: x in order <==> x in front || x == last;
      InsertedOrdered(rem, front, i);
      var r := Inserted(rem, front, i);
      forall k | 0 <= k < |r| ensures Before(rem, r[k], last) || !Before(rem, i, last) {
        assert r[k] in r;
        if r[k] != i {
          var m :| 0 <= m < |front| && front[m] == r[k];
          assert Before(rem, order[m], order[|order| - 1]);
        }
      }
    }
  }

  /** The order lists every index once. */
  lemma {:induction false} ByRemainderOrdered(rem: seq<nat>, n: nat)
    requires n <= |rem|
    ensures Ordered(rem, ByRemainder(rem, n)) && |ByRemainder(rem, n)| == n
    ensures forall x :: x in ByRemainder(rem, n) <==> 0 <= x < n
  {
    if n > 0 {
      ByRemainderOrdered(rem, n - 1);
      InsertedOrdered(rem, ByRemainder(rem, n - 1), n - 1);
    }
  }

  // ---------------------------------------------------------------- largest remainder

  function Bumped(s: seq<nat>, order: seq<nat>): (r: seq<nat>)
    requires InRange(order, |s|)
    ensures |r| == |s|
  {
    if order == [] then s
    else
      var r := Bumped(s, order[..|order| - 1]);
      var i := order[|order| - 1];
      r[i := r[i] + 1]
  }

  lemma {:induction false} BumpedAt(s: seq<nat>, order: seq<nat>, i: nat)
    requires InRange(order, |s|) && i < |s|
    requires forall a, b :: 0 <= a < b < |order| ==> order[a] != order[b]
    ensures Bumped(s, order)[i] == s[i] + if i in order then 1 else 0
  {
    if order != [] {
      var front, last := order[..|order| - 1], order[|order| - 1];
      BumpedAt(s, front, i);
      assert i in order <==> i in front || i == last;
      assert last !in front;
    }
  }

  lemma {:induction false} SumUpdate(s: seq<nat>, i: nat, x: nat)
    requires i < |s|
    ensures Sum(s[i := x]) + s[i] == Sum(s) + x
  {
    var last := |s| - 1;
    if i == last {
      assert s[i := x][..last] == s[..last];
    } else {
      assert s[i := x][..last] == s[..last][i := x];
      SumUpdate(s[..last], i, x);
    }
  }

  lemma {:induction false} BumpedSum(s: seq<nat>, order: seq<nat>)
    requires InRange(order, |s|)
    ensures Sum(Bumped(s, order)) == Sum(s) + |order|
  {
    if order != [] {
      var front, i := order[..|order| - 1], order[|order| - 1];
      BumpedSum(s, front);
      SumUpdate(Bumped(s, front), i, Bumped(s, front)[i] + 1);
    }
  }

  // ---------------------------------------------------------------- quotas

  lemma {:induction false} ScaledAt(memory: seq<nat>, layers: nat, total: nat, i: nat)
    requires i < |memory| && total > 0
    ensures var s := Scaled(memory, layers);
            && s[i] == memory[i] * layers
            && Quotients(s, total)[i] == memory[i] * layers / total
            && Remainders(s, total)[i] == memory[i] * layers % total
  {
    var last := |memory| - 1;
    var s := Scaled(memory, layers);
    assert s[..last] == Scaled(memory[..last], layers);
    if i < last {
      ScaledAt(memory[..last], layers, total, i);
    }
  }

  lemma {:induction false} ScaledSum(memory: seq<nat>, layers: nat)
    ensures Sum(Scaled(memory, layers)) == Sum(memory) * layers
  {
    if memory != [] {
      var last := |memory| - 1;
      ScaledSum(memory[..last], layers);
      var s := Scaled(memory, layers);
      assert s[..last] == Scaled(memory[..last], layers);
      assert Sum(memory) * layers == (Sum(memory[..last]) + memory[last]) * layers;
    }
  }

  lemma DivisionStep(total: nat, q: nat, r: nat, x: nat)
    requires total > 0
    ensures total * (q + x / total) + (r + x % total) == (total * q + r) + x
  {
    var k := x / total;
    assert x == total * k + x % total;
    assert total * (q + k) == total * q + total * k;
  }

  lemma {:induction false} DivisionSum(s: seq<nat>, total: nat)
    requires total > 0
    ensures Sum(s) == total * Sum(Quotients(s, total)) + Sum(Remainders(s, total))
  {
    if s != [] {
      var last := |s| - 1;
      var q, r := Quotients(s, total), Remainders(s, total);
      DivisionSum(s[..last], total);
      assert q[..last] == Quotients(s[..last], total) && r[..last] == Remainders(s[..last], total);
      DivisionStep(total, Sum(q[..last]), Sum(r[..last]), s[last]);
    }
  }

  // ---------------------------------------------------------------- how many are left to hand out

  ghost function NonZero(s: seq<nat>): set<nat>
  {
    set k: nat | k < |s| && s[k] > 0
  }

  lemma {:induction false} SmallSum(s: seq<nat>, total: nat)
    requires total > 0 && forall k :: 0 <= k < |s| ==> s[k] < total
    ensures Sum(s) <= (total - 1) * |NonZero(s)| && |NonZero(s)| <= |s|
  {
    if s != [] {
      var last := |s| - 1;
      SmallSum(s[..last], total);
      assert forall k: nat :: k < last ==> s[..last][k] == s[k];
      assert NonZero(s) == NonZero(s[..last]) + if s[last] > 0 then {last} else {};
      assert s[last] > 0 ==> |NonZero(s)| == |NonZero(s[..last])| + 1;
      assert (total - 1) * (|NonZero(s[..last])| + 1) == (total - 1) * |NonZero(s[..last])| + (total - 1);
    }
  }

  lemma Multiply(a: nat, x: int, y: int)
    ensures x <= y ==> a * x <= a * y && x * a <= y * a
    ensures a > 0 && x < y ==> a * x < a * y && x * a < y * a
  {
    assert a * y == a * x + a * (y - x);
    assert x < y && a > 0 ==> a * (y - x) > 0;
    assert x <= y ==> a * (y - x) >= 0;
  }

  /** `left` is what flooring leaves over: fewer layers than there are non-zero remainders. */
  lemma LeftFits(total: nat, left: int, rest: nat, nonZero: nat)
    requires total > 0 && total * left == rest && rest <= (total - 1) * nonZero
    ensures 0 <= left <= nonZero && (nonZero > 0 ==> left < nonZero)
  {
    Multiply(total, left, -1);
    Multiply(total, nonZero, left);
    Multiply(total, 1, left);
    assert (total - 1) * nonZero == total * nonZero - nonZero;
  }

  ghost function Indices(order: seq<nat>): set<nat>
  {
    set x | x in order
  }

  lemma {:induction false} IndicesCount(order: seq<nat>)
    ensures |Indices(order)| <= |order|
  {
    if order != [] {
      var front, last := order[..|order| - 1], order[|order| - 1];
      IndicesCount(front);
      assert order == front + [last];
      assert Indices(order) == Indices(front) + {last};
    }
  }

  lemma {:induction false} Subset(a: set<nat>, b: set<nat>)
    requires a <= b
    ensures |a| <= |b|
  {
    assert b == a + (b - a);
    assert |a + (b - a)| == |a| + |b - a|;
  }

  /** Only nodes with a remainder get an extra layer. */
  lemma ChosenHaveRemainders(rem: seq<nat>, order: seq<nat>, left: nat, k: nat)
    requires InRange(order, |rem|) && Ordered(rem, order)
    requires forall x: nat :: x < |rem| ==> x in order
    requires k < left <= |NonZero(rem)| && left <= |order|
    ensures rem[order[k]] > 0
  {
    if rem[order[k]] == 0 {
      forall x | x in NonZero(rem) ensures x in order[..k] {
        assert x in order;
        var m :| 0 <= m < |order| && order[m] == x;
        PlacedBefore(rem, order, m, k);
      }
      Subset(NonZero(rem), Indices(order[..k]));
      IndicesCount(order[..k]);
    }
  }

  // ---------------------------------------------------------------- the shares before the repair

  function Left(memory: seq<nat>, layers: nat): int
    requires Sum(memory) > 0
  {
    layers - Sum(Quotients(Scaled(memory, layers), Sum(memory)))
  }

  function Order(memory: seq<nat>, layers: nat): (r: seq<nat>)
    requires Sum(memory) > 0
    ensures InRange(r, |memory|)
  {
    var rem := Remainders(Scaled(memory, layers), Sum(memory));
    ByRemainder(rem, |rem|)
  }

  /** The loop that hands out what flooring left over stays within the order. */
  lemma LeftInRange(memory: seq<nat>, layers: nat)
    requires Sum(memory) > 0
    ensures 0 <= Left(memory, layers) <= |Order(memory, layers)| == |memory|
    ensures Left(memory, layers) <= |NonZero(Remainders(Scaled(memory, layers), Sum(memory)))|
    ensures Left(memory, layers) > 0 ==> Left(memory, layers) < |memory|
  {
    var total, s := Sum(memory), Scaled(memory, layers);
    var rem := Remainders(s, total);
    ScaledSum(memory, layers);
    DivisionSum(s, total);
    assert total * Left(memory, layers) == Sum(rem) by {
      assert total * (layers - Sum(Quotients(s, total))) == total * layers - total * Sum(Quotients(s, total));
    }
    forall k | 0 <= k < |rem| ensures rem[k] < total {
      ScaledAt(memory, layers, total, k);
    }
    SmallSum(rem, total);
    LeftFits(total, Left(memory, layers), Sum(rem), |NonZero(rem)|);
    ByRemainderOrdered(rem, |rem|);
  }

  function Shares(memory: seq<nat>, layers: nat): (r: seq<nat>)
    requires Sum(memory) > 0
    ensures |r| == |memory|
  {
    LeftInRange(memory, layers);
    Bumped(Quotients(Scaled(memory, layers), Sum(memory)), Order(memory, layers)[..Left(memory, layers)])
  }

  lemma ShareAt(memory: seq<nat>, layers: nat, i: nat)
    requires Sum(memory) > 0 && i < |memory|
    ensures 0 <= Left(memory, layers) <= |Order(memory, layers)|
    ensures Shares(memory, layers)[i] == memory[i] * layers / Sum(memory)
                                         + if i in Order(memory, layers)[..Left(memory, layers)] then 1 else 0
  {
    LeftInRange(memory, layers);
    var rem := Remainders(Scaled(memory, layers), Sum(memory));
    var order := Order(memory, layers);
    ByRemainderOrdered(rem, |rem|);
    assert forall a, b :: 0 <= a < b < |order| ==> Before(rem, order[a], order[b]);
    BumpedAt(Quotients(Scaled(memory, layers), Sum(memory)), order[..Left(memory, layers)], i);
    ScaledAt(memory, layers, Sum(memory), i);
  }

  /** The shares sum to the layers. */
  lemma SharesSum(memory: seq<nat>, layers: nat)
    requires Sum(memory) > 0
    ensures Sum(Shares(memory, layers)) == layers
  {
    LeftInRange(memory, layers);
    BumpedSum(Quotients(Scaled(memory, layers), Sum(memory)), Order(memory, layers)[..Left(memory, layers)]);
  }

  /** Each share is the floor or the ceiling of its quota. */
  lemma SharesWithinQuota(memory: seq<nat>, layers: nat, i: nat)
    requires Sum(memory) > 0 && i < |memory|
    ensures var q, share := memory[i] * layers, Shares(memory, layers)[i];
            share == q / Sum(memory) || (share == q / Sum(memory) + 1 && q % Sum(memory) > 0)
  {
    ShareAt(memory, layers, i);
    LeftInRange(memory, layers);
    var rem := Remainders(Scaled(memory, layers), Sum(memory));
    var order, left := Order(memory, layers), Left(memory, layers);
    if i in order[..left] {
      var k :| 0 <= k < left && order[k] == i;
      ByRemainderOrdered(rem, |rem|);
      ChosenHaveRemainders(rem, order, left, k);
      ScaledAt(memory, layers, Sum(memory), i);
    }
  }

  lemma DivOrder(x: nat, y: nat, total: nat)
    requires total > 0 && x >= y
    ensures x / total >= y / total
    ensures x / total == y / total ==> x % total - y % total == x - y
  {
    assert x == total * (x / total) + x % total && y == total * (y / total) + y % total;
    Multiply(total, x / total + 1, y / total);
    assert total * (x / total + 1) == total * (x / total) + total;
  }

  lemma QuotaOrder(a: nat, b: nat, layers: nat, total: nat)
    requires total > 0 && a >= b
    ensures a * layers / total >= b * layers / total
    ensures a * layers / total == b * layers / total ==> a * layers % total >= b * layers % total
    ensures a > b && layers > 0 && a * layers / total == b * layers / total ==> a * layers % total > b * layers % total
  {
    Multiply(layers, b, a);
    DivOrder(a * layers, b * layers, total);
  }

  lemma EarlierIsChosen(rem: seq<nat>, order: seq<nat>, left: nat, i: nat, j: nat)
    requires InRange(order, |rem|) && Ordered(rem, order) && left <= |order|
    requires i in order && j in order[..left] && i < |rem| && j < |rem| && Before(rem, i, j)
    ensures i in order[..left]
  {
    var a :| 0 <= a < |order| && order[a] == i;
    var b :| 0 <= b < left && order[b] == j;
    PlacedBefore(rem, order, a, b);
    assert order[..left][a] == i;
  }

  /** More memory never gets fewer layers, and of equal nodes the earlier gets no fewer. */
  lemma SharesFollowMemory(memory: seq<nat>, layers: nat, i: nat, j: nat)
    requires Sum(memory) > 0 && i < |memory| && j < |memory| && layers > 0
    requires memory[i] > memory[j] || (memory[i] == memory[j] && i < j)
    ensures Shares(memory, layers)[i] >= Shares(memory, layers)[j]
  {
    var total := Sum(memory);
    ShareAt(memory, layers, i);
    ShareAt(memory, layers, j);
    QuotaOrder(memory[i], memory[j], layers, total);
    var rem := Remainders(Scaled(memory, layers), total);
    var order, left := Order(memory, layers), Left(memory, layers);
    ScaledAt(memory, layers, total, i);
    ScaledAt(memory, layers, total, j);
    if memory[i] * layers / total == memory[j] * layers / total && j in order[..left] {
      assert Before(rem, i, j);
      ByRemainderOrdered(rem, |rem|);
      EarlierIsChosen(rem, order, left, i, j);
    }
  }

  // ---------------------------------------------------------------- the repair

  /** The first of the greatest shares. */
  function ArgMax(s: seq<nat>): (m: nat)
    requires s != []
    ensures m < |s| && forall k :: 0 <= k < |s| ==> s[k] <= s[m]
    ensures forall k :: 0 <= k < m ==> s[k] < s[m]
  {
    if |s| == 1 then 0
    else
      var m := ArgMax(s[..|s| - 1]);
      assert forall k :: 0 <= k < |s| - 1 ==> s[k] == s[..|s| - 1][k];
      if s[|s| - 1] > s[m] then |s| - 1 else m
  }

  /** Node i's turn: without a layer it takes one from the greatest share. */
  function RepairedAt(s: seq<nat>, i: nat): (r: seq<nat>)
    requires i < |s|
    ensures |r| == |s|
  {
    var m := ArgMax(s);
    if s[i] == 0 && s[m] > 0 then s[m := s[m] - 1][i := 1] else s
  }

  function Repaired(s: seq<nat>, n: nat): (r: seq<nat>)
    requires n <= |s|
    ensures |r| == |s|
  {
    if n == 0 then s else RepairedAt(Repaired(s, n - 1), n - 1)
  }

  function Allocated(memory: seq<nat>, layers: nat): (r: seq<nat>)
    requires Sum(memory) > 0
    ensures |r| == |memory|
  {
    Repaired(Shares(memory, layers), |memory|)
  }

  /** Enough layers for all and none for node i: some node has more than one. */
  lemma {:induction false} SomeoneHasTwo(s: seq<nat>)
    requires s != [] && forall k :: 0 <= k < |s| ==> s[k] <= 1
    ensures Sum(s) <= |s| && (0 in s ==> Sum(s) < |s|)
  {
    var last := |s| - 1;
    if last > 0 {
      SomeoneHasTwo(s[..last]);
      assert s == s[..last] + [s[last]];
    } else {
      assert s[..0] == [];
    }
  }

  ghost predicate Plausible(before: nat, now: nat, visited: bool)
  {
    if before == 0 then now == if visited then 1 else 0 else 1 <= now <= before
  }

  /** Who gave is left among the greatest, who had none has one, and the rest are as they were. */
  ghost predicate Levelled(before: seq<nat>, s: seq<nat>, n: nat)
  {
    && |s| == |before| && n <= |s| && Sum(s) == Sum(before)
    && (forall i :: 0 <= i < |s| ==> Plausible(before[i], s[i], i < n))
    && forall i, k :: 0 <= i < |s| && 0 <= k < |s| && s[i] < before[i] ==> s[k] <= s[i] + 1
  }

  lemma GiverHasTwo(before: seq<nat>, s: seq<nat>, i: nat)
    requires i < |s| && s[i] == 0 && Sum(s) >= |s|
    ensures s[ArgMax(s)] > 1
  {
    if s[ArgMax(s)] <= 1 {
      SomeoneHasTwo(s);
    }
  }

  lemma MovedSum(s: seq<nat>, i: nat, m: nat)
    requires i < |s| && m < |s| && m != i && s[i] == 0 && s[m] > 0
    ensures Sum(s[m := s[m] - 1][i := 1]) == Sum(s)
  {
    SumUpdate(s, m, s[m] - 1);
    SumUpdate(s[m := s[m] - 1], i, 1);
  }

  lemma SkippingLevels(before: seq<nat>, s: seq<nat>, i: nat)
    requires i < |s| && Levelled(before, s, i) && s[i] > 0
    ensures Levelled(before, s, i + 1)
  {
    assert Plausible(before[i], s[i], false);
  }

  lemma GivingLevels(before: seq<nat>, s: seq<nat>, i: nat, m: nat, r: seq<nat>)
    requires i < |s| && m < |s| && m != i && Levelled(before, s, i) && Sum(r) == Sum(before)
    requires s[i] == 0 && s[m] > 1 && (forall k :: 0 <= k < |s| ==> s[k] <= s[m])
    requires r == s[m := s[m] - 1][i := 1]
    ensures Levelled(before, r, i + 1)
  {
    assert Plausible(before[i], s[i], false) && Plausible(before[m], s[m], m < i);
    forall a | 0 <= a < |r| ensures Plausible(before[a], r[a], a < i + 1) {
      assert Plausible(before[a], s[a], a < i);
    }
    forall a, k | 0 <= a < |r| && 0 <= k < |r| && r[a] < before[a] ensures r[k] <= r[a] + 1 {
      assert a != i;
      if a != m {
        assert s[k] <= s[a] + 1;
      }
    }
  }

  lemma GivingStep(before: seq<nat>, s: seq<nat>, i: nat, m: nat)
    requires i < |s| && m < |s| && Levelled(before, s, i)
    requires s[i] == 0 && s[m] > 1 && forall k :: 0 <= k < |s| ==> s[k] <= s[m]
    ensures Levelled(before, s[m := s[m] - 1][i := 1], i + 1)
  {
    MovedSum(s, i, m);
    GivingLevels(before, s, i, m, s[m := s[m] - 1][i := 1]);
  }

  lemma RepairStep(before: seq<nat>, s: seq<nat>, i: nat)
    requires i < |s| && Levelled(before, s, i) && Sum(s) >= |s|
    ensures Levelled(before, RepairedAt(s, i), i + 1)
    ensures s[i] == 0 ==> s[ArgMax(s)] > 1
  {
    if s[i] == 0 {
      GiverHasTwo(before, s, i);
      GivingStep(before, s, i, ArgMax(s));
    } else {
      SkippingLevels(before, s, i);
    }
  }

  lemma {:induction false} RepairLevels(s: seq<nat>, n: nat)
    requires n <= |s| && Sum(s) >= |s|
    ensures Levelled(s, Repaired(s, n), n)
  {
    if n > 0 {
      RepairLevels(s, n - 1);
      RepairStep(s, Repaired(s, n - 1), n - 1);
    }
  }

  /** Every node gets a layer, and the layers are all handed out. */
  lemma AllocationComplete(memory: seq<nat>, layers: nat)
    requires Sum(memory) > 0 && layers >= |memory|
    ensures Sum(Allocated(memory, layers)) == layers
    ensures forall i :: 0 <= i < |memory| ==> Allocated(memory, layers)[i] >= 1
  {
    SharesSum(memory, layers);
    RepairLevels(Shares(memory, layers), |memory|);
  }

  /** After the repair a node with more memory can come out behind one with less, but never by
      more than one layer. */
  lemma AllocationNearlyFollowsMemory(memory: seq<nat>, layers: nat, i: nat, j: nat)
    requires Sum(memory) > 0 && layers >= |memory| && i < |memory| && j < |memory|
    requires memory[i] > memory[j] || (memory[i] == memory[j] && i < j)
    ensures Allocated(memory, layers)[i] + 1 >= Allocated(memory, layers)[j]
    ensures Allocated(memory, layers)[i] >= Allocated(memory, layers)[j]
            || Allocated(memory, layers)[i] < Shares(memory, layers)[i]
  {
    SharesSum(memory, layers);
    RepairLevels(Shares(memory, layers), |memory|);
    SharesFollowMemory(memory, layers, i, j);
  }

  // ---------------------------------------------------------------- the repair, exactly

  /** How many shares reach a level. */
  function Count(s: seq<nat>, level: nat): (n: nat)
    ensures n <= |s|
  {
    if s == [] then 0 else Count(s[..|s| - 1], level) + if s[|s| - 1] >= level then 1 else 0
  }

  /** What all shares together have above a level. */
  function Excess(s: seq<nat>, level: nat): nat
  {
    if s == [] then 0
    else Excess(s[..|s| - 1], level) + if s[|s| - 1] > level then s[|s| - 1] - level else 0
  }

  function Zeros(s: seq<nat>): nat
  {
    |s| - Count(s, 1)
  }

  /** The least level the shares can be cut down to without giving away more than is needed. */
  ghost predicate IsLevel(s: seq<nat>, needed: nat, level: nat)
  {
    level >= 1 && Excess(s, level) <= needed < Excess(s, level - 1)
  }

  /** Share k once `needed` layers were given away: cut down to the level, and the first who reach it
      give one more, as many as are still needed. */
  function Cut(s: seq<nat>, needed: nat, level: nat, k: nat): int
    requires k < |s|
  {
    if s[k] < level then s[k]
    else if Excess(s, level) + Count(s[..k], level) < needed then level - 1
    else level
  }

  lemma {:induction false} ExcessBelow(s: seq<nat>, level: nat)
    requires level >= 1
    ensures Excess(s, level - 1) == Excess(s, level) + Count(s, level)
  {
    if s != [] {
      ExcessBelow(s[..|s| - 1], level);
    }
  }

  lemma {:induction false} CountFalls(s: seq<nat>, level: nat, higher: nat)
    requires level <= higher
    ensures Count(s, higher) <= Count(s, level) && Excess(s, higher) <= Excess(s, level)
  {
    if s != [] {
      CountFalls(s[..|s| - 1], level, higher);
    }
  }

  lemma {:induction false} NoExcess(s: seq<nat>, level: nat)
    requires forall k :: 0 <= k < |s| ==> s[k] <= level
    ensures Excess(s, level) == 0
  {
    if s != [] {
      NoExcess(s[..|s| - 1], level);
    }
  }

  lemma {:induction false} RankGrows(s: seq<nat>, level: nat, i: nat, j: nat)
    requires i < j <= |s|
    ensures Count(s[..i], level) + (if s[i] >= level then 1 else 0) <= Count(s[..j], level)
    decreases j
  {
    assert s[..j][..j - 1] == s[..j - 1];
    if i < j - 1 {
      RankGrows(s, level, i, j - 1);
    }
  }

  /** The share that reaches the level with `rank` such shares before it. */
  lemma {:induction false} AtRank(s: seq<nat>, level: nat, rank: nat) returns (p: nat)
    requires rank < Count(s, level)
    ensures p < |s| && s[p] >= level && Count(s[..p], level) == rank
  {
    var last := |s| - 1;
    if rank < Count(s[..last], level) {
      p := AtRank(s[..last], level, rank);
      assert s[..last][..p] == s[..p];
    } else {
      p := last;
    }
  }

  lemma SameLevel(s: seq<nat>, needed: nat, a: nat, b: nat)
    requires IsLevel(s, needed, a) && IsLevel(s, needed, b)
    ensures a == b
  {
    if a < b {
      CountFalls(s, a, b - 1);
    } else if b < a {
      CountFalls(s, b, a - 1);
    }
  }

  /** Node k after n turns: without a share it has a layer if it had its turn, else its share is cut. */
  ghost predicate CutTo(s: seq<nat>, n: nat, level: nat, r: seq<nat>)
    requires n <= |s|
  {
    && |r| == |s| && IsLevel(s, Zeros(s[..n]), level)
    && forall k :: 0 <= k < |s| ==>
         r[k] == if s[k] == 0 then (if k < n then 1 else 0) else Cut(s, Zeros(s[..n]), level, k)
  }

  lemma AtMostLevel(s: seq<nat>, n: nat, level: nat, r: seq<nat>, k: nat)
    requires n <= |s| && k < |s| && CutTo(s, n, level, r) && r[k] > 1
    ensures r[k] <= level && r[k] == Cut(s, Zeros(s[..n]), level, k)
  {
  }

  /** The next to give: the first share that still reaches the level once all before it gave. */
  lemma NextAtLevel(s: seq<nat>, needed: nat, level: nat) returns (p: nat)
    requires IsLevel(s, needed, level)
    ensures p < |s| && s[p] >= level && Excess(s, level) + Count(s[..p], level) == needed
  {
    ExcessBelow(s, level);
    p := AtRank(s, level, needed - Excess(s, level));
  }

  lemma FirstUncut(s: seq<nat>, needed: nat, level: nat, m: nat, p: nat)
    requires level >= 1 && m <= p < |s| && s[m] >= level && Cut(s, needed, level, m) == level
    requires Excess(s, level) + Count(s[..p], level) == needed
    ensures m == p
  {
    if m < p {
      RankGrows(s, level, m, p);
    }
  }

  /** Whose turn it is to give. */
  lemma GiverIs(s: seq<nat>, n: nat, level: nat, r: seq<nat>)
    requires n < |s| && CutTo(s, n, level, r) && r[ArgMax(r)] > 1
    ensures var m := ArgMax(r);
            && r[m] == level && s[m] >= level && Excess(s, level) + Count(s[..m], level) == Zeros(s[..n])
  {
    var m, needed := ArgMax(r), Zeros(s[..n]);
    var p := NextAtLevel(s, needed, level);
    assert r[p] == level;
    AtMostLevel(s, n, level, r, m);
    FirstUncut(s, needed, level, m, p);
  }

  lemma GivingCuts(s: seq<nat>, needed: nat, level: nat, m: nat, k: nat)
    requires m < |s| && k < |s| && s[m] >= level && level >= 1
    requires Excess(s, level) + Count(s[..m], level) == needed
    ensures Cut(s, needed + 1, level, k) == if k == m then level - 1 else Cut(s, needed, level, k)
  {
    if k < m {
      RankGrows(s, level, k, m);
    } else if m < k {
      RankGrows(s, level, m, k);
    }
  }

  /** Once all who reach the level have given one more, they reach the level below. */
  lemma LevelDown(s: seq<nat>, needed: nat, level: nat, k: nat)
    requires level >= 2 && needed == Excess(s, level - 1) && k < |s|
    ensures Cut(s, needed, level, k) == Cut(s, needed, level - 1, k)
  {
    ExcessBelow(s, level);
    if s[k] >= level {
      RankGrows(s, level, k, |s|);
      assert s[..|s|] == s;
    }
  }

  lemma ZerosStep(s: seq<nat>, n: nat)
    requires n < |s|
    ensures Zeros(s[..n + 1]) == Zeros(s[..n]) + if s[n] == 0 then 1 else 0
  {
    assert s[..n + 1][..n] == s[..n];
  }

  lemma LevelAfter(s: seq<nat>, needed: nat, level: nat) returns (next: nat)
    requires IsLevel(s, needed, level) && level >= 2
    ensures IsLevel(s, needed + 1, next)
    ensures next == level || (next == level - 1 && needed + 1 == Excess(s, level - 1))
  {
    next := if needed + 1 < Excess(s, level - 1) then level else level - 1;
    if next == level - 1 {
      ExcessBelow(s, level);
      ExcessBelow(s, level - 1);
      CountFalls(s, level - 1, level);
    }
  }

  lemma CutAfter(s: seq<nat>, needed: nat, level: nat, next: nat, m: nat, k: nat)
    requires m < |s| && k < |s| && s[m] >= level && level >= 2
    requires Excess(s, level) + Count(s[..m], level) == needed
    requires next == level || (next == level - 1 && needed + 1 == Excess(s, level - 1))
    ensures Cut(s, needed + 1, next, k) == if k == m then level - 1 else Cut(s, needed, level, k)
  {
    GivingCuts(s, needed, level, m, k);
    if next == level - 1 {
      LevelDown(s, needed + 1, level, k);
    }
  }

  lemma CutGives(s: seq<nat>, n: nat, level: nat, r: seq<nat>) returns (next: nat)
    requires n < |s| && CutTo(s, n, level, r) && s[n] == 0 && r[ArgMax(r)] > 1
    ensures CutTo(s, n + 1, next, RepairedAt(r, n))
  {
    var m, needed := ArgMax(r), Zeros(s[..n]);
    GiverIs(s, n, level, r);
    ZerosStep(s, n);
    next := LevelAfter(s, needed, level);
    var r' := RepairedAt(r, n);
    assert r' == r[m := r[m] - 1][n := 1];
    forall k | 0 <= k < |s|
      ensures r'[k] == if s[k] == 0 then (if k < n + 1 then 1 else 0) else Cut(s, needed + 1, next, k)
    {
      CutAfter(s, needed, level, next, m, k);
    }
  }

  lemma FirstLevel(s: seq<nat>)
    requires s != [] && s[ArgMax(s)] > 0
    ensures CutTo(s, 0, s[ArgMax(s)], s)
  {
    var level := s[ArgMax(s)];
    NoExcess(s, level);
    ExcessBelow(s, level);
    RankGrows(s, level, ArgMax(s), |s|);
    assert s[..|s|] == s && s[..0] == [];
  }

  lemma {:induction false} NoShares(s: seq<nat>)
    requires forall k :: 0 <= k < |s| ==> s[k] == 0
    ensures Sum(s) == 0
  {
    if s != [] {
      NoShares(s[..|s| - 1]);
    }
  }

  lemma CutStep(s: seq<nat>, n: nat, level: nat, r: seq<nat>) returns (next: nat)
    requires n < |s| && CutTo(s, n, level, r) && Levelled(s, r, n) && Sum(r) >= |r|
    ensures CutTo(s, n + 1, next, RepairedAt(r, n))
  {
    assert Plausible(s[n], r[n], false);
    if s[n] == 0 {
      GiverHasTwo(s, r, n);
      next := CutGives(s, n, level, r);
    } else {
      ZerosStep(s, n);
      next := level;
    }
  }

  /** What the repair leaves after n turns. */
  lemma {:induction false} RepairCuts(s: seq<nat>, n: nat) returns (level: nat)
    requires n <= |s| && Sum(s) >= |s| > 0
    ensures CutTo(s, n, level, Repaired(s, n))
  {
    if n == 0 {
      if s[ArgMax(s)] == 0 {
        NoShares(s);
      }
      FirstLevel(s);
      return s[ArgMax(s)];
    }
    level := RepairCuts(s, n - 1);
    RepairLevels(s, n - 1);
    level := CutStep(s, n - 1, level, Repaired(s, n - 1));
  }

  lemma CutInverts(s: seq<nat>, level: nat, r: seq<nat>, i: nat, j: nat)
    requires CutTo(s, |s|, level, r) && Levelled(s, r, |s|) && i < |s| && j < |s| && s[i] >= s[j]
    ensures r[i] < r[j]
       <==> s[j] >= level && Excess(s, level) + Count(s[..i], level) < Zeros(s) <= Excess(s, level) + Count(s[..j], level)
  {
    assert s[..|s|] == s;
    assert Plausible(s[i], r[i], true) && Plausible(s[j], r[j], true);
    assert s[i] > 0 ==> r[i] == Cut(s, Zeros(s), level, i);
    assert s[j] > 0 ==> r[j] == Cut(s, Zeros(s), level, j);
  }

  /** When more memory gets fewer layers after all, in terms of the shares before the repair: exactly
      if the lesser node's share reaches the level, and the greater node is among the first such nodes
      that give one more while the lesser is not. */
  lemma InversionExactly(memory: seq<nat>, layers: nat, i: nat, j: nat, level: nat)
    requires Sum(memory) > 0 && layers >= |memory| && i < |memory| && j < |memory|
    requires memory[i] > memory[j] || (memory[i] == memory[j] && i < j)
    requires IsLevel(Shares(memory, layers), Zeros(Shares(memory, layers)), level)
    ensures var s := Shares(memory, layers);
            var more := Zeros(s) - Excess(s, level);
            Allocated(memory, layers)[i] < Allocated(memory, layers)[j]
            <==> s[j] >= level && Count(s[..i], level) < more <= Count(s[..j], level)
  {
    var s := Shares(memory, layers);
    SharesSum(memory, layers);
    var found := RepairCuts(s, |s|);
    assert s[..|s|] == s;
    SameLevel(s, Zeros(s), level, found);
    RepairLevels(s, |s|);
    SharesFollowMemory(memory, layers, i, j);
    CutInverts(s, level, Allocated(memory, layers), i, j);
  }

  /** There always is such a level. */
  lemma LevelExists(memory: seq<nat>, layers: nat) returns (level: nat)
    requires Sum(memory) > 0 && layers >= |memory|
    ensures IsLevel(Shares(memory, layers), Zeros(Shares(memory, layers)), level)
  {
    var s := Shares(memory, layers);
    SharesSum(memory, layers);
    level := RepairCuts(s, |s|);
    assert s[..|s|] == s;
  }

  // ---------------------------------------------------------------- the algorithm

  /** Each node's floored quota and what flooring cut off. */
  method Floor(layers: nat, memory: seq<nat>, total: nat) returns (result: seq<nat>, cut: seq<nat>)
    requires total > 0
    ensures result == Quotients(Scaled(memory, layers), total) && cut == Remainders(Scaled(memory, layers), total)
  {
    result, cut := [], [];
    for i := 0 to |memory|
      invariant result == Quotients(Scaled(memory[..i], layers), total)
      invariant cut == Remainders(Scaled(memory[..i], layers), total)
    {
      assert memory[..i + 1][..i] == memory[..i];
      var s := Scaled(memory[..i + 1], layers);
      assert s[..i] == Scaled(memory[..i], layers);
      result := result + [memory[i] * layers / total];
      cut := cut + [memory[i] * layers % total];
    }
    assert memory[..|memory|] == memory;
  }

  method HandOut(shares: seq<nat>, order: seq<nat>, left: nat) returns (result: seq<nat>)
    requires InRange(order, |shares|) && left <= |order|
    ensures result == Bumped(shares, order[..left])
  {
    result := shares;
    for i := 0 to left
      invariant result == Bumped(shares, order[..i])
    {
      assert order[..i + 1][..i] == order[..i];
      result := result[order[i] := result[order[i]] + 1];
    }
  }

  lemma GiverFound(shares: seq<nat>, i: nat)
    requires Sum(shares) >= |shares| && i < |shares|
    ensures var s := Repaired(shares, i); s[i] == 0 ==> s[ArgMax(s)] > 1
  {
    RepairLevels(shares, i);
    RepairStep(shares, Repaired(shares, i), i);
  }

  method RepairNode(shares: seq<nat>, i: nat) returns (result: seq<nat>)
    requires i < |shares| && (shares[i] == 0 ==> shares[ArgMax(shares)] > 1)
    ensures result == RepairedAt(shares, i)
  {
    result := shares;
    if result[i] == 0 {
      var m := ArgMax(result);
      assert result[m] > 1;
      result := result[m := result[m] - 1];
      result := result[i := 1];
    }
  }

  method Repair(shares: seq<nat>) returns (result: seq<nat>)
    requires Sum(shares) >= |shares|
    ensures result == Repaired(shares, |shares|)
  {
    result := shares;
    for i := 0 to |shares|
      invariant result == Repaired(shares, i)
    {
      GiverFound(shares, i);
      result := RepairNode(result, i);
    }
  }

  /** The fractions come from memories that sum to `total`, which the callers have found positive. */
  method AllocateProportionally(layers: nat, memory: seq<nat>) returns (r: Allotment)
    requires memory != [] ==> Sum(memory) > 0
    ensures memory == [] ==> r == NoNodes
    ensures memory != [] && layers < |memory| ==> r == TooFewLayers
    ensures memory != [] && layers >= |memory| ==> r == Layers(Allocated(memory, layers))
  {
    if |memory| == 0 {
      return NoNodes;
    }
    if layers < |memory| {
      return TooFewLayers;
    }
    var result, cut := Floor(layers, memory, Sum(memory));
    var byRemainder := ByRemainder(cut, |cut|);
    LeftInRange(memory, layers);
    SharesSum(memory, layers);
    result := HandOut(result, byRemainder, layers - Sum(result));
    result := Repair(result);
    r := Layers(result);
  }

  lemma SumOfThree(a: nat, b: nat, c: nat)
    ensures Sum([a, b, c]) == a + b + c
  {
    var one, two, three := [a], [a, b], [a, b, c];
    assert one[..0] == [] && two[..1] == one && three[..2] == two;
    assert Sum(one) == a;
    assert Sum(two) == a + b;
  }

  lemma ExampleChoice(m: seq<nat>)
    requires m == [50, 49, 1] && Sum(m) == 100
    ensures 0 <= Left(m, 4) <= |Order(m, 4)|
    ensures 2 in Order(m, 4)[..Left(m, 4)] ==> 1 in Order(m, 4)[..Left(m, 4)]
  {
    LeftInRange(m, 4);
    ScaledAt(m, 4, 100, 1);
    ScaledAt(m, 4, 100, 2);
    var rem, order := Remainders(Scaled(m, 4), 100), Order(m, 4);
    assert rem[1] == 96 && rem[2] == 4;
    ByRemainderOrdered(rem, 3);
    if 2 in order[..Left(m, 4)] {
      EarlierIsChosen(rem, order, Left(m, 4), 1, 2);
    }
  }

  lemma ExampleShare(m: seq<nat>, i: nat)
    requires m == [50, 49, 1] && Sum(m) == 100 && i < 3
    ensures i == 0 ==> Shares(m, 4)[i] == 2
    ensures i == 1 ==> 1 <= Shares(m, 4)[i] <= 2
    ensures i == 2 ==> 0 <= Shares(m, 4)[i] <= 1
  {
    SharesWithinQuota(m, 4, i);
  }

  lemma SharesOfExample(m: seq<nat>)
    requires m == [50, 49, 1] && Sum(m) == 100
    ensures Shares(m, 4) == [2, 2, 0]
  {
    var shares := Shares(m, 4);
    ExampleShare(m, 0);
    ExampleShare(m, 1);
    ExampleShare(m, 2);
    ExampleChoice(m);
    ShareAt(m, 4, 1);
    ShareAt(m, 4, 2);
    assert shares == [shares[0], shares[1], shares[2]];
    SharesSum(m, 4);
    SumOfThree(shares[0], shares[1], shares[2]);
  }

  /** Three nodes and four layers: the node with the most memory ends up with fewer than the second. */
  lemma RepairCanInvert()
    ensures Allocated([50, 49, 1], 4) == [1, 2, 1]
  {
    var m := [50, 49, 1];
    SumOfThree(50, 49, 1);
    SharesOfExample(m);
    var r1 := RepairedAt([2, 2, 0], 0);
    assert r1 == [2, 2, 0] && Repaired([2, 2, 0], 0) == [2, 2, 0];
    assert Repaired([2, 2, 0], 1) == r1;
    assert Repaired([2, 2, 0], 2) == [2, 2, 0];
    assert RepairedAt([2, 2, 0], 2) == [1, 2, 1];
  }
}
