/** Exactly when windows add up, for samples in the order of their times: several samples may carry
    the same time, as after two readings within one tick of the clock. */
module PowerWindows {
  import opened PowerSampler

  ghost predicate InOrder(s: seq<Sample>)
  {
    forall i, j :: 0 <= i < j < |s| ==> s[i].time <= s[j].time
  }

  /** Samples k to l are all those of one time. */
  ghost predicate RunAt(s: seq<Sample>, k: nat, l: nat)
  {
    && k <= l < |s| && s[k].time == s[l].time
    && (k == 0 || s[k - 1].time < s[k].time) && (l == |s| - 1 || s[l].time < s[l + 1].time)
  }

  /** The first and the last sample of every time show the same power. */
  ghost predicate RunsAgree(s: seq<Sample>)
  {
    forall k: nat, l: nat :: RunAt(s, k, l) ==> s[k].power == s[l].power
  }

  ghost predicate WindowsAddUp(s: seq<Sample>)
  {
    forall a, b, c :: a <= b <= c ==> EnergyRange(s, a, b) + EnergyRange(s, b, c) == EnergyRange(s, a, c)
  }

  // ---------------------------------------------------------------- the points of two windows that meet

  function SamplesAt(s: seq<Sample>, t: real): seq<Sample>
  {
    if s == [] then []
    else
      var last := s[|s| - 1];
      SamplesAt(s[..|s| - 1], t) + if last.time == t then [last] else []
  }

  lemma {:induction false} NoneFrom(s: seq<Sample>, t: real, end: real)
    requires forall i :: 0 <= i < |s| ==> s[i].time < t
    ensures SamplesAt(s, t) == [] && InRange(s, t, end) == []
  {
    if s != [] {
      NoneFrom(s[..|s| - 1], t, end);
    }
  }

  lemma {:induction false} NoneAfter(s: seq<Sample>, start: real, end: real)
    requires forall i :: 0 <= i < |s| ==> s[i].time <= start
    ensures InRange(s, start, end) == []
  {
    if s != [] {
      NoneAfter(s[..|s| - 1], start, end);
    }
  }

  lemma {:induction false} RangeSplits(s: seq<Sample>, a: real, b: real, c: real)
    requires InOrder(s) && a < b < c
    ensures InRange(s, a, c) == InRange(s, a, b) + SamplesAt(s, b) + InRange(s, b, c)
  {
    if s != [] {
      var front, last := s[..|s| - 1], s[|s| - 1];
      RangeSplits(front, a, b, c);
      if last.time < b {
        NoneFrom(front, b, c);
      } else if last.time == b {
        NoneAfter(front, b, c);
      }
    }
  }

  lemma AreaMeets(p: seq<Sample>, q: seq<Sample>)
    requires p != []
    ensures Area(p + q) == Area(p) + Area([p[|p| - 1]] + q)
  {
    AreaSplits(p + q, |p| - 1);
    assert (p + q)[..|p| - 1 + 1] == p;
    assert (p + q)[|p| - 1..] == [p[|p| - 1]] + q;
  }

  lemma Regroup(p: seq<Sample>, x: Sample, mid: seq<Sample>, z: Sample, rest: seq<Sample>)
    ensures p + mid + ([z] + rest) == p + (mid + ([z] + rest))
    ensures [x] + (mid + ([z] + rest)) == ([x] + mid + [z]) + rest
  {
  }

  lemma AreaOfParts(p: seq<Sample>, tail: seq<Sample>, front: seq<Sample>, rest: seq<Sample>)
    requires p != [] && front != [] && [p[|p| - 1]] + tail == front + rest
    ensures Area(p + tail) == Area(p) + Area(front) + Area([front[|front| - 1]] + rest)
  {
    AreaMeets(p, tail);
    AreaMeets(front, rest);
  }

  lemma AreaJoins(p: seq<Sample>, mid: seq<Sample>, z: Sample, rest: seq<Sample>)
    requires p != []
    ensures Area(p + mid + ([z] + rest)) == Area(p) + Area([p[|p| - 1]] + mid + [z]) + Area([z] + rest)
  {
    Regroup(p, p[|p| - 1], mid, z, rest);
    AreaOfParts(p, mid + ([z] + rest), [p[|p| - 1]] + mid + [z], rest);
  }

  lemma FirstAndRest(q: seq<Sample>)
    requires q != []
    ensures q == [q[0]] + q[1..]
  {
  }

  /** The last point before b of the window from a, and the first after b of the window to c. */
  function PointBefore(s: seq<Sample>, a: real, b: real): Sample
    requires s != []
  {
    var r := [Sample(a, PowerAt(s, a))] + InRange(s, a, b);
    r[|r| - 1]
  }

  function PointAfter(s: seq<Sample>, b: real, c: real): Sample
    requires s != []
  {
    (InRange(s, b, c) + [Sample(c, PowerAt(s, c))])[0]
  }

  ghost function PointsTo(s: seq<Sample>, a: real, b: real): seq<Sample>
    requires s != []
  {
    [Sample(a, PowerAt(s, a))] + InRange(s, a, b)
  }

  ghost function PointsFrom(s: seq<Sample>, b: real, c: real): seq<Sample>
    requires s != []
  {
    InRange(s, b, c) + [Sample(c, PowerAt(s, c))]
  }

  lemma WindowTo(s: seq<Sample>, a: real, b: real)
    requires s != []
    ensures Area(Window(s, a, b)) == Area(PointsTo(s, a, b)) + Trapezoid(PointBefore(s, a, b), Sample(b, PowerAt(s, b)))
  {
    AreaMeets(PointsTo(s, a, b), [Sample(b, PowerAt(s, b))]);
    assert [PointBefore(s, a, b)] + [Sample(b, PowerAt(s, b))] == [PointBefore(s, a, b), Sample(b, PowerAt(s, b))];
    AreaOfTwo(PointBefore(s, a, b), Sample(b, PowerAt(s, b)));
  }

  lemma WindowFrom(s: seq<Sample>, b: real, c: real)
    requires s != []
    ensures Area(Window(s, b, c)) == Trapezoid(Sample(b, PowerAt(s, b)), PointAfter(s, b, c)) + Area(PointsFrom(s, b, c))
  {
    var y, z, q := Sample(b, PowerAt(s, b)), PointAfter(s, b, c), PointsFrom(s, b, c);
    assert Window(s, b, c) == [y, z] + q[1..] && q == [z] + q[1..];
    AreaMeets([y, z], q[1..]);
    AreaOfTwo(y, z);
  }

  lemma WindowPoints(s: seq<Sample>, a: real, b: real, c: real)
    requires InOrder(s) && s != [] && a < b < c
    ensures Window(s, a, c) == PointsTo(s, a, b) + SamplesAt(s, b) + PointsFrom(s, b, c)
  {
    RangeSplits(s, a, b, c);
  }

  lemma WindowOver(s: seq<Sample>, a: real, b: real, c: real)
    requires InOrder(s) && s != [] && a < b < c
    ensures Area(Window(s, a, c)) == Area(PointsTo(s, a, b))
              + Area([PointBefore(s, a, b)] + SamplesAt(s, b) + [PointAfter(s, b, c)]) + Area(PointsFrom(s, b, c))
  {
    WindowPoints(s, a, b, c);
    var q := PointsFrom(s, b, c);
    FirstAndRest(q);
    AreaJoins(PointsTo(s, a, b), SamplesAt(s, b), q[0], q[1..]);
  }

  /** What one window has more than the two that meet at b depends on the points around b only. */
  lemma WindowsDiffer(s: seq<Sample>, a: real, b: real, c: real, x: Sample, y: Sample, z: Sample)
    requires InOrder(s) && s != [] && a < b < c
    requires x == PointBefore(s, a, b) && y == Sample(b, PowerAt(s, b)) && z == PointAfter(s, b, c)
    ensures Area(Window(s, a, c)) - Area(Window(s, a, b)) - Area(Window(s, b, c))
         == Area([x] + SamplesAt(s, b) + [z]) - Trapezoid(x, y) - Trapezoid(y, z)
  {
    WindowTo(s, a, b);
    WindowFrom(s, b, c);
    WindowOver(s, a, b, c);
  }

  lemma {:induction false} RangeWithin(s: seq<Sample>, start: real, end: real)
    ensures forall i :: 0 <= i < |InRange(s, start, end)| ==> start < InRange(s, start, end)[i].time < end
  {
    if s != [] {
      RangeWithin(s[..|s| - 1], start, end);
    }
  }

  lemma PointsAround(s: seq<Sample>, a: real, b: real, c: real)
    requires s != [] && a < b < c
    ensures PointBefore(s, a, b).time < b < PointAfter(s, b, c).time
  {
    RangeWithin(s, a, b);
    RangeWithin(s, b, c);
  }

  // ---------------------------------------------------------------- windows that meet at a sample

  lemma {:induction false} RunStart(s: seq<Sample>, i: nat) returns (k: nat)
    requires InOrder(s) && i < |s|
    ensures k <= i && s[k].time == s[i].time && (k == 0 || s[k - 1].time < s[k].time)
  {
    if i == 0 || s[i - 1].time < s[i].time {
      return i;
    }
    k := RunStart(s, i - 1);
  }

  lemma {:induction false} RunEnd(s: seq<Sample>, i: nat) returns (l: nat)
    requires InOrder(s) && i < |s|
    ensures i <= l < |s| && s[l].time == s[i].time && (l == |s| - 1 || s[l].time < s[l + 1].time)
    decreases |s| - i
  {
    if i == |s| - 1 || s[i].time < s[i + 1].time {
      return i;
    }
    l := RunEnd(s, i + 1);
  }

  lemma {:induction false} SamplesAtRun(s: seq<Sample>, k: nat, l: nat)
    requires InOrder(s) && RunAt(s, k, l)
    ensures SamplesAt(s, s[k].time) == s[k..l + 1]
    decreases |s|
  {
    var front, t := s[..|s| - 1], s[k].time;
    if l < |s| - 1 {
      assert s[l + 1].time <= s[|s| - 1].time;
      SamplesAtRun(front, k, l);
      assert front[k..l + 1] == s[k..l + 1];
    } else if k < l {
      assert s[l - 1].time == t;
      SamplesAtRun(front, k, l - 1);
      assert s[k..l + 1] == front[k..l] + [s[l]];
    } else {
      NoneFrom(front, t, t);
      assert s[k..l + 1] == [s[l]];
    }
  }

  lemma {:induction false} SamplesAtNone(s: seq<Sample>, t: real)
    ensures SamplesAt(s, t) == [] <==> forall i :: 0 <= i < |s| ==> s[i].time != t
  {
    if s != [] {
      SamplesAtNone(s[..|s| - 1], t);
    }
  }

  /** Where to look for the power at a time between two samples of different times. */
  lemma {:induction false} ScanLands(s: seq<Sample>, t: real, i: nat, from: nat)
    requires InOrder(s) && 1 <= from <= i + 1 < |s| && s[i].time < t <= s[i + 1].time
    ensures Scan(s, t, from) == Between(s[i], s[i + 1], t)
    decreases |s| - from
  {
    if from < i + 1 {
      assert s[from].time <= s[i].time;
      ScanLands(s, t, i, from + 1);
    }
  }

  /** The power at the time of a run is that of its first or its last sample. */
  lemma PowerAtRun(s: seq<Sample>, k: nat, l: nat)
    requires InOrder(s) && RunAt(s, k, l)
    ensures PowerAt(s, s[k].time) == s[k].power || PowerAt(s, s[k].time) == s[l].power
  {
    if k > 0 {
      assert s[0].time <= s[k - 1].time;
      if l < |s| - 1 {
        assert s[l + 1].time <= s[|s| - 1].time;
        ScanLands(s, s[k].time, k - 1, 1);
        AtTheEnds(s[k - 1], s[k]);
      }
    }
  }

  lemma {:induction false} FlatArea(x: Sample, run: seq<Sample>, t: real)
    requires run != [] && forall i :: 0 <= i < |run| ==> run[i].time == t
    ensures Area([x] + run) == Trapezoid(x, run[0])
  {
    var all := [x] + run;
    if |run| == 1 {
      AreaOfTwo(x, run[0]);
      assert all == [x, run[0]];
    } else {
      assert all[..|all| - 1] == [x] + run[..|run| - 1];
      FlatArea(x, run[..|run| - 1], t);
    }
  }

  /** Nothing is added within a run. */
  lemma {:induction false} RunArea(x: Sample, run: seq<Sample>, z: Sample, t: real)
    requires run != [] && forall i :: 0 <= i < |run| ==> run[i].time == t
    ensures Area([x] + run + [z]) == Trapezoid(x, run[0]) + Trapezoid(run[|run| - 1], z)
  {
    var all := [x] + run + [z];
    AreaSplits(all, |run|);
    assert all[|run|..] == [run[|run| - 1], z];
    AreaOfTwo(run[|run| - 1], z);
    assert all[..|run| + 1] == [x] + run;
    FlatArea(x, run, t);
  }

  lemma TrapezoidChange(x: Sample, y: Sample, power: real)
    requires x.time < y.time
    ensures Trapezoid(x, y.(power := power)) - Trapezoid(x, y) == (power - y.power) / 2.0 * (y.time - x.time)
    ensures Trapezoid(x.(power := power), y) - Trapezoid(x, y) == (power - x.power) / 2.0 * (y.time - x.time)
  {
    var dt := y.time - x.time;
    assert (x.power + power) / 2.0 * dt - (x.power + y.power) / 2.0 * dt == (power - y.power) / 2.0 * dt;
    assert (power + y.power) / 2.0 * dt - (x.power + y.power) / 2.0 * dt == (power - x.power) / 2.0 * dt;
  }

  lemma DifferenceAtRun(x: Sample, y: Sample, z: Sample, first: Sample, last: Sample)
    requires x.time < y.time < z.time && first.time == last.time == y.time
    requires y.power == first.power || y.power == last.power
    ensures Trapezoid(x, first) + Trapezoid(last, z) == Trapezoid(x, y) + Trapezoid(y, z) <==> first.power == last.power
  {
    TrapezoidChange(x, y, first.power);
    TrapezoidChange(y, z, last.power);
    assert y.(power := first.power) == first && y.(power := last.power) == last;
    var left, right := (first.power - y.power) / 2.0 * (y.time - x.time), (last.power - y.power) / 2.0 * (z.time - y.time);
    assert left == 0.0 <==> first.power == y.power;
    assert right == 0.0 <==> last.power == y.power;
  }

  lemma AreaAtRun(s: seq<Sample>, k: nat, l: nat, x: Sample, z: Sample)
    requires InOrder(s) && RunAt(s, k, l)
    ensures Area([x] + SamplesAt(s, s[k].time) + [z]) == Trapezoid(x, s[k]) + Trapezoid(s[l], z)
  {
    SamplesAtRun(s, k, l);
    var run := s[k..l + 1];
    forall i | 0 <= i < |run| ensures run[i].time == s[k].time {
      assert s[k].time <= s[k + i].time <= s[l].time;
    }
    RunArea(x, run, z, s[k].time);
  }

  /** Two windows that meet at the time of a run add up if and only if the run's ends agree. */
  lemma AddAtRun(s: seq<Sample>, k: nat, l: nat, a: real, c: real)
    requires InOrder(s) && RunAt(s, k, l) && a < s[k].time < c
    ensures Area(Window(s, a, s[k].time)) + Area(Window(s, s[k].time, c)) == Area(Window(s, a, c))
       <==> s[k].power == s[l].power
  {
    var b := s[k].time;
    var x, y, z := PointBefore(s, a, b), Sample(b, PowerAt(s, b)), PointAfter(s, b, c);
    WindowsDiffer(s, a, b, c, x, y, z);
    PointsAround(s, a, b, c);
    AreaAtRun(s, k, l, x, z);
    PowerAtRun(s, k, l);
    DifferenceAtRun(x, y, z, s[k], s[l]);
  }

  // ---------------------------------------------------------------- windows that meet between samples

  /** With agreeing runs the power between two samples of different times, ends included, is on
      the line through them. */
  lemma PowerInside(s: seq<Sample>, t: real, i: nat)
    requires InOrder(s) && RunsAgree(s) && i + 1 < |s| && s[i].time < s[i + 1].time && s[i].time <= t <= s[i + 1].time
    ensures PowerAt(s, t) == Between(s[i], s[i + 1], t)
  {
    AtTheEnds(s[i], s[i + 1]);
    if t == s[i].time {
      var k := RunStart(s, i);
      assert RunAt(s, k, i);
      PowerAtRun(s, k, i);
    } else if t == s[i + 1].time {
      var l := RunEnd(s, i + 1);
      assert RunAt(s, i + 1, l);
      PowerAtRun(s, i + 1, l);
    } else {
      assert s[0].time <= s[i].time && s[i + 1].time <= s[|s| - 1].time;
      ScanLands(s, t, i, 1);
    }
  }

  lemma PowerOutside(s: seq<Sample>, t: real)
    requires InOrder(s) && RunsAgree(s) && s != []
    ensures t <= s[0].time ==> PowerAt(s, t) == s[0].power
    ensures t >= s[|s| - 1].time ==> PowerAt(s, t) == s[|s| - 1].power
  {
    assert |s| > 1 ==> s[0].time <= s[|s| - 1].time;
    if |s| > 1 && s[0].time == s[|s| - 1].time {
      assert RunAt(s, 0, |s| - 1);
    }
  }

  lemma {:induction false} LastInRange(s: seq<Sample>, a: real, b: real, i: nat)
    requires InOrder(s) && i < |s| && s[i].time < b && forall j :: i < j < |s| ==> s[j].time >= b
    ensures var r := InRange(s, a, b); if a < s[i].time then r != [] && r[|r| - 1] == s[i] else r == []
    decreases |s|
  {
    if i < |s| - 1 {
      LastInRange(s[..|s| - 1], a, b, i);
    } else if s[i].time <= a {
      NoneAfter(s[..i], a, b);
    }
  }

  lemma {:induction false} LastBefore(s: seq<Sample>, a: real, b: real, i: nat)
    requires InOrder(s) && i < |s| && s[i].time < b && forall j :: i < j < |s| ==> s[j].time >= b
    ensures PointBefore(s, a, b) == if a < s[i].time then s[i] else Sample(a, PowerAt(s, a))
  {
    LastInRange(s, a, b, i);
  }

  lemma {:induction false} FirstInRange(s: seq<Sample>, b: real, c: real, j: nat)
    requires InOrder(s) && j < |s| && b < s[j].time && forall i :: 0 <= i < j ==> s[i].time <= b
    ensures var r := InRange(s, b, c); if s[j].time < c then r != [] && r[0] == s[j] else r == []
    decreases |s|
  {
    if j < |s| - 1 {
      assert s[j].time <= s[|s| - 1].time;
      FirstInRange(s[..|s| - 1], b, c, j);
    } else {
      NoneAfter(s[..j], b, c);
    }
  }

  /** Three points on one line. */
  lemma LineSplits(u: Sample, v: Sample, x: Sample, y: Sample, z: Sample)
    requires u.time < v.time && x.time < y.time < z.time <= v.time
    requires x.power == Between(u, v, x.time) && y.power == Between(u, v, y.time) && z.power == Between(u, v, z.time)
    ensures Trapezoid(x, z) == Trapezoid(x, y) + Trapezoid(y, z)
  {
    TailInside(u, v, x, y);
    TailInside(u, v, y, z);
    TailInside(u, v, x, z);
  }

  lemma LevelSplits(x: Sample, y: Sample, z: Sample)
    requires x.time < y.time < z.time && x.power == y.power == z.power
    ensures Trapezoid(x, z) == Trapezoid(x, y) + Trapezoid(y, z)
  {
    var p := x.power;
    assert p * (z.time - x.time) == p * (y.time - x.time) + p * (z.time - y.time);
  }

  /** The points around b, when b is between the samples i and i + 1. */
  lemma LineInside(s: seq<Sample>, a: real, b: real, c: real, i: nat)
    requires InOrder(s) && RunsAgree(s) && i + 1 < |s| && s[i].time < b < s[i + 1].time && a < b < c
    ensures var x, y, z := PointBefore(s, a, b), Sample(b, PowerAt(s, b)), PointAfter(s, b, c);
            Trapezoid(x, z) == Trapezoid(x, y) + Trapezoid(y, z)
  {
    var u, v := s[i], s[i + 1];
    var x, y, z := PointBefore(s, a, b), Sample(b, PowerAt(s, b)), PointAfter(s, b, c);
    LastBefore(s, a, b, i);
    FirstInRange(s, b, c, i + 1);
    AtTheEnds(u, v);
    if u.time <= a {
      PowerInside(s, a, i);
    }
    if c <= v.time {
      PowerInside(s, c, i);
    }
    PowerInside(s, b, i);
    LineSplits(u, v, x, y, z);
  }

  lemma {:induction false} NothingBefore(s: seq<Sample>, a: real, b: real)
    requires forall i :: 0 <= i < |s| ==> b <= s[i].time
    ensures InRange(s, a, b) == []
  {
    if s != [] {
      NothingBefore(s[..|s| - 1], a, b);
    }
  }

  lemma LineBefore(s: seq<Sample>, a: real, b: real, c: real)
    requires InOrder(s) && RunsAgree(s) && s != [] && a < b < c && b < s[0].time
    ensures var x, y, z := PointBefore(s, a, b), Sample(b, PowerAt(s, b)), PointAfter(s, b, c);
            Trapezoid(x, z) == Trapezoid(x, y) + Trapezoid(y, z)
  {
    FirstInRange(s, b, c, 0);
    NothingBefore(s, a, b);
    PowerOutside(s, c);
    LevelSplits(PointBefore(s, a, b), Sample(b, PowerAt(s, b)), PointAfter(s, b, c));
  }

  lemma LineBeyond(s: seq<Sample>, a: real, b: real, c: real)
    requires InOrder(s) && RunsAgree(s) && s != [] && a < b < c && b > s[|s| - 1].time
    ensures var x, y, z := PointBefore(s, a, b), Sample(b, PowerAt(s, b)), PointAfter(s, b, c);
            Trapezoid(x, z) == Trapezoid(x, y) + Trapezoid(y, z)
  {
    LastBefore(s, a, b, |s| - 1);
    NoneAfter(s, b, c);
    PowerOutside(s, a);
    PowerOutside(s, b);
    PowerOutside(s, c);
    LevelSplits(PointBefore(s, a, b), Sample(b, PowerAt(s, b)), PointAfter(s, b, c));
  }

  /** The last sample before b. */
  lemma {:induction false} Position(s: seq<Sample>, b: real) returns (i: nat)
    requires InOrder(s) && s != [] && s[0].time < b && forall j :: 0 <= j < |s| ==> s[j].time != b
    ensures i < |s| && s[i].time < b && (i + 1 < |s| ==> b < s[i + 1].time)
  {
    if s[|s| - 1].time < b {
      return |s| - 1;
    }
    i := Position(s[..|s| - 1], b);
  }

  lemma AddBetween(s: seq<Sample>, a: real, b: real, c: real)
    requires InOrder(s) && RunsAgree(s) && s != [] && a < b < c && forall j :: 0 <= j < |s| ==> s[j].time != b
    ensures Area(Window(s, a, b)) + Area(Window(s, b, c)) == Area(Window(s, a, c))
  {
    var x, y, z := PointBefore(s, a, b), Sample(b, PowerAt(s, b)), PointAfter(s, b, c);
    if b < s[0].time {
      LineBefore(s, a, b, c);
    } else if s[|s| - 1].time < b {
      LineBeyond(s, a, b, c);
    } else {
      var i := Position(s, b);
      LineInside(s, a, b, c, i);
    }
    WindowsDiffer(s, a, b, c, x, y, z);
    SamplesAtNone(s, b);
    assert [x] + [] + [z] == [x, z];
    AreaOfTwo(x, z);
  }

  // ---------------------------------------------------------------- exactly when they add up

  lemma WindowIsRange(s: seq<Sample>, a: real, b: real)
    requires s != [] && a < b
    ensures EnergyRange(s, a, b) == Area(Window(s, a, b))
  {
    if |s| == 1 {
      LevelWindow(s, a, b);
    }
  }

  lemma WindowsMeet(s: seq<Sample>, a: real, b: real, c: real)
    requires InOrder(s) && RunsAgree(s) && s != [] && a < b < c
    ensures Area(Window(s, a, b)) + Area(Window(s, b, c)) == Area(Window(s, a, c))
  {
    if i :| 0 <= i < |s| && s[i].time == b {
      var k := RunStart(s, i);
      var l := RunEnd(s, i);
      assert RunAt(s, k, l);
      AddAtRun(s, k, l, a, c);
    } else {
      AddBetween(s, a, b, c);
    }
  }

  lemma AddIfAgree(s: seq<Sample>, a: real, b: real, c: real)
    requires InOrder(s) && RunsAgree(s) && s != [] && a < b < c
    ensures EnergyRange(s, a, b) + EnergyRange(s, b, c) == EnergyRange(s, a, c)
  {
    WindowsMeet(s, a, b, c);
    WindowIsRange(s, a, b);
    WindowIsRange(s, b, c);
    WindowIsRange(s, a, c);
  }

  lemma AgreeIfAdd(s: seq<Sample>, k: nat, l: nat)
    requires InOrder(s) && WindowsAddUp(s) && RunAt(s, k, l)
    ensures s[k].power == s[l].power
  {
    var a, b, c := s[k].time - 1.0, s[k].time, s[k].time + 1.0;
    AddAtRun(s, k, l, a, c);
    WindowIsRange(s, a, b);
    WindowIsRange(s, b, c);
    WindowIsRange(s, a, c);
    assert EnergyRange(s, a, b) + EnergyRange(s, b, c) == EnergyRange(s, a, c);
  }

  /** Of samples in the order of their times, windows that meet add up, wherever they meet, if and
      only if the first and the last sample of every time show the same power. */
  lemma WindowsAddExactly(s: seq<Sample>)
    requires InOrder(s)
    ensures WindowsAddUp(s) <==> RunsAgree(s)
  {
    if RunsAgree(s) && s != [] {
      forall a, b, c | a <= b <= c ensures EnergyRange(s, a, b) + EnergyRange(s, b, c) == EnergyRange(s, a, c) {
        if a < b < c {
          AddIfAgree(s, a, b, c);
        }
      }
    }
    if WindowsAddUp(s) {
      forall k: nat, l: nat | RunAt(s, k, l) ensures s[k].power == s[l].power {
        AgreeIfAdd(s, k, l);
      }
    }
  }
}
