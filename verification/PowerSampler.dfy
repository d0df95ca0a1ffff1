/** Energy from power samples: the trapezoidal rule over all samples, and over a window whose ends
    may fall between samples. Times and powers are exact numbers. */
module PowerSampler {
  import opened Common

  datatype Sample = Sample(time: real, power: real)

  ghost predicate Increasing(s: seq<Sample>)
  {
    forall i, j :: 0 <= i < j < |s| ==> s[i].time < s[j].time
  }

  // ---------------------------------------------------------------- the rule

  function Trapezoid(a: Sample, b: Sample): real
  {
    if b.time - a.time <= 0.0 then 0.0 else (a.power + b.power) / 2.0 * (b.time - a.time)
  }

  /** The sum over neighbouring points; a step back or in place in time adds nothing. */
  function Area(q: seq<Sample>): real
  {
    if |q| < 2 then 0.0 else Area(q[..|q| - 1]) + Trapezoid(q[|q| - 2], q[|q| - 1])
  }

  method SumTrapezoids(q: seq<Sample>) returns (energy: real)
    requires q != []
    ensures energy == Area(q)
  {
    energy := 0.0;
    for i := 1 to |q|
      invariant energy == Area(q[..i])
    {
      assert q[..i + 1][..i] == q[..i];
      var dt := q[i].time - q[i - 1].time;
      if dt <= 0.0 {
        continue;
      }
      energy := energy + (q[i - 1].power + q[i].power) / 2.0 * dt;
    }
    assert q[..|q|] == q;
  }

  method TrapezoidalEnergy(samples: seq<Sample>, elapsed: real) returns (energy: real)
    requires samples != []
    ensures energy == if |samples| == 1 then samples[0].power * elapsed else Area(samples)
  {
    if |samples| == 1 {
      return samples[0].power * elapsed;
    }
    energy := SumTrapezoids(samples);
  }

  // ---------------------------------------------------------------- a window

  function Between(prev: Sample, cur: Sample, t: real): real
  {
    var span := cur.time - prev.time;
    if span <= 0.0 then cur.power
    else prev.power + (t - prev.time) / span * (cur.power - prev.power)
  }

  /** The scan for the first sample from index i on that is not before t. */
  function Scan(s: seq<Sample>, t: real, i: nat): real
    requires 1 <= i <= |s|
    decreases |s| - i
  {
    if i == |s| then s[|s| - 1].power
    else if s[i].time >= t then Between(s[i - 1], s[i], t)
    else Scan(s, t, i + 1)
  }

  function PowerAt(s: seq<Sample>, t: real): real
    requires s != []
  {
    if t <= s[0].time then s[0].power
    else if t >= s[|s| - 1].time then s[|s| - 1].power
    else Scan(s, t, 1)
  }

  function InRange(s: seq<Sample>, start: real, end: real): (r: seq<Sample>)
  {
    if s == [] then []
    else
      var last := s[|s| - 1];
      InRange(s[..|s| - 1], start, end) + if start < last.time < end then [last] else []
  }

  function Window(s: seq<Sample>, start: real, end: real): seq<Sample>
    requires s != []
  {
    [Sample(start, PowerAt(s, start))] + InRange(s, start, end) + [Sample(end, PowerAt(s, end))]
  }

  function EnergyRange(s: seq<Sample>, start: real, end: real): real
  {
    if end <= start || s == [] then 0.0
    else if |s| == 1 then s[0].power * (end - start)
    else Area(Window(s, start, end))
  }

  method TrapezoidalEnergyRange(s: seq<Sample>, start: real, end: real) returns (energy: real)
    ensures energy == EnergyRange(s, start, end)
  {
    if end <= start {
      return 0.0;
    }
    if |s| == 0 {
      return 0.0;
    }
    if |s| == 1 {
      return s[0].power * (end - start);
    }
    var first, last := PowerAt(s, start), PowerAt(s, end);
    var points := [Sample(start, first)] + InRange(s, start, end) + [Sample(end, last)];
    energy := SumTrapezoids(points);
  }

  // ---------------------------------------------------------------- the exact integral

  /** The integral from the first sample to t of the power drawn as straight lines between samples
      and level before the first and after the last. */
  ghost function Integral(s: seq<Sample>, t: real): real
    requires s != []
  {
    if |s| == 1 then s[0].power * (t - s[0].time)
    else
      var u, v := s[|s| - 2], s[|s| - 1];
      var front := s[..|s| - 1];
      if t <= u.time then Integral(front, t)
      else if t <= v.time then Integral(front, u.time) + (u.power + Between(u, v, t)) / 2.0 * (t - u.time)
      else Integral(front, u.time) + Trapezoid(u, v) + v.power * (t - v.time)
  }

  lemma {:induction false} ScanShorter(s: seq<Sample>, t: real, i: nat)
    requires Increasing(s) && |s| >= 2 && 1 <= i <= |s| - 2 && t < s[|s| - 2].time
    ensures Scan(s, t, i) == Scan(s[..|s| - 1], t, i)
    decreases |s| - i
  {
    if s[i].time < t {
      ScanShorter(s, t, i + 1);
    }
  }

  lemma {:induction false} ScanReaches(s: seq<Sample>, t: real, i: nat)
    requires Increasing(s) && 1 <= i < |s| && s[|s| - 2].time < t <= s[|s| - 1].time
    ensures Scan(s, t, i) == Between(s[|s| - 2], s[|s| - 1], t)
    decreases |s| - i
  {
    if i < |s| - 1 {
      assert s[i].time <= s[|s| - 2].time;
      ScanReaches(s, t, i + 1);
    }
  }

  lemma AtTheEnds(u: Sample, v: Sample)
    requires u.time < v.time
    ensures Between(u, v, v.time) == v.power && Between(u, v, u.time) == u.power
  {
    var span := v.time - u.time;
    assert span / span == 1.0 && 0.0 / span == 0.0;
  }

  lemma {:induction false} ScanHits(s: seq<Sample>, k: nat, i: nat)
    requires Increasing(s) && 1 <= i <= k < |s|
    ensures Scan(s, s[k].time, i) == s[k].power
    decreases |s| - i
  {
    if i < k {
      ScanHits(s, k, i + 1);
    } else {
      AtTheEnds(s[k - 1], s[k]);
    }
  }

  /** The drawn power at t only depends on the samples around t. */
  lemma PowerShorter(s: seq<Sample>, t: real)
    requires Increasing(s) && |s| >= 2 && t <= s[|s| - 2].time
    ensures PowerAt(s, t) == PowerAt(s[..|s| - 1], t)
  {
    var front := s[..|s| - 1];
    if t > s[0].time {
      assert s[|s| - 2].time < s[|s| - 1].time;
      if t < s[|s| - 2].time {
        ScanShorter(s, t, 1);
      } else {
        ScanHits(s, |s| - 2, 1);
      }
    }
  }

  /** The height of the line through u and v, level after v. */
  ghost function Height(u: Sample, v: Sample, t: real): real
  {
    if t <= v.time then Between(u, v, t) else v.power
  }

  lemma PowerInLast(s: seq<Sample>, t: real)
    requires Increasing(s) && |s| >= 2 && s[|s| - 2].time <= t
    ensures PowerAt(s, t) == Height(s[|s| - 2], s[|s| - 1], t)
  {
    var u, v := s[|s| - 2], s[|s| - 1];
    AtTheEnds(u, v);
    assert s[0].time <= u.time < v.time;
    if u.time < t < v.time {
      ScanReaches(s, t, 1);
    } else if t == u.time && |s| > 2 {
      ScanHits(s, |s| - 2, 1);
    }
  }

  // ---------------------------------------------------------------- a window is a difference

  /** On one straight line the trapezoids add up. */
  lemma LineAdds(p: real, slope: real, x: real, y: real)
    ensures ((p + slope * x) + (p + slope * y)) / 2.0 * (y - x)
         == (p + (p + slope * y)) / 2.0 * y - (p + (p + slope * x)) / 2.0 * x
  {
    var a, b := slope * x, slope * y;
    assert a * y == b * x;
    assert (2.0 * p + a + b) * (y - x) == 2.0 * p * y + a * y + b * y - 2.0 * p * x - a * x - b * x;
  }

  lemma BetweenLine(u: Sample, v: Sample, t: real)
    requires u.time < v.time
    ensures Between(u, v, t) == u.power + (v.power - u.power) / (v.time - u.time) * (t - u.time)
  {
    var span, rise, run := v.time - u.time, v.power - u.power, t - u.time;
    assert run / span * rise == rise / span * run;
  }

  lemma SegmentAdds(u: Sample, v: Sample, a: real, b: real)
    requires u.time < v.time
    ensures (Between(u, v, a) + Between(u, v, b)) / 2.0 * (b - a)
         == (u.power + Between(u, v, b)) / 2.0 * (b - u.time) - (u.power + Between(u, v, a)) / 2.0 * (a - u.time)
  {
    BetweenLine(u, v, a);
    BetweenLine(u, v, b);
    LineAdds(u.power, (v.power - u.power) / (v.time - u.time), a - u.time, b - u.time);
  }

  lemma {:induction false} AreaSplits(q: seq<Sample>, m: nat)
    requires m < |q|
    ensures Area(q) == Area(q[..m + 1]) + Area(q[m..])
  {
    if m + 1 == |q| {
      assert q[..m + 1] == q;
    } else {
      var front := q[..|q| - 1];
      AreaSplits(front, m);
      assert front[..m + 1] == q[..m + 1];
      assert q[m..][..|q| - m - 1] == front[m..];
    }
  }

  lemma AreaOfTwo(a: Sample, b: Sample)
    ensures Area([a, b]) == Trapezoid(a, b)
  {
    assert [a, b][..1] == [a];
  }

  lemma AreaOfThree(a: Sample, b: Sample, c: Sample)
    ensures Area([a, b, c]) == Trapezoid(a, b) + Trapezoid(b, c)
  {
    assert [a, b, c][..2] == [a, b];
    AreaOfTwo(a, b);
  }

  lemma {:induction false} InRangeBelow(s: seq<Sample>, start: real, end: real, other: real)
    requires forall i :: 0 <= i < |s| ==> s[i].time < end && s[i].time < other
    ensures InRange(s, start, end) == InRange(s, start, other)
  {
    if s != [] {
      InRangeBelow(s[..|s| - 1], start, end, other);
    }
  }

  lemma {:induction false} InRangeNone(s: seq<Sample>, start: real, end: real)
    requires forall i :: 0 <= i < |s| ==> s[i].time <= start
    ensures InRange(s, start, end) == []
  {
    if s != [] {
      InRangeNone(s[..|s| - 1], start, end);
    }
  }

  /** A window of a single sample is level. */
  lemma LevelWindow(s: seq<Sample>, a: real, b: real)
    requires |s| == 1 && a < b
    ensures Area(Window(s, a, b)) == Integral(s, b) - Integral(s, a) == s[0].power * (b - a)
  {
    var p, t := s[0].power, s[0].time;
    var x, y := Sample(a, p), Sample(b, p);
    assert s[..0] == [] && InRange(s[..0], a, b) == [];
    assert InRange(s, a, b) == if a < t < b then [s[0]] else [];
    if a < t < b {
      assert Window(s, a, b) == [x, s[0], y];
      AreaOfThree(x, s[0], y);
      assert p * (t - a) + p * (b - t) == p * (b - a);
    } else {
      assert Window(s, a, b) == [x, y];
      AreaOfTwo(x, y);
    }
    assert p * (b - t) - p * (a - t) == p * (b - a);
  }

  lemma LastWindowPoints(s: seq<Sample>, a: real, b: real)
    requires Increasing(s) && |s| >= 2 && s[|s| - 2].time <= a < b
    ensures var v := s[|s| - 1];
            var x, y := Sample(a, PowerAt(s, a)), Sample(b, PowerAt(s, b));
            Window(s, a, b) == if a < v.time < b then [x, v, y] else [x, y]
  {
    var front := s[..|s| - 1];
    assert s[|s| - 2].time < s[|s| - 1].time;
    InRangeNone(front, a, b);
    assert InRange(s, a, b) == InRange(front, a, b) + if a < s[|s| - 1].time < b then [s[|s| - 1]] else [];
  }

  ghost function Tail(u: Sample, v: Sample, t: real): real
  {
    if t <= v.time then (u.power + Between(u, v, t)) / 2.0 * (t - u.time)
    else Trapezoid(u, v) + v.power * (t - v.time)
  }

  lemma TailInside(u: Sample, v: Sample, x: Sample, y: Sample)
    requires u.time < v.time && x.time < y.time <= v.time
    requires x.power == Between(u, v, x.time) && y.power == Between(u, v, y.time)
    ensures Trapezoid(x, y) == Tail(u, v, y.time) - Tail(u, v, x.time)
  {
    SegmentAdds(u, v, x.time, y.time);
  }

  lemma TailBeyond(u: Sample, v: Sample, t: real)
    requires u.time < v.time <= t
    ensures Height(u, v, t) == v.power && Tail(u, v, t) == Trapezoid(u, v) + v.power * (t - v.time)
  {
    AtTheEnds(u, v);
  }

  lemma LevelTrapezoid(x: Sample, y: Sample, v: Sample)
    requires x.time < y.time && x.power == y.power == v.power
    ensures Trapezoid(x, y) == v.power * (y.time - v.time) - v.power * (x.time - v.time)
  {
    var p, dx, dy := v.power, x.time - v.time, y.time - v.time;
    assert p * dy - p * dx == p * (dy - dx);
  }

  lemma TailArea(u: Sample, v: Sample, x: Sample, y: Sample)
    requires u.time < v.time && u.time <= x.time < y.time
    requires x.power == Height(u, v, x.time) && y.power == Height(u, v, y.time)
    ensures (if x.time < v.time < y.time then Trapezoid(x, v) + Trapezoid(v, y) else Trapezoid(x, y))
         == Tail(u, v, y.time) - Tail(u, v, x.time)
  {
    if y.time <= v.time {
      TailInside(u, v, x, y);
    } else {
      TailBeyond(u, v, y.time);
      TailBeyond(u, v, v.time);
      if x.time < v.time {
        TailInside(u, v, x, v);
        LevelTrapezoid(v, y, v);
      } else {
        TailBeyond(u, v, x.time);
        LevelTrapezoid(x, y, v);
      }
    }
  }

  lemma TailStarts(u: Sample, v: Sample)
    requires u.time < v.time
    ensures Tail(u, v, u.time) == 0.0
  {
    AtTheEnds(u, v);
  }

  lemma IntegralInLast(s: seq<Sample>, t: real)
    requires Increasing(s) && |s| >= 2 && s[|s| - 2].time <= t
    ensures Integral(s, t) == Integral(s[..|s| - 1], s[|s| - 2].time) + Tail(s[|s| - 2], s[|s| - 1], t)
  {
    TailStarts(s[|s| - 2], s[|s| - 1]);
  }

  /** A window that starts at or after the last sample but one. */
  lemma LastWindow(s: seq<Sample>, a: real, b: real)
    requires Increasing(s) && |s| >= 2 && s[|s| - 2].time <= a < b
    ensures Area(Window(s, a, b)) == Integral(s, b) - Integral(s, a)
  {
    var u, v := s[|s| - 2], s[|s| - 1];
    assert u.time < v.time;
    LastWindowPoints(s, a, b);
    PowerInLast(s, a);
    PowerInLast(s, b);
    IntegralInLast(s, a);
    IntegralInLast(s, b);
    var x, y := Sample(a, PowerAt(s, a)), Sample(b, PowerAt(s, b));
    AreaOfTwo(x, y);
    AreaOfThree(x, v, y);
    TailArea(u, v, x, y);
  }

  lemma {:induction false} InRangeSplit(s: seq<Sample>, a: real, b: real)
    requires Increasing(s) && |s| >= 2 && a < s[|s| - 2].time < b
    ensures var u, v := s[|s| - 2], s[|s| - 1];
            InRange(s, a, b) == InRange(s[..|s| - 1], a, u.time) + [u] + if v.time < b then [v] else []
  {
    var u, v := s[|s| - 2], s[|s| - 1];
    var front := s[..|s| - 1];
    var rest := front[..|front| - 1];
    assert u.time < v.time && rest == s[..|s| - 2];
    InRangeBelow(rest, a, u.time, b);
    assert InRange(s, a, b) == InRange(front, a, b) + if v.time < b then [v] else [];
    assert InRange(front, a, b) == InRange(rest, a, b) + [u];
    assert InRange(front, a, u.time) == InRange(rest, a, u.time) + [];
  }

  lemma WindowPointsSplit(x: Sample, before: seq<Sample>, u: Sample, after: seq<Sample>, y: Sample)
    ensures Area([x] + (before + [u] + after) + [y]) == Area([x] + before + [u]) + Area([u] + after + [y])
  {
    var q, m := [x] + (before + [u] + after) + [y], |before| + 1;
    assert q[..m + 1] == [x] + before + [u];
    assert q[m..] == [u] + after + [y];
    AreaSplits(q, m);
  }

  /** A window over a sample splits there. */
  lemma WindowSplits(s: seq<Sample>, a: real, b: real)
    requires Increasing(s) && |s| >= 2 && a < s[|s| - 2].time < b
    ensures Area(Window(s, a, b)) == Area(Window(s[..|s| - 1], a, s[|s| - 2].time)) + Area(Window(s, s[|s| - 2].time, b))
  {
    var u, v := s[|s| - 2], s[|s| - 1];
    var front := s[..|s| - 1];
    InRangeSplit(s, a, b);
    LastWindowPoints(s, u.time, b);
    PowerShorter(s, a);
    PowerShorter(s, u.time);
    PowerInLast(s, u.time);
    AtTheEnds(u, v);
    WindowPointsSplit(Sample(a, PowerAt(s, a)), InRange(front, a, u.time), u,
                      if v.time < b then [v] else [], Sample(b, PowerAt(s, b)));
    assert Window(s, u.time, b) == [u] + (if v.time < b then [v] else []) + [Sample(b, PowerAt(s, b))];
    assert Window(front, a, u.time) == [Sample(a, PowerAt(s, a))] + InRange(front, a, u.time) + [u];
  }

  lemma InRangeShorter(s: seq<Sample>, a: real, b: real)
    requires Increasing(s) && |s| >= 2 && a < b <= s[|s| - 2].time
    ensures Window(s, a, b) == Window(s[..|s| - 1], a, b)
  {
    assert s[|s| - 2].time < s[|s| - 1].time;
    PowerShorter(s, a);
    PowerShorter(s, b);
    assert InRange(s, a, b) == InRange(s[..|s| - 1], a, b) + [];
  }

  /** The area of any window is the difference of the integral at its ends. */
  lemma {:induction false} WindowIsDifference(s: seq<Sample>, a: real, b: real)
    requires Increasing(s) && s != [] && a < b
    ensures Area(Window(s, a, b)) == Integral(s, b) - Integral(s, a)
  {
    if |s| == 1 {
      LevelWindow(s, a, b);
    } else {
      var u, front := s[|s| - 2].time, s[..|s| - 1];
      if u <= a {
        LastWindow(s, a, b);
      } else if b <= u {
        InRangeShorter(s, a, b);
        WindowIsDifference(front, a, b);
      } else {
        WindowSplits(s, a, b);
        WindowIsDifference(front, a, u);
        LastWindow(s, u, b);
      }
    }
  }

  lemma RangeIsDifference(s: seq<Sample>, a: real, b: real)
    requires Increasing(s) && s != [] && a <= b
    ensures EnergyRange(s, a, b) == Integral(s, b) - Integral(s, a)
  {
    if a < b {
      WindowIsDifference(s, a, b);
      if |s| == 1 {
        LevelWindow(s, a, b);
      }
    }
  }

  /** Energy over two windows that meet is energy over both together, wherever they meet. */
  lemma WindowsAdd(s: seq<Sample>, a: real, b: real, c: real)
    requires Increasing(s) && a <= b <= c
    ensures EnergyRange(s, a, b) + EnergyRange(s, b, c) == EnergyRange(s, a, c)
  {
    if s != [] {
      RangeIsDifference(s, a, b);
      RangeIsDifference(s, b, c);
      RangeIsDifference(s, a, c);
    }
  }

  // ---------------------------------------------------------------- prefill and generation

  lemma {:induction false} AreaIsIntegral(s: seq<Sample>)
    requires Increasing(s) && s != []
    ensures Area(s) == Integral(s, s[|s| - 1].time) && Integral(s, s[0].time) == 0.0
  {
    if |s| > 1 {
      var u, v, front := s[|s| - 2], s[|s| - 1], s[..|s| - 1];
      AreaIsIntegral(front);
      assert s[0].time <= u.time < v.time;
      AtTheEnds(u, v);
    }
  }

  lemma {:induction false} IntegralBefore(s: seq<Sample>, t: real)
    requires Increasing(s) && s != [] && t <= s[0].time
    ensures Integral(s, t) == s[0].power * (t - s[0].time)
  {
    if |s| > 1 {
      assert s[0].time <= s[|s| - 2].time;
      IntegralBefore(s[..|s| - 1], t);
    }
  }

  lemma IntegralBeyond(s: seq<Sample>, t: real)
    requires Increasing(s) && |s| >= 2 && t >= s[|s| - 1].time
    ensures Integral(s, t) == Integral(s[..|s| - 1], s[|s| - 2].time)
                              + (Trapezoid(s[|s| - 2], s[|s| - 1]) + s[|s| - 1].power * (t - s[|s| - 1].time))
  {
    assert s[|s| - 2].time < s[|s| - 1].time;
    IntegralInLast(s, t);
    TailBeyond(s[|s| - 2], s[|s| - 1], t);
  }

  lemma AreaToLast(s: seq<Sample>)
    requires Increasing(s) && |s| >= 2
    ensures Area(s) == Integral(s[..|s| - 1], s[|s| - 2].time) + Trapezoid(s[|s| - 2], s[|s| - 1])
  {
    AreaIsIntegral(s[..|s| - 1]);
  }

  lemma IntegralAfter(s: seq<Sample>, t: real)
    requires Increasing(s) && s != [] && t >= s[|s| - 1].time
    ensures Integral(s, t) == Area(s) + s[|s| - 1].power * (t - s[|s| - 1].time)
  {
    if |s| > 1 {
      IntegralBeyond(s, t);
      AreaToLast(s);
    }
  }

  ghost function NodeTotal(s: seq<Sample>, elapsed: real): real
    requires s != []
  {
    if |s| == 1 then s[0].power * elapsed else Area(s)
  }

  /** The energy the request has before a node's first sample and after its last. */
  ghost function Outside(s: seq<Sample>, elapsed: real): real
    requires s != []
  {
    if |s| == 1 then 0.0 else s[0].power * s[0].time + s[|s| - 1].power * (elapsed - s[|s| - 1].time)
  }

  /** Prefill and generation together are the node's total plus what the window has outside the
      samples, before the first and after the last. */
  lemma SplitAgainstTotal(s: seq<Sample>, split: real, elapsed: real)
    requires Increasing(s) && s != [] && 0.0 <= split <= elapsed
    requires 0.0 <= s[0].time && s[|s| - 1].time <= elapsed
    ensures EnergyRange(s, 0.0, split) + EnergyRange(s, split, elapsed) == NodeTotal(s, elapsed) + Outside(s, elapsed)
  {
    WindowsAdd(s, 0.0, split, elapsed);
    RangeIsDifference(s, 0.0, elapsed);
    IntegralBefore(s, 0.0);
    IntegralAfter(s, elapsed);
    if |s| == 1 {
      var p, t := s[0].power, s[0].time;
      assert p * (elapsed - t) - p * (0.0 - t) == p * elapsed;
    }
  }

  /** The two phases account for the total of every node that was sampled at the start and at the
      end; of a node with positive power, only then. */
  lemma PhasesMakeTotal(s: seq<Sample>, split: real, elapsed: real)
    requires Increasing(s) && |s| >= 2 && 0.0 <= split <= elapsed
    requires 0.0 <= s[0].time && s[|s| - 1].time <= elapsed && forall i :: 0 <= i < |s| ==> s[i].power > 0.0
    ensures EnergyRange(s, 0.0, split) + EnergyRange(s, split, elapsed) == NodeTotal(s, elapsed)
       <==> s[0].time == 0.0 && s[|s| - 1].time == elapsed
  {
    SplitAgainstTotal(s, split, elapsed);
    var head, tail := s[0].power * s[0].time, s[|s| - 1].power * (elapsed - s[|s| - 1].time);
    assert s[0].time > 0.0 ==> head > 0.0;
    assert elapsed > s[|s| - 1].time ==> tail > 0.0;
  }

  // ---------------------------------------------------------------- the sampler

  datatype Stats = Stats(samples: nat, total: real, phases: Option<(real, real)>)

  /** A node's count, its total, and, with a split, the energy up to it and from it on: what the drawn
      power comes to before and after the split, which together are the total and what is outside the
      samples. */
  ghost predicate Accounts(s: seq<Sample>, r: Stats, elapsed: real, split: Option<real>)
  {
    && s != [] && r.samples == |s| && r.total == NodeTotal(s, elapsed) && r.phases.Some? == split.Some?
    && (split.Some? ==>
          && r.phases.value.0 == Integral(s, split.value) - Integral(s, 0.0)
          && r.phases.value.1 == Integral(s, elapsed) - Integral(s, split.value)
          && r.phases.value.0 + r.phases.value.1 == r.total + Outside(s, elapsed))
  }

  function WithReading(samples: map<NodeId, seq<Sample>>, t: real, powers: map<NodeId, real>): map<NodeId, seq<Sample>>
  {
    map n | n in samples.Keys + powers.Keys ::
      (if n in samples then samples[n] else []) + (if n in powers then [Sample(t, powers[n])] else [])
  }

  /** A reading adds one sample at its time to every node that reports, and takes none away. */
  lemma ReadingAdds(samples: map<NodeId, seq<Sample>>, t: real, powers: map<NodeId, real>, n: NodeId)
    ensures n in WithReading(samples, t, powers) <==> n in samples || n in powers
    ensures n in powers && n !in samples ==> WithReading(samples, t, powers)[n] == [Sample(t, powers[n])]
    ensures n in powers && n in samples ==> WithReading(samples, t, powers)[n] == samples[n] + [Sample(t, powers[n])]
    ensures n !in powers && n in samples ==> WithReading(samples, t, powers)[n] == samples[n]
  {
    if n in powers && n !in samples {
      assert [] + [Sample(t, powers[n])] == [Sample(t, powers[n])];
    }
  }

  ghost predicate Recorded(s: seq<Sample>, latest: real)
  {
    s != [] && Increasing(s) && s[0].time >= 0.0 && s[|s| - 1].time <= latest
  }

  lemma ReadingRecorded(s: seq<Sample>, latest: real, t: real, more: seq<Sample>)
    requires (s == [] || Recorded(s, latest)) && (s == [] || latest < t) && latest <= t && t >= 0.0
    requires |more| <= 1 && (more != [] ==> more[0].time == t) && s + more != []
    ensures Recorded(s + more, t)
  {
    if s != [] {
      forall i, j | 0 <= i < j < |s + more| ensures (s + more)[i].time < (s + more)[j].time {
        assert i < |s| ==> s[i].time <= s[|s| - 1].time;
      }
    }
  }

  class Sampler {
    var samples: map<NodeId, seq<Sample>>
    var startTime: Option<real>
    var prefillDoneAt: Option<real>
    ghost var latest: real

    /** Every node's samples are in the order of their times, between the start and the latest. */
    ghost predicate Valid()
      reads this
    {
      && (forall n :: n in samples ==> Recorded(samples[n], latest))
      && (startTime.None? ==> samples == map[] && latest == 0.0) && latest >= 0.0
      && (prefillDoneAt.Some? ==> 0.0 <= prefillDoneAt.value <= latest)
    }

    constructor ()
      ensures Valid() && startTime == None && prefillDoneAt == None
    {
      samples, startTime, prefillDoneAt, latest := map[], None, None, 0.0;
    }

    /** One reading of every node that reports; the clock has moved on since the last one. */
    method TakeSample(t: real, powers: map<NodeId, real>)
      requires Valid() && startTime.Some? && (samples == map[] || latest < t) && latest <= t
      modifies this`samples, this`latest
      ensures Valid() && latest == t
      ensures samples == WithReading(old(samples), t, powers)
    {
      forall n | n in samples.Keys + powers.Keys ensures Recorded(WithReading(samples, t, powers)[n], t) {
        ReadingRecorded(if n in samples then samples[n] else [], latest, t,
                        if n in powers then [Sample(t, powers[n])] else []);
      }
      samples := WithReading(samples, t, powers);
      latest := t;
    }

    method Start(now: real, powers: map<NodeId, real>)
      requires Valid() && startTime.None?
      modifies this
      ensures Valid() && startTime == Some(now) && prefillDoneAt == old(prefillDoneAt) && latest == 0.0
      ensures samples == WithReading(map[], 0.0, powers)
    {
      startTime := Some(now);
      TakeSample(0.0, powers);
    }

    /** The end of the prefill is marked once; before the start it falls on the start. */
    method MarkPrefillDone(now: real, powers: map<NodeId, real>)
      requires Valid() && (startTime.Some? ==> latest < now - startTime.value)
      modifies this
      ensures Valid() && startTime == old(startTime)
      ensures prefillDoneAt == if old(prefillDoneAt).Some? then old(prefillDoneAt)
                               else Some(if startTime.None? then 0.0 else now - startTime.value)
      ensures old(prefillDoneAt).Some? || startTime.None? ==> samples == old(samples)
    {
      if prefillDoneAt.Some? {
        return;
      }
      if startTime.None? {
        prefillDoneAt := Some(0.0);
        return;
      }
      var t := now - startTime.value;
      TakeSample(t, powers);
      prefillDoneAt := Some(t);
    }

    method NodeStats(node: NodeId, elapsed: real, split: Option<real>) returns (r: Stats)
      requires Valid() && node in samples && latest <= elapsed
      requires split.Some? ==> 0.0 <= split.value <= elapsed
      ensures Accounts(samples[node], r, elapsed, split)
    {
      var s := samples[node];
      assert Recorded(s, latest);
      var total := TrapezoidalEnergy(s, elapsed);
      if split.None? {
        return Stats(|s|, total, None);
      }
      var prefill := TrapezoidalEnergyRange(s, 0.0, split.value);
      var generation := TrapezoidalEnergyRange(s, split.value, elapsed);
      RangeIsDifference(s, 0.0, split.value);
      RangeIsDifference(s, split.value, elapsed);
      SplitAgainstTotal(s, split.value, elapsed);
      r := Stats(|s|, total, Some((prefill, generation)));
    }

    /** The last reading and every node's energy. A node's two phases add up to its total, and to
        what the request has before the node's first sample and after its last. */
    method Result(now: real, powers: map<NodeId, real>) returns (stats: map<NodeId, Stats>)
      requires Valid() && startTime.Some? && latest < now - startTime.value
      modifies this`samples, this`latest
      ensures Valid() && stats.Keys == samples.Keys
      ensures samples == WithReading(old(samples), now - startTime.value, powers)
      ensures forall n :: n in stats ==> Accounts(samples[n], stats[n], now - startTime.value, prefillDoneAt)
    {
      var elapsed := now - startTime.value;
      TakeSample(elapsed, powers);
      var split := prefillDoneAt;
      if split.Some? {
        var low := if split.value < elapsed then split.value else elapsed;
        split := Some(if low > 0.0 then low else 0.0);
      }
      stats := AllStats(elapsed, split);
    }

    method AllStats(elapsed: real, split: Option<real>) returns (stats: map<NodeId, Stats>)
      requires Valid() && latest <= elapsed && (split.Some? ==> 0.0 <= split.value <= elapsed)
      ensures stats.Keys == samples.Keys
      ensures forall n :: n in stats ==> Accounts(samples[n], stats[n], elapsed, split)
    {
      stats := map[];
      var left := samples.Keys;
      while left != {}
        invariant left <= samples.Keys && stats.Keys == samples.Keys - left
        invariant forall n :: n in stats ==> Accounts(samples[n], stats[n], elapsed, split)
        decreases |left|
      {
        var n :| n in left;
        var r := NodeStats(n, elapsed, split);
        stats := stats[n := r];
        left := left - {n};
      }
    }
  }

  lemma InRangeOfFour(a: Sample, b: Sample, c: Sample, d: Sample, start: real, end: real)
    requires a.time <= start && end <= d.time
    ensures InRange([a, b, c, d], start, end)
         == (if start < b.time < end then [b] else []) + (if start < c.time < end then [c] else [])
  {
    var one, two, three, four := [a], [a, b], [a, b, c], [a, b, c, d];
    assert one[..0] == [] && two[..1] == one && three[..2] == two && four[..3] == three;
    assert InRange(one, start, end) == InRange([], start, end) + [] == [];
    assert InRange(two, start, end) == InRange(one, start, end) + if start < b.time < end then [b] else [];
    assert InRange(three, start, end) == InRange(two, start, end) + if start < c.time < end then [c] else [];
    assert InRange(four, start, end) == InRange(three, start, end) + [];
  }

  /** Two samples at one time break the sum: the power in which both windows meet is that of the
      first sample only. */
  lemma RepeatedTimesBreakTheSum()
    ensures var s := [Sample(0.0, 0.0), Sample(1.0, 0.0), Sample(1.0, 2.0), Sample(2.0, 2.0)];
            EnergyRange(s, 0.0, 1.0) + EnergyRange(s, 1.0, 2.0) != EnergyRange(s, 0.0, 2.0)
  {
    var a, b, c, d := Sample(0.0, 0.0), Sample(1.0, 0.0), Sample(1.0, 2.0), Sample(2.0, 2.0);
    var s := [a, b, c, d];
    assert PowerAt(s, 0.0) == 0.0 && PowerAt(s, 2.0) == 2.0;
    AtTheEnds(a, b);
    assert PowerAt(s, 1.0) == Scan(s, 1.0, 1) == 0.0;
    InRangeOfFour(a, b, c, d, 0.0, 1.0);
    assert Window(s, 0.0, 1.0) == [a, b];
    AreaOfTwo(a, b);
    InRangeOfFour(a, b, c, d, 1.0, 2.0);
    assert Window(s, 1.0, 2.0) == [b, d];
    AreaOfTwo(b, d);
    InRangeOfFour(a, b, c, d, 0.0, 2.0);
    assert Window(s, 0.0, 2.0) == [a, b, c, d];
    AreaOfThree(a, b, c);
    assert [a, b, c, d][..3] == [a, b, c];
  }
}
