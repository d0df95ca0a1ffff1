/** Enumerating the cycles of a topology: all of them, all of them within a budget, or only the
    short ones. Vertices are the graph's own indices, listed in ascending order; parallel edges do
    not matter to a cycle, so an edge is a pair. */
module Cycles {
  import opened Common

  type Vertex = nat

  datatype Graph = Graph(vertices: seq<Vertex>, edges: set<(Vertex, Vertex)>)

  ghost predicate ValidGraph(g: Graph)
  {
    && (forall i, j :: 0 <= i < j < |g.vertices| ==> g.vertices[i] < g.vertices[j])
    && forall e :: e in g.edges ==> e.0 in g.vertices && e.1 in g.vertices
  }

  // ---------------------------------------------------------------- cycles and their rotations

  ghost predicate Path(g: Graph, p: seq<Vertex>)
  {
    && p != [] && Distinct(p) && (forall v :: v in p ==> v in g.vertices)
    && forall i :: 0 <= i < |p| - 1 ==> (p[i], p[i + 1]) in g.edges
  }

  ghost predicate SimpleCycle(g: Graph, c: seq<Vertex>)
  {
    Path(g, c) && (c[|c| - 1], c[0]) in g.edges
  }

  ghost function Rotated<T>(c: seq<T>, r: nat): seq<T>
    requires r < |c|
  {
    c[r..] + c[..r]
  }

  ghost predicate SameCycle(a: seq<Vertex>, b: seq<Vertex>)
  {
    exists r :: 0 <= r < |a| && b == Rotated(a, r)
  }

  function LeastAt(c: seq<Vertex>): (m: nat)
    requires c != []
    ensures m < |c| && forall i :: 0 <= i < |c| ==> c[m] <= c[i]
  {
    if |c| == 1 then 0
    else
      var m := LeastAt(c[..|c| - 1]);
      assert forall i :: 0 <= i < |c| - 1 ==> c[i] == c[..|c| - 1][i];
      if c[|c| - 1] < c[m] then |c| - 1 else m
  }

  /** The rotation that starts at the lowest vertex. */
  ghost function Canonical(c: seq<Vertex>): seq<Vertex>
  {
    if c == [] then [] else Rotated(c, LeastAt(c))
  }

  ghost predicate StartsLowest(c: seq<Vertex>)
  {
    c != [] && forall i :: 0 <= i < |c| ==> c[0] <= c[i]
  }

  lemma RotatedAt<T>(c: seq<T>, r: nat, i: nat)
    requires r < |c| && i < |c|
    ensures Rotated(c, r)[i] == if i < |c| - r then c[r + i] else c[i - (|c| - r)]
  {
  }

  lemma RotationKeepsCycle(g: Graph, c: seq<Vertex>, r: nat)
    requires SimpleCycle(g, c) && r < |c|
    ensures SimpleCycle(g, Rotated(c, r))
  {
    var d := Rotated(c, r);
    forall i, j | 0 <= i < j < |d| ensures d[i] != d[j] {
      RotatedAt(c, r, i);
      RotatedAt(c, r, j);
    }
    forall i | 0 <= i < |d| - 1 ensures (d[i], d[i + 1]) in g.edges {
      RotatedAt(c, r, i);
      RotatedAt(c, r, i + 1);
    }
    assert forall v :: v in d ==> v in c;
  }

  lemma RotationsCompose<T>(c: seq<T>, r: nat, s: nat)
    requires r < |c| && s < |c|
    ensures Rotated(Rotated(c, r), s) == Rotated(c, if r + s < |c| then r + s else r + s - |c|)
  {
  }

  /** All rotations of a cycle have one canonical form. */
  lemma RotationsAgree(c: seq<Vertex>, r: nat)
    requires c != [] && Distinct(c) && r < |c|
    ensures Canonical(Rotated(c, r)) == Canonical(c)
  {
    var d := Rotated(c, r);
    var s := LeastAt(d);
    RotatedAt(c, r, s);
    var t := if r + s < |c| then r + s else r + s - |c|;
    assert c[t] == d[s];
    var m := LeastAt(c);
    var back := if m >= r then m - r else m + |c| - r;
    RotatedAt(c, r, back);
    assert d[s] <= d[back] == c[m] <= c[t];
    assert t == m;
    RotationsCompose(c, r, s);
  }

  lemma CanonicalIsCycle(g: Graph, c: seq<Vertex>)
    requires SimpleCycle(g, c)
    ensures SimpleCycle(g, Canonical(c)) && StartsLowest(Canonical(c)) && |Canonical(c)| == |c|
    ensures StartsLowest(c) ==> Canonical(c) == c
    ensures SameCycle(c, Canonical(c))
  {
    RotationKeepsCycle(g, c, LeastAt(c));
    assert forall v :: v in Canonical(c) ==> v in c;
    forall i | 0 <= i < |c| ensures Canonical(c)[0] <= Canonical(c)[i] {
      RotatedAt(c, LeastAt(c), i);
    }
  }

  /** Cycles with one canonical form are rotations of each other. */
  lemma CanonicalDecides(a: seq<Vertex>, b: seq<Vertex>)
    requires a != [] && b != [] && Distinct(a)
    ensures Canonical(a) == Canonical(b) <==> SameCycle(a, b)
  {
    if Canonical(a) == Canonical(b) {
      var m, n := LeastAt(a), LeastAt(b);
      var back := if n == 0 then 0 else |b| - n;
      RotationsCompose(b, n, back);
      assert Rotated(Canonical(b), back) == Rotated(b, 0) == b;
      RotationsCompose(a, m, back);
    }
    if SameCycle(a, b) {
      var r :| 0 <= r < |a| && b == Rotated(a, r);
      RotationsAgree(a, r);
    }
  }

  // ---------------------------------------------------------------- all simple paths, bounded

  /** The simple paths that strictly extend `p` by at most `more` vertices, the next one among
      `ws`: a depth-first walk. */
  function Extensions(g: Graph, p: seq<Vertex>, ws: seq<Vertex>, more: nat): (r: seq<seq<Vertex>>)
    requires p != []
    decreases more, |ws|
  {
    if more == 0 || ws == [] then []
    else
      var rest := Extensions(g, p, ws[..|ws| - 1], more);
      var w := ws[|ws| - 1];
      if w !in p && (p[|p| - 1], w) in g.edges then rest + [p + [w]] + Extensions(g, p + [w], g.vertices, more - 1)
      else rest
  }

  ghost predicate Extends(g: Graph, p: seq<Vertex>, ws: seq<Vertex>, more: nat, x: seq<Vertex>)
  {
    && |p| < |x| <= |p| + more && x[..|p|] == p && x[|p|] in ws
    && Path(g, x)
  }

  lemma PathGrows(g: Graph, p: seq<Vertex>, w: Vertex)
    requires Path(g, p) && w in g.vertices && w !in p && (p[|p| - 1], w) in g.edges
    ensures Path(g, p + [w])
  {
    var q := p + [w];
    forall i, j | 0 <= i < j < |q| ensures q[i] != q[j] {
      assert j == |p| ==> q[i] in p;
    }
  }

  lemma ThroughVertex(g: Graph, p: seq<Vertex>, w: Vertex, more: nat, x: seq<Vertex>)
    requires p != [] && more > 0 && Path(g, p + [w])
    ensures Extends(g, p, [w], more, x) <==> x == p + [w] || Extends(g, p + [w], g.vertices, more - 1, x)
  {
    var q := p + [w];
    if Extends(g, p, [w], more, x) {
      assert x[..|q|] == q;
      assert |x| == |q| ==> x == q;
      assert |x| > |q| ==> x[|q|] in x;
    }
    if Extends(g, q, g.vertices, more - 1, x) {
      assert x[..|p|] == x[..|q|][..|p|] == q[..|p|] == p;
      assert x[|p|] == x[..|q|][|p|] == w;
    }
  }

  lemma NextVertex(g: Graph, p: seq<Vertex>, w: Vertex, more: nat, x: seq<Vertex>)
    requires p != []
    ensures Extends(g, p, [w], more, x) ==> w !in p && (p[|p| - 1], w) in g.edges
  {
    if Extends(g, p, [w], more, x) {
      var last := |p| - 1;
      assert (x[last], x[last + 1]) in g.edges;
      assert p == x[..|p|] && x[last] == p[last];
      forall i | 0 <= i < |p| ensures p[i] != w {
        assert x[i] != x[|p|];
      }
    }
  }

  lemma {:induction false} ExtensionsAre(g: Graph, p: seq<Vertex>, ws: seq<Vertex>, more: nat, x: seq<Vertex>)
    requires ValidGraph(g) && Path(g, p) && forall w :: w in ws ==> w in g.vertices
    ensures x in Extensions(g, p, ws, more) <==> Extends(g, p, ws, more, x)
    decreases more, |ws|
  {
    if more > 0 && ws != [] {
      var front, w := ws[..|ws| - 1], ws[|ws| - 1];
      assert ws == front + [w];
      ExtensionsAre(g, p, front, more, x);
      var q := p + [w];
      if w !in p && (p[|p| - 1], w) in g.edges {
        PathGrows(g, p, w);
        ExtensionsAre(g, q, g.vertices, more - 1, x);
        ThroughVertex(g, p, w, more, x);
      } else {
        NextVertex(g, p, w, more, x);
      }
    }
  }

  lemma DistinctConcat<T>(a: seq<T>, b: seq<T>)
    requires Distinct(a) && Distinct(b) && forall x :: x in a ==> x !in b
    ensures Distinct(a + b)
  {
    var c := a + b;
    forall i, j | 0 <= i < j < |c| ensures c[i] != c[j] {
      assert i < |a| <= j ==> c[i] in a && c[j] in b;
    }
  }

  /** The walk finds no path twice. */
  lemma {:induction false} ExtensionsDistinct(g: Graph, p: seq<Vertex>, ws: seq<Vertex>, more: nat)
    requires ValidGraph(g) && Path(g, p) && Distinct(ws) && forall w :: w in ws ==> w in g.vertices
    ensures Distinct(Extensions(g, p, ws, more))
    decreases more, |ws|
  {
    if more > 0 && ws != [] {
      var front, w := ws[..|ws| - 1], ws[|ws| - 1];
      ExtensionsDistinct(g, p, front, more);
      if w !in p && (p[|p| - 1], w) in g.edges {
        PathGrows(g, p, w);
        var q := p + [w];
        var rest, deep := Extensions(g, p, front, more), Extensions(g, q, g.vertices, more - 1);
        ExtensionsDistinct(g, q, g.vertices, more - 1);
        forall x ensures (x in rest ==> |x| > |p| && x[|p|] != w) && (x in deep ==> |x| > |q| && x[|p|] == w) {
          ExtensionsAre(g, p, front, more, x);
          ExtensionsAre(g, q, g.vertices, more - 1, x);
          if x in deep {
            assert x[..|q|][|p|] == x[|p|];
          }
        }
        DistinctConcat(rest, [q]);
        DistinctConcat(rest + [q], deep);
      }
    }
  }

  // ---------------------------------------------------------------- the short cycles

  predicate Lowest(p: seq<Vertex>)
  {
    p != [] && p[LeastAt(p)] == p[0]
  }

  /** Of the paths from v back to a predecessor of v, those that are v's own cycles. */
  function Closing(g: Graph, paths: seq<seq<Vertex>>): (r: seq<seq<Vertex>>)
  {
    if paths == [] then []
    else
      var p := paths[|paths| - 1];
      Closing(g, paths[..|paths| - 1])
      + if p != [] && (p[|p| - 1], p[0]) in g.edges && Lowest(p) then [p] else []
  }

  lemma {:induction false} ClosingAre(g: Graph, paths: seq<seq<Vertex>>, x: seq<Vertex>)
    ensures x in Closing(g, paths) <==> x in paths && x != [] && (x[|x| - 1], x[0]) in g.edges && Lowest(x)
    ensures Distinct(paths) ==> Distinct(Closing(g, paths))
  {
    if paths != [] {
      var front, p := paths[..|paths| - 1], paths[|paths| - 1];
      assert paths == front + [p];
      ClosingAre(g, front, x);
      ClosingAre(g, front, p);
      if Distinct(paths) {
        assert p !in front;
        DistinctConcat(Closing(g, front), [p]);
      }
    }
  }

  /** What one vertex contributes: its self-loop, and the cycles of at most k vertices that start
      at it as their lowest. */
  function CyclesAt(g: Graph, v: Vertex, k: nat): (r: seq<seq<Vertex>>)
    requires k >= 1
  {
    (if (v, v) in g.edges then [[v]] else []) + Closing(g, Extensions(g, [v], g.vertices, k - 1))
  }

  function CyclesFrom(g: Graph, vs: seq<Vertex>, k: nat): (r: seq<seq<Vertex>>)
    requires k >= 1
  {
    if vs == [] then [] else CyclesFrom(g, vs[..|vs| - 1], k) + CyclesAt(g, vs[|vs| - 1], k)
  }

  lemma LowestStarts(c: seq<Vertex>)
    requires c != []
    ensures Lowest(c) <==> StartsLowest(c)
  {
  }

  lemma CyclesAtAre(g: Graph, v: Vertex, k: nat, x: seq<Vertex>)
    requires ValidGraph(g) && v in g.vertices && k >= 1
    ensures x in CyclesAt(g, v, k) <==> SimpleCycle(g, x) && StartsLowest(x) && x[0] == v && |x| <= k
  {
    assert Path(g, [v]);
    ExtensionsAre(g, [v], g.vertices, k - 1, x);
    ClosingAre(g, Extensions(g, [v], g.vertices, k - 1), x);
    if x != [] {
      LowestStarts(x);
      assert |x| > 1 && x[0] == v ==> x[..1] == [v] && x[1] in x;
      assert |x| == 1 && x[0] == v ==> x == [v];
      assert |x| > 1 && x[..1] == [v] ==> x[0] == v;
    }
  }

  lemma CyclesAtDistinct(g: Graph, v: Vertex, k: nat)
    requires ValidGraph(g) && v in g.vertices && k >= 1
    ensures Distinct(CyclesAt(g, v, k))
  {
    var walks := Extensions(g, [v], g.vertices, k - 1);
    assert Path(g, [v]);
    ExtensionsDistinct(g, [v], g.vertices, k - 1);
    ClosingAre(g, walks, [v]);
    ExtensionsAre(g, [v], g.vertices, k - 1, [v]);
    assert [v] !in Closing(g, walks);
    DistinctConcat(if (v, v) in g.edges then [[v]] else [], Closing(g, walks));
  }

  lemma {:induction false} CyclesFromAre(g: Graph, vs: seq<Vertex>, k: nat, x: seq<Vertex>)
    requires ValidGraph(g) && k >= 1 && Distinct(vs) && forall v :: v in vs ==> v in g.vertices
    ensures x in CyclesFrom(g, vs, k) <==> SimpleCycle(g, x) && StartsLowest(x) && x[0] in vs && |x| <= k
  {
    if vs != [] {
      var front, v := vs[..|vs| - 1], vs[|vs| - 1];
      assert vs == front + [v];
      CyclesFromAre(g, front, k, x);
      CyclesAtAre(g, v, k, x);
    }
  }

  lemma {:induction false} CyclesFromDistinct(g: Graph, vs: seq<Vertex>, k: nat)
    requires ValidGraph(g) && k >= 1 && Distinct(vs) && forall v :: v in vs ==> v in g.vertices
    ensures Distinct(CyclesFrom(g, vs, k))
  {
    if vs != [] {
      var front, v := vs[..|vs| - 1], vs[|vs| - 1];
      assert v !in front;
      CyclesFromDistinct(g, front, k);
      CyclesAtDistinct(g, v, k);
      forall x | x in CyclesFrom(g, front, k) ensures x !in CyclesAt(g, v, k) {
        CyclesFromAre(g, front, k, x);
        CyclesAtAre(g, v, k, x);
      }
      DistinctConcat(CyclesFrom(g, front, k), CyclesAt(g, v, k));
    }
  }

  /** The short cycles found are exactly the simple cycles of at most k vertices written from their
      lowest vertex, each once. */
  lemma ShortCyclesExactly(g: Graph, k: nat, x: seq<Vertex>)
    requires ValidGraph(g) && k >= 1
    ensures x in CyclesFrom(g, g.vertices, k) <==> SimpleCycle(g, x) && StartsLowest(x) && |x| <= k
    ensures Distinct(CyclesFrom(g, g.vertices, k))
  {
    assert Distinct(g.vertices);
    CyclesFromAre(g, g.vertices, k, x);
    CyclesFromDistinct(g, g.vertices, k);
    if SimpleCycle(g, x) {
      assert x[0] in x;
    }
  }

  // ---------------------------------------------------------------- against enumerating them all

  ghost predicate Listed(all: seq<seq<Vertex>>, c: seq<Vertex>)
  {
    exists i :: 0 <= i < |all| && SameCycle(all[i], c)
  }

  /** What the library's enumeration of all simple cycles promises: nothing but simple cycles, and
      each exactly once up to rotation. */
  ghost predicate Enumerates(g: Graph, all: seq<seq<Vertex>>)
  {
    && (forall i :: 0 <= i < |all| ==> SimpleCycle(g, all[i]))
    && (forall i, j :: 0 <= i < j < |all| ==> !SameCycle(all[i], all[j]))
    && (forall c {:trigger Listed(all, c)} :: SimpleCycle(g, c) ==> Listed(all, c))
  }

  function Singletons(vs: seq<Vertex>): (r: seq<seq<Vertex>>)
  {
    if vs == [] then [] else Singletons(vs[..|vs| - 1]) + [[vs[|vs| - 1]]]
  }

  /** The cycles of at most k vertices, each written from its lowest vertex. */
  ghost function Shortened(all: seq<seq<Vertex>>, k: nat): seq<seq<Vertex>>
  {
    if all == [] then []
    else
      var c := all[|all| - 1];
      Shortened(all[..|all| - 1], k) + if |c| <= k then [Canonical(c)] else []
  }

  lemma {:induction false} ShortenedAre(all: seq<seq<Vertex>>, k: nat, x: seq<Vertex>)
    ensures x in Shortened(all, k) <==> exists i :: 0 <= i < |all| && |all[i]| <= k && Canonical(all[i]) == x
  {
    if all != [] {
      var last := |all| - 1;
      ShortenedAre(all[..last], k, x);
      assert forall i :: 0 <= i < last ==> all[..last][i] == all[i];
      if x in Shortened(all[..last], k) {
        var i :| 0 <= i < last && |all[..last][i]| <= k && Canonical(all[..last][i]) == x;
        assert all[i] == all[..last][i];
      }
    }
  }

  lemma {:induction false} ShortenedDistinct(g: Graph, all: seq<seq<Vertex>>, k: nat)
    requires forall i :: 0 <= i < |all| ==> SimpleCycle(g, all[i])
    requires forall i, j :: 0 <= i < j < |all| ==> !SameCycle(all[i], all[j])
    ensures Distinct(Shortened(all, k))
  {
    if all != [] {
      var last := |all| - 1;
      ShortenedDistinct(g, all[..last], k);
      var x := Canonical(all[last]);
      ShortenedAre(all[..last], k, x);
      forall i | 0 <= i < last ensures Canonical(all[i]) != x {
        CanonicalDecides(all[i], all[last]);
      }
      if |all[last]| <= k {
        DistinctConcat(Shortened(all[..last], k), [x]);
      }
    }
  }

  lemma {:induction false} DistinctCount<T>(a: seq<T>, x: T)
    requires Distinct(a)
    ensures multiset(a)[x] == if x in a then 1 else 0
  {
    if a != [] {
      var last := |a| - 1;
      assert a == a[..last] + [a[last]];
      DistinctCount(a[..last], x);
      assert a[last] !in a[..last];
    }
  }

  lemma {:induction false} SameElementsSameMultiset<T>(a: seq<T>, b: seq<T>)
    requires Distinct(a) && Distinct(b) && forall x :: x in a <==> x in b
    ensures multiset(a) == multiset(b)
  {
    forall x ensures multiset(a)[x] == multiset(b)[x] {
      DistinctCount(a, x);
      DistinctCount(b, x);
    }
  }

  lemma Enumerated(g: Graph, all: seq<seq<Vertex>>, x: seq<Vertex>) returns (i: nat)
    requires Enumerates(g, all) && SimpleCycle(g, x) && StartsLowest(x)
    ensures i < |all| && |all[i]| == |x| && Canonical(all[i]) == x
  {
    assert Listed(all, x);
    i :| 0 <= i < |all| && SameCycle(all[i], x);
    CanonicalDecides(all[i], x);
    CanonicalIsCycle(g, x);
  }

  lemma SameShortCycles(g: Graph, all: seq<seq<Vertex>>, k: nat, x: seq<Vertex>)
    requires ValidGraph(g) && Enumerates(g, all) && k >= 1
    ensures x in CyclesFrom(g, g.vertices, k) <==> x in Shortened(all, k)
  {
    ShortCyclesExactly(g, k, x);
    ShortenedAre(all, k, x);
    if SimpleCycle(g, x) && StartsLowest(x) && |x| <= k {
      var i := Enumerated(g, all, x);
    }
    if i :| 0 <= i < |all| && |all[i]| <= k && Canonical(all[i]) == x {
      CanonicalIsCycle(g, all[i]);
    }
  }

  /** Enumerating the short cycles alone gives what enumerating all cycles and dropping the long
      ones gives, up to order and to where each cycle starts. */
  lemma ShortEqualsFiltered(g: Graph, all: seq<seq<Vertex>>, k: nat)
    requires ValidGraph(g) && Enumerates(g, all) && k >= 1
    ensures multiset(CyclesFrom(g, g.vertices, k) + Singletons(g.vertices))
         == multiset(Shortened(all, k) + Singletons(g.vertices))
  {
    ShortCyclesExactly(g, k, []);
    ShortenedDistinct(g, all, k);
    forall x ensures x in CyclesFrom(g, g.vertices, k) <==> x in Shortened(all, k) {
      SameShortCycles(g, all, k, x);
    }
    SameElementsSameMultiset(CyclesFrom(g, g.vertices, k), Shortened(all, k));
  }

  // ---------------------------------------------------------------- the methods

  datatype Found = Found(cycles: seq<seq<Vertex>>) | OverBudget | BadBound

  method WithClosing(g: Graph, paths: seq<seq<Vertex>>, start: seq<seq<Vertex>>) returns (cycles: seq<seq<Vertex>>)
    ensures cycles == start + Closing(g, paths)
  {
    cycles := start;
    for k := 0 to |paths|
      invariant cycles == start + Closing(g, paths[..k])
    {
      assert paths[..k + 1][..k] == paths[..k];
      var p := paths[k];
      if p != [] && (p[|p| - 1], p[0]) in g.edges && Lowest(p) {
        cycles := cycles + [p];
      }
    }
    assert paths[..|paths|] == paths;
  }

  method WithSingletons(vs: seq<Vertex>, start: seq<seq<Vertex>>) returns (cycles: seq<seq<Vertex>>)
    ensures cycles == start + Singletons(vs)
  {
    cycles := start;
    for i := 0 to |vs|
      invariant cycles == start + Singletons(vs[..i])
    {
      assert vs[..i + 1][..i] == vs[..i];
      cycles := cycles + [[vs[i]]];
    }
    assert vs[..|vs|] == vs;
  }

  method GetCyclesUpTo(g: Graph, maxNodes: int) returns (r: Found)
    requires ValidGraph(g)
    ensures maxNodes < 2 ==> r == BadBound
    ensures maxNodes >= 2 ==> r == Found(CyclesFrom(g, g.vertices, maxNodes) + Singletons(g.vertices))
  {
    if maxNodes < 2 {
      return BadBound;
    }
    var cycles: seq<seq<Vertex>> := [];
    for i := 0 to |g.vertices|
      invariant cycles == CyclesFrom(g, g.vertices[..i], maxNodes)
    {
      var v := g.vertices[i];
      assert g.vertices[..i + 1][..i] == g.vertices[..i];
      ghost var before := cycles;
      if (v, v) in g.edges {
        cycles := cycles + [[v]];
      }
      var paths := Extensions(g, [v], g.vertices, maxNodes - 1);
      cycles := WithClosing(g, paths, cycles);
      assert cycles == before + CyclesAt(g, v, maxNodes);
    }
    assert g.vertices[..|g.vertices|] == g.vertices;
    cycles := WithSingletons(g.vertices, cycles);
    r := Found(cycles);
  }

  /** All cycles, or none at all once there are more than the budget allows; `all` is what the
      library's lazy enumeration would yield. */
  method GetCyclesWithinBudget(g: Graph, all: seq<seq<Vertex>>, maxCycles: int) returns (r: Found)
    ensures r == if maxCycles < 1 then BadBound
                 else if |all| > maxCycles then OverBudget
                 else Found(all + Singletons(g.vertices))
  {
    if maxCycles < 1 {
      return BadBound;
    }
    var cycles: seq<seq<Vertex>> := [];
    for i := 0 to |all|
      invariant i <= maxCycles && cycles == all[..i]
    {
      if |cycles| == maxCycles {
        return OverBudget;
      }
      cycles := cycles + [all[i]];
    }
    assert all[..|all|] == all;
    cycles := WithSingletons(g.vertices, cycles);
    r := Found(cycles);
  }
}
