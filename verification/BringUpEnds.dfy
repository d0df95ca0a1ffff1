/** Bring-up ends: only linearly many steps raise a runner's level, and from every reachable state
    the run can go on until every runner serves. */
module BringUpEnds {
  import opened Common
  import opened Plan
  import opened BringUp
  import opened BringUpProgress

  // ---------------------------------------------------------------- it ends

  ghost predicate Lives(published: seq<seq<Status>>)
  {
    forall j :: 0 <= j < |published| ==> published[j] != []
  }

  /** The levels of all runners together. */
  ghost function Total(published: seq<seq<Status>>): nat
    requires Lives(published)
  {
    if published == [] then 0
    else
      var last := |published| - 1;
      Total(published[..last]) + Level(published[last][|published[last]| - 1])
  }

  lemma {:induction false} TotalBounded(published: seq<seq<Status>>)
    requires Lives(published)
    ensures Total(published) <= 6 * |published|
  {
    if published != [] {
      TotalBounded(published[..|published| - 1]);
    }
  }

  lemma {:induction false} TotalOfOne(published: seq<seq<Status>>, j: nat, s: Status)
    requires Lives(published) && j < |published|
    ensures Lives(published[j := published[j] + [s]])
    ensures Total(published[j := published[j] + [s]])
         == Total(published) - Level(published[j][|published[j]| - 1]) + Level(s)
  {
    var last := |published| - 1;
    var more := published[j := published[j] + [s]];
    if j == last {
      assert more[..last] == published[..last];
    } else {
      TotalOfOne(published[..last], j, s);
      assert more[..last] == published[..last][j := published[j] + [s]];
    }
  }

  ghost predicate Publishes(w: World, w': World, j: nat, s: Option<Status>)
    requires Shaped(w)
  {
    if s.None? then w'.published == w.published
    else j < |w.published| && w'.published == w.published[j := w.published[j] + [s.value]]
         && Level(Actual(w, j)) <= Level(s.value)
  }

  lemma PublishedAlone(w: World, w': World, j: nat, s: Status)
    requires Inv(w) && Proceed(w, w', j, s)
    ensures Publishes(w, w', j, Some(s))
  {
  }

  lemma PublishedBy(w: World, w': World, i: nat, a: Action) returns (s: Option<Status>)
    requires Shaped(w) && i < |w.published|
    requires !Directed(a) ==> w' == w
    requires Directed(a) ==> var t := Accepts(Actual(w, i), a);
                             t.Some? && w' == CaughtUp(if t.value == Actual(w, i) then w else Publish(w, i, t.value), i)
    ensures Publishes(w, w', i, s)
  {
    s := if Directed(a) then Accepts(Actual(w, i), a) else None;
    if s == Some(Actual(w, i)) {
      s := None;
    }
  }

  lemma PublishedByTask(w: World, w': World, i: nat, books: Books, inputs: Inputs) returns (s: Option<Status>)
    requires Inv(w) && Act(w, w', i, books, inputs)
    ensures Publishes(w, w', i, s)
  {
    s := PublishedBy(w, w', i, Decided(w, i, books, inputs).action);
  }

  /** A step publishes at most one status, and that is no step down. */
  lemma Published(w: World, w': World) returns (j: nat, s: Option<Status>)
    requires Inv(w) && Step(w, w')
    ensures Publishes(w, w', j, s)
  {
    if i, books, inputs :| Act(w, w', i, books, inputs) {
      j := i;
      s := PublishedByTask(w, w', i, books, inputs);
    } else if i, status :| Proceed(w, w', i, status) {
      j, s := i, Some(status);
      PublishedAlone(w, w', i, status);
    } else if i :| Report(w, w', i) {
      j, s := i, None;
    } else {
      var i, k, p :| Observe(w, w', i, k, p);
      j, s := i, None;
    }
  }

  /** No step lowers the total. */
  lemma StepNeverLowers(w: World, w': World)
    requires Inv(w) && Step(w, w')
    ensures |w'.published| == |w.published| && Lives(w.published) && Lives(w'.published)
    ensures Total(w.published) <= Total(w'.published)
  {
    var j, s := Published(w, w');
    if s.Some? {
      TotalOfOne(w.published, j, s.value);
    }
  }

  lemma {:induction false} SameNumber(ws: seq<World>, i: nat)
    requires Run(ws) && i < |ws|
    ensures |ws[i].published| == |ws[0].published|
  {
    if i > 0 {
      var k: nat := i - 1;
      SameNumber(ws, k);
      EveryReachableState(ws, k);
      StepOf(ws, k);
      StepNeverLowers(ws[k], ws[k + 1]);
    }
  }

  /** The levels of all runners of a state together. */
  ghost function Height(w: World): nat
  {
    if Lives(w.published) then Total(w.published) else 0
  }

  /** How many steps of a run raise it. */
  ghost function Rises(ws: seq<World>): nat
  {
    if |ws| < 2 then 0
    else
      var last := |ws| - 1;
      Rises(ws[..last]) + if Height(ws[last]) > Height(ws[last - 1]) then 1 else 0
  }

  lemma HeightNeverFalls(ws: seq<World>, i: nat)
    requires Run(ws) && i + 1 < |ws|
    ensures Height(ws[i]) <= Height(ws[i + 1]) <= 6 * |ws[0].published|
  {
    EveryReachableState(ws, i);
    StepOf(ws, i);
    StepNeverLowers(ws[i], ws[i + 1]);
    SameNumber(ws, i + 1);
    TotalBounded(ws[i + 1].published);
  }

  lemma {:induction false} RisesBounded(ws: seq<World>, n: nat)
    requires Run(ws) && 0 < n <= |ws|
    ensures Rises(ws[..n]) + Height(ws[0]) <= Height(ws[n - 1])
  {
    if n > 1 {
      RisesBounded(ws, n - 1);
      HeightNeverFalls(ws, n - 2);
      assert ws[..n][..n - 1] == ws[..n - 1];
    }
  }

  /** However the run of n nodes goes, at most 6n of its steps raise a level. */
  lemma BringUpIsLinear(ws: seq<World>)
    requires Run(ws)
    ensures Rises(ws) <= 6 * |ws[0].published|
  {
    RisesBounded(ws, |ws|);
    assert ws[..|ws|] == ws;
    if |ws| > 1 {
      HeightNeverFalls(ws, |ws| - 2);
    }
  }

  // ---------------------------------------------------------------- it gets there

  lemma TaskIsStep(w: World, i: nat, s: Status, books: Books, inputs: Inputs, w': World)
    requires Shaped(w) && i < |w.published| && s != Actual(w, i) && w' == CaughtUp(Publish(w, i, s), i)
    requires var d := Decided(w, i, books, inputs);
             d.Do? && Directed(d.action) && Accepts(Actual(w, i), d.action) == Some(s)
    ensures Step(w, w')
  {
    assert Act(w, w', i, books, inputs);
  }

  /** What can rise does so in one step of the system. */
  lemma RiseIsStep(w: World, i: nat, s: Status, books: Books, inputs: Inputs) returns (w': World)
    requires Inv(w) && CanRise(w, i, s, books, inputs)
    ensures Step(w, w') && w'.inst == w.inst && Height(w') > Height(w)
  {
    TotalOfOne(w.published, i, s);
    if Proceeds(w, i, s) {
      w' := Publish(w, i, s);
      assert Proceed(w, w', i, s);
    } else {
      w' := CaughtUp(Publish(w, i, s), i);
      TaskIsStep(w, i, s, books, inputs, w');
    }
  }

  ghost predicate NoOlder(a: Option<nat>, b: Option<nat>)
  {
    a.Some? ==> b.Some? && a.value <= b.value
  }

  ghost predicate Wiser(w: World, w': World)
  {
    && Shaped(w) && Shaped(w') && w'.inst == w.inst && w'.published == w.published
    && (forall i :: 0 <= i < |w.published| ==> w.known[i] <= w'.known[i])
    && forall i, j :: 0 <= i < |w.published| && 0 <= j < |w.published| ==> NoOlder(w.seen[i][j], w'.seen[i][j])
  }

  /** The run goes on and only what the nodes know moves on: nothing is published, nothing unlearned. */
  ghost predicate OnlyLearns(ws: seq<World>, more: seq<World>)
    requires ws != []
  {
    ws <= more && Run(more) && Wiser(Last(ws), Last(more))
  }

  lemma LearnsOn(a: seq<World>, b: seq<World>, c: seq<World>)
    requires a != [] && b != [] && OnlyLearns(a, b) && OnlyLearns(b, c)
    ensures OnlyLearns(a, c)
  {
  }

  lemma LearnsOnce(ws: seq<World>, w: World)
    requires Run(ws) && Step(Last(ws), w) && Wiser(Last(ws), w)
    ensures OnlyLearns(ws, ws + [w]) && Last(ws + [w]) == w
  {
    OneStepMore(ws, w);
  }

  lemma NextRead(w: World, i: nat) returns (w': World)
    requires Shaped(w) && i < |w.published| && w.known[i] + 1 < |w.published[i]|
    ensures Step(w, w') && Wiser(w, w') && w'.known[i] == w.known[i] + 1
  {
    w' := w.(known := w.known[i := w.known[i] + 1]);
    assert Report(w, w', i);
  }

  /** The supervisor reads on until it is up to date. */
  lemma {:induction false} ReadOn(ws: seq<World>, i: nat) returns (more: seq<World>)
    requires Run(ws) && Shaped(Last(ws)) && i < |Last(ws).published|
    ensures OnlyLearns(ws, more) && Last(more).known[i] == |Last(more).published[i]| - 1
    decreases |Last(ws).published[i]| - Last(ws).known[i]
  {
    if Last(ws).known[i] == |Last(ws).published[i]| - 1 {
      return ws;
    }
    var next := NextRead(Last(ws), i);
    LearnsOnce(ws, next);
    more := ReadOn(ws + [next], i);
    LearnsOn(ws, ws + [next], more);
  }

  lemma {:induction false} AllReadOn(ws: seq<World>, n: nat) returns (more: seq<World>)
    requires Run(ws) && Shaped(Last(ws)) && n <= |Last(ws).published|
    ensures OnlyLearns(ws, more)
    ensures forall i :: 0 <= i < n ==> Last(more).known[i] == |Last(more).published[i]| - 1
  {
    if n == 0 {
      return ws;
    }
    var before := AllReadOn(ws, n - 1);
    more := ReadOn(before, n - 1);
    LearnsOn(ws, before, more);
  }

  lemma Latest(w: World, i: nat, j: nat) returns (w': World)
    requires Shaped(w) && i < |w.published| && j < |w.published|
    ensures Step(w, w') && Wiser(w, w') && w'.seen[i][j] == Some(|w'.published[j]| - 1)
  {
    var p := |w.published[j]| - 1;
    w' := w.(seen := w.seen[i := w.seen[i][j := Some(p)]]);
    assert Observe(w, w', i, j, p);
  }

  /** Node i has seen the latest of the first n runners. */
  ghost predicate Current(w: World, i: nat, n: nat)
    requires Shaped(w) && i < |w.published| && n <= |w.published|
  {
    forall j :: 0 <= j < n ==> w.seen[i][j] == Some(|w.published[j]| - 1)
  }

  lemma StaysCurrent(w: World, w': World, i: nat, n: nat)
    requires Wiser(w, w') && i < |w.published| && n <= |w.published| && Current(w, i, n)
    ensures Current(w', i, n)
  {
  }

  lemma LookAt(ws: seq<World>, i: nat, j: nat) returns (more: seq<World>)
    requires Run(ws) && Shaped(Last(ws)) && i < |Last(ws).published| && j < |Last(ws).published|
    ensures OnlyLearns(ws, more) && Last(more).seen[i][j] == Some(|Last(more).published[j]| - 1)
  {
    var next := Latest(Last(ws), i, j);
    LearnsOnce(ws, next);
    more := ws + [next];
  }

  lemma OneMoreCurrent(w: World, w': World, i: nat, n: nat)
    requires Wiser(w, w') && i < |w.published| && n < |w.published| && Current(w, i, n)
    requires w'.seen[i][n] == Some(|w'.published[n]| - 1)
    ensures Current(w', i, n + 1)
  {
    StaysCurrent(w, w', i, n);
  }

  lemma {:induction false} LookAtAll(ws: seq<World>, i: nat, n: nat) returns (more: seq<World>)
    requires Run(ws) && Shaped(Last(ws)) && i < |Last(ws).published| && n <= |Last(ws).published|
    ensures OnlyLearns(ws, more) && Current(Last(more), i, n)
  {
    if n == 0 {
      return ws;
    }
    var before := LookAtAll(ws, i, n - 1);
    more := LookAt(before, i, n - 1);
    OneMoreCurrent(Last(before), Last(more), i, n - 1);
    LearnsOn(ws, before, more);
  }

  lemma {:induction false} AllLook(ws: seq<World>, n: nat) returns (more: seq<World>)
    requires Run(ws) && Shaped(Last(ws)) && n <= |Last(ws).published|
    ensures OnlyLearns(ws, more)
    ensures forall i :: 0 <= i < n ==> Current(Last(more), i, |Last(more).published|)
  {
    if n == 0 {
      return ws;
    }
    var before := AllLook(ws, n - 1);
    more := LookAtAll(before, n - 1, |Last(before).published|);
    forall i | 0 <= i < n - 1 ensures Current(Last(more), i, |Last(more).published|) {
      StaysCurrent(Last(before), Last(more), i, |Last(before).published|);
    }
    LearnsOn(ws, before, more);
  }

  lemma UpToDateNow(w: World)
    requires Shaped(w) && forall i :: 0 <= i < |w.published| ==> w.known[i] == |w.published[i]| - 1
    requires forall i :: 0 <= i < |w.published| ==> Current(w, i, |w.published|)
    ensures UpToDate(w)
  {
    forall i, j | 0 <= i < |w.published| && 0 <= j < |w.published| ensures w.seen[i][j] == Some(|w.published[j]| - 1) {
      assert Current(w, i, |w.published|);
    }
  }

  /** Every node can be brought up to date. */
  lemma Refresh(ws: seq<World>) returns (more: seq<World>)
    requires Run(ws)
    ensures OnlyLearns(ws, more) && UpToDate(Last(more))
  {
    EveryReachableState(ws, |ws| - 1);
    var read := AllReadOn(ws, |Last(ws).published|);
    more := AllLook(read, |Last(read).published|);
    LearnsOn(ws, read, more);
    UpToDateNow(Last(more));
  }

  ghost predicate AllServe(w: World)
    requires Shaped(w)
  {
    forall j :: 0 <= j < |w.published| ==> Serving(Actual(w, j))
  }

  lemma Reachable(ws: seq<World>)
    requires Run(ws)
    ensures Inv(Last(ws)) && Height(Last(ws)) <= 6 * |Last(ws).published|
  {
    EveryReachableState(ws, |ws| - 1);
    TotalBounded(Last(ws).published);
  }

  lemma RaiseOne(ws: seq<World>, books: Books, inputs: Inputs) returns (more: seq<World>)
    requires Run(ws) && Quiet(Last(ws).inst, inputs) && Inv(Last(ws)) && !AllServe(Last(ws))
    ensures ws <= more && Run(more) && Last(more).inst == Last(ws).inst
    ensures Height(Last(more)) > Height(Last(ws))
  {
    var informed := Refresh(ws);
    Reachable(informed);
    var j :| 0 <= j < |Last(ws).published| && !Serving(Actual(Last(ws), j));
    assert !Serving(Actual(Last(informed), j));
    var i, s := NeverStuck(Last(informed), books, inputs);
    var next := RiseIsStep(Last(informed), i, s, books, inputs);
    OneStepMore(informed, next);
    more := informed + [next];
  }

  /** From every reachable state the run can go on until all runners serve, and in the whole run at
      most 6n steps raise a level. */
  lemma {:induction false} BringUpCompletes(ws: seq<World>, books: Books, inputs: Inputs) returns (more: seq<World>)
    requires Run(ws) && Quiet(Last(ws).inst, inputs)
    ensures ws <= more && Run(more) && Shaped(Last(more)) && AllServe(Last(more))
    ensures Rises(more) <= 6 * |ws[0].published|
    decreases 6 * |Last(ws).inst.shards| - Height(Last(ws))
  {
    Reachable(ws);
    if AllServe(Last(ws)) {
      BringUpIsLinear(ws);
      return ws;
    }
    var raised := RaiseOne(ws, books, inputs);
    Reachable(raised);
    more := BringUpCompletes(raised, books, inputs);
  }
}
