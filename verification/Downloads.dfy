/** A node's download reports: one per model, each replaced in place by the next, which is what a
    worker's decision reads. */
module Downloads {
  import opened Common
  import opened Plan

  ghost predicate OnePerModel(reports: seq<Download>)
  {
    forall i, j :: 0 <= i < j < |reports| ==> reports[i].model != reports[j].model
  }

  ghost predicate NoneBefore(reports: seq<Download>, model: ModelId, n: nat)
    requires n <= |reports|
  {
    forall i :: 0 <= i < n ==> reports[i].model != model
  }

  /** The first report on the model gives way to the new one; without any it is added. */
  method PutReport(reports: seq<Download>, dp: Download) returns (current: seq<Download>)
    ensures |current| == if NoneBefore(reports, dp.model, |reports|) then |reports| + 1 else |reports|
    ensures forall i :: 0 <= i < |reports| && reports[i].model != dp.model ==> current[i] == reports[i]
    ensures forall i :: 0 <= i < |reports| && reports[i].model == dp.model ==>
              if exists j :: 0 <= j < i && reports[j].model == dp.model then current[i] == reports[i] else current[i] == dp
    ensures |current| > |reports| ==> current[|reports|] == dp
  {
    current := reports;
    for i := 0 to |current|
      invariant current == reports && NoneBefore(reports, dp.model, i)
    {
      if current[i].model == dp.model {
        current := current[i := dp];
        return;
      }
    }
    current := current + [dp];
  }

  /** What a decision finds about a model it is told of exactly once. */
  lemma {:induction false} ReportFound(reports: seq<Download>, i: nat)
    requires OnePerModel(reports) && i < |reports|
    ensures ReportOn(reports[i].model, reports) == Some(reports[i].state)
  {
    if i < |reports| - 1 {
      ReportFound(reports[..|reports| - 1], i);
    }
  }

  lemma {:induction false} NothingFound(reports: seq<Download>, model: ModelId)
    requires NoneBefore(reports, model, |reports|)
    ensures ReportOn(model, reports) == None
  {
    if reports != [] {
      NothingFound(reports[..|reports| - 1], model);
    }
  }

  lemma SameFor(reports: seq<Download>, current: seq<Download>, dp: Download, m: ModelId)
    requires OnePerModel(reports) && OnePerModel(current) && m != dp.model && |reports| <= |current|
    requires forall i :: 0 <= i < |reports| ==> current[i] == reports[i] || (current[i] == dp && reports[i].model == dp.model)
    requires forall i :: |reports| <= i < |current| ==> current[i] == dp
    ensures ReportOn(m, current) == ReportOn(m, reports)
  {
    if i :| 0 <= i < |reports| && reports[i].model == m {
      ReportFound(reports, i);
      ReportFound(current, i);
    } else {
      NothingFound(reports, m);
      NothingFound(current, m);
    }
  }

  /** After a report, decisions see its state for its model, and what they saw before for every
      other; there is still one report per model. */
  method Reported(reports: seq<Download>, dp: Download) returns (current: seq<Download>)
    requires OnePerModel(reports)
    ensures OnePerModel(current)
    ensures ReportOn(dp.model, current) == Some(dp.state)
    ensures forall m :: m != dp.model ==> ReportOn(m, current) == ReportOn(m, reports)
  {
    current := PutReport(reports, dp);
    if k :| 0 <= k < |reports| && reports[k].model == dp.model {
      assert current[k] == dp;
      ReportFound(current, k);
    } else {
      ReportFound(current, |reports|);
    }
    forall m | m != dp.model ensures ReportOn(m, current) == ReportOn(m, reports) {
      SameFor(reports, current, dp, m);
    }
  }
}
