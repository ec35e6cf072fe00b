/** _missing_check_limitations of backend/app/projections/rebuild.py (lines 80-123). */
module Limitations {
  import opened Basics
  import opened Events
  import opened BirthWindow
  import opened Routes

  /** {value["operation_id"]: value}: the last run of an operation. */
  function RunOfOperation(runs: seq<Run>, operationId: string): Option<Run>
  {
    if runs == [] then None
    else
      var r := runs[|runs| - 1];
      if r.start.Some? && r.start.value.operationId == operationId then Some(r)
      else RunOfOperation(runs[..|runs| - 1], operationId)
  }

  /** An inspection at this step's control point between the step's end and the next step's start. */
  predicate Inspected(step: Step, completed: Option<Run>, nextStart: int, os: seq<Observation>)
  {
    exists o | o in os ::
      && Some(o.inspection.controlPoint) == step.controlPoint
      && (completed.None? || completed.value.finishedAt.None? || completed.value.finishedAt.value <= o.at)
      && o.at <= nextStart
  }

  /** Step i demanded an inspection, its successor has started, and no inspection lies in between. */
  predicate Missing(steps: seq<Step>, runs: seq<Run>, os: seq<Observation>, i: nat)
  {
    && i + 1 < |steps|
    && steps[i].required && Given(steps[i].controlPoint)
    && var next := RunOfOperation(runs, steps[i + 1].operationId);
       && next.Some? && next.value.startedAt.Some?
       && !Inspected(steps[i], RunOfOperation(runs, steps[i].operationId), next.value.startedAt.value, os)
  }

  function MissingEvidence(steps: seq<Step>, runs: seq<Run>, os: seq<Observation>, i: nat): Evidence
    requires Missing(steps, runs, os, i)
  {
    Evidence("MISSING_CHECK", "LIMITATION", None, RunOfOperation(runs, steps[i + 1].operationId).value.startedAt,
             MissingCheckDetail(steps[i].controlPoint.value, steps[i + 1].operationId))
  }

  function MissingUpTo(steps: seq<Step>, runs: seq<Run>, os: seq<Observation>, n: nat): seq<Evidence>
  {
    if n == 0 then []
    else MissingUpTo(steps, runs, os, n - 1) +
         if Missing(steps, runs, os, n - 1) then [MissingEvidence(steps, runs, os, n - 1)] else []
  }

  function MissingChecks(steps: seq<Step>, runs: seq<Run>, os: seq<Observation>): seq<Evidence>
  {
    MissingUpTo(steps, runs, os, |steps|)
  }

  method FindMissingChecks(steps: seq<Step>, runs: seq<Run>, os: seq<Observation>) returns (result: seq<Evidence>)
    ensures result == MissingChecks(steps, runs, os)
  {
    result := [];
    for i := 0 to |steps|
      invariant result == MissingUpTo(steps, runs, os, i)
    {
      if i + 1 < |steps| && steps[i].required && Given(steps[i].controlPoint) {
        var next := RunOfOperation(runs, steps[i + 1].operationId);
        if next.Some? && next.value.startedAt.Some? {
          var completed := RunOfOperation(runs, steps[i].operationId);
          if !Inspected(steps[i], completed, next.value.startedAt.value, os) {
            result := result + [Evidence("MISSING_CHECK", "LIMITATION", None, next.value.startedAt,
                                         MissingCheckDetail(steps[i].controlPoint.value, steps[i + 1].operationId))];
          }
        }
      }
    }
  }

  /** One limitation per missing check, and nothing else. */
  lemma {:induction false} MissingExact(steps: seq<Step>, runs: seq<Run>, os: seq<Observation>, n: nat, e: Evidence)
    ensures e in MissingUpTo(steps, runs, os, n) <==>
            exists i: nat :: i < n && Missing(steps, runs, os, i) && e == MissingEvidence(steps, runs, os, i)
  {
    if n > 0 {
      MissingExact(steps, runs, os, n - 1, e);
    }
  }
}
