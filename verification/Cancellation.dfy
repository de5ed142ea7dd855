/** What a cancelled job is spared, over every run. */
module Cancellation {
  import opened Rows
  import opened Rules
  import opened Bulk
  import opened Protocol
  import opened Invariant
  import opened WorkerSteps
  import opened BulkFacts
  import opened OperatorSteps
  import opened Advance
  import opened Footprint

  lemma QuietWhileCancelled(s: System, step: Step, j: JobId)
    requires Inv(s) && Enabled(s, step) && j in s.db.jobs && s.db.jobs[j].cancelled
    ensures var t := Apply(s, step);
            t.clicks[j] == s.clicks[j] && t.claims[j] == s.claims[j] && t.handBacks[j] == s.handBacks[j]
  {
    hide Apply, HistoryAdvance, JobsAdvance, CountsStand, RowsOk, TakeoverOk, PublishedOk, NotesOk;
    StepAdvances(s, step);
    if IsClick(step) {
      assert FenceHeld(s, step.run);
    }
  }

  /** A cancelled job stays cancelled over every run in which neither the tracker requeues it nor an
      operator resolves it; and in such a run it is neither claimed, nor handed back, nor clicked,
      even if a worker was in the middle of submitting it. */
  lemma {:induction false} CancelledIsQuiet(s: System, steps: seq<Step>, j: JobId)
    requires Inv(s) && j in s.db.jobs && s.db.jobs[j].cancelled
    requires Valid(s, steps) && NeverPutBack(s, steps, j)
    ensures var t := After(s, steps);
            && j in t.db.jobs && t.db.jobs[j].cancelled
            && t.clicks[j] == s.clicks[j] && t.claims[j] == s.claims[j] && t.handBacks[j] == s.handBacks[j]
    decreases |steps|
  {
    hide Apply, Inv;
    if steps != [] {
      StepKeeps(s, steps[0]);
      StepStands(s, steps[0], j);
      QuietWhileCancelled(s, steps[0], j);
      CancelledIsQuiet(Apply(s, steps[0]), steps[1..], j);
    }
  }

  /** What cancelling is for: from the call on, and until the tracker requeues the job or an operator
      resolves it, no worker claims the job and no worker presses its button. */
  lemma CancelSettles(s: System, j: JobId, steps: seq<Step>)
    requires Inv(s) && Enabled(s, Operate(j, Cancel)) && j in s.db.jobs
    requires var t := Apply(s, Operate(j, Cancel)); Valid(t, steps) && NeverPutBack(t, steps, j)
    ensures var t := After(Apply(s, Operate(j, Cancel)), steps);
            && j in t.db.jobs && t.db.jobs[j].cancelled && t.clicks[j] == s.clicks[j] && t.claims[j] == s.claims[j]
  {
    StepKeeps(s, Operate(j, Cancel));
    CancelledIsQuiet(Apply(s, Operate(j, Cancel)), steps, j);
  }
}
