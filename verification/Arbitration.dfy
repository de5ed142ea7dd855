/** The failure arbiter's answers are the protocol's exits: what it leaves in the tables is what the
    run's acts leave. */
module Arbitration {
  import opened Rows
  import opened Rules
  import opened Protocol
  import opened Invariant
  import opened OperatorSteps
  import opened Advance
  import opened WorkerSteps
  import opened Completion
  import Queue

  /** The exit that ends the job in `to`, with the counters the run has read. */
  predicate ExitsTo(run: Run, act: Act, to: JobState, retryAt: Option<nat>) {
    match act
    case Interrupt(state) => to == state && retryAt.None?
    case FailForGood => to == FailedPermanent && retryAt.None?
    case Reject => to == FailedPermanent && retryAt.None?
    case FailTransient(at) =>
      && run.budget.Some?
      && var count := run.budget.value.count;
      if count < run.budget.value.maxRetries
      then to == RetryWait
           && retryAt == Some(Sec(at) + (if count == 1 then 30 else if count == 2 then 120 else 600))
      else to == FailedPermanent && retryAt.None?
    case _ => false
  }

  lemma ExitIsAMove(s: System, r: RunId, act: Act, to: JobState, retryAt: Option<nat>)
    requires ActAllowed(s, r, act) && ExitsTo(s.runs[r], act, to, retryAt)
    ensures ActEffect(s, r, act) == RunMove(s, r, Move(to, true, 0, retryAt, false), Finished)
  {
    hide RunMove;
  }

  lemma RecordAfterMove(s: System, r: RunId, m: Move, outcome: Outcome)
    requires r in s.runs && s.runs[r].attempt.Some?
    ensures var t := RunMove(s, r, m, Finished);
            && ActAllowed(t, r, RecordOutcome(outcome))
            && ActEffect(t, r, RecordOutcome(outcome)).db
               == CompleteAttempt(t.db, s.runs[r].attempt.value, r.job, s.runs[r].worker, r.gen, outcome, s.now)
  {
    hide TransitionJob, CompleteAttempt;
  }

  /** A failure that moves the job leaves the tables of the run's exit, followed, if the exit took
      effect and an attempt was open, by the record of the state reached. */
  lemma FailureIsAnExit(s: System, r: RunId, act: Act, to: JobState, retryAt: Option<nat>, after: Db,
                        reached: Option<JobState>)
    requires ActAllowed(s, r, act) && ExitsTo(s.runs[r], act, to, retryAt)
    requires Queue.MovedTo(s.db, after, reached, r.job, s.runs[r].worker, r.gen, s.runs[r].attempt, to, retryAt, s.now)
    ensures var t := ActEffect(s, r, act);
            if reached.Some? && s.runs[r].attempt.Some?
            then ActAllowed(t, r, RecordOutcome(Reached(to)))
                 && after == ActEffect(t, r, RecordOutcome(Reached(to))).db
            else after == t.db
  {
    var m, attempt := Move(to, true, 0, retryAt, false), s.runs[r].attempt;
    hide TransitionJob, CompleteAttempt, ActAllowed, ActEffect;
    ExitIsAMove(s, r, act, to, retryAt);
    if attempt.Some? {
      RecordAfterMove(s, r, m, Reached(to));
    }
  }

  /** A failure that leaves the job uncertain leaves the tables of the run's doubt. */
  lemma FailureIsDoubt(s: System, r: RunId, after: Db, reached: Option<JobState>, pick: Option<AttemptId>)
    requires r in s.runs && (s.runs[r].phase.Intended? || s.runs[r].phase.Awaiting? || s.runs[r].phase.Uncertain?)
    requires Queue.MarkedUncertain(s.db, after, reached, r.job, s.runs[r].worker, r.gen, s.runs[r].attempt, pick, s.now)
    ensures ActAllowed(s, r, Doubt(pick)) && after == ActEffect(s, r, Doubt(pick)).db
  {
    hide MarkAmbiguous;
  }

  /** The failure beyond the boundary takes effect: a rejection, or doubt. */
  predicate FailsSubmitted(s: System, r: RunId, act: Act)
    requires r in s.runs
  {
    && Queue.OwnsLive(s.db, r.job, s.runs[r].worker, r.gen, s.now)
    && var row := s.db.jobs[r.job];
    (act.Reject? && !row.cancelled) || (act.Doubt? && (Running(row.state) || Submitting(row.state)))
  }

  lemma FailureSettles(s: System, r: RunId, act: Act)
    requires Inv(s) && Enabled(s, Work(r, act)) && FailsSubmitted(s, r, act)
    ensures var t := Apply(s, Work(r, act));
            && Settled(t, r.job) && t.clicks == s.clicks && t.claims == s.claims
            && t.db.jobs[r.job].state == if act.Reject? then FailedPermanent else AmbiguousSubmission
  {
    hide RowsOk, FenceOk, TakeoverOk, PublishedOk, NotesOk, TransitionJob, MarkAmbiguous;
    if act.Reject? {
      TransitionFrame(s.db, r.job, s.runs[r].worker, r.gen, Live(FailedPermanent), s.now);
    } else {
      Queue.MarkedRow(s.db, r.job, DoubtMark(r, s.runs[r]), None, act.pick, s.now);
    }
  }

  /** Nothing beyond the boundary is ever retried.  A failure there that takes effect ends the job
      rejected or ambiguous, and in every run after it, unless the job is put back, it is neither
      claimed nor clicked again. */
  lemma NeverRetried(s: System, r: RunId, act: Act, failed: System, steps: seq<Step>)
    requires Inv(s) && Enabled(s, Work(r, act)) && FailsSubmitted(s, r, act) && failed == Apply(s, Work(r, act))
    requires Valid(failed, steps) && NeverPutBack(failed, steps, r.job)
    ensures r.job in failed.db.jobs
            && failed.db.jobs[r.job].state == if act.Reject? then FailedPermanent else AmbiguousSubmission
    ensures var t := After(failed, steps);
            && t.clicks[r.job] == s.clicks[r.job] && t.claims[r.job] == s.claims[r.job]
            && r.job in t.db.jobs && !Running(t.db.jobs[r.job].state)
            && !(t.db.jobs[r.job].state in {Ready, RetryWait})
  {
    hide Apply, Enabled, Inv, FailsSubmitted, NeverPutBack;
    FailureSettles(s, r, act);
    StepKeeps(s, Work(r, act));
    SettledThroughout(failed, steps, r.job);
  }
}
