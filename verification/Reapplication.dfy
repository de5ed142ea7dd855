/** Two submissions of one application by two of its jobs. */
module Reapplication {
  import opened Rows
  import opened Rules
  import opened Bulk
  import opened Protocol
  import opened Invariant
  import opened WorkerSteps
  import opened OperatorSteps
  import opened Advance
  import opened Continuations
  import opened Submission
  import opened OneActive

  // ---------------------------------------------------------------- nothing remembers a finished submission

  /** An application without an unfinished job, submitted before or not, can be enqueued again, and
      its new job can come to a click: no guard reads what became of the earlier jobs. */
  lemma SubmittedAgain(s: System, app: AppId, k: JobId, priority: int, maxRetries: int) returns (more: seq<Step>)
    requires s.fence.None? && k !in s.db.jobs && !HasActiveJob(s.db, app)
    ensures var enqueue := Enqueue(k, app, priority, maxRetries);
            && Enabled(s, enqueue)
            && var t := Apply(s, enqueue);
            && k in t.db.jobs && t.db.jobs[k].app == app
            && Valid(t, more) && NeverPutBack(t, more, k) && After(t, more).clicks == s.clicks + multiset{k}
  {
    hide Leads;
    var t := Apply(s, Enqueue(k, app, priority, maxRetries));
    var u;
    more, u := WaitingJobIsPressed(t, k);
    LeadsQuietly(t, more, u, k);
  }

  // ---------------------------------------------------------------- what has to come in between

  /** The step brings the job into the queue. */
  predicate Starts(s: System, step: Step, k: JobId) {
    (step.Enqueue? && step.job == k) || PutBack(s, step, k)
  }

  /** At some moment of the run job `j` is finished, and then job `k` is brought into the queue. */
  ghost predicate StartsAfter(s: System, steps: seq<Step>, j: JobId, k: JobId)
    requires Valid(s, steps)
    decreases |steps|
  {
    steps != [] &&
    (|| (j in s.db.jobs && Terminal(s.db.jobs[j].state) && Starts(s, steps[0], k))
     || StartsAfter(Apply(s, steps[0]), steps[1..], j, k))
  }

  /** Job `k`, if it is of the application of `j`, is finished and has its `n` clicks. */
  predicate Behind(s: System, j: JobId, k: JobId, n: nat) {
    && j in s.db.jobs
    && (k !in s.db.jobs ==> s.clicks[k] == n)
    && (k in s.db.jobs && s.db.jobs[k].app == s.db.jobs[j].app ==> Terminal(s.db.jobs[k].state) && s.clicks[k] == n)
  }

  /** A job that is finished, or not there, is not clicked. */
  lemma FinishedIsQuiet(s: System, step: Step, k: JobId)
    requires Inv(s) && Enabled(s, step) && (k in s.db.jobs ==> Terminal(s.db.jobs[k].state))
    ensures Apply(s, step).clicks[k] == s.clicks[k]
  {
    hide Apply, HistoryAdvance, JobsAdvance, CountsStand, RowsOk, TakeoverOk, PublishedOk, NotesOk;
    StepAdvances(s, step);
    if IsClick(step) {
      assert FenceHeld(s, step.run);
    }
  }

  lemma EnqueueBehind(s: System, step: Step, j: JobId, k: JobId, n: nat)
    requires Inv(s) && Tidy(s) && OneActiveJob(s) && Enabled(s, step) && step.Enqueue? && Behind(s, j, k, n)
    requires !(Terminal(s.db.jobs[j].state) && step.job == k)
    ensures Behind(Apply(s, step), j, k, n)
  {
    hide Inv, Tidy, OneActiveJob;
    EnqueueStep(s, step);
  }

  lemma ReviveBehind(s: System, step: Step, j: JobId, k: JobId, n: nat)
    requires Inv(s) && Tidy(s) && Enabled(s, step) && Revives(s, step) && Orderly(s, step) && Behind(s, j, k, n)
    requires j != k && !(Terminal(s.db.jobs[j].state) && step.job == k)
    ensures Behind(Apply(s, step), j, k, n)
  {
    hide Apply, Enabled, Inv, Tidy, PutsBack, Rushes;
    ReviveStep(s, step);
    PutBackClicks(s, step, step.job);
  }

  lemma OtherBehind(s: System, step: Step, j: JobId, k: JobId, n: nat)
    requires Inv(s) && Tidy(s) && Enabled(s, step) && Behind(s, j, k, n)
    requires !step.Enqueue? && !Revives(s, step) && Orderly(s, step)
    ensures Behind(Apply(s, step), j, k, n)
  {
    hide Apply, Enabled, Inv, Tidy, Revives, Rushes, TidyJob;
    var t := Apply(s, step);
    StepTidies(s, step);
    assert Kept(s, t, j);
    if k in s.db.jobs {
      assert Kept(s, t, k);
    }
    if k !in s.db.jobs || s.db.jobs[k].app == s.db.jobs[j].app {
      FinishedIsQuiet(s, step, k);
    }
  }

  lemma BehindStep(s: System, step: Step, j: JobId, k: JobId, n: nat)
    requires Inv(s) && Tidy(s) && OneActiveJob(s) && Enabled(s, step) && Orderly(s, step) && j != k
    requires Behind(s, j, k, n) && !(Terminal(s.db.jobs[j].state) && Starts(s, step, k))
    ensures Behind(Apply(s, step), j, k, n)
  {
    hide Apply, Enabled, Inv, Tidy, OneActiveJob, Orderly, Behind, PutsBack;
    assert j in s.db.jobs by { InQueue(s, j, k, n); }
    if step.Enqueue? {
      EnqueueBehind(s, step, j, k, n);
    } else if Revives(s, step) {
      ReviveBehind(s, step, j, k, n);
    } else {
      OtherBehind(s, step, j, k, n);
    }
  }

  lemma InQueue(s: System, j: JobId, k: JobId, n: nat)
    requires Behind(s, j, k, n)
    ensures j in s.db.jobs
  {
  }

  lemma {:induction false} BehindThroughout(s: System, steps: seq<Step>, j: JobId, k: JobId, n: nat)
    requires Inv(s) && Tidy(s) && OneActiveJob(s) && Valid(s, steps) && OrderlyThroughout(s, steps) && j != k
    requires Behind(s, j, k, n) && !StartsAfter(s, steps, j, k)
    ensures Behind(After(s, steps), j, k, n) && After(s, steps).db.jobs[j].app == s.db.jobs[j].app
    decreases |steps|
  {
    hide Apply, Enabled, Inv, Tidy, OneActiveJob, Orderly, Behind, Starts;
    InQueue(s, j, k, n);
    if steps != [] {
      var s1 := Apply(s, steps[0]);
      StepKeeps(s, steps[0]);
      OneActiveStep(s, steps[0]);
      BehindStep(s, steps[0], j, k, n);
      AppStays(s, steps[0], j);
      BehindThroughout(s1, steps[1..], j, k, n);
    }
  }

  lemma AppStays(s: System, step: Step, j: JobId)
    requires Inv(s) && Enabled(s, step) && j in s.db.jobs
    ensures var t := Apply(s, step); j in t.db.jobs && t.db.jobs[j].app == s.db.jobs[j].app
  {
    hide Apply, HistoryAdvance, CountsStand, SameRuns, Inv;
    StepAdvances(s, step);
  }

  /** Under the two rules on operators: if the button of one job of an application is pressed, and
      later that of another, then in between the first job was finished and afterwards the other was
      enqueued or put back. */
  lemma SecondJobStartsAfter(s: System, before: seq<Step>, steps: seq<Step>, r: RunId, k: JobId)
    requires Initial(s) && Valid(s, before) && OrderlyThroughout(s, before)
    requires var u := After(s, before);
             && Enabled(u, Work(r, Click)) && Valid(u, steps) && OrderlyThroughout(u, steps) && r.job != k
             && r.job in u.db.jobs
             && var t := After(u, steps);
             k in t.db.jobs && t.db.jobs[k].app == u.db.jobs[r.job].app && t.clicks[k] > u.clicks[k]
    ensures StartsAfter(After(s, before), steps, r.job, k)
  {
    hide Apply, Enabled, OrderlyThroughout, FenceHeld;
    var u := After(s, before);
    InitialInv(s);
    OneActiveAlways(s, before);
    RunKeeps(s, before);
    FenceSafety(s, before, r);
    assert !Terminal(u.db.jobs[r.job].state) by { HeldIsUnfinished(u, r); }
    assert Behind(u, r.job, k, u.clicks[k]);
    if !StartsAfter(u, steps, r.job, k) {
      BehindThroughout(u, steps, r.job, k, u.clicks[k]);
    }
  }

  lemma HeldIsUnfinished(s: System, r: RunId)
    requires FenceHeld(s, r)
    ensures r.job in s.db.jobs && !Terminal(s.db.jobs[r.job].state)
  {
  }
}
