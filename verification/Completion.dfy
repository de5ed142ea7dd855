/** What may still happen to a job that an operator has completed through safe resume. */
module Completion {
  import opened Rows
  import opened Rules
  import opened Bulk
  import opened Protocol
  import opened Invariant
  import opened WorkerSteps
  import opened OperatorSteps
  import opened Advance
  import opened Footprint
  import opened Continuations
  import opened Submission

  /** The job is settled, and the run that still owns it, if any, is not at work before its intent. */
  predicate Settled(s: System, j: JobId) {
    && j in s.db.jobs && SettledState(s.db.jobs[j].state)
    && (s.db.jobs[j].owner.Some? ==> CurrentRun(s, j).Some? && CurrentRun(s, j).value.phase != Working)
  }

  lemma MoveSettles(s: System, r: RunId, m: Move, p: Phase)
    requires r in s.runs && SettledState(m.to)
    ensures StaysSettled(s, RunMove(s, r, m, p), r.job)
  {
    TransitionFrame(s.db, r.job, s.runs[r].worker, r.gen, m, s.now);
  }

  /** The own run of a settled job leaves it settled. */
  lemma OwnActSettles(s: System, r: RunId, act: Act)
    requires Inv(s) && ActAllowed(s, r, act) && Settled(s, r.job) && Owns(s.db, r.job, s.runs[r].worker, r.gen)
    ensures StaysSettled(s, ActEffect(s, r, act), r.job)
  {
    hide RowsOk, FenceOk, TakeoverOk, PublishedOk, NotesOk, TransitionJob, MarkAmbiguous, FenceOpens, MayComplete,
      CompletedAttempt, MayPublish, NamesClaim, OwnerGate;
    match act
    case AnnounceVerifying => MoveSettles(s, r, Plain(Verifying), Awaiting);
    case Confirm => MoveSettles(s, r, Live(Applied), Finished);
    case Reject => MoveSettles(s, r, Live(FailedPermanent), Finished);
    case Doubt(pick) => MarkRow(s, r.job, DoubtMark(r, s.runs[r]), None, pick);
    case _ =>
  }

  lemma ActSettles(s: System, r: RunId, act: Act)
    requires Inv(s) && Enabled(s, Work(r, act)) && Settled(s, r.job)
    ensures StaysSettled(s, ActEffect(s, r, act), r.job)
  {
    hide ActEffect, Settled, Inv;
    if Owns(s.db, r.job, s.runs[r].worker, r.gen) {
      OwnActSettles(s, r, act);
    } else {
      StaleWrites(s, r, act);
    }
  }

  lemma SettledAdvance(s: System, t: System, step: Step, j: JobId)
    requires StepAdvance(s, t, step) && Settled(s, j) && StaysSettled(s, t, j) && t.claims[j] == s.claims[j]
    requires j in t.db.jobs ==> JobOk(t, j)
    ensures Settled(t, j)
  {
    hide CountsStand, SameRuns, IntentsStand;
  }

  /** No step but a put-back moves, claims or clicks a settled job out of its settlement. */
  lemma SettledStep(s: System, step: Step, j: JobId)
    requires Inv(s) && Enabled(s, step) && Settled(s, j) && !PutBack(s, step, j)
    ensures var t := Apply(s, step);
            Settled(t, j) && t.clicks[j] == s.clicks[j] && t.claims[j] == s.claims[j]
  {
    hide Apply, StepAdvance, PutBack;
    var t := Apply(s, step);
    StepKeeps(s, step);
    StepAdvances(s, step);
    SettledIsQuiet(s, t, step, j);
    StepStands(s, step, j);
    if step.Work? && step.run.job == j {
      ActSettles(s, step.run, step.act);
      Unfold(s, step.run, step.act);
    }
    assert j in t.db.jobs && JobOk(t, j);
    SettledAdvance(s, t, step, j);
  }

  lemma Unfold(s: System, r: RunId, act: Act)
    requires Enabled(s, Work(r, act))
    ensures Apply(s, Work(r, act)) == ActEffect(s, r, act)
  {
    hide ActEffect;
  }

  lemma SettledIsQuiet(s: System, t: System, step: Step, j: JobId)
    requires Inv(s) && Enabled(s, step) && StepAdvance(s, t, step) && Settled(s, j)
    ensures t.clicks[j] == s.clicks[j] && t.claims[j] == s.claims[j]
  {
    hide HistoryAdvance, JobsAdvance, CountsStand, RowsOk, TakeoverOk, PublishedOk, NotesOk;
    if IsClick(step) {
      assert FenceHeld(s, step.run);
    }
  }

  lemma {:induction false} SettledThroughout(s: System, steps: seq<Step>, j: JobId)
    requires Inv(s) && Valid(s, steps) && Settled(s, j) && NeverPutBack(s, steps, j)
    ensures var t := After(s, steps);
            Settled(t, j) && t.clicks[j] == s.clicks[j] && t.claims[j] == s.claims[j]
    decreases |steps|
  {
    hide Apply, Settled, Inv, PutBack;
    if steps != [] {
      StepKeeps(s, steps[0]);
      SettledStep(s, steps[0], j);
      SettledThroughout(Apply(s, steps[0]), steps[1..], j);
    }
  }

  // ---------------------------------------------------------------- the completion

  function Completing(j: JobId, w: WorkerId, g: nat, expected: Option<OperatorId>): Step {
    Operate(j, CompleteByOperator(w, g, expected))
  }

  /** The completion is admitted and takes effect. */
  ghost predicate Completes(s: System, j: JobId, w: WorkerId, g: nat, expected: Option<OperatorId>) {
    Enabled(s, Completing(j, w, g, expected)) && MayMove(s.db, j, w, g, Live(Applied), s.now)
  }

  lemma CompletionEffect(s: System, j: JobId, w: WorkerId, g: nat, expected: Option<OperatorId>)
    requires Inv(s) && Completes(s, j, w, g, expected)
    ensures var t := Apply(s, Completing(j, w, g, expected));
            && s.fence.None? && CurrentRun(s, j).Some? && CurrentRun(s, j).value.worker == w && s.db.jobs[j].gen == g
            && t == s.(db := t.db) && t.db.attempts == s.db.attempts
            && t.db.jobs == s.db.jobs[j := MovedRow(s.db.jobs[j], Live(Applied))]
  {
    hide TransitionJob, FenceOk, TakeoverOk, PublishedOk, NotesOk;
    TransitionFrame(s.db, j, w, g, Live(Applied), s.now);
    assert JobOk(s, j);
  }

  /** A completed job whose run is past its intent, or over, is neither clicked nor claimed in any
      later run, unless it is put back. */
  lemma CompletionSettles(s: System, j: JobId, w: WorkerId, g: nat, expected: Option<OperatorId>, steps: seq<Step>)
    requires Inv(s) && Completes(s, j, w, g, expected)
    requires CurrentRun(s, j).Some? && CurrentRun(s, j).value.phase != Working
    requires var t := Apply(s, Completing(j, w, g, expected)); Valid(t, steps) && NeverPutBack(t, steps, j)
    ensures var t := After(Apply(s, Completing(j, w, g, expected)), steps);
            t.clicks[j] == s.clicks[j] && t.claims[j] == s.claims[j]
  {
    hide Apply, Enabled, Inv;
    CompletionEffect(s, j, w, g, expected);
    StepKeeps(s, Completing(j, w, g, expected));
    SettledThroughout(Apply(s, Completing(j, w, g, expected)), steps, j);
  }

  lemma RenewIt(s: System, r: RunId, w: WorkerId)
    requires RoadOpen(s) && Owns(s.db, r.job, w, r.gen) && !s.db.jobs[r.job].cancelled
    requires LeaseBeyond(s.db.jobs[r.job], Sec(s.now))
    ensures var step := Heartbeat(r.job, w, r.gen);
            && Enabled(s, step)
            && var t := Apply(s, step);
            && t == s.(db := t.db) && t.db == s.db.(jobs := t.db.jobs) && RoadOpen(t)
            && t.db.jobs == s.db.jobs[r.job := s.db.jobs[r.job].(expires := Some(Sec(s.now) + LEASE_SECONDS))]
  {
    assert MayRenew(s.db, r.job, w, r.gen, s.now);
  }

  /** The run at work may press whatever state an operator gave its job. */
  lemma WorkGoesOn(s: System, r: RunId, w: WorkerId) returns (steps: seq<Step>, t: System)
    requires Inv(s) && s.fence.None? && r in s.runs && s.runs[r].phase == Working && s.runs[r].worker == w
    requires Owns(s.db, r.job, w, r.gen) && !s.db.jobs[r.job].cancelled && LeaseBeyond(s.db.jobs[r.job], Sec(s.now))
    ensures Leads(s, steps, t, r.job) && t.clicks == s.clicks + multiset{r.job}
  {
    hide Leads, Enabled, Apply, TakeoverOk, PublishedOk, NotesOk, FenceOk;
    assert RunOk(s, r);
    var steps1, s1 := OpenRoad(s, r.job);
    var e := Heartbeat(r.job, w, r.gen);
    RenewIt(s1, r, w); Extend(s, steps1, s1, e, r.job);
    var s2 := Apply(s1, e);
    var steps3;
    steps3, t := Press(s2, r, w, s.runs[r].attempt);
    Join(s, steps1 + [e], s2, steps3, t, r.job);
    steps := steps1 + [e] + steps3;
  }

  /** A completed job whose run is still at work before its intent can come to a click by that run,
      without being put back. */
  lemma CompletionThenClick(s: System, j: JobId, w: WorkerId, g: nat, expected: Option<OperatorId>)
    returns (more: seq<Step>)
    requires Inv(s) && Completes(s, j, w, g, expected)
    requires CurrentRun(s, j).Some? && CurrentRun(s, j).value.phase == Working
    ensures var t := Apply(s, Completing(j, w, g, expected));
            && Valid(t, more) && NeverPutBack(t, more, j)
            && After(t, more).clicks == s.clicks + multiset{j}
  {
    hide Apply, Enabled, Leads, Inv;
    var t := Apply(s, Completing(j, w, g, expected));
    CompletionEffect(s, j, w, g, expected);
    StepKeeps(s, Completing(j, w, g, expected));
    var u;
    more, u := WorkGoesOn(t, RunId(j, g), w);
    LeadsQuietly(t, more, u, j);
  }

  /** Whether a completion can be followed by the worker's click: if and only if the run that owns
      the job is still at work before its intent. */
  lemma CompletionDecides(s: System, j: JobId, w: WorkerId, g: nat, expected: Option<OperatorId>)
    requires Inv(s) && Completes(s, j, w, g, expected)
    ensures CurrentRun(s, j).Some?
    ensures ClickFollows(Apply(s, Completing(j, w, g, expected)), j) <==> CurrentRun(s, j).value.phase == Working
  {
    hide Apply, Enabled, Inv;
    var t := Apply(s, Completing(j, w, g, expected));
    CompletionEffect(s, j, w, g, expected);
    if CurrentRun(s, j).value.phase == Working {
      var more := CompletionThenClick(s, j, w, g, expected);
      assert Valid(t, more);
    } else {
      forall more {:trigger Valid(t, more)} | Valid(t, more) && NeverPutBack(t, more, j)
        ensures After(t, more).clicks[j] == t.clicks[j]
      {
        CompletionSettles(s, j, w, g, expected, more);
      }
    }
  }

  /** The same by what an operator can read before the call.  Completing a parked, waiting, changed
      or submitting job is never followed by a click; completing a running one is, exactly if its
      worker has not ended the run. */
  lemma CompletionByState(s: System, j: JobId, w: WorkerId, g: nat, expected: Option<OperatorId>)
    requires Inv(s) && Completes(s, j, w, g, expected)
    ensures var follows := ClickFollows(Apply(s, Completing(j, w, g, expected)), j);
            && (SetAside(s.db.jobs[j].state) || Submitting(s.db.jobs[j].state) ==> !follows)
            && (Running(s.db.jobs[j].state) ==>
                  CurrentRun(s, j).Some? && (follows <==> CurrentRun(s, j).value.phase != Finished))
  {
    hide Apply, Enabled, ClickFollows, FenceOk, TakeoverOk, PublishedOk, NotesOk;
    CompletionDecides(s, j, w, g, expected);
    assert JobOk(s, j) && RunOk(s, RunId(j, s.db.jobs[j].gen));
  }
}
