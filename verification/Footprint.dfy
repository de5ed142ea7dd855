/** Which job rows a step may write, and what it cannot undo there. */
module Footprint {
  import opened Rows
  import opened Rules
  import opened Bulk
  import opened Protocol
  import opened Invariant
  import opened WorkerSteps
  import opened BulkFacts
  import opened OperatorSteps
  import opened Advance

  /** Where a submission that is over, or an operator's completion, leaves a job. */
  predicate SettledState(state: JobState) {
    state.Verifying? || state.Applied? || state.AmbiguousSubmission? || state.FailedPermanent?
  }

  predicate StaysSettled(s: System, t: System, j: JobId) {
    j in s.db.jobs && SettledState(s.db.jobs[j].state) ==> j in t.db.jobs && SettledState(t.db.jobs[j].state)
  }

  predicate StaysCancelled(s: System, t: System, j: JobId) {
    j in s.db.jobs && s.db.jobs[j].cancelled ==> j in t.db.jobs && t.db.jobs[j].cancelled
  }

  predicate Stands(s: System, t: System, j: JobId) {
    StaysCancelled(s, t, j) && StaysSettled(s, t, j)
  }

  /** At most the row of `j` has changed; it stays cancelled, and a waiting row without an owner stays as it is. */
  predicate OneRow(s: System, t: System, j: JobId) {
    t.db.jobs == s.db.jobs
    || (&& j in s.db.jobs && j in t.db.jobs && t.db.jobs == s.db.jobs[j := t.db.jobs[j]]
        && (s.db.jobs[j].cancelled ==> t.db.jobs[j].cancelled)
        && (s.db.jobs[j].owner.None? && s.db.jobs[j].state == Ready ==> t.db.jobs[j] == s.db.jobs[j]))
  }

  lemma SameJobs(s: System, t: System, j: JobId)
    requires t.db.jobs == s.db.jobs
    ensures OneRow(s, t, j)
  {
  }

  lemma MoveRow(s: System, r: RunId, m: Move, p: Phase)
    requires r in s.runs
    ensures OneRow(s, RunMove(s, r, m, p), r.job) && RunMove(s, r, m, p).db.ctrl == s.db.ctrl
  {
    TransitionFrame(s.db, r.job, s.runs[r].worker, r.gen, m, s.now);
  }

  lemma HandBackRow(s: System, r: RunId, delay: nat, at: nat)
    requires r in s.runs
    ensures OneRow(s, HandedBack(s, r, delay, at), r.job) && HandedBack(s, r, delay, at).db.ctrl == s.db.ctrl
  {
    TransitionFrame(s.db, r.job, s.runs[r].worker, r.gen, GateMove(delay, at), s.now);
  }

  lemma MarkRow(s: System, j: JobId, m: Mark, latest: Option<AttemptId>, pick: Option<AttemptId>)
    requires latest.Some? ==> latest.value in s.db.attempts
    requires pick.Some? ==> pick.value in s.db.attempts
    ensures var t := s.(db := MarkAmbiguous(s.db, j, m, latest, pick, s.now)); OneRow(s, t, j) && StaysSettled(s, t, j)
  {
    if MayMark(s.db, j, m, latest, s.now) {
      MarkFrame(s.db, j, m, latest, pick, s.now);
    }
  }

  lemma DoubtRow(s: System, r: RunId, pick: Option<AttemptId>)
    requires r in s.runs && (pick.Some? ==> pick.value in s.db.attempts)
    ensures var db := MarkAmbiguous(s.db, r.job, DoubtMark(r, s.runs[r]), None, pick, s.now);
            OneRow(s, Goto(s.(db := db), r, Finished), r.job)
  {
    hide MarkAmbiguous;
    MarkRow(s, r.job, DoubtMark(r, s.runs[r]), None, pick);
  }

  lemma CommitRow(s: System, r: RunId)
    requires ActAllowed(s, r, CommitIntent)
    ensures OneRow(s, IntentCommitted(s, r), r.job) && IntentCommitted(s, r).db.ctrl == s.db.ctrl
  {
    var run := s.runs[r];
    if MayCommitIntent(s.db, run.attempt.value, r.job, run.worker, r.gen, s.now) {
      IntentFrame(s.db, run.attempt.value, r.job, run.worker, r.gen, s.now);
    }
  }

  /** The acts that write neither job nor run. */
  predicate Records(act: Act) {
    act.RecordOutcome? || act.RecordFillOnly? || act.PauseForLogin? || act.PublishBrowser? || act.RecordApplication?
  }

  lemma RecordRow(s: System, r: RunId, act: Act)
    requires ActAllowed(s, r, act) && Records(act)
    ensures OneRow(s, ActEffect(s, r, act), r.job)
    ensures ActEffect(s, r, act).db.ctrl == s.db.ctrl || act.PauseForLogin? || act.PublishBrowser?
  {
    hide MayComplete, CompletedAttempt, MayPublish, NamesClaim, OwnerGate, OneRow, IsTarget;
    SameJobs(s, ActEffect(s, r, act), r.job);
  }

  /** A run writes no other job's row, and the control row only to pause or to publish its browser. */
  lemma ActRow(s: System, r: RunId, act: Act)
    requires ActAllowed(s, r, act)
    ensures OneRow(s, ActEffect(s, r, act), r.job)
    ensures ActEffect(s, r, act).db.ctrl == s.db.ctrl || act.PauseForLogin? || act.Doubt? || act.PublishBrowser?
  {
    hide TransitionJob, MarkAmbiguous, MayMove, IntentCommitted, HandedBack, FenceOpens, CompleteAttempt,
      CompletedAttempt, Published, SetPause, OneRow;
    match act
    case Navigate => MoveRow(s, r, Plain(Navigating), Working);
    case ParkForLogin => MoveRow(s, r, Plain(AuthRequired), Finished);
    case Interrupt(to) => MoveRow(s, r, Live(to), Finished);
    case FailForGood => MoveRow(s, r, Live(FailedPermanent), Finished);
    case FailTransient(t) =>
      MoveRow(s, r, TransientMove(s.runs[r].budget.value.count, s.runs[r].budget.value.maxRetries, t), Finished);
    case HandBack(delay, t) => HandBackRow(s, r, delay, t);
    case FinishFillOnly => MoveRow(s, r, Plain(Skipped), Finished);
    case CommitIntent => CommitRow(s, r);
    case AnnounceVerifying => MoveRow(s, r, Plain(Verifying), Awaiting);
    case Confirm => MoveRow(s, r, Live(Applied), Finished);
    case Reject => MoveRow(s, r, Live(FailedPermanent), Finished);
    case Doubt(pick) => DoubtRow(s, r, pick);
    case RecordOutcome(_) | RecordFillOnly | PauseForLogin | PublishBrowser(_, _) | RecordApplication(_, _) =>
      RecordRow(s, r, act);
    case _ => SameJobs(s, ActEffect(s, r, act), r.job);
  }

  lemma SweepRow(s: System, j: JobId, sweep: Sweep)
    requires SweepAllowed(s, j, sweep)
    ensures OneRow(s, SweepEffect(s, j, sweep), j) && StaysSettled(s, SweepEffect(s, j, sweep), j)
  {
    hide MarkAmbiguous;
    match sweep
    case MarkStranded(owner, g, pick) => MarkRow(s, j, SweepMark(owner, g), None, pick);
    case MarkCleared(owner, g, pick) => MarkRow(s, j, ClearMark(owner, g), None, pick);
    case Repair(latest, pick) => MarkRow(s, j, REPAIR_MARK, latest, pick);
    case _ =>
  }

  // ---------------------------------------------------------------- the operator's calls

  lemma SkipStands(s: System, k: JobId, pick: Option<AttemptId>, j: JobId)
    requires pick.Some? ==> pick.value in s.db.attempts
    ensures Stands(s, s.(db := SkipJob(s.db, k, pick, s.now)), j)
  {
    if k in s.db.jobs { SkipFrame(s.db, k, pick, s.now); }
  }

  lemma ResolveStands(s: System, k: JobId, force: bool, expected: Option<OperatorId>, j: JobId)
    requires !PutBack(s, Operate(k, Resolve(force, expected)), j)
    ensures Stands(s, CallEffect(s, k, Resolve(force, expected)), j)
  {
    if MayResolve(s.db, k, force, expected, s.now) { ResolveFrame(s.db, k, force, expected, s.now); }
  }

  lemma CompleteStands(s: System, k: JobId, w: WorkerId, g: nat, j: JobId)
    ensures Stands(s, s.(db := TransitionJob(s.db, k, w, g, Live(Applied), s.now)), j)
  {
    TransitionFrame(s.db, k, w, g, Live(Applied), s.now);
  }

  lemma CallStands(s: System, k: JobId, call: Call, j: JobId)
    requires CallAllowed(s, k, call) && !PutBack(s, Operate(k, call), j)
    ensures Stands(s, CallEffect(s, k, call), j)
  {
    hide TransitionJob, SkipJob, ResolveJob, MayResolve, OwnerGate, LeaseBeyond, CompletedAttempt;
    match call
    case Skip(pick) => SkipStands(s, k, pick, j);
    case Resolve(force, expected) => ResolveStands(s, k, force, expected, j);
    case CompleteByOperator(w, g, _) => CompleteStands(s, k, w, g, j);
    case _ =>
  }

  lemma StopStands(s: System, command: Command, j: JobId)
    requires CommandAllowed(s, command) && command.StopEverything?
    ensures Stands(s, CommandEffect(s, command), j)
  {
    hide Stopped, MarkAll;
    if StopCommits(s.db, command.rows, command.picks, command.stopper, command.t1, command.t2, command.t3) {
      StoppedJobs(s.db, command.rows, command.picks, command.t1);
    }
  }

  lemma CommandStands(s: System, command: Command, j: JobId)
    requires CommandAllowed(s, command)
    ensures Stands(s, CommandEffect(s, command), j)
  {
    hide ShutdownAll, EmergencyStop;
    match command
    case ResetAll =>
    case StopEverything(_, _, _, _, _, _) => StopStands(s, command, j);
    case DaemonStop(w, rows, picks) => ShutdownAllJobs(s.db, rows, picks, s.now);
    case _ => ControlCommandFrame(s, command);
  }

  // ---------------------------------------------------------------- every step

  /** Only a put-back lifts a cancellation, and only it or the job's own run takes a settled job further. */
  lemma StepStands(s: System, step: Step, j: JobId)
    requires Enabled(s, step) && !PutBack(s, step, j)
    ensures StaysCancelled(s, Apply(s, step), j)
    ensures !(step.Work? && step.run.job == j) ==> StaysSettled(s, Apply(s, step), j)
  {
    hide ActEffect, SweepEffect, CallEffect, CommandEffect, PutBack;
    match step
    case Work(r, act) => ActRow(s, r, act);
    case Recover(k, sweep) => SweepRow(s, k, sweep);
    case Operate(k, call) => CallStands(s, k, call, j);
    case Govern(command) => CommandStands(s, command, j);
    case _ =>
  }
}
