/** How one step may change job rows, runs and the history counters. */
module Advance {
  import opened Rows
  import opened Rules
  import opened Bulk
  import opened Protocol
  import opened Invariant
  import opened WorkerSteps
  import opened BulkFacts
  import opened OperatorSteps

  /** Without a claim a row keeps its owner and generation, or loses the owner;
      its lease is renewed only while it is live, to the full length from now. */
  predicate RowAdvance(row: Job, row': Job, now: nat) {
    && RowStep(row, row') && row'.app == row.app && row'.maxRetries == row.maxRetries
    && (row'.owner.Some? ==>
          row'.expires == row.expires || (LeaseBeyond(row, Sec(now)) && row'.expires == Some(Sec(now) + LEASE_SECONDS)))
  }

  ghost predicate JobsAdvance(jobs: map<JobId, Job>, jobs': map<JobId, Job>, now: nat) {
    forall j {:trigger jobs'[j]} | j in jobs :: j in jobs' && RowAdvance(jobs[j], jobs'[j], now)
  }

  /** A run keeps its worker; its attempt, intent and click stay once they are there, and it never
      goes back to work before the intent.  Counters it reads are those of the row. */
  predicate RunAdvance(run: Run, run': Run, counters: Budget) {
    && run'.worker == run.worker && (run'.budget == run.budget || run'.budget == Some(counters))
    && (run.attempt.Some? ==> run'.attempt == run.attempt)
    && (run.intended ==> run'.intended) && (run.clicked ==> run'.clicked) && (run.handedBack ==> run'.handedBack)
    && (run'.phase == Working ==> run.phase == Working)
  }

  ghost predicate RunsAdvance(db: Db, runs: map<RunId, Run>, runs': map<RunId, Run>) {
    forall r {:trigger runs'[r]} | r in runs :: r in runs' && RunAdvance(runs[r], runs'[r], ReadCounters(db, r.job))
  }

  /** An intent once written on an attempt is never written again. */
  ghost predicate IntentsStand(attempts: map<AttemptId, Attempt>, attempts': map<AttemptId, Attempt>) {
    forall a {:trigger attempts'[a]} {:trigger a in attempts'} | a in attempts && attempts[a].intentAt.Some? ::
      a in attempts' && attempts'[a].intentAt == attempts[a].intentAt
  }

  /** Clock, notes, runs and resets only grow. */
  ghost predicate HistoryAdvance(s: System, t: System) {
    && s.now <= t.now && s.notes <= t.notes && RunsAdvance(s.db, s.runs, t.runs)
    && (forall j {:trigger t.resets[j]} :: s.resets[j] <= t.resets[j])
    && IntentsStand(s.db.attempts, t.db.attempts)
  }

  /** The same runs, handed back or not as before. */
  ghost predicate SameRuns(runs: map<RunId, Run>, runs': map<RunId, Run>) {
    && runs'.Keys == runs.Keys
    && forall r {:trigger runs'[r]} | r in runs :: runs'[r].handedBack == runs[r].handedBack
  }

  /** A job as enqueue writes it. */
  predicate Fresh(row: Job) {
    row.state == Ready && row.owner.None? && row.attemptCount == 0
  }

  /** Attempt counters stand still, except that the tracker's requeue resets one; jobs come in fresh. */
  ghost predicate CountsStand(s: System, t: System) {
    forall j {:trigger t.db.jobs[j]} | j in t.db.jobs ::
      if j in s.db.jobs then t.db.jobs[j].attemptCount == s.db.jobs[j].attemptCount || s.resets[j] < t.resets[j]
      else Fresh(t.db.jobs[j])
  }

  /** A step that neither claims, hands back nor clicks. */
  ghost predicate Advances(s: System, t: System) {
    && HistoryAdvance(s, t) && JobsAdvance(s.db.jobs, t.db.jobs, s.now)
    && SameRuns(s.runs, t.runs) && CountsStand(s, t) && t.db.jobs.Keys >= s.db.jobs.Keys
    && t.claims == s.claims && t.clicks == s.clicks && t.handBacks == s.handBacks
  }

  ghost predicate HandBackAdvance(s: System, t: System, r: RunId) {
    && HistoryAdvance(s, t) && JobsAdvance(s.db.jobs, t.db.jobs, s.now)
    && t.claims == s.claims && t.clicks == s.clicks && t.handBacks == s.handBacks + multiset{r.job}
    && r in s.runs && r.job in s.db.jobs && t.db.jobs.Keys == s.db.jobs.Keys
    && s.runs[r].phase == Working && t.runs == s.runs[r := s.runs[r].(phase := Finished, handedBack := true)]
    && forall j {:trigger t.db.jobs[j]} | j in s.db.jobs ::
         t.db.jobs[j].attemptCount ==
         s.db.jobs[j].attemptCount - (if j == r.job && s.db.jobs[j].attemptCount > 0 then 1 else 0)
  }

  // ---------------------------------------------------------------- who writes notes, grants and publications

  /** A step that touches neither notes, nor takeover grants, nor publications, nor reopenings. */
  predicate Aloof(s: System, t: System) {
    && t.notes == s.notes && t.grants == s.grants && t.published == s.published
    && s.committed <= t.committed && t.repeats == s.repeats
  }

  lemma ActIsAloof(s: System, r: RunId, act: Act)
    requires ActAllowed(s, r, act)
    ensures var t := ActEffect(s, r, act);
            || Aloof(s, t)
            || (act.PublishBrowser? && Aloof(s, t.(published := s.published)))
  {
    hide TransitionJob, RecordSubmitIntent, MarkAmbiguous, CompleteAttempt, MayMove, FenceOpens, MayCommitIntent,
      IsLatest;
  }

  lemma SweepIsAloof(s: System, j: JobId, sweep: Sweep)
    requires SweepAllowed(s, j, sweep)
    ensures var t := SweepEffect(s, j, sweep);
            && Aloof(s, t.(notes := s.notes))
            && (Aloof(s, t) || sweep.NoteStranded? || sweep.NoteSubmitting? || sweep.NoteAmbiguous?)
  {
    hide MarkAmbiguous, IsLatest;
  }

  /** The calls that put a job back to the queue whatever has become of it: the tracker's requeue, and
      a resolution that is admitted. */
  predicate PutsBack(s: System, j: JobId, call: Call) {
    call.TrackerReset? || (call.Resolve? && MayResolve(s.db, j, call.force, call.expected, s.now))
  }

  predicate PutBack(s: System, step: Step, j: JobId) {
    step.Operate? && step.job == j && PutsBack(s, j, step.call)
  }

  /** No step of the run puts the job back. */
  ghost predicate NeverPutBack(s: System, steps: seq<Step>, j: JobId)
    requires Valid(s, steps)
    decreases |steps|
  {
    steps == [] || (!PutBack(s, steps[0], j) && NeverPutBack(Apply(s, steps[0]), steps[1..], j))
  }

  lemma CallIsAloof(s: System, j: JobId, call: Call)
    requires CallAllowed(s, j, call)
    ensures var t := CallEffect(s, j, call);
            && t.published == s.published
            && (t.notes == s.notes || call.NoteRequeue? || call.NoteResume?)
            && (t.grants == s.grants || (call.ReopenLogin? && t.grants == CutGrants(s.grants, s.now)))
            && (s.committed <= t.committed || (PutsBack(s, j, call) && t.committed == s.committed - {j}))
            && (t.repeats == s.repeats
                || (PutsBack(s, j, call) && Pressed(s, j) && t.repeats == s.repeats + multiset{j}))
  {
    hide CancelJob, SkipJob, ResolveJob, TransitionJob, RequeueAuth, TrackerRequeue, SafeResumeReady, MayRequeueAuth,
      CutGrants, OwnerGate, CompletedAttempt, IsLatest, MayResume;
  }

  lemma CommandIsAloof(s: System, command: Command)
    requires CommandAllowed(s, command)
    ensures var t := CommandEffect(s, command);
            && t.notes == s.notes && (t.published == s.published || command.Publish?)
            && s.committed <= t.committed && t.repeats == s.repeats
  {
    hide ClearReset, EmergencyStop, ShutdownAll, CutGrants, MayPublish, NamesClaim, MayClaimTakeover, MayRenewTakeover,
      ClaimTakeover, RenewTakeover, SetBrowserState, ReleaseTakeover, ClearTakeover;
  }

  // ---------------------------------------------------------------- worker acts

  lemma MoveAdvances(s: System, r: RunId, m: Move, p: Phase)
    requires r in s.runs && !m.handBack && (p.Working? ==> s.runs[r].phase.Working?)
    ensures Advances(s, RunMove(s, r, m, p))
  {
    TransitionFrame(s.db, r.job, s.runs[r].worker, r.gen, m, s.now);
  }

  lemma HandBackRows(s: System, t: System, r: RunId, m: Move)
    requires r in s.runs && m.handBack && MayMove(s.db, r.job, s.runs[r].worker, r.gen, m, s.now)
    requires t.db.jobs == s.db.jobs[r.job := MovedRow(s.db.jobs[r.job], m)]
    ensures JobsAdvance(s.db.jobs, t.db.jobs, s.now)
    ensures forall j {:trigger t.db.jobs[j]} | j in s.db.jobs ::
              t.db.jobs[j].attemptCount ==
              s.db.jobs[j].attemptCount - (if j == r.job && s.db.jobs[j].attemptCount > 0 then 1 else 0)
  {
    hide LeaseBeyond;
  }

  lemma HandBackAdvances(s: System, r: RunId, delay: nat, sample: nat)
    requires r in s.runs && s.runs[r].phase == Working
    ensures var t := HandedBack(s, r, delay, sample);
            if MayMove(s.db, r.job, s.runs[r].worker, r.gen, GateMove(delay, sample), s.now)
            then HandBackAdvance(s, t, r) else Advances(s, t)
  {
    hide TransitionJob, LeaseBeyond, JobsAdvance, Advances;
    var m := GateMove(delay, sample);
    TransitionFrame(s.db, r.job, s.runs[r].worker, r.gen, m, s.now);
    if MayMove(s.db, r.job, s.runs[r].worker, r.gen, m, s.now) {
      HandBackRows(s, HandedBack(s, r, delay, sample), r, m);
    } else {
      FenceAdvances(s, s.fence);
      GotoAdvances(s, s, r, Finished);
    }
  }

  lemma CommitAdvances(s: System, r: RunId)
    requires r in s.runs && s.runs[r].attempt.Some?
    ensures Advances(s, IntentCommitted(s, r))
  {
    var run := s.runs[r];
    if MayCommitIntent(s.db, run.attempt.value, r.job, run.worker, r.gen, s.now) {
      IntentFrame(s.db, run.attempt.value, r.job, run.worker, r.gen, s.now);
    }
  }

  lemma MarkAdvances(s: System, j: JobId, m: Mark, latest: Option<AttemptId>, pick: Option<AttemptId>)
    requires pick.Some? ==> pick.value in s.db.attempts
    requires latest.Some? ==> latest.value in s.db.attempts
    ensures Advances(s, s.(db := MarkAmbiguous(s.db, j, m, latest, pick, s.now)))
  {
    if MayMark(s.db, j, m, latest, s.now) {
      MarkFrame(s.db, j, m, latest, pick, s.now);
    }
  }

  /** A run moves on in its program and nothing else of this module's concern happens. */
  lemma GotoAdvances(s: System, t: System, r: RunId, p: Phase)
    requires r in t.runs && Advances(s, t) && !p.Working?
    ensures Advances(s, Goto(t, r, p))
  {
  }

  lemma OpenAttemptAdvances(s: System, r: RunId, a: AttemptId)
    requires ActAllowed(s, r, OpenAttempt(a))
    ensures Advances(s, ActEffect(s, r, OpenAttempt(a)))
  {
  }

  lemma ReadBudgetAdvances(s: System, r: RunId)
    requires ActAllowed(s, r, ReadBudget)
    ensures Advances(s, ActEffect(s, r, ReadBudget))
  {
  }

  lemma OutcomeAdvances(s: System, a: AttemptId, r: RunId, outcome: Outcome)
    requires r in s.runs
    ensures Advances(s, s.(db := CompleteAttempt(s.db, a, r.job, s.runs[r].worker, r.gen, outcome, s.now)))
    ensures a in s.db.attempts ==>
              Advances(s, s.(db := s.db.(attempts := s.db.attempts[a := CompletedAttempt(s.db.attempts[a], outcome,
                                                                                         s.now)])))
  {
    hide MayComplete;
  }

  lemma FenceAdvances(s: System, fence: Option<RunId>)
    ensures Advances(s, s.(fence := fence))
  {
  }

  lemma ActAdvances(s: System, r: RunId, act: Act)
    requires Enabled(s, Work(r, act)) && !act.Click? && !act.HandBack?
    ensures Advances(s, ActEffect(s, r, act))
  {
    hide Advances, TransitionJob, MarkAmbiguous, IntentCommitted, FenceOpens;
    match act
    case OpenAttempt(a) => OpenAttemptAdvances(s, r, a);
    case Navigate => MoveAdvances(s, r, Plain(Navigating), Working);
    case PauseForLogin => ControlAdvances(s, ActEffect(s, r, act));
    case ParkForLogin => MoveAdvances(s, r, Plain(AuthRequired), Finished);
    case Interrupt(to) => MoveAdvances(s, r, Live(to), Finished);
    case FailForGood => MoveAdvances(s, r, Live(FailedPermanent), Finished);
    case ReadBudget => ReadBudgetAdvances(s, r);
    case FailTransient(t) =>
      MoveAdvances(s, r, TransientMove(s.runs[r].budget.value.count, s.runs[r].budget.value.maxRetries, t), Finished);
    case FinishFillOnly => MoveAdvances(s, r, Plain(Skipped), Finished);
    case CommitIntent => CommitAdvances(s, r);
    case OpenFence =>
      FenceAdvances(s, Some(r));
      GotoAdvances(s, s.(fence := Some(r)), r, Fenced);
      FenceAdvances(s, s.fence);
      GotoAdvances(s, s, r, Uncertain);
    case CloseFence(ok) =>
      FenceAdvances(s, Unfenced(s, r));
      GotoAdvances(s, s.(fence := Unfenced(s, r)), r, if ok then Submitted else Uncertain);
    case AnnounceVerifying => MoveAdvances(s, r, Plain(Verifying), Awaiting);
    case SkipVerifying => GotoAdvances(s, s, r, Awaiting);
    case Confirm => MoveAdvances(s, r, Live(Applied), Finished);
    case Reject => MoveAdvances(s, r, Live(FailedPermanent), Finished);
    case Doubt(pick) =>
      var m := DoubtMark(r, s.runs[r]);
      MarkAdvances(s, r.job, m, None, pick);
      GotoAdvances(s, s.(db := MarkAmbiguous(s.db, r.job, m, None, pick, s.now)), r, Finished);
    case RecordOutcome(outcome) => OutcomeAdvances(s, s.runs[r].attempt.value, r, outcome);
    case RecordFillOnly => OutcomeAdvances(s, s.runs[r].attempt.value, r, FillOnly);
    case PublishBrowser(active, closed) =>
      PublishFrame(s, RunPublication(r, active, closed));
      ControlAdvances(s, ActEffect(s, r, act));
    case RecordApplication(app, status) => ControlAdvances(s, ActEffect(s, r, act));
    case EndRun =>
      FenceAdvances(s, Unfenced(s, r));
      GotoAdvances(s, s.(fence := Unfenced(s, r)), r, Finished);
  }

  // ---------------------------------------------------------------- sweeps, calls, commands

  lemma NoteAdvances(s: System, note: Read)
    ensures Advances(s, Remember(s, note))
  {
  }

  lemma SweepAdvances(s: System, j: JobId, sweep: Sweep)
    requires Enabled(s, Recover(j, sweep))
    ensures Advances(s, SweepEffect(s, j, sweep))
  {
    hide Advances, MarkAmbiguous;
    match sweep
    case NoteStranded => NoteAdvances(s, StrandedRead(j, s.db.jobs[j].owner, s.db.jobs[j].gen));
    case MarkStranded(owner, g, pick) => MarkAdvances(s, j, SweepMark(owner, g), None, pick);
    case NoteSubmitting => NoteAdvances(s, SubmittingRead(j, s.db.jobs[j].owner, s.db.jobs[j].gen));
    case MarkCleared(owner, g, pick) => MarkAdvances(s, j, ClearMark(owner, g), None, pick);
    case NoteAmbiguous => NoteAdvances(s, AmbiguousRead(j));
    case Repair(latest, pick) => MarkAdvances(s, j, REPAIR_MARK, latest, pick);
  }

  lemma RowCallAdvances(s: System, t: System, j: JobId, row: Job)
    requires j in s.db.jobs && t.db.jobs == s.db.jobs[j := row] && RowAdvance(s.db.jobs[j], row, s.now)
    requires t.runs == s.runs && t.now == s.now && t.notes == s.notes && IntentsStand(s.db.attempts, t.db.attempts)
    requires t.claims == s.claims && t.clicks == s.clicks && t.handBacks == s.handBacks
    requires t.resets == s.resets + multiset{j} || (t.resets == s.resets
                                                    && row.attemptCount == s.db.jobs[j].attemptCount)
    ensures Advances(s, t)
  {
  }

  lemma CancelAdvances(s: System, j: JobId)
    ensures Advances(s, s.(db := CancelJob(s.db, j)))
  {
    if j in s.db.jobs {
      RowCallAdvances(s, s.(db := CancelJob(s.db, j)), j, CancelledRow(s.db.jobs[j]));
    }
  }

  lemma SkipAdvances(s: System, j: JobId, pick: Option<AttemptId>)
    requires pick.Some? ==> pick.value in s.db.attempts
    ensures Advances(s, s.(db := SkipJob(s.db, j, pick, s.now)))
  {
    var t := s.(db := SkipJob(s.db, j, pick, s.now));
    if j in s.db.jobs {
      SkipFrame(s.db, j, pick, s.now);
      RowCallAdvances(s, t, j, t.db.jobs[j]);
    }
  }

  lemma ResolveAdvances(s: System, j: JobId, force: bool, expected: Option<OperatorId>)
    ensures Advances(s, CallEffect(s, j, Resolve(force, expected)))
  {
    var db := ResolveJob(s.db, j, force, expected, s.now);
    if MayResolve(s.db, j, force, expected, s.now) {
      ResolveFrame(s.db, j, force, expected, s.now);
      var t := if s.db.jobs[j].state == AmbiguousSubmission then Overridden(s, j, db) else s.(db := db);
      RowCallAdvances(s, t, j, ResolvedRow(s.db.jobs[j]));
    }
  }

  lemma TrackerResetAdvances(s: System, j: JobId)
    requires j in s.db.jobs
    ensures Advances(s, Reset(s, j))
  {
    RowCallAdvances(s, Reset(s, j), j, TrackerRequeueRow(s.db.jobs[j]));
  }

  lemma ReopenLoginAdvances(s: System, j: JobId, expected: Option<OperatorId>)
    ensures Advances(s, CallEffect(s, j, ReopenLogin(expected)))
  {
    if MayRequeueAuth(s.db, j, expected, s.now) {
      var t := Cleared(s, RequeueAuth(s.db, j, expected, s.now));
      RowCallAdvances(s, t, j, ReleasedRow(s.db.jobs[j]).(nextRetry := None));
    }
  }

  lemma CompleteByOperatorAdvances(s: System, j: JobId, w: WorkerId, g: nat)
    ensures Advances(s, s.(db := TransitionJob(s.db, j, w, g, Live(Applied), s.now)))
  {
    TransitionFrame(s.db, j, w, g, Live(Applied), s.now);
  }

  lemma ResumeReadyAdvances(s: System, j: JobId, w: WorkerId, g: nat, expected: Option<OperatorId>)
    ensures Advances(s, s.(db := SafeResumeReady(s.db, j, w, g, expected, s.now)))
  {
  }

  lemma CallAdvances(s: System, j: JobId, call: Call)
    requires Inv(s) && Enabled(s, Operate(j, call))
    ensures Advances(s, CallEffect(s, j, call))
  {
    hide Advances, SkipJob, ResolveJob;
    match call
    case Cancel => CancelAdvances(s, j);
    case Skip(pick) => SkipAdvances(s, j, pick);
    case Resolve(force, expected) => ResolveAdvances(s, j, force, expected);
    case NoteRequeue => NoteAdvances(s, RequeueRead(j));
    case TrackerReset =>
      assert RequeueRead(j).job in s.db.jobs;
      TrackerResetAdvances(s, j);
    case ReopenLogin(expected) => ReopenLoginAdvances(s, j, expected);
    case NoteResume(w, g) => NoteAdvances(s, ResumeRead(j, w, g));
    case CompleteByOperator(w, g, expected) => CompleteByOperatorAdvances(s, j, w, g);
    case OperatorOutcome(a) => ControlAdvances(s, CallEffect(s, j, call));
    case ResumeReady(w, g, expected) => ResumeReadyAdvances(s, j, w, g, expected);
  }

  lemma FallsAdvance(s: System, t: System)
    requires AllFall(s, t.db.jobs) && s.now <= t.now && s.notes == t.notes && t.runs == s.runs
    requires IntentsStand(s.db.attempts, t.db.attempts)
    requires forall j | j in s.db.jobs ::
               && t.db.jobs[j].app == s.db.jobs[j].app && t.db.jobs[j].maxRetries == s.db.jobs[j].maxRetries
               && t.db.jobs[j].attemptCount == s.db.jobs[j].attemptCount
    requires t.resets == s.resets
    requires t.claims == s.claims && t.clicks == s.clicks && t.handBacks == s.handBacks
    ensures Advances(s, t)
  {
    forall j {:trigger t.db.jobs[j]} | j in s.db.jobs ensures j in t.db.jobs
                                                              && RowAdvance(s.db.jobs[j], t.db.jobs[j], s.now) {
      assert Falls(s.db.jobs[j], t.db.jobs[j], CurrentRun(s, j), j in s.committed, s.clicks[j], s.repeats[j]);
    }
  }

  lemma ControlAdvances(s: System, t: System)
    requires t.db.jobs == s.db.jobs && s.now <= t.now && s.notes == t.notes && t.runs == s.runs
    requires IntentsStand(s.db.attempts, t.db.attempts)
    requires t.resets == s.resets
    requires t.claims == s.claims && t.clicks == s.clicks && t.handBacks == s.handBacks
    ensures Advances(s, t)
  {
  }

  lemma ResetAllAdvances(s: System)
    requires Inv(s)
    ensures Advances(s, CommandEffect(s, ResetAll))
  {
    var t := Cleared(s, ClearReset(s.db));
    forall j {:trigger t.db.jobs[j]} | j in s.db.jobs ensures j in t.db.jobs
                                                              && RowAdvance(s.db.jobs[j], t.db.jobs[j], s.now) {
      assert JobOk(s, j);
    }
  }

  lemma StopIntents(db: Db, rows: seq<JobId>, picks: Picks, now: nat)
    requires Lists(db, rows, IsSubmitting) && PicksOwn(db.attempts, rows, picks)
    ensures IntentsStand(db.attempts, Stopped(db, rows, picks, now).attempts)
  {
    hide MarkAll, Stopped;
    StoppedJobs(db, rows, picks, now);
    MarkAllAttempts(db, rows, picks, now);
  }

  lemma DaemonIntents(db: Db, rows: seq<JobId>, picks: Picks, now: nat)
    requires Distinct(rows) && PicksOwn(db.attempts, rows, picks) && forall j | j in rows :: j in db.jobs
    ensures IntentsStand(db.attempts, ShutdownAll(db, rows, picks, now).attempts)
  {
    hide ShutdownAll;
    ShutdownAllAttempts(db, rows, picks, now);
  }

  lemma StopAdvances(s: System, command: Command)
    requires Inv(s) && command.StopEverything? && CommandAllowed(s, command)
    ensures Advances(s, CommandEffect(s, command))
  {
    hide Stopped, MarkAll, Advances, AllFall, IntentsStand, FenceOk, TakeoverOk, PublishedOk, NotesOk;
    var rows, picks, stopper := command.rows, command.picks, command.stopper;
    var t1, t2, t3 := command.t1, command.t2, command.t3;
    var t := Cleared(s.(now := t3), EmergencyStop(s.db, rows, picks, stopper, t1, t2, t3));
    if StopCommits(s.db, rows, picks, stopper, t1, t2, t3) {
      StoppedJobs(s.db, rows, picks, t1);
      StopFalls(s, rows, picks, t1);
      StopIntents(s.db, rows, picks, t1);
      FallsAdvance(s, t);
    } else {
      ControlAdvances(s, t);
    }
  }

  lemma DaemonStopAdvances(s: System, w: WorkerId, rows: seq<JobId>, picks: Picks)
    requires Inv(s) && Lists(s.db, rows, TakenFrom(w)) && PicksOwn(s.db.attempts, rows, picks)
    ensures Advances(s, s.(db := ShutdownAll(s.db, rows, picks, s.now)))
  {
    ShutdownAllJobs(s.db, rows, picks, s.now);
    DaemonFalls(s, w, rows, picks);
    DaemonIntents(s.db, rows, picks, s.now);
    FallsAdvance(s, s.(db := ShutdownAll(s.db, rows, picks, s.now)));
  }

  /** Nothing but the control row, events, clock, takeover history and publications changes. */
  ghost predicate ControlOnly(s: System, t: System) {
    && t == s.(db := t.db, grants := t.grants, published := t.published)
    && t.db.jobs == s.db.jobs && t.db.attempts == s.db.attempts
  }

  lemma TakeFrame(s: System, op: OperatorId, seconds: nat, sample: nat)
    ensures ControlOnly(s, TookControl(s, op, seconds, sample))
  {
    hide CutGrants;
  }

  lemma RenewFrame(s: System, op: OperatorId, seconds: nat)
    ensures ControlOnly(s, RenewedControl(s, op, seconds))
  {
    hide CutGrants;
  }

  lemma DropFrame(s: System, op: Option<OperatorId>, force: bool)
    ensures ControlOnly(s, Cleared(s, ReleaseTakeover(s.db, op, force)))
    ensures ControlOnly(s, Cleared(s, ClearTakeover(s.db, op, s.now)))
  {
    hide CutGrants;
  }

  lemma PublishFrame(s: System, p: Publication)
    ensures ControlOnly(s, Published(s, p))
  {
    hide MayPublish, NamesClaim;
  }

  lemma ControlCommandFrame(s: System, command: Command)
    requires CommandAllowed(s, command)
    requires !command.ResetAll? && !command.StopEverything? && !command.DaemonStop?
    ensures ControlOnly(s, CommandEffect(s, command))
  {
    hide TookControl, RenewedControl, Cleared, Published, ReleaseTakeover, ClearTakeover;
    match command
    case DropTakeover(expected) => DropFrame(s, expected, false);
    case TakeControl(op, seconds, sample) => TakeFrame(s, op, seconds, sample);
    case RenewControl(op, seconds) => RenewFrame(s, op, seconds);
    case ReleaseControl(op, force) => DropFrame(s, op, force);
    case Publish(p) => PublishFrame(s, p);
    case _ =>
  }

  lemma CommandAdvances(s: System, command: Command)
    requires Inv(s) && Enabled(s, Govern(command))
    ensures Advances(s, CommandEffect(s, command))
  {
    hide Advances, Inv;
    match command
    case ResetAll => ResetAllAdvances(s);
    case StopEverything(_, _, _, _, _, _) => StopAdvances(s, command);
    case DaemonStop(w, rows, picks) => DaemonStopAdvances(s, w, rows, picks);
    case _ =>
      ControlCommandFrame(s, command);
      ControlAdvances(s, CommandEffect(s, command));
  }

  // ---------------------------------------------------------------- every step

  ghost predicate ClaimAdvance(s: System, t: System, j: JobId, w: WorkerId, sample: nat) {
    && HistoryAdvance(s, t) && t.claims == s.claims + multiset{j} && t.clicks == s.clicks
    && t.handBacks == s.handBacks
    && j in s.db.jobs && t.db.jobs == s.db.jobs[j := ClaimedRow(s.db.jobs[j], w, sample)]
    && RunId(j, s.db.jobs[j].gen + 1) !in s.runs
    && t.runs == s.runs[RunId(j, s.db.jobs[j].gen + 1) := Run(w, Working, None, false, false, false, None)]
  }

  ghost predicate ClickAdvance(s: System, t: System, r: RunId) {
    HistoryAdvance(s, t) && t.claims == s.claims && t.clicks == s.clicks + multiset{r.job} && t.db == s.db
    && t.handBacks == s.handBacks && SameRuns(s.runs, t.runs)
  }

  predicate IsHandBack(s: System, step: Step) {
    && step.Work? && step.act.HandBack? && step.run in s.runs
    && MayMove(s.db, step.run.job, s.runs[step.run].worker, step.run.gen, GateMove(step.act.delay,
                                                                                   step.act.handedAt), s.now)
  }

  predicate IsClick(step: Step) {
    step.Work? && step.act.Click?
  }

  /** What any step does to claims, clicks, rows and runs. */
  ghost predicate StepAdvance(s: System, t: System, step: Step) {
    if step.ClaimNext? then ClaimAdvance(s, t, step.job, step.worker, step.sample)
    else if IsClick(step) then ClickAdvance(s, t, step.run)
    else if IsHandBack(s, step) then HandBackAdvance(s, t, step.run)
    else Advances(s, t)
  }

  lemma ClaimAdvances(s: System, j: JobId, w: WorkerId, sample: nat)
    requires Inv(s) && Enabled(s, ClaimNext(j, w, sample))
    ensures ClaimAdvance(s, ClaimTaken(s, j, w, sample), j, w, sample)
  {
    forall r | r in s.runs ensures r != RunId(j, s.db.jobs[j].gen + 1) {
      assert RunOk(s, r);
    }
  }

  lemma EnqueueAdvances(s: System, j: JobId, app: AppId, priority: int, maxRetries: int)
    requires j !in s.db.jobs
    ensures Advances(s, s.(db := EnqueueJob(s.db, j, app, priority, maxRetries, s.now)))
  {
  }

  lemma HeartbeatAdvances(s: System, j: JobId, w: WorkerId, g: nat)
    ensures Advances(s, s.(db := RenewLease(s.db, j, w, g, s.now)))
  {
  }

  lemma ClickAdvances(s: System, r: RunId)
    requires Enabled(s, Work(r, Click))
    ensures ClickAdvance(s, ActEffect(s, r, Click), r)
  {
  }

  lemma WorkAdvances(s: System, r: RunId, act: Act)
    requires Inv(s) && Enabled(s, Work(r, act))
    ensures StepAdvance(s, ActEffect(s, r, act), Work(r, act))
  {
    hide ActEffect, Advances, ClickAdvance, HandBackAdvance, HandedBack, TransitionJob, MayMove, RowsOk, FenceOk,
      TakeoverOk;
    match act
    case Click => ClickAdvances(s, r);
    case HandBack(delay, at) =>
      HandBackAdvances(s, r, delay, at);
      assert ActEffect(s, r, act) == HandedBack(s, r, delay, at) by { HandBackEffect(s, r, delay, at); }
    case _ => ActAdvances(s, r, act);
  }

  lemma HandBackEffect(s: System, r: RunId, delay: nat, at: nat)
    requires ActAllowed(s, r, HandBack(delay, at))
    ensures ActEffect(s, r, HandBack(delay, at)) == HandedBack(s, r, delay, at)
  {
  }

  lemma QueueAdvances(s: System, step: Step)
    requires Inv(s) && Enabled(s, step)
    requires step.Tick? || step.Enqueue? || step.SetStatus? || step.ClaimNext? || step.Heartbeat?
    ensures StepAdvance(s, Apply(s, step), step)
  {
    hide Advances, ClaimAdvance;
    match step
    case Tick(time) => ControlAdvances(s, s.(now := time));
    case Enqueue(j, app, priority, maxRetries) => EnqueueAdvances(s, j, app, priority, maxRetries);
    case SetStatus(app, status) => ControlAdvances(s, Apply(s, step));
    case ClaimNext(j, w, sample) => ClaimAdvances(s, j, w, sample);
    case Heartbeat(j, w, g) => HeartbeatAdvances(s, j, w, g);
  }

  lemma StepAdvances(s: System, step: Step)
    requires Inv(s) && Enabled(s, step)
    ensures StepAdvance(s, Apply(s, step), step)
  {
    hide Inv, ActEffect, SweepEffect, CallEffect, CommandEffect, Advances, ClickAdvance, HandBackAdvance, ClaimAdvance;
    match step
    case Work(r, act) => WorkAdvances(s, r, act);
    case Recover(j, sweep) => SweepAdvances(s, j, sweep);
    case Operate(j, call) => CallAdvances(s, j, call);
    case Govern(command) => CommandAdvances(s, command);
    case _ => QueueAdvances(s, step);
  }
}
