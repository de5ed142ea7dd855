/** At most one unfinished job per application, for operators who keep to two rules. */
module OneActive {
  import opened Rows
  import opened Rules
  import opened Bulk
  import opened Protocol
  import opened Invariant
  import opened WorkerSteps
  import opened BulkFacts
  import opened OperatorSteps
  import opened Advance
  import opened Footprint
  import opened Continuations

  /** A run that can no longer move a finished job: it is over, or it can only confirm, reject or
      be refused. */
  predicate AtRest(p: Phase) {
    p.Intended? || p.Awaiting? || p.Uncertain? || p.Finished?
  }

  /** The call puts a finished job back to work. */
  predicate Revives(s: System, step: Step) {
    && step.Operate? && step.job in s.db.jobs && Terminal(s.db.jobs[step.job].state)
    && PutsBack(s, step.job, step.call)
  }

  predicate OtherUnfinished(s: System, j: JobId)
    requires j in s.db.jobs
  {
    exists k | k in s.db.jobs :: k != j && s.db.jobs[k].app == s.db.jobs[j].app && !Terminal(s.db.jobs[k].state)
  }

  /** The first rule: no finished job is revived beside an unfinished one of its application. */
  predicate Crowds(s: System, step: Step) {
    Revives(s, step) && OtherUnfinished(s, step.job)
  }

  /** The second rule: safe resume completes no job that a run is still at work on. */
  predicate Rushes(s: System, step: Step) {
    && step.Operate? && step.call.CompleteByOperator?
    && MayMove(s.db, step.job, step.call.worker, step.call.gen, Live(Applied), s.now)
    && CurrentRun(s, step.job).Some? && !AtRest(CurrentRun(s, step.job).value.phase)
  }

  predicate Orderly(s: System, step: Step) {
    !Crowds(s, step) && !Rushes(s, step)
  }

  predicate HeldState(state: JobState) {
    Terminal(state) || SetAside(state)
  }

  /** A finished, parked or waiting row that its last worker could still move. */
  predicate Held(row: Job) {
    HeldState(row.state) && row.owner.Some? && !row.cancelled
  }

  /** No run is at work on such a job. */
  predicate TidyJob(s: System, j: JobId)
    requires j in s.db.jobs
  {
    Held(s.db.jobs[j]) ==> CurrentRun(s, j).Some? && AtRest(CurrentRun(s, j).value.phase)
  }

  ghost predicate Tidy(s: System) {
    forall j {:trigger TidyJob(s, j)} | j in s.db.jobs :: TidyJob(s, j)
  }

  predicate Kept(s: System, t: System, j: JobId)
    requires j in s.db.jobs && j in t.db.jobs
  {
    && (Terminal(s.db.jobs[j].state) ==> Terminal(t.db.jobs[j].state))
    && t.db.jobs[j].app == s.db.jobs[j].app
    && TidyJob(t, j)
  }

  ghost predicate AllKept(s: System, t: System) {
    && t.db.jobs.Keys == s.db.jobs.Keys
    && forall j {:trigger t.db.jobs[j]} | j in s.db.jobs :: Kept(s, t, j)
  }

  // ---------------------------------------------------------------- steps outside the runs

  predicate RowTidy(row: Job, row': Job) {
    && (Terminal(row.state) ==> Terminal(row'.state)) && row'.app == row.app
    && (Held(row') ==> Held(row) && row'.gen == row.gen)
  }

  lemma RowsTidy(s: System, t: System)
    requires Tidy(s) && t.runs == s.runs && t.db.jobs.Keys == s.db.jobs.Keys
    requires forall j {:trigger t.db.jobs[j]} | j in s.db.jobs :: RowTidy(s.db.jobs[j], t.db.jobs[j])
    ensures AllKept(s, t)
  {
    forall j {:trigger t.db.jobs[j]} | j in s.db.jobs ensures Kept(s, t, j) {
      assert TidyJob(s, j);
    }
  }

  lemma RowTidies(s: System, t: System, j: JobId)
    requires Tidy(s) && t.runs == s.runs && j in s.db.jobs && j in t.db.jobs
    requires t.db.jobs == s.db.jobs[j := t.db.jobs[j]] && RowTidy(s.db.jobs[j], t.db.jobs[j])
    ensures AllKept(s, t)
  {
    RowsTidy(s, t);
  }

  lemma MarkTidies(s: System, j: JobId, m: Mark, latest: Option<AttemptId>, pick: Option<AttemptId>)
    requires Tidy(s)
    requires latest.Some? ==> latest.value in s.db.attempts
    requires pick.Some? ==> pick.value in s.db.attempts
    ensures AllKept(s, s.(db := MarkAmbiguous(s.db, j, m, latest, pick, s.now)))
  {
    hide MarkAmbiguous;
    var t := s.(db := MarkAmbiguous(s.db, j, m, latest, pick, s.now));
    if MayMark(s.db, j, m, latest, s.now) {
      MarkFrame(s.db, j, m, latest, pick, s.now);
      RowTidies(s, t, j);
    } else {
      assert t == s by { MarkRefused(s.db, j, m, latest, pick, s.now); }
      RowsTidy(s, t);
    }
  }

  lemma SweepTidies(s: System, j: JobId, sweep: Sweep)
    requires Tidy(s) && SweepAllowed(s, j, sweep)
    ensures AllKept(s, SweepEffect(s, j, sweep))
  {
    hide MarkAmbiguous, Tidy, AllKept, TidyJob;
    match sweep
    case MarkStranded(owner, g, pick) => MarkTidies(s, j, SweepMark(owner, g), None, pick);
    case MarkCleared(owner, g, pick) => MarkTidies(s, j, ClearMark(owner, g), None, pick);
    case Repair(latest, pick) => MarkTidies(s, j, REPAIR_MARK, latest, pick);
    case _ => RowsTidy(s, SweepEffect(s, j, sweep));
  }

  lemma ResolveTidies(s: System, j: JobId, force: bool, expected: Option<OperatorId>)
    requires Tidy(s) && !Revives(s, Operate(j, Resolve(force, expected)))
    ensures AllKept(s, CallEffect(s, j, Resolve(force, expected)))
  {
    var t := CallEffect(s, j, Resolve(force, expected));
    if MayResolve(s.db, j, force, expected, s.now) {
      ResolveFrame(s.db, j, force, expected, s.now);
      RowTidies(s, t, j);
    } else {
      RowsTidy(s, t);
    }
  }

  lemma SkipTidies(s: System, j: JobId, pick: Option<AttemptId>)
    requires Tidy(s) && (pick.Some? ==> pick.value in s.db.attempts)
    ensures AllKept(s, s.(db := SkipJob(s.db, j, pick, s.now)))
  {
    var t := s.(db := SkipJob(s.db, j, pick, s.now));
    if j in s.db.jobs {
      SkipFrame(s.db, j, pick, s.now);
      RowTidies(s, t, j);
    } else {
      RowsTidy(s, t);
    }
  }

  lemma CompleteTidies(s: System, j: JobId, w: WorkerId, g: nat, expected: Option<OperatorId>)
    requires Inv(s) && Tidy(s) && !Rushes(s, Operate(j, CompleteByOperator(w, g, expected)))
    ensures AllKept(s, s.(db := TransitionJob(s.db, j, w, g, Live(Applied), s.now)))
  {
    hide TransitionJob, FenceOk, TakeoverOk, PublishedOk, NotesOk, LeaseBeyond;
    var t := s.(db := TransitionJob(s.db, j, w, g, Live(Applied), s.now));
    TransitionFrame(s.db, j, w, g, Live(Applied), s.now);
    if MayMove(s.db, j, w, g, Live(Applied), s.now) {
      assert JobOk(s, j);
      forall k {:trigger t.db.jobs[k]} | k in s.db.jobs ensures Kept(s, t, k) {
        assert TidyJob(s, k);
      }
    } else {
      RowsTidy(s, t);
    }
  }

  lemma ReadyTidies(s: System, j: JobId, w: WorkerId, g: nat, expected: Option<OperatorId>)
    requires Tidy(s)
    ensures AllKept(s, s.(db := SafeResumeReady(s.db, j, w, g, expected, s.now)))
  {
    hide Tidy, AllKept, TidyJob, OwnerGate, LeaseBeyond;
    RowsTidy(s, s.(db := SafeResumeReady(s.db, j, w, g, expected, s.now)));
  }

  lemma CancelTidies(s: System, j: JobId)
    requires Tidy(s)
    ensures AllKept(s, s.(db := CancelJob(s.db, j)))
  {
    hide Tidy, AllKept, TidyJob;
    RowsTidy(s, s.(db := CancelJob(s.db, j)));
  }

  lemma ReopenTidies(s: System, j: JobId, expected: Option<OperatorId>)
    requires Tidy(s)
    ensures AllKept(s, CallEffect(s, j, ReopenLogin(expected)))
  {
    hide Tidy, AllKept, TidyJob, OwnerGate;
    RowsTidy(s, CallEffect(s, j, ReopenLogin(expected)));
  }

  lemma ResetTidies(s: System, j: JobId)
    requires Tidy(s) && j in s.db.jobs && !Terminal(s.db.jobs[j].state)
    ensures AllKept(s, Reset(s, j))
  {
    hide Tidy, AllKept, TidyJob;
    RowsTidy(s, Reset(s, j));
  }

  lemma CallTidies(s: System, j: JobId, call: Call)
    requires Inv(s) && Tidy(s) && CallAllowed(s, j, call)
    requires !Revives(s, Operate(j, call)) && !Rushes(s, Operate(j, call))
    requires call.TrackerReset? ==> j in s.db.jobs
    ensures AllKept(s, CallEffect(s, j, call))
  {
    hide Inv, Tidy, AllKept, TidyJob, SkipJob, ResolveJob, TransitionJob, MayResolve, MayMove, OwnerGate, LeaseBeyond;
    match call
    case Skip(pick) => SkipTidies(s, j, pick);
    case Resolve(force, expected) => ResolveTidies(s, j, force, expected);
    case CompleteByOperator(w, g, expected) => CompleteTidies(s, j, w, g, expected);
    case Cancel => CancelTidies(s, j);
    case TrackerReset => ResetTidies(s, j);
    case ReopenLogin(expected) => ReopenTidies(s, j, expected);
    case ResumeReady(w, g, expected) => ReadyTidies(s, j, w, g, expected);
    case _ => RowsTidy(s, CallEffect(s, j, call));
  }

  lemma StopTidies(s: System, command: Command)
    requires Inv(s) && Tidy(s) && command.StopEverything? && CommandAllowed(s, command)
    ensures AllKept(s, CommandEffect(s, command))
  {
    hide Stopped, MarkAll;
    var t := CommandEffect(s, command);
    if StopCommits(s.db, command.rows, command.picks, command.stopper, command.t1, command.t2, command.t3) {
      StoppedJobs(s.db, command.rows, command.picks, command.t1);
    }
    RowsTidy(s, t);
  }

  lemma CommandTidies(s: System, command: Command)
    requires Inv(s) && Tidy(s) && Enabled(s, Govern(command))
    ensures AllKept(s, CommandEffect(s, command))
  {
    hide Inv, Tidy, AllKept, TidyJob, ShutdownAll, EmergencyStop;
    var t := CommandEffect(s, command);
    match command
    case ResetAll => RowsTidy(s, t);
    case StopEverything(_, _, _, _, _, _) => StopTidies(s, command);
    case DaemonStop(w, rows, picks) =>
      ShutdownAllJobs(s.db, rows, picks, s.now);
      RowsTidy(s, t);
    case _ =>
      ControlCommandFrame(s, command);
      RowsTidy(s, t);
  }

  // ---------------------------------------------------------------- the runs

  /** A run goes on; its job may have moved with it. */
  lemma RunTidies(s: System, t: System, r: RunId)
    requires Inv(s) && Tidy(s) && r in s.runs && r in t.runs && t.runs == s.runs[r := t.runs[r]]
    requires r.job in s.db.jobs && r.job in t.db.jobs && t.db.jobs == s.db.jobs[r.job := t.db.jobs[r.job]]
    requires t.db.jobs[r.job] == s.db.jobs[r.job] || Moved(s, t, r)
    requires Held(t.db.jobs[r.job]) && t.db.jobs[r.job].gen == r.gen ==> AtRest(t.runs[r].phase)
    ensures AllKept(s, t)
  {
    assert RunOk(s, r);
    forall j {:trigger t.db.jobs[j]} | j in s.db.jobs ensures Kept(s, t, j) {
      assert TidyJob(s, j);
    }
  }

  /** A move by the current claim, of a job that is unfinished or ends finished. */
  predicate Moved(s: System, t: System, r: RunId)
    requires r in t.runs && r.job in s.db.jobs && r.job in t.db.jobs
  {
    && (Terminal(s.db.jobs[r.job].state) ==> Terminal(t.db.jobs[r.job].state))
    && t.db.jobs[r.job].app == s.db.jobs[r.job].app
    && (Held(t.db.jobs[r.job]) ==> t.db.jobs[r.job].gen == r.gen)
  }

  /** The job that a run at work still owns is neither finished nor set aside. */
  lemma OwnedIsUnfinished(s: System, r: RunId)
    requires Tidy(s) && r in s.runs && !AtRest(s.runs[r].phase)
    requires r.job in s.db.jobs && s.db.jobs[r.job].gen == r.gen
    ensures !Held(s.db.jobs[r.job])
  {
    assert TidyJob(s, r.job);
  }

  lemma MoveTidies(s: System, r: RunId, m: Move, p: Phase)
    requires Inv(s) && Tidy(s) && r in s.runs && (HeldState(m.to) ==> AtRest(p))
    requires !AtRest(s.runs[r].phase) || (Terminal(m.to) && AtRest(p))
    ensures AllKept(s, RunMove(s, r, m, p))
  {
    hide FenceOk, TakeoverOk, PublishedOk, NotesOk, LeaseBeyond;
    var t := RunMove(s, r, m, p);
    TransitionFrame(s.db, r.job, s.runs[r].worker, r.gen, m, s.now);
    assert RunOk(s, r);
    if !AtRest(s.runs[r].phase) && s.db.jobs[r.job].gen == r.gen {
      OwnedIsUnfinished(s, r);
    }
    RunTidies(s, t, r);
  }

  lemma PhaseTidies(s: System, t: System, r: RunId)
    requires Inv(s) && Tidy(s) && r in s.runs && r in t.runs && t.runs == s.runs[r := t.runs[r]]
    requires AtRest(s.runs[r].phase) ==> AtRest(t.runs[r].phase)
    requires t.db.jobs == s.db.jobs
    ensures AllKept(s, t)
  {
    assert RunOk(s, r);
    assert t.db.jobs == s.db.jobs[r.job := t.db.jobs[r.job]];
    if !AtRest(s.runs[r].phase) && s.db.jobs[r.job].gen == r.gen {
      OwnedIsUnfinished(s, r);
    }
    assert TidyJob(s, r.job);
    RunTidies(s, t, r);
  }

  /** The fence opens only over a job in submit_intent. */
  lemma FenceTidies(s: System, r: RunId)
    requires Inv(s) && Tidy(s) && ActAllowed(s, r, OpenFence)
    ensures AllKept(s, FenceOpened(s, r))
  {
    hide TakeoverOk, PublishedOk, NotesOk, LeaseBeyond, Halted, TakeoverLive;
    var t := FenceOpened(s, r);
    assert RunOk(s, r);
    assert t.db.jobs == s.db.jobs[r.job := t.db.jobs[r.job]];
    RunTidies(s, t, r);
  }

  lemma HandBackTidies(s: System, r: RunId, delay: nat, at: nat)
    requires Inv(s) && Tidy(s) && r in s.runs && s.runs[r].phase == Working
    ensures AllKept(s, HandedBack(s, r, delay, at))
  {
    var m := GateMove(delay, at);
    var t := HandedBack(s, r, delay, at);
    if MayMove(s.db, r.job, s.runs[r].worker, r.gen, m, s.now) {
      TransitionFrame(s.db, r.job, s.runs[r].worker, r.gen, m, s.now);
      OwnedIsUnfinished(s, r);
      RunTidies(s, t, r);
    } else {
      PhaseTidies(s, t, r);
    }
  }

  lemma CommitTidies(s: System, r: RunId)
    requires Inv(s) && Tidy(s) && ActAllowed(s, r, CommitIntent)
    ensures AllKept(s, IntentCommitted(s, r))
  {
    hide RecordSubmitIntent, FenceOk, TakeoverOk, PublishedOk, NotesOk, AllKept, Tidy;
    var run := s.runs[r];
    if MayCommitIntent(s.db, run.attempt.value, r.job, run.worker, r.gen, s.now) {
      IntentFrame(s.db, run.attempt.value, r.job, run.worker, r.gen, s.now);
      OwnedIsUnfinished(s, r);
      RunTidies(s, IntentCommitted(s, r), r);
    } else {
      RowsTidy(s, s);
    }
  }

  lemma DoubtTidies(s: System, r: RunId, pick: Option<AttemptId>)
    requires Inv(s) && Tidy(s) && r in s.runs && AtRest(s.runs[r].phase)
    requires pick.Some? ==> pick.value in s.db.attempts
    ensures var db := MarkAmbiguous(s.db, r.job, DoubtMark(r, s.runs[r]), None, pick, s.now);
            AllKept(s, Goto(s.(db := db), r, Finished))
  {
    hide MarkAmbiguous, FenceOk, TakeoverOk, PublishedOk, NotesOk, AllKept, Tidy, LeaseBeyond;
    var m := DoubtMark(r, s.runs[r]);
    var t := Goto(s.(db := MarkAmbiguous(s.db, r.job, m, None, pick, s.now)), r, Finished);
    assert RunOk(s, r);
    if MayMark(s.db, r.job, m, None, s.now) {
      MarkFrame(s.db, r.job, m, None, pick, s.now);
      RunTidies(s, t, r);
    } else {
      MarkRefused(s.db, r.job, m, None, pick, s.now);
      PhaseTidies(s, t, r);
    }
  }

  lemma RecordTidies(s: System, r: RunId, act: Act)
    requires Tidy(s) && ActAllowed(s, r, act) && Records(act)
    ensures AllKept(s, ActEffect(s, r, act))
  {
    hide Tidy, AllKept, TidyJob, OwnerGate, IsTarget;
    RowsTidy(s, ActEffect(s, r, act));
  }

  lemma ActTidies(s: System, r: RunId, act: Act)
    requires Inv(s) && Tidy(s) && ActAllowed(s, r, act)
    ensures AllKept(s, ActEffect(s, r, act))
  {
    hide Inv, Tidy, AllKept, TransitionJob, MarkAmbiguous, HandedBack, IntentCommitted, MayCommitIntent, FenceOpens,
      FenceOpened, Published, CompletedAttempt, CompleteAttempt, TidyJob, SetPause;
    match act
    case Navigate => MoveTidies(s, r, Plain(Navigating), Working);
    case ParkForLogin => MoveTidies(s, r, Plain(AuthRequired), Finished);
    case Interrupt(to) => MoveTidies(s, r, Live(to), Finished);
    case FailForGood => MoveTidies(s, r, Live(FailedPermanent), Finished);
    case FailTransient(t) =>
      MoveTidies(s, r, TransientMove(s.runs[r].budget.value.count, s.runs[r].budget.value.maxRetries, t), Finished);
    case HandBack(delay, t) => HandBackTidies(s, r, delay, t);
    case FinishFillOnly => MoveTidies(s, r, Plain(Skipped), Finished);
    case CommitIntent => CommitTidies(s, r);
    case OpenFence => FenceTidies(s, r);
    case AnnounceVerifying => MoveTidies(s, r, Plain(Verifying), Awaiting);
    case Confirm => MoveTidies(s, r, Live(Applied), Finished);
    case Reject => MoveTidies(s, r, Live(FailedPermanent), Finished);
    case Doubt(pick) => DoubtTidies(s, r, pick);
    case RecordOutcome(_) | RecordFillOnly | PauseForLogin | PublishBrowser(_, _) | RecordApplication(_, _) =>
      RecordTidies(s, r, act);
    case _ => PhaseTidies(s, ActEffect(s, r, act), r);
  }

  // ---------------------------------------------------------------- every step

  lemma ClaimTidies(s: System, j: JobId, w: WorkerId, sample: nat)
    requires Inv(s) && Tidy(s) && Best(s.db, j, sample)
    ensures AllKept(s, ClaimTaken(s, j, w, sample))
  {
    var t := ClaimTaken(s, j, w, sample);
    forall k {:trigger t.db.jobs[k]} | k in s.db.jobs ensures Kept(s, t, k) {
      assert TidyJob(s, k);
    }
  }

  lemma StepTidies(s: System, step: Step)
    requires Inv(s) && Tidy(s) && Enabled(s, step) && !Revives(s, step) && !Rushes(s, step) && !step.Enqueue?
    ensures AllKept(s, Apply(s, step))
  {
    hide ActEffect, SweepEffect, CallEffect, CommandEffect, ClaimTaken, Inv, Tidy, AllKept;
    match step
    case ClaimNext(j, w, sample) => ClaimTidies(s, j, w, sample);
    case Work(r, act) => ActTidies(s, r, act);
    case Recover(j, sweep) => SweepTidies(s, j, sweep);
    case Operate(j, call) =>
      assert call.TrackerReset? ==> j in s.db.jobs by { ResetKnowsJob(s, j, call); }
      CallTidies(s, j, call);
    case Govern(command) => CommandTidies(s, command);
    case Tick(_) => RowsTidy(s, Apply(s, step));
    case SetStatus(_, _) => RowsTidy(s, Apply(s, step));
    case Heartbeat(_, _, _) => RowsTidy(s, Apply(s, step));
    case Enqueue(_, _, _, _) =>
  }

  lemma ResetKnowsJob(s: System, j: JobId, call: Call)
    requires Inv(s) && CallAllowed(s, j, call)
    ensures call.TrackerReset? ==> j in s.db.jobs
  {
    if call.TrackerReset? {
      assert RequeueRead(j).job in s.db.jobs;
    }
  }

  /** No application has two unfinished jobs. */
  ghost predicate OneActiveJob(s: System) {
    forall j, k | j in s.db.jobs && k in s.db.jobs && s.db.jobs[j].app == s.db.jobs[k].app ::
      j == k || Terminal(s.db.jobs[j].state) || Terminal(s.db.jobs[k].state)
  }

  predicate RevivedAlone(s: System, t: System, j: JobId) {
    && t.runs == s.runs && j in s.db.jobs && j in t.db.jobs && t.db.jobs == s.db.jobs[j := t.db.jobs[j]]
    && t.db.jobs[j].state == Ready && t.db.jobs[j].app == s.db.jobs[j].app
  }

  lemma ReviveCall(s: System, j: JobId, call: Call)
    requires CallAllowed(s, j, call) && Revives(s, Operate(j, call))
    ensures RevivedAlone(s, CallEffect(s, j, call), j)
  {
    hide ResolveJob, MayResolve;
    if call.Resolve? {
      ResolveFrame(s.db, j, call.force, call.expected, s.now);
    }
  }

  /** A revival makes the one job ready and leaves no run beside it unaccounted for. */
  lemma ReviveStep(s: System, step: Step)
    requires Tidy(s) && Enabled(s, step) && Revives(s, step)
    ensures RevivedAlone(s, Apply(s, step), step.job) && Tidy(Apply(s, step))
  {
    hide CallEffect, CallAllowed, MayResolve;
    var t := Apply(s, step);
    ReviveCall(s, step.job, step.call);
    forall j {:trigger TidyJob(t, j)} | j in t.db.jobs ensures TidyJob(t, j) {
      if j != step.job { assert TidyJob(s, j); }
    }
  }

  lemma EnqueueStep(s: System, step: Step)
    requires Tidy(s) && OneActiveJob(s) && Enabled(s, step) && step.Enqueue?
    ensures OneActiveJob(Apply(s, step)) && Tidy(Apply(s, step))
    ensures forall j | j in s.db.jobs :: j in Apply(s, step).db.jobs && Apply(s, step).db.jobs[j] == s.db.jobs[j]
  {
    var t := Apply(s, step);
    forall j {:trigger TidyJob(t, j)} | j in t.db.jobs ensures TidyJob(t, j) {
      if j in s.db.jobs { assert TidyJob(s, j); }
    }
  }

  lemma OneActiveStep(s: System, step: Step)
    requires Inv(s) && Tidy(s) && Enabled(s, step) && Orderly(s, step) && OneActiveJob(s)
    ensures OneActiveJob(Apply(s, step)) && Tidy(Apply(s, step))
  {
    hide Apply, Inv, Tidy, Enabled;
    if step.Enqueue? {
      EnqueueStep(s, step);
    } else if Revives(s, step) {
      ReviveStep(s, step);
    } else {
      StepTidies(s, step);
      KeptOneActive(s, Apply(s, step));
    }
  }

  lemma KeptOneActive(s: System, t: System)
    requires AllKept(s, t) && OneActiveJob(s)
    ensures OneActiveJob(t) && Tidy(t)
  {
  }

  ghost predicate OrderlyThroughout(s: System, steps: seq<Step>)
    requires Valid(s, steps)
    decreases |steps|
  {
    steps == [] || (Orderly(s, steps[0]) && OrderlyThroughout(Apply(s, steps[0]), steps[1..]))
  }

  lemma {:induction false} OneActiveAlways(s: System, steps: seq<Step>)
    requires Inv(s) && Tidy(s) && OneActiveJob(s) && Valid(s, steps) && OrderlyThroughout(s, steps)
    ensures OneActiveJob(After(s, steps)) && Tidy(After(s, steps))
    decreases |steps|
  {
    if steps != [] {
      StepKeeps(s, steps[0]);
      OneActiveStep(s, steps[0]);
      OneActiveAlways(Apply(s, steps[0]), steps[1..]);
    }
  }

  /** One unfinished job per application in every state reached by orderly steps. */
  lemma OneActiveJobPerApplication(s: System, steps: seq<Step>)
    requires Initial(s) && Valid(s, steps) && OrderlyThroughout(s, steps)
    ensures OneActiveJob(After(s, steps))
  {
    InitialInv(s);
    OneActiveAlways(s, steps);
  }

  /** Every step keeps the rule against rushing, and none revives a finished job. */
  ghost predicate NoneRevived(s: System, steps: seq<Step>)
    requires Valid(s, steps)
    decreases |steps|
  {
    steps == [] ||
    (!Revives(s, steps[0]) && !Rushes(s, steps[0]) && NoneRevived(Apply(s, steps[0]), steps[1..]))
  }

  lemma FinishedStep(s: System, step: Step, j: JobId)
    requires Inv(s) && Tidy(s) && OneActiveJob(s) && Enabled(s, step) && !Revives(s, step) && !Rushes(s, step)
    requires j in s.db.jobs && Terminal(s.db.jobs[j].state)
    ensures j in Apply(s, step).db.jobs && Terminal(Apply(s, step).db.jobs[j].state)
  {
    hide Apply, Inv, Tidy, Enabled;
    if step.Enqueue? {
      EnqueueStep(s, step);
    } else {
      StepTidies(s, step);
      assert Kept(s, Apply(s, step), j);
    }
  }

  /** Unless it is revived, what is finished stays finished. */
  lemma {:induction false} FinishedStays(s: System, steps: seq<Step>, j: JobId)
    requires Inv(s) && Tidy(s) && OneActiveJob(s) && Valid(s, steps) && NoneRevived(s, steps)
    requires j in s.db.jobs && Terminal(s.db.jobs[j].state)
    ensures j in After(s, steps).db.jobs && Terminal(After(s, steps).db.jobs[j].state)
    decreases |steps|
  {
    hide Apply, Revives, Rushes;
    if steps != [] {
      StepKeeps(s, steps[0]);
      OneActiveStep(s, steps[0]);
      FinishedStep(s, steps[0], j);
      FinishedStays(Apply(s, steps[0]), steps[1..], j);
    }
  }

  // ---------------------------------------------------------------- the rules are exact

  /** A job that safe resume may complete without rushing, by its state alone. */
  lemma SafeCompletions(s: System, j: JobId, w: WorkerId, g: nat, expected: Option<OperatorId>)
    requires Inv(s) && j in s.db.jobs && SetAside(s.db.jobs[j].state)
    ensures !Rushes(s, Operate(j, CompleteByOperator(w, g, expected)))
  {
    hide FenceOk, TakeoverOk, PublishedOk, NotesOk;
    assert JobOk(s, j);
  }

  predicate TwoUnfinished(s: System, j: JobId, k: JobId) {
    && j != k && j in s.db.jobs && k in s.db.jobs && s.db.jobs[j].app == s.db.jobs[k].app
    && !Terminal(s.db.jobs[j].state) && !Terminal(s.db.jobs[k].state)
  }

  /** What a rushed completion leaves: the job finished, its run still at work, nothing else unfinished. */
  predicate Rushed(t: System, r: RunId) {
    && t.fence.None? && r in t.runs && (t.runs[r].phase.Working? || t.runs[r].phase.Submitted?)
    && Owns(t.db, r.job, t.runs[r].worker, r.gen) && !t.db.jobs[r.job].cancelled
    && !HasActiveJob(t.db, t.db.jobs[r.job].app)
  }

  lemma RushLeaves(s: System, step: Step)
    requires Inv(s) && Tidy(s) && OneActiveJob(s) && Enabled(s, step) && Rushes(s, step)
    ensures step.Operate? && step.job in s.db.jobs
    ensures Rushed(Apply(s, step), RunId(step.job, s.db.jobs[step.job].gen))
  {
    hide TransitionJob, TakeoverOk, PublishedOk, NotesOk, LeaseBeyond, FenceHeld;
    var j, w, g := step.job, step.call.worker, step.call.gen;
    var r := RunId(j, s.db.jobs[j].gen);
    TransitionFrame(s.db, j, w, g, Live(Applied), s.now);
    assert JobOk(s, j) && RunOk(s, r) && FenceOk(s);
    OwnedIsUnfinished(s, r);
  }

  lemma EnqueueBeside(t: System, r: RunId, newId: JobId)
    requires Rushed(t, r) && newId !in t.db.jobs
    ensures var step := Enqueue(newId, t.db.jobs[r.job].app, 0, 3);
            && Enabled(t, step) && Orderly(t, step)
            && var u := Apply(t, step);
            && u.fence.None? && r in u.runs && u.runs[r] == t.runs[r] && r.job in u.db.jobs && newId in u.db.jobs
            && u.db.jobs[r.job] == t.db.jobs[r.job] && u.db.jobs[newId].app == t.db.jobs[r.job].app
            && u.db.jobs[newId].state == Ready
  {
  }

  function Resumption(p: Phase): Act {
    if p.Working? then Navigate else AnnounceVerifying
  }

  lemma WorkBeside(u: System, r: RunId)
    requires u.fence.None? && r in u.runs && (u.runs[r].phase.Working? || u.runs[r].phase.Submitted?)
    requires Owns(u.db, r.job, u.runs[r].worker, r.gen) && !u.db.jobs[r.job].cancelled
    ensures var step := Work(r, Resumption(u.runs[r].phase));
            && Enabled(u, step) && Orderly(u, step)
            && var v := Apply(u, step);
            v.db.jobs == u.db.jobs[r.job := v.db.jobs[r.job]] && v.db.jobs[r.job].app == u.db.jobs[r.job].app
            && !Terminal(v.db.jobs[r.job].state)
  {
    hide TransitionJob;
    TransitionFrame(u.db, r.job, u.runs[r].worker, r.gen,
                    Plain(if u.runs[r].phase.Working? then Navigating else Verifying), u.now);
  }

  lemma TwoAreTooMany(s: System, j: JobId, k: JobId)
    requires TwoUnfinished(s, j, k)
    ensures !OneActiveJob(s)
  {
  }

  /** A step against the second rule leads, with orderly steps only, to two unfinished jobs: the
      application is enqueued again, and the run takes its next step. */
  lemma RushEndsInTwo(s: System, step: Step) returns (more: seq<Step>)
    requires Inv(s) && Tidy(s) && OneActiveJob(s) && Enabled(s, step) && Rushes(s, step)
    ensures Valid(Apply(s, step), more) && OrderlyThroughout(Apply(s, step), more)
    ensures !OneActiveJob(After(Apply(s, step), more))
  {
    hide Apply, Enabled, Orderly, Rushes, OneActiveJob, Inv, Tidy;
    var t := Apply(s, step);
    RushLeaves(s, step);
    var r := RunId(step.job, s.db.jobs[step.job].gen);
    var newId := FreshId(t.db.jobs.Keys);
    var e1 := Enqueue(newId, t.db.jobs[r.job].app, 0, 3);
    EnqueueBeside(t, r, newId);
    var u := Apply(t, e1);
    var e2 := Work(r, Resumption(u.runs[r].phase));
    WorkBeside(u, r);
    var v := Apply(u, e2);
    assert TwoUnfinished(v, r.job, newId);
    TwoAreTooMany(v, r.job, newId);
    more := [e1, e2];
    assert more[1..] == [e2] && [e2][1..] == [];
    assert Valid(v, []) && After(v, []) == v;
    assert Valid(u, [e2]) && After(u, [e2]) == v && OrderlyThroughout(u, [e2]);
  }

  /** The rules are exact.  Orderly steps keep one unfinished job per application; a step that breaks
      a rule leads to two, either at once or after further steps that are all orderly. */
  lemma RulesAreExact(s: System, step: Step)
    requires Inv(s) && Tidy(s) && OneActiveJob(s) && Enabled(s, step)
    ensures Orderly(s, step) ==> OneActiveJob(Apply(s, step)) && Tidy(Apply(s, step))
    ensures !Orderly(s, step) ==> exists more ::
                Valid(Apply(s, step), more) && OrderlyThroughout(Apply(s, step), more)
                && !OneActiveJob(After(Apply(s, step), more))
  {
    hide Apply, Enabled, Revives, Rushes, OneActiveJob, Inv, Tidy;
    if Orderly(s, step) {
      OneActiveStep(s, step);
    } else if Rushes(s, step) {
      var more := RushEndsInTwo(s, step);
    } else {
      CrowdEndsInTwo(s, step);
      assert Valid(Apply(s, step), []) && After(Apply(s, step), []) == Apply(s, step);
      assert OrderlyThroughout(Apply(s, step), []);
    }
  }

  lemma CrowdEndsInTwo(s: System, step: Step)
    requires Inv(s) && Tidy(s) && Enabled(s, step) && Crowds(s, step)
    ensures !OneActiveJob(Apply(s, step))
  {
    hide Apply, Inv, Tidy;
    ReviveStep(s, step);
    var k :| k in s.db.jobs && k != step.job && s.db.jobs[k].app == s.db.jobs[step.job].app
             && !Terminal(s.db.jobs[k].state);
    TwoAreTooMany(Apply(s, step), step.job, k);
  }
}
