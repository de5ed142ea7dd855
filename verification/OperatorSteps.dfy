/** Every sweep, operator call and runtime command keeps the invariant. */
module OperatorSteps {
  import opened Rows
  import opened Rules
  import opened Bulk
  import opened Protocol
  import opened Invariant
  import opened WorkerSteps
  import opened BulkFacts

  lemma SweepKeeps(s: System, j: JobId, sweep: Sweep)
    requires Inv(s) && Enabled(s, Recover(j, sweep))
    ensures Inv(SweepEffect(s, j, sweep))
  {
    match sweep
    case NoteStranded => RememberKeeps(s, StrandedRead(j, s.db.jobs[j].owner, s.db.jobs[j].gen));
    case MarkStranded(owner, g, pick) => MarkKeeps(s, j, SweepMark(owner, g), None, pick);
    case NoteSubmitting => RememberKeeps(s, SubmittingRead(j, s.db.jobs[j].owner, s.db.jobs[j].gen));
    case MarkCleared(owner, g, pick) => MarkKeeps(s, j, ClearMark(owner, g), None, pick);
    case NoteAmbiguous => RememberKeeps(s, AmbiguousRead(j));
    case Repair(latest, pick) => MarkKeeps(s, j, REPAIR_MARK, latest, pick);
  }

  /** A call that rewrites one job row and, maybe, the takeover. */
  lemma RowCallKeeps(s: System, t: System, j: JobId)
    requires Inv(s) && s.fence.None? && t.fence.None? && j in s.db.jobs && j in t.db.jobs
    requires t.db.jobs == s.db.jobs[j := t.db.jobs[j]] && t.db.attempts == s.db.attempts
    requires t.runs == s.runs && t.published == s.published && t.notes == s.notes && t.now == s.now
    requires JobOk(t, j) && RowStep(s.db.jobs[j], t.db.jobs[j])
    requires forall k | k != j :: t.clicks[k] == s.clicks[k] && t.repeats[k] == s.repeats[k]
    requires forall k | k != j :: k in t.committed <==> k in s.committed
    requires TakeoverOk(t)
    ensures Inv(t)
  {
    SameAttempts(s, t);
    JobChange(s, t, j, RunId(j, 0));
  }

  lemma CancelKeeps(s: System, j: JobId)
    requires Inv(s) && s.fence.None?
    ensures Inv(s.(db := CancelJob(s.db, j)))
  {
    var t := s.(db := CancelJob(s.db, j));
    if j in s.db.jobs {
      assert JobOk(s, j);
      assert t.db.jobs == s.db.jobs[j := CancelledRow(s.db.jobs[j])];
      RowCallKeeps(s, t, j);
    } else {
      assert t == s;
    }
  }

  lemma SkipFrame(db: Db, j: JobId, pick: Option<AttemptId>, now: nat)
    requires j in db.jobs && (pick.Some? ==> pick.value in db.attempts)
    ensures var db' := SkipJob(db, j, pick, now);
            var row := db.jobs[j];
            && db'.jobs == (if Submitting(row.state) then db.jobs[j := AmbiguousRow(row)]
                            else if Skippable(row.state) then db.jobs[j := SkippedRow(row)] else db.jobs)
            && db'.attempts == (if Submitting(row.state) then CloseAttempt(db.attempts, pick, now) else db.attempts)
            && db'.ctrl.takeoverOwner == db.ctrl.takeoverOwner && db'.ctrl.takeoverExpires == db.ctrl.takeoverExpires
  {
  }

  lemma SkipAttempts(s: System, t: System, j: JobId, pick: Option<AttemptId>)
    requires RowsOk(s) && IsLatest(s.db.attempts, j, OpenRow, pick) && j in s.db.jobs
    requires t.db.attempts == s.db.attempts || t.db.attempts == CloseAttempt(s.db.attempts, pick, s.now)
    requires s.db.jobs.Keys <= t.db.jobs.Keys
    ensures AttemptsStep(s.db, t.db)
  {
    forall a {:trigger t.db.attempts[a]} | a in s.db.attempts
      ensures var k := s.db.attempts[a].job;
              k in s.db.jobs && k in t.db.jobs
              && AttemptStep(s.db.attempts[a], t.db.attempts[a], s.db.jobs[k].gen, t.db.jobs[k].gen)
    {
      assert AttemptOk(s, a);
    }
  }

  lemma SkippedRowFine(row: Job, row': Job, run: Option<Run>, committed: bool, clicks: nat, repeats: nat)
    requires RowFine(row, run, committed, clicks, repeats)
    requires row' == (if Submitting(row.state) then AmbiguousRow(row) else if Skippable(row.state)
                      then SkippedRow(row) else row)
    ensures RowStep(row, row') && RowFine(row', if row'.gen == row.gen then run else None, committed, clicks, repeats)
    ensures row'.owner.Some? ==> row' == row
  {
  }

  lemma SkipKeepsRows(s: System, t: System, j: JobId, pick: Option<AttemptId>)
    requires Inv(s) && IsLatest(s.db.attempts, j, OpenRow, pick) && j in s.db.jobs
    requires t == s.(db := SkipJob(s.db, j, pick, s.now))
    ensures RowsOk(t)
  {
    hide SkipJob, FenceOk, TakeoverOk, PublishedOk, NotesOk;
    SkipFrame(s.db, j, pick, s.now);
    assert JobOk(s, j);
    SkippedRowFine(s.db.jobs[j], t.db.jobs[j], CurrentRun(s, j), j in s.committed, s.clicks[j], s.repeats[j]);
    SkipAttempts(s, t, j, pick);
    JobChange(s, t, j, RunId(j, 0));
  }

  lemma SkipKeeps(s: System, j: JobId, pick: Option<AttemptId>)
    requires Inv(s) && s.fence.None? && IsLatest(s.db.attempts, j, OpenRow, pick)
    ensures Inv(s.(db := SkipJob(s.db, j, pick, s.now)))
  {
    var t := s.(db := SkipJob(s.db, j, pick, s.now));
    if j in s.db.jobs {
      SkipKeepsRows(s, t, j, pick);
      SkipFrame(s.db, j, pick, s.now);
      QuietStep(s, t);
    } else {
      assert t == s;
    }
  }

  lemma ResolveFrame(db: Db, j: JobId, force: bool, expected: Option<OperatorId>, now: nat)
    requires MayResolve(db, j, force, expected, now)
    ensures var db' := ResolveJob(db, j, force, expected, now);
            db'.jobs == db.jobs[j := ResolvedRow(db.jobs[j])] && db'.attempts == db.attempts && db'.ctrl == db.ctrl
  {
  }

  lemma ResolveRowKeeps(s: System, t: System, j: JobId, db: Db)
    requires Inv(s) && s.fence.None? && j in s.db.jobs
    requires db.jobs == s.db.jobs[j := ResolvedRow(s.db.jobs[j])] && db.attempts == s.db.attempts
             && db.ctrl == s.db.ctrl
    requires t == Overridden(s, j, db) || (t == s.(db := db) && !PostSubmit(s.db.jobs[j].state))
    ensures Inv(t)
  {
    assert JobOk(s, j);
    RowCallKeeps(s, t, j);
  }

  lemma ResolveKeeps(s: System, j: JobId, force: bool, expected: Option<OperatorId>)
    requires Inv(s) && s.fence.None?
    ensures Inv(CallEffect(s, j, Resolve(force, expected)))
  {
    var db := ResolveJob(s.db, j, force, expected, s.now);
    if MayResolve(s.db, j, force, expected, s.now) {
      ResolveFrame(s.db, j, force, expected, s.now);
      if s.db.jobs[j].state == AmbiguousSubmission {
        assert JobOk(s, j);
        ResolveRowKeeps(s, Overridden(s, j, db), j, db);
      } else {
        ResolveRowKeeps(s, s.(db := db), j, db);
      }
    }
  }

  lemma ResetRowKeeps(s: System, j: JobId)
    requires j in s.db.jobs && JobOk(s, j)
    ensures var t := Reset(s, j);
            && t.db == s.db.(jobs := s.db.jobs[j := TrackerRequeueRow(s.db.jobs[j])])
            && JobOk(t, j) && RowStep(s.db.jobs[j], t.db.jobs[j])
  {
  }

  lemma TrackerResetKeeps(s: System, j: JobId)
    requires Inv(s) && s.fence.None? && j in s.db.jobs
    ensures Inv(Reset(s, j))
  {
    hide RowFine, RowStep;
    assert JobOk(s, j);
    ResetRowKeeps(s, j);
    RowCallKeeps(s, Reset(s, j), j);
  }

  /** Clearing the takeover ends the last grant now, unless it had ended before. */
  lemma ClearedTakeover(s: System, db: Db)
    requires TakeoverOk(s) && db.ctrl.takeoverOwner.None? && db.ctrl.takeoverExpires.None?
    ensures TakeoverOk(Cleared(s, db))
  {
  }

  lemma ReopenLoginKeeps(s: System, j: JobId, expected: Option<OperatorId>)
    requires Inv(s) && s.fence.None?
    ensures Inv(CallEffect(s, j, ReopenLogin(expected)))
  {
    if MayRequeueAuth(s.db, j, expected, s.now) {
      var t := CallEffect(s, j, ReopenLogin(expected));
      assert JobOk(s, j);
      assert t.db.jobs == s.db.jobs[j := ReleasedRow(s.db.jobs[j]).(nextRetry := None)];
      ClearedTakeover(s, RequeueAuth(s.db, j, expected, s.now));
      RowCallKeeps(s, t, j);
    }
  }

  lemma CompleteByOperatorKeeps(s: System, j: JobId, w: WorkerId, g: nat)
    requires Inv(s) && s.fence.None?
    ensures Inv(s.(db := TransitionJob(s.db, j, w, g, Live(Applied), s.now)))
  {
    var t := s.(db := TransitionJob(s.db, j, w, g, Live(Applied), s.now));
    TransitionFrame(s.db, j, w, g, Live(Applied), s.now);
    if MayMove(s.db, j, w, g, Live(Applied), s.now) {
      assert JobOk(s, j);
      RowCallKeeps(s, t, j);
    } else {
      assert t == s;
    }
  }

  lemma ResumeReadyKeeps(s: System, j: JobId, w: WorkerId, g: nat, expected: Option<OperatorId>)
    requires Inv(s) && s.fence.None?
    ensures Inv(s.(db := SafeResumeReady(s.db, j, w, g, expected, s.now)))
  {
    var t := s.(db := SafeResumeReady(s.db, j, w, g, expected, s.now));
    if OwnerGate(s.db, expected, s.now) && MayResume(s.db, j, w, g, s.now) {
      assert JobOk(s, j);
      RowCallKeeps(s, t, j);
    } else {
      assert t == s;
    }
  }

  lemma CallKeeps(s: System, j: JobId, call: Call)
    requires Inv(s) && Enabled(s, Operate(j, call))
    ensures Inv(CallEffect(s, j, call))
  {
    match call
    case Cancel => CancelKeeps(s, j);
    case Skip(pick) => SkipKeeps(s, j, pick);
    case Resolve(force, expected) => ResolveKeeps(s, j, force, expected);
    case NoteRequeue => RememberKeeps(s, RequeueRead(j));
    case TrackerReset =>
      assert RequeueRead(j).job == j;
      TrackerResetKeeps(s, j);
    case ReopenLogin(expected) => ReopenLoginKeeps(s, j, expected);
    case NoteResume(w, g) => RememberKeeps(s, ResumeRead(j, w, g));
    case CompleteByOperator(w, g, expected) => CompleteByOperatorKeeps(s, j, w, g);
    case OperatorOutcome(a) => OutcomeKeeps(s, a, Reached(Applied));
    case ResumeReady(w, g, expected) => ResumeReadyKeeps(s, j, w, g, expected);
  }

  // ---------------------------------------------------------------- control row

  lemma TakeControlKeeps(s: System, op: OperatorId, seconds: nat, sample: nat)
    requires Inv(s) && s.fence.None? && LeaseLengthOk(seconds) && sample <= s.now
    ensures Inv(TookControl(s, op, seconds, sample))
  {
    if MayClaimTakeover(s.db, op, sample) {
      var t := TookControl(s, op, seconds, sample);
      assert Sec(sample) <= Sec(s.now);
      ControlKeeps(s, t);
    }
  }

  lemma RenewControlKeeps(s: System, op: OperatorId, seconds: nat)
    requires Inv(s) && s.fence.None? && LeaseLengthOk(seconds)
    ensures Inv(RenewedControl(s, op, seconds))
  {
    ControlKeeps(s, RenewedControl(s, op, seconds));
  }

  lemma DropKeeps(s: System, db: Db)
    requires Inv(s) && s.fence.None?
    requires db.jobs == s.db.jobs && db.attempts == s.db.attempts
    requires db == s.db || (db.ctrl.takeoverOwner.None? && db.ctrl.takeoverExpires.None?)
    ensures Inv(Cleared(s, db))
  {
    if db.ctrl.takeoverOwner.None? {
      ClearedTakeover(s, db);
    }
    ControlKeeps(s, Cleared(s, db));
  }

  // ---------------------------------------------------------------- bulk resets

  /** A row that loses its owner, or stays as it is, and is in order. */
  predicate Falls(row: Job, row': Job, run: Option<Run>, committed: bool, clicks: nat, repeats: nat) {
    && RowStep(row, row') && (row'.owner.None? || row' == row)
    && RowFine(row', run, committed, clicks, repeats)
  }

  ghost predicate AllFall(s: System, jobs: map<JobId, Job>) {
    && jobs.Keys == s.db.jobs.Keys
    && forall j {:trigger jobs[j]} | j in s.db.jobs ::
         Falls(s.db.jobs[j], jobs[j], CurrentRun(s, j), j in s.committed, s.clicks[j], s.repeats[j])
  }

  /** Every job row takes a step of its own. */
  lemma BulkKeeps(s: System, t: System)
    requires Inv(s) && s.fence.None? && t.fence.None? && t.runs == s.runs
    requires AllFall(s, t.db.jobs)
    requires t.clicks == s.clicks && t.repeats == s.repeats && t.committed == s.committed
    requires t.published == s.published && t.notes == s.notes
    requires AttemptsStep(s.db, t.db) && TakeoverOk(t)
    ensures Inv(t)
  {
    forall j {:trigger JobOk(t, j)} | j in t.db.jobs ensures JobOk(t, j) && RowStep(s.db.jobs[j], t.db.jobs[j]) {
      assert JobOk(s, j);
      assert Falls(s.db.jobs[j], t.db.jobs[j], CurrentRun(s, j), j in s.committed, s.clicks[j], s.repeats[j]);
    }
    forall j | j in s.db.jobs ensures s.db.jobs[j].gen <= t.db.jobs[j].gen {
      assert JobOk(t, j);
    }
    RowsSettle(s, t, RunId(0, 0));
  }

  lemma ClearRowFalls(row: Job, run: Option<Run>, committed: bool, clicks: nat, repeats: nat)
    requires RowFine(row, run, committed, clicks, repeats)
    ensures Falls(row, ClearRow(row), run, committed, clicks, repeats)
  {
  }

  lemma StopRowFalls(row: Job, run: Option<Run>, committed: bool, clicks: nat, repeats: nat)
    requires RowFine(row, run, committed, clicks, repeats)
    ensures Falls(row, StopRow(row), run, committed, clicks, repeats)
  {
  }

  lemma ShutdownRowFalls(row: Job, run: Option<Run>, committed: bool, clicks: nat, repeats: nat)
    requires RowFine(row, run, committed, clicks, repeats) && !Terminal(row.state)
    ensures Falls(row, ShutdownRow(row), run, committed, clicks, repeats)
  {
  }

  lemma ResetAllKeeps(s: System)
    requires Inv(s) && s.fence.None?
    ensures Inv(CommandEffect(s, ResetAll))
  {
    var t := CommandEffect(s, ResetAll);
    forall j {:trigger t.db.jobs[j]} | j in s.db.jobs
      ensures Falls(s.db.jobs[j], t.db.jobs[j], CurrentRun(s, j), j in s.committed, s.clicks[j], s.repeats[j])
    {
      assert JobOk(s, j);
      ClearRowFalls(s.db.jobs[j], CurrentRun(s, j), j in s.committed, s.clicks[j], s.repeats[j]);
    }
    SameAttempts(s, t);
    ClearedTakeover(s, ClearReset(s.db));
    BulkKeeps(s, t);
  }

  lemma StopFalls(s: System, rows: seq<JobId>, picks: Picks, now: nat)
    requires RowsOk(s) && Lists(s.db, rows, IsSubmitting) && PicksExist(s.db.attempts, rows, picks)
    ensures AllFall(s, Stopped(s.db, rows, picks, now).jobs)
  {
    var jobs := Stopped(s.db, rows, picks, now).jobs;
    StoppedJobs(s.db, rows, picks, now);
    forall j {:trigger jobs[j]} | j in s.db.jobs
      ensures Falls(s.db.jobs[j], jobs[j], CurrentRun(s, j), j in s.committed, s.clicks[j], s.repeats[j])
    {
      assert JobOk(s, j);
      StopRowFalls(s.db.jobs[j], CurrentRun(s, j), j in s.committed, s.clicks[j], s.repeats[j]);
    }
  }

  lemma StopAttempts(s: System, rows: seq<JobId>, picks: Picks, now: nat)
    requires RowsOk(s) && Lists(s.db, rows, IsSubmitting) && PicksOwn(s.db.attempts, rows, picks)
    ensures AttemptsStep(s.db, Stopped(s.db, rows, picks, now))
  {
    hide Stopped, MarkAll;
    var db := Stopped(s.db, rows, picks, now);
    StoppedJobs(s.db, rows, picks, now);
    MarkAllAttempts(s.db, rows, picks, now);
    forall a {:trigger db.attempts[a]} | a in s.db.attempts
      ensures var j := s.db.attempts[a].job;
              j in s.db.jobs && j in db.jobs
              && AttemptStep(s.db.attempts[a], db.attempts[a], s.db.jobs[j].gen, db.jobs[j].gen)
    {
      assert AttemptOk(s, a);
    }
  }

  lemma StopCommittedKeeps(s: System, rows: seq<JobId>, picks: Picks, now: nat)
    requires Inv(s) && s.fence.None? && Lists(s.db, rows, IsSubmitting)
    requires PicksOwn(s.db.attempts, rows, picks)
    ensures Inv(Cleared(s, Stopped(s.db, rows, picks, now)))
  {
    var db := Stopped(s.db, rows, picks, now);
    StopFalls(s, rows, picks, now);
    StopAttempts(s, rows, picks, now);
    StoppedJobs(s.db, rows, picks, now);
    ClearedTakeover(s, db);
    BulkKeeps(s, Cleared(s, db));
  }

  lemma StopKeeps(s: System, command: Command)
    requires Inv(s) && command.StopEverything? && Enabled(s, Govern(command))
    ensures Inv(CommandEffect(s, command))
  {
    var StopEverything(rows, picks, stopper, t1, t2, t3) := command;
    var s1 := s.(now := t3);
    TickKeeps(s, t3);
    if StopCommits(s.db, rows, picks, stopper, t1, t2, t3) {
      StopCommittedKeeps(s1, rows, picks, t1);
    } else {
      DropKeeps(s1, s1.db);
    }
  }

  lemma DaemonFalls(s: System, w: WorkerId, rows: seq<JobId>, picks: Picks)
    requires RowsOk(s) && Lists(s.db, rows, TakenFrom(w)) && PicksExist(s.db.attempts, rows, picks)
    ensures AllFall(s, ShutdownAll(s.db, rows, picks, s.now).jobs)
  {
    var jobs := ShutdownAll(s.db, rows, picks, s.now).jobs;
    ShutdownAllJobs(s.db, rows, picks, s.now);
    forall j {:trigger jobs[j]} | j in s.db.jobs
      ensures Falls(s.db.jobs[j], jobs[j], CurrentRun(s, j), j in s.committed, s.clicks[j], s.repeats[j])
    {
      assert JobOk(s, j);
      if j in rows {
        ShutdownRowFalls(s.db.jobs[j], CurrentRun(s, j), j in s.committed, s.clicks[j], s.repeats[j]);
      }
    }
  }

  lemma DaemonAttempts(s: System, rows: seq<JobId>, picks: Picks)
    requires RowsOk(s) && Distinct(rows) && PicksOwn(s.db.attempts, rows, picks)
    requires forall j | j in rows :: j in s.db.jobs
    ensures AttemptsStep(s.db, ShutdownAll(s.db, rows, picks, s.now))
  {
    var db := ShutdownAll(s.db, rows, picks, s.now);
    ShutdownAllAttempts(s.db, rows, picks, s.now);
    forall a {:trigger db.attempts[a]} | a in s.db.attempts
      ensures var j := s.db.attempts[a].job;
              j in s.db.jobs && j in db.jobs
              && AttemptStep(s.db.attempts[a], db.attempts[a], s.db.jobs[j].gen, db.jobs[j].gen)
    {
      assert AttemptOk(s, a);
    }
  }

  lemma DaemonStopKeeps(s: System, w: WorkerId, rows: seq<JobId>, picks: Picks)
    requires Inv(s) && s.fence.None? && Lists(s.db, rows, TakenFrom(w)) && PicksOwn(s.db.attempts, rows, picks)
    ensures Inv(s.(db := ShutdownAll(s.db, rows, picks, s.now)))
  {
    DaemonFalls(s, w, rows, picks);
    DaemonAttempts(s, rows, picks);
    ShutdownAllJobs(s.db, rows, picks, s.now);
    BulkKeeps(s, s.(db := ShutdownAll(s.db, rows, picks, s.now)));
  }

  lemma SwitchKeeps(s: System, command: Command)
    requires Inv(s) && s.fence.None? && CommandAllowed(s, command)
    requires command.SetPaused? || command.SetStopped? || command.Unstop? || command.ShutBrowser?
    ensures Inv(CommandEffect(s, command))
  {
    ControlKeeps(s, CommandEffect(s, command));
  }

  lemma CommandKeeps(s: System, command: Command)
    requires Inv(s) && Enabled(s, Govern(command))
    ensures Inv(CommandEffect(s, command))
  {
    hide RowsOk, FenceOk, TakeoverOk, PublishedOk, NotesOk, ShutdownAll, EmergencyStop, ClearReset;
    match command
    case ResetAll => ResetAllKeeps(s);
    case StopEverything(_, _, _, _, _, _) => StopKeeps(s, command);
    case DaemonStop(w, rows, picks) => DaemonStopKeeps(s, w, rows, picks);
    case DropTakeover(expected) => DropKeeps(s, ClearTakeover(s.db, expected, s.now));
    case TakeControl(op, seconds, sample) => TakeControlKeeps(s, op, seconds, sample);
    case RenewControl(op, seconds) => RenewControlKeeps(s, op, seconds);
    case ReleaseControl(op, force) => DropKeeps(s, ReleaseTakeover(s.db, op, force));
    case Publish(p) => PublishKeeps(s, p);
    case _ => SwitchKeeps(s, command);
  }

  // ---------------------------------------------------------------- every step, every run

  lemma StepKeeps(s: System, step: Step)
    requires Inv(s) && Enabled(s, step)
    ensures Inv(Apply(s, step))
  {
    hide ActEffect, SweepEffect, CallEffect, CommandEffect;
    match step
    case Tick(time) => TickKeeps(s, time);
    case Enqueue(j, app, priority, maxRetries) => EnqueueKeeps(s, j, app, priority, maxRetries);
    case SetStatus(app, status) => ControlKeeps(s, Apply(s, step));
    case ClaimNext(j, w, sample) => ClaimKeeps(s, j, w, sample);
    case Heartbeat(j, w, g) => HeartbeatKeeps(s, j, w, g);
    case Work(r, act) => ActKeeps(s, r, act);
    case Recover(j, sweep) => SweepKeeps(s, j, sweep);
    case Operate(j, call) => CallKeeps(s, j, call);
    case Govern(command) => CommandKeeps(s, command);
  }

  lemma {:induction false} RunKeeps(s: System, steps: seq<Step>)
    requires Inv(s) && Valid(s, steps)
    ensures Inv(After(s, steps))
    decreases |steps|
  {
    if steps != [] {
      StepKeeps(s, steps[0]);
      RunKeeps(Apply(s, steps[0]), steps[1..]);
    }
  }

  lemma InitialInv(s: System)
    requires Initial(s)
    ensures Inv(s)
  {
  }
}
