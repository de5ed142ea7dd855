/** Every step of the worker program keeps the invariant. */
module WorkerSteps {
  import opened Rows
  import opened Rules
  import opened Bulk
  import opened Protocol
  import opened Invariant

  lemma ClaimKeepsRows(s: System, j: JobId, w: WorkerId, sample: nat)
    requires Inv(s) && j in s.db.jobs && Eligible(s.db, j, sample)
    ensures RowsOk(ClaimTaken(s, j, w, sample))
  {
    hide FenceOk, TakeoverOk, PublishedOk, NotesOk;
    var t := ClaimTaken(s, j, w, sample);
    assert JobOk(s, j);
    forall k {:trigger JobOk(t, k)} | k in t.db.jobs ensures JobOk(t, k) {
      if k != j {
        assert JobOk(s, k);
        assert CurrentRun(t, k) == CurrentRun(s, k);
      }
    }
    forall r {:trigger RunOk(t, r)} | r in t.runs ensures RunOk(t, r) {
      if r in s.runs { assert RunOk(s, r); }
    }
    forall a {:trigger AttemptOk(t, a)} | a in t.db.attempts ensures AttemptOk(t, a) {
      assert AttemptOk(s, a);
    }
  }

  lemma ClaimKeeps(s: System, j: JobId, w: WorkerId, sample: nat)
    requires Inv(s) && s.fence.None? && Best(s.db, j, sample)
    ensures Inv(ClaimTaken(s, j, w, sample))
  {
    hide RowsOk, TakeoverOk, PublishedOk, NotesOk, Eligible;
    ClaimKeepsRows(s, j, w, sample);
    QuietStep(s, ClaimTaken(s, j, w, sample));
  }

  lemma HeartbeatKeeps(s: System, j: JobId, w: WorkerId, g: nat)
    requires Inv(s) && s.fence.None?
    ensures Inv(s.(db := RenewLease(s.db, j, w, g, s.now)))
  {
    if MayRenew(s.db, j, w, g, s.now) {
      var t := s.(db := RenewLease(s.db, j, w, g, s.now));
      assert JobOk(s, j);
      SameAttempts(s, t);
      JobChange(s, t, j, RunId(j, 0));
      QuietStep(s, t);
    } else {
      assert s.(db := s.db) == s;
    }
  }

  lemma EnqueueKeeps(s: System, j: JobId, app: AppId, priority: int, maxRetries: int)
    requires Inv(s) && s.fence.None? && j !in s.db.jobs
    ensures Inv(s.(db := EnqueueJob(s.db, j, app, priority, maxRetries, s.now)))
  {
    var t := s.(db := EnqueueJob(s.db, j, app, priority, maxRetries, s.now));
    forall k {:trigger JobOk(t, k)} | k in t.db.jobs ensures JobOk(t, k) {
      if k in s.db.jobs {
        assert JobOk(s, k);
        assert CurrentRun(t, k) == CurrentRun(s, k);
      }
    }
    forall r {:trigger RunOk(t, r)} | r in t.runs ensures RunOk(t, r) {
      assert RunOk(s, r);
    }
    forall a {:trigger AttemptOk(t, a)} | a in t.db.attempts ensures AttemptOk(t, a) {
      assert AttemptOk(s, a);
    }
    QuietStep(s, t);
  }

  lemma TransitionFrame(db: Db, j: JobId, w: WorkerId, g: nat, m: Move, now: nat)
    ensures var db' := TransitionJob(db, j, w, g, m, now);
            && db'.attempts == db.attempts && db'.ctrl == db.ctrl && db'.outbox == db.outbox
            && db'.jobs == if MayMove(db, j, w, g, m, now) then db.jobs[j := MovedRow(db.jobs[j], m)] else db.jobs
  {
  }

  /** The transitions of a run before its intent and after its click. */
  predicate LegalMove(from: Phase, m: Move, p: Phase) {
    match from
    case Working =>
      && (if m.to.Navigating? then p.Working? else p.Finished?)
      && (m.to.Navigating? || m.to.RetryWait? || m.to.FailedPermanent? || m.to.Skipped? || Exceptional(m.to))
    case Submitted => p.Awaiting? && m.to.Verifying?
    case Awaiting => p.Finished? && (m.to.Applied? || m.to.FailedPermanent?)
    case _ => false
  }

  lemma MovedRowFine(row: Job, run: Run, p: Phase, m: Move, committed: bool, clicks: nat, repeats: nat)
    requires RowFine(row, Some(run), committed, clicks, repeats) && row.owner.Some?
    requires LegalMove(run.phase, m, p)
    requires run.phase == Working <==> !run.intended
    requires run.phase.Submitted? || run.phase.Awaiting? ==> run.intended
    ensures RowFine(MovedRow(row, m), Some(run.(phase := p)), committed, clicks, repeats)
  {
  }

  lemma MoveKeepsRows(s: System, r: RunId, m: Move, p: Phase)
    requires Inv(s) && s.fence.None? && r in s.runs && LegalMove(s.runs[r].phase, m, p)
    ensures RowsOk(RunMove(s, r, m, p))
  {
    var t := RunMove(s, r, m, p);
    var run := s.runs[r];
    TransitionFrame(s.db, r.job, run.worker, r.gen, m, s.now);
    assert RunOk(s, r);
    assert JobOk(s, r.job);
    SameAttempts(s, t);
    if MayMove(s.db, r.job, run.worker, r.gen, m, s.now) {
      MovedRowFine(s.db.jobs[r.job], run, p, m, r.job in s.committed, s.clicks[r.job], s.repeats[r.job]);
    }
    assert t.db.jobs == s.db.jobs[r.job := t.db.jobs[r.job]];
    JobChange(s, t, r.job, r);
  }

  lemma MoveKeeps(s: System, r: RunId, m: Move, p: Phase)
    requires Inv(s) && s.fence.None? && r in s.runs && LegalMove(s.runs[r].phase, m, p)
    ensures Inv(RunMove(s, r, m, p))
  {
    TransitionFrame(s.db, r.job, s.runs[r].worker, r.gen, m, s.now);
    MoveKeepsRows(s, r, m, p);
    QuietStep(s, RunMove(s, r, m, p));
  }

  lemma HandBackKeepsRows(s: System, r: RunId, delay: nat, sample: nat)
    requires Inv(s) && r in s.runs && s.runs[r].phase == Working
    requires MayMove(s.db, r.job, s.runs[r].worker, r.gen, GateMove(delay, sample), s.now)
    ensures RowsOk(HandedBack(s, r, delay, sample))
  {
    hide TransitionJob, FenceOk, TakeoverOk, PublishedOk, NotesOk;
    var t := HandedBack(s, r, delay, sample);
    TransitionFrame(s.db, r.job, s.runs[r].worker, r.gen, GateMove(delay, sample), s.now);
    assert RunOk(s, r);
    assert JobOk(s, r.job);
    SameAttempts(s, t);
    JobChange(s, t, r.job, r);
  }

  lemma HandBackKeeps(s: System, r: RunId, delay: nat, sample: nat)
    requires Inv(s) && s.fence.None? && r in s.runs && s.runs[r].phase == Working
    ensures Inv(HandedBack(s, r, delay, sample))
  {
    hide TransitionJob, RowsOk, TakeoverOk, PublishedOk, NotesOk;
    var m := GateMove(delay, sample);
    if MayMove(s.db, r.job, s.runs[r].worker, r.gen, m, s.now) {
      TransitionFrame(s.db, r.job, s.runs[r].worker, r.gen, m, s.now);
      HandBackKeepsRows(s, r, delay, sample);
      QuietStep(s, HandedBack(s, r, delay, sample));
    } else {
      PhaseKeeps(s, r, Finished);
    }
  }

  /** A run that only changes its place in the program, or its notes. */
  lemma PhaseKeeps(s: System, r: RunId, p: Phase)
    requires Inv(s) && s.fence.None? && r in s.runs
    requires p.Finished? || (p.Uncertain? && s.runs[r].phase.Intended?)
    ensures Inv(Goto(s, r, p))
  {
    var t := Goto(s, r, p);
    assert RunOk(s, r);
    assert JobOk(s, r.job);
    SameAttempts(s, t);
    assert t.db.jobs == s.db.jobs[r.job := t.db.jobs[r.job]];
    JobChange(s, t, r.job, r);
    QuietStep(s, t);
  }

  lemma OpenAttemptKeeps(s: System, r: RunId, a: AttemptId)
    requires Inv(s) && s.fence.None? && ActAllowed(s, r, OpenAttempt(a))
    ensures Inv(ActEffect(s, r, OpenAttempt(a)))
  {
    var t := ActEffect(s, r, OpenAttempt(a));
    assert RunOk(s, r);
    forall k {:trigger JobOk(t, k)} | k in t.db.jobs ensures JobOk(t, k) {
      assert JobOk(s, k);
    }
    forall q {:trigger RunOk(t, q)} | q in t.runs ensures RunOk(t, q) {
      assert RunOk(s, q);
    }
    forall b {:trigger AttemptOk(t, b)} | b in t.db.attempts ensures AttemptOk(t, b) {
      if b != a {
        assert AttemptOk(s, b);
      } else {
        assert JobOk(s, r.job);
      }
    }
    QuietStep(s, t);
  }

  lemma IntentFrame(db: Db, a: AttemptId, j: JobId, w: WorkerId, g: nat, now: nat)
    requires MayCommitIntent(db, a, j, w, g, now)
    ensures var db' := RecordSubmitIntent(db, a, j, w, g, now);
            && db'.attempts == db.attempts[a := db.attempts[a].(intentAt := Some(Sec(now)))] && db'.ctrl == db.ctrl
            && db'.jobs == db.jobs[j := db.jobs[j].(state := SubmitIntent)]
  {
  }

  lemma CommitKeepsRows(s: System, r: RunId)
    requires Inv(s) && s.fence.None? && ActAllowed(s, r, CommitIntent)
    requires MayCommitIntent(s.db, s.runs[r].attempt.value, r.job, s.runs[r].worker, r.gen, s.now)
    ensures RowsOk(IntentCommitted(s, r))
  {
    hide RecordSubmitIntent, FenceOk, TakeoverOk, PublishedOk, NotesOk;
    var a := s.runs[r].attempt.value;
    var t := IntentCommitted(s, r);
    IntentFrame(s.db, a, r.job, s.runs[r].worker, r.gen, s.now);
    assert RunOk(s, r);
    forall j {:trigger JobOk(t, j)} | j in t.db.jobs ensures JobOk(t, j) {
      assert JobOk(s, j);
    }
    forall q {:trigger RunOk(t, q)} | q in t.runs ensures RunOk(t, q) {
      assert RunOk(s, q);
    }
    forall b {:trigger AttemptOk(t, b)} | b in t.db.attempts ensures AttemptOk(t, b) {
      assert AttemptOk(s, b);
    }
  }

  lemma CommitKeeps(s: System, r: RunId)
    requires Inv(s) && s.fence.None? && ActAllowed(s, r, CommitIntent)
    ensures Inv(IntentCommitted(s, r))
  {
    var run := s.runs[r];
    if MayCommitIntent(s.db, run.attempt.value, r.job, run.worker, r.gen, s.now) {
      CommitKeepsRows(s, r);
      IntentFrame(s.db, run.attempt.value, r.job, run.worker, r.gen, s.now);
      QuietStep(s, IntentCommitted(s, r));
    }
  }

  lemma OpenFenceKeeps(s: System, r: RunId)
    requires Inv(s) && s.fence.None? && ActAllowed(s, r, OpenFence)
    ensures Inv(FenceOpened(s, r))
  {
    var run := s.runs[r];
    assert RunOk(s, r);
    if FenceOpens(s.db, run.attempt.value, r.job, run.worker, r.gen, s.now) {
      var t := FenceOpened(s, r);
      assert JobOk(s, r.job);
      SameAttempts(s, t);
      assert t.db.jobs == s.db.jobs[r.job := t.db.jobs[r.job]];
      JobChange(s, t, r.job, r);
    } else {
      PhaseKeeps(s, r, Uncertain);
    }
  }

  // ---------------------------------------------------------------- steps that may run under the fence

  lemma TickKeeps(s: System, to: nat)
    requires Inv(s) && s.now <= to
    ensures Inv(s.(now := to))
  {
    var t := s.(now := to);
    assert Sec(s.now) <= Sec(to);
    SameRows(s, t);
  }

  /** The rows part of the invariant does not read clock, fence, notes or control row. */
  lemma SameRows(s: System, t: System)
    requires RowsOk(s)
    requires t.db.jobs == s.db.jobs && t.db.attempts == s.db.attempts && t.runs == s.runs
    requires t.clicks == s.clicks && t.repeats == s.repeats && t.committed == s.committed
    ensures RowsOk(t)
  {
    forall k {:trigger JobOk(t, k)} | k in t.db.jobs ensures JobOk(t, k) { assert JobOk(s, k); }
    forall r {:trigger RunOk(t, r)} | r in t.runs ensures RunOk(t, r) { assert RunOk(s, r); }
    forall a {:trigger AttemptOk(t, a)} | a in t.db.attempts ensures AttemptOk(t, a) { assert AttemptOk(s, a); }
  }

  lemma RememberKeeps(s: System, note: Read)
    requires Inv(s) && note.job in s.db.jobs
    ensures Inv(Remember(s, note))
  {
    SameRows(s, Remember(s, note));
  }

  /** A run alone changes: its program counter, its budget, whether it has clicked. */
  lemma RunAloneKeepsRows(s: System, t: System, r: RunId)
    requires Inv(s) && r in s.runs && t.db == s.db
    requires r in t.runs && t.runs == s.runs[r := t.runs[r]]
    requires t.runs[r].worker == s.runs[r].worker && t.runs[r].attempt == s.runs[r].attempt
    requires t.runs[r].intended == s.runs[r].intended && t.runs[r].clicked == s.runs[r].clicked
    requires s.runs[r].phase.Finished? ==> t.runs[r].phase.Finished?
    requires t.clicks == s.clicks && t.repeats == s.repeats && t.committed == s.committed
    requires RunOk(t, r)
    ensures RowsOk(t)
  {
    assert RunOk(s, r);
    assert JobOk(s, r.job);
    SameAttempts(s, t);
    assert t.db.jobs == s.db.jobs[r.job := t.db.jobs[r.job]];
    JobChange(s, t, r.job, r);
  }

  lemma ReadBudgetKeeps(s: System, r: RunId)
    requires Inv(s) && ActAllowed(s, r, ReadBudget)
    ensures Inv(ActEffect(s, r, ReadBudget))
  {
    var t := ActEffect(s, r, ReadBudget);
    assert RunOk(s, r);
    RunAloneKeepsRows(s, t, r);
    assert t.db == s.db && t.fence == s.fence;
  }

  lemma EndRunKeeps(s: System, r: RunId)
    requires Inv(s) && ActAllowed(s, r, EndRun)
    ensures Inv(ActEffect(s, r, EndRun))
  {
    var t := ActEffect(s, r, EndRun);
    assert RunOk(s, r);
    RunAloneKeepsRows(s, t, r);
  }

  lemma SkipVerifyingKeeps(s: System, r: RunId)
    requires Inv(s) && ActAllowed(s, r, SkipVerifying)
    ensures Inv(ActEffect(s, r, SkipVerifying))
  {
    var t := ActEffect(s, r, SkipVerifying);
    assert RunOk(s, r);
    RunAloneKeepsRows(s, t, r);
  }

  lemma CloseFenceKeeps(s: System, r: RunId, ok: bool)
    requires Inv(s) && ActAllowed(s, r, CloseFence(ok))
    ensures Inv(ActEffect(s, r, CloseFence(ok)))
  {
    var t := ActEffect(s, r, CloseFence(ok));
    assert RunOk(s, r);
    RunAloneKeepsRows(s, t, r);
  }

  lemma ClickKeeps(s: System, r: RunId)
    requires Inv(s) && ActAllowed(s, r, Click)
    ensures Inv(ActEffect(s, r, Click))
  {
    var t := ActEffect(s, r, Click);
    assert s.fence == Some(r);
    assert RunOk(s, r);
    assert JobOk(s, r.job);
    SameAttempts(s, t);
    assert t.db.jobs == s.db.jobs[r.job := t.db.jobs[r.job]];
    JobChange(s, t, r.job, r);
  }

  // ---------------------------------------------------------------- outcome records

  /** Closing an attempt touches nothing the invariant reads. */
  lemma OutcomeKeeps(s: System, a: AttemptId, outcome: Outcome)
    requires Inv(s) && s.fence.None? && a in s.db.attempts
    ensures Inv(s.(db := s.db.(attempts := s.db.attempts[a := CompletedAttempt(s.db.attempts[a], outcome, s.now)])))
  {
    var t := s.(db := s.db.(attempts := s.db.attempts[a := CompletedAttempt(s.db.attempts[a], outcome, s.now)]));
    forall k {:trigger JobOk(t, k)} | k in t.db.jobs ensures JobOk(t, k) { assert JobOk(s, k); }
    forall r {:trigger RunOk(t, r)} | r in t.runs ensures RunOk(t, r) { assert RunOk(s, r); }
    forall b {:trigger AttemptOk(t, b)} | b in t.db.attempts ensures AttemptOk(t, b) { assert AttemptOk(s, b); }
    QuietStep(s, t);
  }

  // ---------------------------------------------------------------- ambiguity

  lemma MarkFrame(db: Db, j: JobId, m: Mark, latest: Option<AttemptId>, pick: Option<AttemptId>, now: nat)
    requires latest.Some? ==> latest.value in db.attempts
    requires pick.Some? ==> pick.value in db.attempts
    requires MayMark(db, j, m, latest, now)
    ensures var db' := MarkAmbiguous(db, j, m, latest, pick, now);
            && db'.jobs == db.jobs[j := AmbiguousRow(db.jobs[j])]
            && (pick.None? ==> db'.attempts == db.attempts)
            && (pick.Some? ==>
                  exists stamped ::
                    db'.attempts == db.attempts[pick.value :=
                    UncertainAttempt(db.attempts[pick.value], m, stamped, now)])
            && db'.ctrl == if m.pause then db.ctrl.(paused := true) else db.ctrl
  {
    var e := KeyedEvent(Some(j), m.key);
    if pick.Some? {
      assert MarkAmbiguous(db, j, m, latest, pick, now).attempts
          == db.attempts[pick.value := UncertainAttempt(db.attempts[pick.value], m, e !in db.events, now)];
    }
  }

  lemma MarkRefused(db: Db, j: JobId, m: Mark, latest: Option<AttemptId>, pick: Option<AttemptId>, now: nat)
    requires latest.Some? ==> latest.value in db.attempts
    requires pick.Some? ==> pick.value in db.attempts
    requires !MayMark(db, j, m, latest, now)
    ensures MarkAmbiguous(db, j, m, latest, pick, now) == db
  {
  }

  lemma MarkKeepsRows(s: System, t: System, j: JobId, m: Mark, latest: Option<AttemptId>, pick: Option<AttemptId>)
    requires Inv(s) && IsTarget(s.db, j, m, pick)
    requires latest.Some? ==> latest.value in s.db.attempts
    requires m.repair ==> m.worker.None? && m.gen.None?
    requires t == s.(db := MarkAmbiguous(s.db, j, m, latest, pick, s.now)) && MayMark(s.db, j, m, latest, s.now)
    ensures RowsOk(t)
  {
    hide MarkAmbiguous;
    MarkFrame(s.db, j, m, latest, pick, s.now);
    assert JobOk(s, j);
    forall a {:trigger t.db.attempts[a]} | a in s.db.attempts
      ensures var k := s.db.attempts[a].job;
              k in s.db.jobs && k in t.db.jobs
              && AttemptStep(s.db.attempts[a], t.db.attempts[a], s.db.jobs[k].gen, t.db.jobs[k].gen)
    {
      assert AttemptOk(s, a);
    }
    JobChange(s, t, j, RunId(j, 0));
  }

  lemma MarkKeeps(s: System, j: JobId, m: Mark, latest: Option<AttemptId>, pick: Option<AttemptId>)
    requires Inv(s) && s.fence.None? && IsTarget(s.db, j, m, pick)
    requires latest.Some? ==> latest.value in s.db.attempts
    requires m.repair ==> m.worker.None? && m.gen.None?
    ensures Inv(s.(db := MarkAmbiguous(s.db, j, m, latest, pick, s.now)))
  {
    var t := s.(db := MarkAmbiguous(s.db, j, m, latest, pick, s.now));
    if MayMark(s.db, j, m, latest, s.now) {
      MarkKeepsRows(s, t, j, m, latest, pick);
      MarkFrame(s.db, j, m, latest, pick, s.now);
      QuietStep(s, t);
    } else {
      assert t == s;
    }
  }

  lemma DoubtKeeps(s: System, r: RunId, pick: Option<AttemptId>)
    requires Inv(s) && s.fence.None? && ActAllowed(s, r, Doubt(pick))
    ensures Inv(ActEffect(s, r, Doubt(pick)))
  {
    MarkKeeps(s, r.job, DoubtMark(r, s.runs[r]), None, pick);
    PhaseKeeps(s.(db := MarkAmbiguous(s.db, r.job, DoubtMark(r, s.runs[r]), None, pick, s.now)), r, Finished);
  }

  // ---------------------------------------------------------------- control row

  /** Only the control row, the takeover history and publications change. */
  lemma ControlKeeps(s: System, t: System)
    requires Inv(s) && s.fence.None? && t.fence.None? && t.runs == s.runs
    requires t.db.jobs == s.db.jobs && t.db.attempts == s.db.attempts
    requires t.clicks == s.clicks && t.repeats == s.repeats && t.committed == s.committed
    requires TakeoverOk(t) && PublishedOk(t) && t.notes == s.notes
    ensures Inv(t)
  {
    SameRows(s, t);
  }

  lemma PublishKeeps(s: System, p: Publication)
    requires Inv(s) && s.fence.None?
    ensures Inv(Published(s, p))
  {
    ControlKeeps(s, Published(s, p));
  }

  lemma PauseKeeps(s: System)
    requires Inv(s) && s.fence.None?
    ensures Inv(s.(db := SetPause(s.db, true, None, s.now)))
  {
    ControlKeeps(s, s.(db := SetPause(s.db, true, None, s.now)));
  }

  lemma StatusKeeps(s: System, app: AppId, status: AppStatus)
    requires Inv(s) && s.fence.None?
    ensures Inv(s.(db := s.db.(apps := s.db.apps[app := status])))
  {
    ControlKeeps(s, s.(db := s.db.(apps := s.db.apps[app := status])));
  }

  // ---------------------------------------------------------------- all of them

  lemma ActKeeps(s: System, r: RunId, act: Act)
    requires Inv(s) && Enabled(s, Work(r, act))
    ensures Inv(ActEffect(s, r, act))
  {
    hide RowsOk, FenceOk, TakeoverOk, PublishedOk, NotesOk, RecordSubmitIntent, TransitionJob, MarkAmbiguous,
      FenceOpens;
    match act
    case OpenAttempt(a) => OpenAttemptKeeps(s, r, a);
    case Navigate => MoveKeeps(s, r, Plain(Navigating), Working);
    case PauseForLogin => PauseKeeps(s);
    case ParkForLogin => MoveKeeps(s, r, Plain(AuthRequired), Finished);
    case Interrupt(to) => MoveKeeps(s, r, Live(to), Finished);
    case FailForGood => MoveKeeps(s, r, Live(FailedPermanent), Finished);
    case ReadBudget => ReadBudgetKeeps(s, r);
    case FailTransient(t) =>
      MoveKeeps(s, r, TransientMove(s.runs[r].budget.value.count, s.runs[r].budget.value.maxRetries, t), Finished);
    case HandBack(delay, t) => HandBackKeeps(s, r, delay, t);
    case FinishFillOnly => MoveKeeps(s, r, Plain(Skipped), Finished);
    case CommitIntent => CommitKeeps(s, r);
    case OpenFence => OpenFenceKeeps(s, r);
    case Click => ClickKeeps(s, r);
    case CloseFence(ok) => CloseFenceKeeps(s, r, ok);
    case AnnounceVerifying => MoveKeeps(s, r, Plain(Verifying), Awaiting);
    case SkipVerifying => SkipVerifyingKeeps(s, r);
    case Confirm => MoveKeeps(s, r, Live(Applied), Finished);
    case Reject => MoveKeeps(s, r, Live(FailedPermanent), Finished);
    case Doubt(pick) => DoubtKeeps(s, r, pick);
    case RecordOutcome(outcome) =>
      if MayComplete(s.db, s.runs[r].attempt.value, r.job, s.runs[r].worker, r.gen) {
        OutcomeKeeps(s, s.runs[r].attempt.value, outcome);
      }
    case RecordFillOnly => OutcomeKeeps(s, s.runs[r].attempt.value, FillOnly);
    case PublishBrowser(active, closed) => PublishKeeps(s, RunPublication(r, active, closed));
    case RecordApplication(app, status) => StatusKeeps(s, app, status);
    case EndRun => EndRunKeeps(s, r);
  }
}
