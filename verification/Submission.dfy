/** The submission guarantees, over every run of the protocol. */
module Submission {
  import opened Rows
  import opened Rules
  import opened Bulk
  import opened Protocol
  import opened Invariant
  import opened WorkerSteps
  import opened OperatorSteps
  import opened Advance
  import opened Continuations

  // ---------------------------------------------------------------- at most one click

  lemma {:induction false} CountedClicks(s: System, steps: seq<Step>, j: JobId)
    requires Inv(s) && Valid(s, steps)
    ensures var t := After(s, steps);
            t.clicks[j] == t.repeats[j] + if Pressed(t, j) then 1 else 0
  {
    RunKeeps(s, steps);
    var t := After(s, steps);
    if j in t.db.jobs {
      assert JobOk(t, j);
    }
  }

  /** The exact number of clicks: one for each forced resolution or tracker requeue that met the job
      committed and its button already pressed, and one more if the intent that stands committed has
      been pressed. */
  lemma AtMostOnce(s: System, steps: seq<Step>, j: JobId)
    requires Initial(s) && Valid(s, steps)
    ensures var t := After(s, steps);
            t.clicks[j] == t.repeats[j] + if Pressed(t, j) then 1 else 0
  {
    InitialInv(s);
    CountedClicks(s, steps, j);
  }

  /** Only a put-back ends a commitment, and only a put-back of a pressed one is counted. */
  lemma CommitmentStands(s: System, step: Step, j: JobId)
    requires Enabled(s, step)
    ensures var t := Apply(s, step);
            && (!PutBack(s, step, j) ==> (j in s.committed ==> j in t.committed) && t.repeats[j] == s.repeats[j])
            && (!(PutBack(s, step, j) && Pressed(s, j)) ==> t.repeats[j] == s.repeats[j])
  {
    hide ActEffect, SweepEffect, CallEffect, CommandEffect, PutsBack, Pressed;
    match step
    case Work(r, act) => ActIsAloof(s, r, act);
    case Recover(k, sweep) => SweepIsAloof(s, k, sweep);
    case Operate(k, call) => CallIsAloof(s, k, call);
    case Govern(command) => CommandIsAloof(s, command);
    case _ =>
  }

  /** At no moment after a click is the job put back. */
  ghost predicate NeverRepeated(s: System, steps: seq<Step>, j: JobId)
    requires Valid(s, steps)
    decreases |steps|
  {
    steps == [] ||
    (!(PutBack(s, steps[0], j) && s.clicks[j] >= 1) && NeverRepeated(Apply(s, steps[0]), steps[1..], j))
  }

  lemma {:induction false} RepeatsStand(s: System, steps: seq<Step>, j: JobId)
    requires Valid(s, steps) && NeverRepeated(s, steps, j)
    ensures After(s, steps).repeats[j] == s.repeats[j]
    decreases |steps|
  {
    hide Apply;
    if steps != [] {
      CommitmentStands(s, steps[0], j);
      RepeatsStand(Apply(s, steps[0]), steps[1..], j);
    }
  }

  /** A job that is never put back after a click is clicked at most once, whatever workers, heartbeats,
      sweeps, cancellations, skips, earlier requeues and forced resolutions, safe resumes, login
      reopenings, clear-states, emergency stops and shutdowns are mixed in. */
  lemma AtMostOnceUntilRepeated(s: System, steps: seq<Step>, j: JobId)
    requires Initial(s) && Valid(s, steps) && NeverRepeated(s, steps, j)
    ensures After(s, steps).clicks[j] <= 1
  {
    RepeatsStand(s, steps, j);
    AtMostOnce(s, steps, j);
  }

  lemma CommittedIsKnown(s: System, j: JobId)
    requires Inv(s) && j in s.committed
    ensures j in s.db.jobs && JobOk(s, j) && PostSubmit(s.db.jobs[j].state)
  {
  }

  lemma CommittedStep(s: System, step: Step, j: JobId)
    requires Inv(s) && Enabled(s, step) && j in s.committed && !PutBack(s, step, j)
    ensures var t := Apply(s, step);
            j in t.committed && t.claims[j] == s.claims[j]
  {
    hide Apply, HistoryAdvance, JobsAdvance, SameRuns, CountsStand, PutBack;
    CommitmentStands(s, step, j);
    StepAdvances(s, step);
    CommittedIsKnown(s, j);
  }

  /** The click of the standing commitment has been made, or can no longer be made. */
  predicate Spent(s: System, j: JobId) {
    && j in s.committed && j in s.db.jobs
    && (s.db.jobs[j].owner.Some? ==> CurrentRun(s, j).Some? && CurrentRun(s, j).value.clicked)
  }

  /** Clicks of a committed job still to come. */
  function Remaining(s: System, j: JobId): nat {
    if Spent(s, j) then 0 else 1
  }

  lemma ClickSpends(s: System, r: RunId, j: JobId)
    requires Inv(s) && Enabled(s, Work(r, Click)) && j in s.committed
    ensures var t := ActEffect(s, r, Click);
            t.clicks[j] + Remaining(t, j) <= s.clicks[j] + Remaining(s, j)
  {
    hide TakeoverOk, PublishedOk, NotesOk, Halted, TakeoverLive, IntentPersistedFor;
    assert FenceOk(s) && RunOk(s, r) && j in s.db.jobs;
  }

  lemma QuietSpends(s: System, t: System, step: Step, j: JobId)
    requires StepAdvance(s, t, step) && !IsClick(step) && j in s.committed && j in t.committed && j in s.db.jobs
    requires t.claims[j] == s.claims[j]
    requires j in t.db.jobs ==> JobOk(t, j)
    ensures t.clicks[j] + Remaining(t, j) <= s.clicks[j] + Remaining(s, j)
  {
    hide CountsStand, SameRuns, IntentsStand, LeaseBeyond;
  }

  lemma CommitmentStep(s: System, step: Step, j: JobId)
    requires Inv(s) && Enabled(s, step) && j in s.committed && !PutBack(s, step, j)
    ensures var t := Apply(s, step);
            j in t.committed && t.clicks[j] + Remaining(t, j) <= s.clicks[j] + Remaining(s, j)
  {
    hide StepAdvance, RowFine, RunFine, AttemptFine, FenceOk, TakeoverOk, PublishedOk, Remaining, ActEffect,
      SweepEffect, CallEffect, CommandEffect, PutBack;
    var t := Apply(s, step);
    CommittedStep(s, step, j);
    if IsClick(step) {
      ClickSpends(s, step.run, j);
    } else {
      StepKeeps(s, step);
      StepAdvances(s, step);
      assert JobOk(t, j) by { CommittedIsKnown(t, j); }
      assert j in s.db.jobs by { CommittedIsKnown(s, j); }
      QuietSpends(s, t, step, j);
    }
  }

  /** Once the intent is on disk, and until the job is put back: the job stays among the post-submit
      states, is never claimed again, and is clicked at most once for this commitment, whatever
      happened to it before; not at all if the click was made already or its run has lost the job. */
  lemma {:induction false} CommittedStays(s: System, steps: seq<Step>, j: JobId)
    requires Inv(s) && Valid(s, steps) && j in s.committed && NeverPutBack(s, steps, j)
    ensures var t := After(s, steps);
            && j in t.committed && j in t.db.jobs && PostSubmit(t.db.jobs[j].state)
            && t.claims[j] == s.claims[j]
            && t.clicks[j] + Remaining(t, j) <= s.clicks[j] + Remaining(s, j)
    decreases |steps|
  {
    hide Apply, Spent, Remaining, PostSubmit, PutBack;
    if steps == [] {
      CommittedIsKnown(s, j);
    } else {
      var s1 := Apply(s, steps[0]);
      StepKeeps(s, steps[0]);
      CommittedStep(s, steps[0], j);
      CommitmentStep(s, steps[0], j);
      CommittedStays(s1, steps[1..], j);
    }
  }

  /** No button was pressed for a commitment that has just begun. */
  lemma FreshCommitment(s: System, r: RunId)
    requires Inv(s) && Enabled(s, Work(r, CommitIntent)) && s.runs[r].attempt.Some?
    requires MayCommitIntent(s.db, s.runs[r].attempt.value, r.job, s.runs[r].worker, r.gen, s.now)
    ensures var t := Apply(s, Work(r, CommitIntent));
            r.job !in s.committed && r.job in t.committed && t.clicks == s.clicks && !Spent(t, r.job)
            && !Pressed(t, r.job)
  {
    hide RecordSubmitIntent, TakeoverOk, PublishedOk, NotesOk, IntentSlot;
    assert RunOk(s, r) && JobOk(s, r.job);
    IntentFrame(s.db, s.runs[r].attempt.value, r.job, s.runs[r].worker, r.gen, s.now);
  }

  /** The intent is what commits a job: afterwards it is committed and in submit_intent. */
  lemma IntentCommits(s: System, r: RunId)
    requires Inv(s) && Enabled(s, Work(r, CommitIntent))
    requires MayCommitIntent(s.db, s.runs[r].attempt.value, r.job, s.runs[r].worker, r.gen, s.now)
    ensures var t := Apply(s, Work(r, CommitIntent));
            r.job in t.committed && t.db.jobs[r.job].state == SubmitIntent && IntentPersistedFor(t, r)
  {
    IntentFrame(s.db, s.runs[r].attempt.value, r.job, s.runs[r].worker, r.gen, s.now);
  }

  // ---------------------------------------------------------------- what opens a second submission

  /** A put-back leaves the job waiting, and nothing in the way of another submission. */
  lemma PutBackWaits(s: System, step: Step, j: JobId)
    requires Inv(s) && Enabled(s, step) && PutBack(s, step, j)
    ensures var t := Apply(s, step);
            && t.fence.None? && t.clicks == s.clicks && j in t.db.jobs && t.db.jobs[j].state == Ready
            && !t.db.jobs[j].cancelled
  {
    hide ResolveJob, MayResolve, RowsOk, FenceOk, TakeoverOk, PublishedOk;
    if step.call.Resolve? {
      ResolveFrame(s.db, j, step.call.force, step.call.expected, s.now);
      assert j in s.db.jobs by { ResolvedIsKnown(s.db, j, step.call.force, step.call.expected, s.now); }
    } else {
      assert RequeueRead(j).job in s.db.jobs;
    }
  }

  lemma ResolvedIsKnown(db: Db, j: JobId, force: bool, expected: Option<OperatorId>, now: nat)
    requires MayResolve(db, j, force, expected, now)
    ensures j in db.jobs
  {
  }

  /** The calls that may reopen a submitted job: the tracker's requeue, and a resolution with force. */
  predicate ForcesOpen(step: Step, j: JobId) {
    step.Operate? && step.job == j && (step.call.TrackerReset? || (step.call.Resolve? && step.call.force))
  }

  /** A committed job is put back by no other step: an unforced resolution does not reach it. */
  lemma OnlyForceReopens(s: System, step: Step, j: JobId)
    requires Inv(s) && Enabled(s, step) && j in s.committed && PutBack(s, step, j)
    ensures ForcesOpen(step, j)
  {
    hide TakeoverOk, PublishedOk, NotesOk, FenceOk, OwnerGate;
    CommittedIsKnown(s, j);
  }

  /** What the demand for force is for.  Once a job has been clicked, and in every run in which the
      tracker does not requeue it and nobody resolves it with force, it is neither clicked nor
      claimed again; unforced resolutions, however many, change nothing of this. */
  lemma {:induction false} WithoutForce(s: System, steps: seq<Step>, j: JobId)
    requires Inv(s) && Valid(s, steps) && Pressed(s, j)
    requires forall i | 0 <= i < |steps| :: !ForcesOpen(steps[i], j)
    ensures var t := After(s, steps);
            Pressed(t, j) && t.clicks[j] == s.clicks[j] && t.claims[j] == s.claims[j]
    decreases |steps|
  {
    hide Apply, ForcesOpen, PutBack, Inv;
    if steps != [] {
      var s1 := Apply(s, steps[0]);
      if PutBack(s, steps[0], j) { OnlyForceReopens(s, steps[0], j); }
      StepKeeps(s, steps[0]);
      StillPressed(s, steps[0], j);
      CommittedStep(s, steps[0], j);
      PressedOnce(s, steps[0], j);
      forall i | 0 <= i < |steps[1..]| ensures !ForcesOpen(steps[1..][i], j) { assert steps[1..][i] == steps[i + 1]; }
      WithoutForce(s1, steps[1..], j);
    }
  }

  lemma PressedOnce(s: System, step: Step, j: JobId)
    requires Inv(s) && Enabled(s, step) && Pressed(s, j) && !PutBack(s, step, j)
    ensures Apply(s, step).clicks[j] == s.clicks[j]
  {
    hide Apply, PutBack, Inv;
    assert [step][1..] == [];
    assert Valid(Apply(s, step), []) && After(Apply(s, step), []) == Apply(s, step);
    assert NeverPutBack(Apply(s, step), [], j);
    assert Valid(s, [step]) && NeverPutBack(s, [step], j);
    PressedStays(s, [step], j);
  }

  /** The same from the click itself. */
  lemma ClickedWithoutForce(s: System, r: RunId, steps: seq<Step>)
    requires Inv(s) && Enabled(s, Work(r, Click)) && Valid(Apply(s, Work(r, Click)), steps)
    requires forall i | 0 <= i < |steps| :: !ForcesOpen(steps[i], r.job)
    ensures var t := After(Apply(s, Work(r, Click)), steps);
            t.clicks[r.job] == s.clicks[r.job] + 1 && t.claims[r.job] == s.claims[r.job]
  {
    hide TakeoverOk, PublishedOk, NotesOk;
    var t := Apply(s, Work(r, Click));
    assert FenceOk(s) && RunOk(s, r) && JobOk(s, r.job);
    StepKeeps(s, Work(r, Click));
    WithoutForce(t, steps, r.job);
  }

  /** The job can be clicked again without being put back once more. */
  ghost predicate ClickFollows(s: System, j: JobId) {
    exists more {:trigger Valid(s, more)} ::
      Valid(s, more) && NeverPutBack(s, more, j) && After(s, more).clicks[j] > s.clicks[j]
  }

  /** From every state, a job that was put back can come to another click. */
  lemma PutBackLeadsToClick(s: System, step: Step, j: JobId) returns (more: seq<Step>)
    requires Inv(s) && Enabled(s, step) && PutBack(s, step, j)
    ensures var t := Apply(s, step);
            Valid(t, more) && NeverPutBack(t, more, j) && After(t, more).clicks == s.clicks + multiset{j}
  {
    hide Apply, Enabled, Leads, PutBack;
    PutBackWaits(s, step, j);
    var u;
    more, u := WaitingJobIsPressed(Apply(s, step), j);
    LeadsQuietly(Apply(s, step), more, u, j);
  }

  lemma PressedStays(s: System, steps: seq<Step>, j: JobId)
    requires Inv(s) && Valid(s, steps) && Pressed(s, j) && NeverPutBack(s, steps, j)
    ensures After(s, steps).clicks[j] == s.clicks[j]
  {
    var t := After(s, steps);
    RepeatsKept(s, steps, j);
    CommittedStays(s, steps, j);
    CountedClicks(s, steps, j);
    CountedClicks(s, [], j);
    ClicksGrow(s, steps, j);
  }

  lemma {:induction false} RepeatsKept(s: System, steps: seq<Step>, j: JobId)
    requires Valid(s, steps) && NeverPutBack(s, steps, j)
    ensures After(s, steps).repeats[j] == s.repeats[j]
    decreases |steps|
  {
    hide Apply, PutBack;
    if steps != [] {
      CommitmentStands(s, steps[0], j);
      RepeatsKept(Apply(s, steps[0]), steps[1..], j);
    }
  }

  lemma {:induction false} ClicksGrow(s: System, steps: seq<Step>, j: JobId)
    requires Inv(s) && Valid(s, steps)
    ensures s.clicks[j] <= After(s, steps).clicks[j]
    decreases |steps|
  {
    hide Apply, HistoryAdvance, JobsAdvance, SameRuns, CountsStand;
    if steps != [] {
      StepKeeps(s, steps[0]);
      StepAdvances(s, steps[0]);
      ClicksGrow(Apply(s, steps[0]), steps[1..], j);
    }
  }

  /** Once the button of a job has been pressed, a step opens the way to another click if and only if
      it puts the job back. */
  lemma PutBackDecides(s: System, step: Step, j: JobId)
    requires Inv(s) && Pressed(s, j) && Enabled(s, step)
    ensures ClickFollows(Apply(s, step), j) <==> PutBack(s, step, j)
  {
    hide Apply, Enabled, PutBack, Pressed;
    var t := Apply(s, step);
    StepKeeps(s, step);
    if PutBack(s, step, j) {
      var more := PutBackLeadsToClick(s, step, j);
      PutBackClicks(s, step, j);
    } else {
      StillPressed(s, step, j);
      forall more {:trigger Valid(t, more)} | Valid(t, more) && NeverPutBack(t, more, j)
        ensures After(t, more).clicks[j] == t.clicks[j]
      {
        PressedStays(t, more, j);
      }
    }
  }

  lemma PutBackClicks(s: System, step: Step, j: JobId)
    requires Inv(s) && Enabled(s, step) && PutBack(s, step, j)
    ensures Apply(s, step).clicks == s.clicks
  {
    hide Apply, Enabled, PutBack;
    PutBackWaits(s, step, j);
  }

  lemma StillPressed(s: System, step: Step, j: JobId)
    requires Inv(s) && Enabled(s, step) && Pressed(s, j) && !PutBack(s, step, j)
    ensures Pressed(Apply(s, step), j)
  {
    hide Apply, PutBack;
    CommitmentStands(s, step, j);
    assert [step][1..] == [];
    assert Valid(Apply(s, step), []) && Valid(s, [step]) && After(Apply(s, step), []) == Apply(s, step);
    ClicksGrow(s, [step], j);
  }

  // ---------------------------------------------------------------- click safety

  /** In every reachable state in which the fence is open, and so at every click: the job is
      in submit_intent, uncancelled, owned by the clicking run at the current generation, its
      attempt carries the intent, and nothing is paused, stopped or taken over. */
  lemma FenceSafety(s: System, steps: seq<Step>, r: RunId)
    requires Initial(s) && Valid(s, steps)
    requires After(s, steps).fence == Some(r) || Enabled(After(s, steps), Work(r, Click))
    ensures FenceHeld(After(s, steps), r)
  {
    hide RowsOk, TakeoverOk, PublishedOk, NotesOk, FenceHeld, Apply, IsTarget;
    RunKeeps(s, steps);
    var t := After(s, steps);
    assert FenceOk(t);
  }

  /** Paused or stopped at the beginning, at the end and at every moment between. */
  ghost predicate HaltedThroughout(s: System, steps: seq<Step>)
    requires Valid(s, steps)
    decreases |steps|
  {
    Halted(s.db) && (steps == [] || HaltedThroughout(Apply(s, steps[0]), steps[1..]))
  }

  lemma ClickIsNotHalted(s: System, r: RunId)
    requires Inv(s) && Enabled(s, Work(r, Click))
    ensures !Halted(s.db)
  {
    assert FenceOk(s);
  }

  lemma HaltedStep(s: System, step: Step)
    requires Inv(s) && Enabled(s, step) && Halted(s.db)
    ensures Apply(s, step).clicks == s.clicks && Apply(s, step).claims == s.claims
  {
    hide Apply, HistoryAdvance, JobsAdvance, SameRuns, CountsStand, Inv;
    StepAdvances(s, step);
    if IsClick(step) {
      ClickIsNotHalted(s, step.run);
    }
  }

  /** No claim and no click while the runtime stays paused or stopped; in particular none
      between a takeover claim or an emergency stop and the moment both flags are clear. */
  lemma {:induction false} HaltedIsQuiet(s: System, steps: seq<Step>)
    requires Inv(s) && Valid(s, steps) && HaltedThroughout(s, steps)
    ensures After(s, steps).clicks == s.clicks && After(s, steps).claims == s.claims
    decreases |steps|
  {
    hide Apply, Enabled, Inv;
    if steps != [] {
      StepKeeps(s, steps[0]);
      HaltedStep(s, steps[0]);
      HaltedIsQuiet(Apply(s, steps[0]), steps[1..]);
    }
  }

  /** A takeover claim that is granted leaves the runtime paused, and cannot happen under an open fence. */
  lemma TakeoverHalts(s: System, op: OperatorId, seconds: nat, sample: nat)
    requires Inv(s) && Enabled(s, Govern(TakeControl(op, seconds, sample))) && MayClaimTakeover(s.db, op, sample)
    ensures var t := Apply(s, Govern(TakeControl(op, seconds, sample)));
            t.db.ctrl.paused && t.db.ctrl.takeoverOwner == Some(op) && s.fence.None? && t.fence.None?
  {
  }

  /** From a granted takeover claim no claim and no click happens until both flags are clear again. */
  lemma QuietAfterTakeover(s: System, op: OperatorId, seconds: nat, sample: nat, steps: seq<Step>)
    requires Inv(s) && Enabled(s, Govern(TakeControl(op, seconds, sample))) && MayClaimTakeover(s.db, op, sample)
    requires var t := Apply(s, Govern(TakeControl(op, seconds, sample)));
             Valid(t, steps) && HaltedThroughout(t, steps)
    ensures var t := After(Apply(s, Govern(TakeControl(op, seconds, sample))), steps);
            t.clicks == s.clicks && t.claims == s.claims
  {
    StepKeeps(s, Govern(TakeControl(op, seconds, sample)));
    HaltedIsQuiet(Apply(s, Govern(TakeControl(op, seconds, sample))), steps);
  }

  // ---------------------------------------------------------------- fencing is permanent

  /** The claim of `r` has been replaced or revoked. */
  predicate Stale(s: System, r: RunId) {
    r in s.runs && !Owns(s.db, r.job, s.runs[r].worker, r.gen)
  }

  lemma WorkerStays(s: System, t: System, step: Step, r: RunId)
    requires StepAdvance(s, t, step) && r in s.runs
    ensures r in t.runs && t.runs[r].worker == s.runs[r].worker
  {
    hide CountsStand, IntentsStand, JobsAdvance, IsHandBack;
    assert RunsAdvance(s.db, s.runs, t.runs);
    assert r in t.runs && RunAdvance(s.runs[r], t.runs[r], ReadCounters(s.db, r.job));
  }

  lemma StaleAdvance(s: System, t: System, step: Step, r: RunId)
    requires StepAdvance(s, t, step) && Stale(s, r) && r.job in s.db.jobs && r.gen <= s.db.jobs[r.job].gen
    ensures Stale(t, r) && t.runs[r].worker == s.runs[r].worker
  {
    hide CountsStand, SameRuns, HistoryAdvance, IsHandBack;
    WorkerStays(s, t, step, r);
    var row := s.db.jobs[r.job];
    assert r.job in t.db.jobs && (RowStep(row, t.db.jobs[r.job]) || t.db.jobs[r.job].gen == row.gen + 1);
  }

  lemma StaleStep(s: System, step: Step, r: RunId)
    requires Inv(s) && Enabled(s, step) && Stale(s, r)
    ensures Stale(Apply(s, step), r) && Apply(s, step).runs[r].worker == s.runs[r].worker
  {
    hide Apply, StepAdvance, FenceOk, TakeoverOk, PublishedOk, NotesOk;
    StepAdvances(s, step);
    assert RunOk(s, r);
    StaleAdvance(s, Apply(s, step), step, r);
  }

  /** The fenced calls, made with credentials that do not own the job, leave every table as it is;
      so do the failure arbiter, on either side of the boundary, and the reschedule. */
  lemma RefusedCalls(db: Db, j: JobId, w: WorkerId, g: nat, a: AttemptId, attempt: Option<AttemptId>, m: Move,
                     mark: Mark, pick: Option<AttemptId>, outcome: Outcome, now: nat)
    requires !Owns(db, j, w, g) && (pick.Some? ==> pick.value in db.attempts)
    requires mark.worker == Some(w) && mark.gen == Some(g) && !mark.repair
    ensures RenewLease(db, j, w, g, now) == db
    ensures TransitionJob(db, j, w, g, m, now) == db
    ensures RecordSubmitIntent(db, a, j, w, g, now) == db
    ensures !FenceOpens(db, a, j, w, g, now)
    ensures MarkAmbiguous(db, j, mark, None, pick, now) == db
    ensures CompleteAttempt(db, a, j, w, g, outcome, now) == db
    ensures MoveAndComplete(db, j, w, g, attempt, m, outcome, now) == db
  {
  }

  /** Once a claim has stopped matching its job it never matches again, in any run. */
  lemma {:induction false} StaleForever(s: System, steps: seq<Step>, r: RunId)
    requires Inv(s) && Valid(s, steps) && Stale(s, r)
    ensures Stale(After(s, steps), r)
    decreases |steps|
  {
    hide Apply;
    if steps != [] {
      StepKeeps(s, steps[0]);
      StaleStep(s, steps[0], r);
      StaleForever(Apply(s, steps[0]), steps[1..], r);
    }
  }

  /** The recorded session is the run's own, as far as it is recorded. */
  predicate OwnRecord(c: Control, r: RunId) {
    c.browserJob.None? || (c.browserJob == Some(r.job) && (c.sessionGen.None? || c.sessionGen == Some(r.gen)))
  }

  predicate OnlyBrowserChanged(db: Db, db': Db) {
    && db' == db.(ctrl := db'.ctrl) && db'.ctrl.paused == db.ctrl.paused && db'.ctrl.stopped == db.ctrl.stopped
    && db'.ctrl.takeoverOwner == db.ctrl.takeoverOwner
  }

  lemma StalePublishes(s: System, r: RunId, active: bool, closed: bool)
    requires Inv(s) && Stale(s, r)
    ensures var t := Published(s, RunPublication(r, active, closed));
            && t.committed == s.committed && t.fence == s.fence && OnlyBrowserChanged(s.db, t.db)
            && (active || !OwnRecord(s.db.ctrl, r) ==> t.db == s.db)
  {
    hide FenceOk, TakeoverOk, PublishedOk, NotesOk, LeaseBeyond, AttemptOk;
    assert RunOk(s, r) && JobOk(s, r.job);
  }

  /** What a stale run still writes.  Its fenced acts leave every table as it is.  The others write
      one attempt row, the pause flag, or one application; an active publication is refused, and a
      close takes effect only on the session's own record, or on one that names no job, or its job
      without a generation. */
  lemma StaleWrites(s: System, r: RunId, act: Act)
    requires Inv(s) && Stale(s, r) && Enabled(s, Work(r, act))
    ensures var t := ActEffect(s, r, act);
            && t.committed == s.committed && (t.fence == s.fence || t.fence.None?)
            && match act
               case OpenAttempt(a) =>
                 a !in s.db.attempts && t.db == s.db.(attempts := s.db.attempts[a := t.db.attempts[a]])
               case RecordFillOnly =>
                 var a := s.runs[r].attempt.value;
                 t.db == s.db.(attempts := s.db.attempts[a := t.db.attempts[a]]) && s.db.attempts[a].job == r.job
               case PauseForLogin => t.db == s.db.(ctrl := s.db.ctrl.(paused := true))
               case RecordApplication(app, status) => t.db == s.db.(apps := s.db.apps[app := status])
               case PublishBrowser(active, _) =>
                 OnlyBrowserChanged(s.db, t.db) && (active || !OwnRecord(s.db.ctrl, r) ==> t.db == s.db)
               case _ => t.db == s.db
  {
    hide FenceOk, TakeoverOk, PublishedOk, NotesOk, LeaseBeyond, AttemptOk, JobOk, IsLatest, ProjectAmbiguity,
      CompletedAttempt, Published, OnlyBrowserChanged, OwnRecord;
    assert RunOk(s, r);
    if act.PublishBrowser? {
      StalePublishes(s, r, act.active, act.closed);
    }
  }

  lemma GenerationAdvance(s: System, t: System, step: Step, j: JobId)
    requires StepAdvance(s, t, step) && j in s.db.jobs
    ensures j in t.db.jobs && s.claims[j] <= t.claims[j]
            && s.db.jobs[j].gen + t.claims[j] - s.claims[j] <= t.db.jobs[j].gen
  {
    hide CountsStand, SameRuns, HistoryAdvance;
  }

  /** Each claim raises the generation of its job; no step lowers one. */
  lemma {:induction false} GenerationsGrow(s: System, steps: seq<Step>, j: JobId)
    requires Inv(s) && Valid(s, steps) && j in s.db.jobs
    ensures var t := After(s, steps);
            j in t.db.jobs && s.claims[j] <= t.claims[j]
            && s.db.jobs[j].gen + t.claims[j] - s.claims[j] <= t.db.jobs[j].gen
    decreases |steps|
  {
    hide Apply, StepAdvance, Inv;
    if steps != [] {
      var s1 := Apply(s, steps[0]);
      StepKeeps(s, steps[0]);
      StepAdvances(s, steps[0]);
      GenerationAdvance(s, s1, steps[0], j);
      GenerationsGrow(s1, steps[1..], j);
    }
  }

  // ---------------------------------------------------------------- intent and attempt agree

  predicate CarriesClaim(att: Attempt, j: JobId, row: Job) {
    att.job == j && att.worker == row.owner && att.gen == Some(row.gen)
  }

  /** A job in submit_intent or verifying has exactly one attempt of its current owner and
      generation, and that attempt carries the intent. */
  lemma IntentAgreement(s: System, steps: seq<Step>, j: JobId)
    requires Initial(s) && Valid(s, steps)
    requires var t := After(s, steps); j in t.db.jobs && Submitting(t.db.jobs[j].state)
    ensures var t := After(s, steps);
            var row := t.db.jobs[j];
            && row.owner.Some?
            && exists a :: a in t.db.attempts && CarriesClaim(t.db.attempts[a], j, row)
                           && t.db.attempts[a].intentAt.Some?
                           && forall b | b in t.db.attempts && CarriesClaim(t.db.attempts[b], j, row) :: b == a
  {
    RunKeeps(s, steps);
    var t := After(s, steps);
    assert JobOk(t, j);
    var r := RunId(j, t.db.jobs[j].gen);
    assert RunOk(t, r);
    var a := t.runs[r].attempt.value;
    assert CarriesClaim(t.db.attempts[a], j, t.db.jobs[j]);
    forall b | b in t.db.attempts && CarriesClaim(t.db.attempts[b], j, t.db.jobs[j]) ensures b == a {
      assert AttemptOk(t, b);
    }
  }

  /** Opening an attempt for an owned claim gives it its only one: before, no attempt in the table
      carries the claim, and afterwards the new one alone does. */
  lemma OneAttemptPerClaim(s: System, steps: seq<Step>, r: RunId, a: AttemptId)
    requires Initial(s) && Valid(s, steps) && Enabled(After(s, steps), Work(r, OpenAttempt(a)))
    requires var t := After(s, steps); Owns(t.db, r.job, t.runs[r].worker, r.gen)
    ensures var t := After(s, steps);
            var u := Apply(t, Work(r, OpenAttempt(a)));
            && u.db.jobs == t.db.jobs
            && (forall b | b in t.db.attempts :: !CarriesClaim(t.db.attempts[b], r.job, t.db.jobs[r.job]))
            && (forall b | b in u.db.attempts :: CarriesClaim(u.db.attempts[b], r.job, u.db.jobs[r.job]) <==> b == a)
  {
    hide FenceOk, TakeoverOk, PublishedOk, NotesOk, FenceOpens, LeaseBeyond;
    RunKeeps(s, steps);
    var t := After(s, steps);
    forall b | b in t.db.attempts ensures !CarriesClaim(t.db.attempts[b], r.job, t.db.jobs[r.job]) {
      assert AttemptOk(t, b);
    }
  }

  lemma IntentStep(s: System, step: Step, a: AttemptId)
    requires Inv(s) && Enabled(s, step) && a in s.db.attempts && s.db.attempts[a].intentAt.Some?
    ensures var t := Apply(s, step); a in t.db.attempts && t.db.attempts[a].intentAt == s.db.attempts[a].intentAt
  {
    hide Apply;
    StepAdvances(s, step);
    assert IntentsStand(s.db.attempts, Apply(s, step).db.attempts);
  }

  /** No attempt's intent is ever set twice: once written it stays as written. */
  lemma {:induction false} IntentIsWrittenOnce(s: System, steps: seq<Step>, a: AttemptId)
    requires Inv(s) && Valid(s, steps) && a in s.db.attempts && s.db.attempts[a].intentAt.Some?
    ensures var t := After(s, steps); a in t.db.attempts && t.db.attempts[a].intentAt == s.db.attempts[a].intentAt
    decreases |steps|
  {
    hide Apply;
    if steps != [] {
      StepKeeps(s, steps[0]);
      IntentStep(s, steps[0], a);
      IntentIsWrittenOnce(Apply(s, steps[0]), steps[1..], a);
    }
  }
}
