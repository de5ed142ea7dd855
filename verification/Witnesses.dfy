/** Runs that show where the guarantees end: each is built step by step from an initial state. */
module Witnesses {
  import opened Rows
  import opened Rules
  import opened Bulk
  import opened Protocol
  import opened Advance
  import opened Continuations
  import opened OneActive

  const IDLE := Control(false, false, None, None, false, true, None, None, None)

  /** One pending application, no jobs. */
  const START := System(
                   Db(map[], map[], map[0 := Pending], IDLE, [], {}),
                   0, map[], None, {}, multiset{}, multiset{}, multiset{}, multiset{}, multiset{}, {}, [], map[])

  // ---------------------------------------------------------------- one job, one worker

  const WORKER: WorkerId := 7

  /** Job 0 is the only one, and nobody has taken over. */
  predicate Solo(s: System) {
    && s.db.jobs.Keys == {0} && s.db.jobs[0].app == 0 && 0 in s.db.apps && s.db.apps[0] != Dismissed
    && !s.db.ctrl.stopped && s.db.ctrl.takeoverOwner.None?
  }

  /** Job 0 waits to be claimed. */
  predicate Idle(s: System) {
    Solo(s) && Waiting(s, 0)
  }

  function Latest(s: System): RunId
    requires 0 in s.db.jobs
  {
    RunId(0, s.db.jobs[0].gen)
  }

  /** Job 0 is owned by the worker's run, which stands at `p` with attempt `a`. */
  predicate OnJob(s: System, p: Phase, a: Option<AttemptId>) {
    0 in s.db.jobs && AtWork(s, Latest(s), WORKER, p, a)
  }

  /** The click fence is open for the latest run of job 0, which stands at `p`. */
  predicate OnFence(s: System, a: AttemptId, p: Phase) {
    Solo(s) && AtFence(s, Latest(s), WORKER, a, p)
  }

  predicate SameHistory(s: System, t: System) {
    t.clicks == s.clicks && t.repeats == s.repeats
  }

  lemma ClaimZero(s: System)
    requires Idle(s)
    ensures var step := ClaimNext(0, WORKER, s.now);
            && Enabled(s, step) && OnJob(Apply(s, step), Working, None) && SameHistory(s, Apply(s, step))
            && var t := Apply(s, step);
            && t.db.attempts == s.db.attempts && Solo(t) && t.notes == s.notes && t.db.jobs[0].state == Claimed
            && t.db.jobs[0].attemptCount == s.db.jobs[0].attemptCount + 1
            && t.claims == s.claims + multiset{0} && t.handBacks == s.handBacks
  {
    hide Enabled, Apply;
    ClaimIt(s, 0, WORKER);
  }

  lemma OpenZero(s: System, a: AttemptId)
    requires OnJob(s, Working, None) && a !in s.db.attempts
    ensures var step := Work(Latest(s), OpenAttempt(a));
            && Enabled(s, step) && SameHistory(s, Apply(s, step))
            && var t := Apply(s, step);
            && OnJob(t, Working, Some(a)) && t.db.jobs == s.db.jobs && (Solo(s) ==> Solo(t))
            && t.db.attempts == s.db.attempts[a := NewAttempt(0, WORKER, Latest(s).gen, s.now)]
  {
    hide Enabled, Apply;
    OpenIt(s, Latest(s), WORKER, a);
  }

  /** The run was lengthened, by steps that are no operator calls about job 0. */
  predicate Lengthened(steps: seq<Step>, steps': seq<Step>) {
    steps <= steps' && forall i | |steps| <= i < |steps'| :: !Concerns(steps'[i], 0)
  }

  /** From a waiting job to a pressed button. */
  lemma SubmitOnce(origin: System, steps: seq<Step>, s: System, a: AttemptId) returns (steps': seq<Step>, t: System)
    requires Reaches(origin, steps, s) && Idle(s) && a !in s.db.attempts
    ensures Reaches(origin, steps', t) && t.clicks == s.clicks + multiset{0} && t.repeats == s.repeats
    ensures OnFence(t, a, Clicking) && t.db.attempts.Keys == s.db.attempts.Keys + {a} && Lengthened(steps, steps')
  {
    hide Reaches, OnJob, Enabled, Apply, OnFence;
    var e1 := ClaimNext(0, WORKER, s.now);
    ClaimZero(s); Then(origin, steps, s, e1);
    var s1 := Apply(s, e1);
    var e2 := Work(Latest(s1), OpenAttempt(a));
    OpenZero(s1, a); Then(origin, steps + [e1], s1, e2);
    var s2 := Apply(s1, e2);
    steps', t := PressZero(origin, steps + [e1] + [e2], s2, a);
  }

  lemma PressZero(origin: System, steps: seq<Step>, s: System, a: AttemptId) returns (steps': seq<Step>, t: System)
    requires Reaches(origin, steps, s) && OnJob(s, Working, Some(a)) && s.db.attempts[a].intentAt.None? && Solo(s)
    ensures Reaches(origin, steps', t) && t.clicks == s.clicks + multiset{0} && t.repeats == s.repeats
    ensures OnFence(t, a, Clicking) && t.db.attempts.Keys == s.db.attempts.Keys && Lengthened(steps, steps')
  {
    hide Reaches;
    var more;
    more, t := CommitAndClick(s, Latest(s), WORKER, a);
    Compose(origin, steps, s, more, t);
    steps' := steps + more;
    forall i | |steps| <= i < |steps'| ensures !Concerns(steps'[i], 0) { assert steps'[i] == more[i - |steps|]; }
  }

  // ---------------------------------------------------------------- a second click without force

  lemma FailIt(s: System, a: AttemptId)
    requires OnFence(s, a, Clicking)
    ensures var step := Work(Latest(s), CloseFence(false));
            && Enabled(s, step)
            && var t := Apply(s, step);
            && SameHistory(s, t) && t.db == s.db && t.now == s.now && t.fence.None? && t.committed == s.committed
            && t.runs == s.runs[Latest(s) := s.runs[Latest(s)].(phase := Uncertain)]
  {
  }

  predicate InDoubt(s: System) {
    s.fence.None? && Solo(s) && s.db.jobs[0].state == AmbiguousSubmission && Pressed(s, 0)
  }

  lemma DoubtIt(s: System, a: AttemptId)
    requires s.fence.None? && Solo(s) && Latest(s) in s.runs && s.runs[Latest(s)].phase == Uncertain
    requires s.runs[Latest(s)].worker == WORKER && s.runs[Latest(s)].attempt == Some(a)
    requires Owns(s.db, 0, WORKER, Latest(s).gen) && s.db.jobs[0].state == SubmitIntent
    requires LeaseBeyond(s.db.jobs[0], Sec(s.now)) && Pressed(s, 0)
    requires a in s.db.attempts && s.db.attempts[a].job == 0
    ensures var step := Work(Latest(s), Doubt(Some(a)));
            && Enabled(s, step)
            && var t := Apply(s, step);
            && SameHistory(s, t) && InDoubt(t) && t.db.attempts.Keys == s.db.attempts.Keys
            && t.db.attempts[a].job == 0 && t.db.attempts[a].ambiguous
  {
    assert MayMark(s.db, 0, DoubtMark(Latest(s), s.runs[Latest(s)]), None, s.now);
  }

  lemma NoteRequeueIt(s: System)
    requires InDoubt(s)
    ensures var step := Operate(0, NoteRequeue);
            && Enabled(s, step)
            && var t := Apply(s, step);
            t == s.(notes := t.notes) && RequeueRead(0) in t.notes && InDoubt(t)
  {
  }

  lemma ResetIt(s: System)
    requires InDoubt(s) && RequeueRead(0) in s.notes
    ensures var step := Operate(0, TrackerReset);
            && Enabled(s, step)
            && var t := Apply(s, step);
            && t.fence.None? && Solo(t) && t.db.jobs[0].state == Ready && !t.db.jobs[0].cancelled
            && t.db.attempts == s.db.attempts && t.clicks == s.clicks && t.repeats == s.repeats + multiset{0}
  {
  }

  lemma UnpauseIt(s: System)
    requires s.fence.None? && Solo(s) && s.db.jobs[0].state == Ready && !s.db.jobs[0].cancelled
    ensures var step := Govern(SetPaused(false, None));
            && Enabled(s, step)
            && var t := Apply(s, step);
            && SameHistory(s, t) && Idle(t) && t.db.attempts == s.db.attempts && t.db.jobs == s.db.jobs
            && t.notes == s.notes && t.claims == s.claims && t.handBacks == s.handBacks
  {
  }

  lemma RequeueIt(origin: System, steps: seq<Step>, s: System) returns (steps': seq<Step>, t: System)
    requires Reaches(origin, steps, s) && InDoubt(s)
    ensures Reaches(origin, steps', t) && Idle(t) && t.db.attempts == s.db.attempts
    ensures t.clicks == s.clicks && t.repeats == s.repeats + multiset{0}
    ensures steps' == steps + [Operate(0, NoteRequeue)] + [Operate(0, TrackerReset)] + [Govern(SetPaused(false, None))]
  {
    hide Reaches, Enabled, Apply, InDoubt, Idle;
    var e1, e2, e3 := Operate(0, NoteRequeue), Operate(0, TrackerReset), Govern(SetPaused(false, None));
    NoteRequeueIt(s); Then(origin, steps, s, e1);
    var s1 := Apply(s, e1);
    ResetIt(s1); Then(origin, steps + [e1], s1, e2);
    var s2 := Apply(s1, e2);
    UnpauseIt(s2); Then(origin, steps + [e1] + [e2], s2, e3);
    steps', t := steps + [e1] + [e2] + [e3], Apply(s2, e3);
  }

  lemma FirstJob() returns (steps: seq<Step>, t: System)
    ensures steps == [Enqueue(0, 0, 0, 3)] && Reaches(START, steps, t) && Idle(t) && t.db.attempts == map[]
    ensures t.clicks == multiset{} && t.repeats == multiset{} && t.claims == multiset{} && t.handBacks == multiset{}
    ensures t.db.jobs[0].attemptCount == 0
  {
    var e := Enqueue(0, 0, 0, 3);
    assert Reaches(START, [], START);
    Then(START, [], START, e);
    steps, t := [e], Apply(START, e);
    assert [] + [e] == [e];
  }

  lemma FirstClick() returns (steps: seq<Step>, t: System)
    ensures Reaches(START, steps, t) && t.clicks[0] == 1 && t.repeats[0] == 0 && OnFence(t, 0, Clicking)
    ensures t.db.attempts.Keys == {0} && forall i | 0 <= i < |steps| :: !Concerns(steps[i], 0)
  {
    hide Reaches, Idle, OnFence;
    var steps1, s := FirstJob();
    steps, t := SubmitOnce(START, steps1, s, 0);
    assert steps[0] == steps1[0];
  }

  lemma DoubtAfterClick(origin: System, steps: seq<Step>, s: System, a: AttemptId)
    returns (steps': seq<Step>, t: System)
    requires Reaches(origin, steps, s) && OnFence(s, a, Clicking)
    requires s.repeats[0] < s.clicks[0]
    ensures Reaches(origin, steps', t) && InDoubt(t) && SameHistory(s, t) && t.db.attempts.Keys == s.db.attempts.Keys
    ensures t.db.attempts[a].job == 0 && t.db.attempts[a].ambiguous
    ensures Lengthened(steps, steps')
  {
    hide Reaches, Enabled, Apply;
    var e1 := Work(Latest(s), CloseFence(false));
    FailIt(s, a); Then(origin, steps, s, e1);
    var s1 := Apply(s, e1);
    var e2 := Work(Latest(s1), Doubt(Some(a)));
    DoubtIt(s1, a); Then(origin, steps + [e1], s1, e2);
    steps', t := steps + [e1] + [e2], Apply(s1, e2);
  }

  predicate Forces(step: Step) {
    Concerns(step, 0) && step.call.Resolve? && step.call.force
  }

  /** The bound of `AtMostOnce` is reached: without any forced resolution, the tracker's requeue
      of an ambiguous job lets a worker press the button a second time. */
  lemma RequeueClicksTwice()
    ensures Initial(START)
    ensures exists steps, t {:trigger Reaches(START, steps, t)} ::
              && Reaches(START, steps, t) && t.clicks[0] == 2 && t.repeats[0] == 1
              && forall i | 0 <= i < |steps| :: !Forces(steps[i])
  {
    hide Reaches, Enabled, Apply, OnFence, InDoubt, Idle;
    var steps1, s1 := FirstClick();
    var steps2, s2 := DoubtAfterClick(START, steps1, s1, 0);
    var steps3, s3 := RequeueIt(START, steps2, s2);
    var steps4, s4 := SubmitOnce(START, steps3, s3, 1);
    assert Reaches(START, steps4, s4) && s4.clicks[0] == 2 && s4.repeats[0] == 1;
    forall i | 0 <= i < |steps4| ensures !Forces(steps4[i]) {
      assert i < |steps3| ==> steps4[i] == steps3[i];
      assert i < |steps2| ==> steps3[i] == steps2[i];
      assert i < |steps1| ==> steps2[i] == steps1[i];
    }
  }

  // ---------------------------------------------------------------- safe resume of a running job

  lemma NoteIt(s: System)
    requires OnJob(s, Working, Some(0)) && s.db.jobs[0].state == Claimed
    ensures var step := Operate(0, NoteResume(WORKER, Latest(s).gen));
            && Enabled(s, step)
            && var t := Apply(s, step);
            t == s.(notes := t.notes) && ResumeRead(0, WORKER, Latest(s).gen) in t.notes && OnJob(t, Working, Some(0))
  {
  }

  lemma CompleteIt(s: System)
    requires OnJob(s, Working, Some(0)) && Solo(s) && ResumeRead(0, WORKER, Latest(s).gen) in s.notes
    ensures var step := Operate(0, CompleteByOperator(WORKER, Latest(s).gen, None));
            && Enabled(s, step)
            && var t := Apply(s, step);
            && SameHistory(s, t) && OnJob(t, Working, Some(0)) && Solo(t) && t.db.jobs[0].state == Applied
            && t.fence.None?
            && t.db.attempts == s.db.attempts
  {
    assert MayMove(s.db, 0, WORKER, Latest(s).gen, Live(Applied), s.now);
  }

  /** The operator's completion is recorded while the worker is still at work on the job. */
  predicate DoneAtWork(t: System) {
    && OnJob(t, Working, Some(0)) && Solo(t) && t.db.jobs[0].state == Applied && t.fence.None?
    && t.clicks[0] == 0 && t.repeats[0] == 0 && t.db.attempts[0].intentAt.None?
  }

  lemma CompletedAtWork() returns (steps: seq<Step>, t: System)
    ensures Reaches(START, steps, t) && DoneAtWork(t)
  {
    hide Reaches, OnJob, Idle, Enabled, Apply;
    var steps1, s1 := FirstJob();
    var e2 := ClaimNext(0, WORKER, s1.now);
    ClaimZero(s1); Then(START, steps1, s1, e2);
    var s2 := Apply(s1, e2);
    assert 0 in s2.db.jobs && s2.db.jobs[0].state == Claimed by { ClaimZero(s1); }
    var e3 := Work(Latest(s2), OpenAttempt(0));
    OpenZero(s2, 0); Then(START, steps1 + [e2], s2, e3);
    var s3 := Apply(s2, e3);
    var e4 := Operate(0, NoteResume(WORKER, Latest(s3).gen));
    NoteIt(s3); Then(START, steps1 + [e2] + [e3], s3, e4);
    var s4 := Apply(s3, e4);
    var e5 := Operate(0, CompleteByOperator(WORKER, Latest(s4).gen, None));
    CompleteIt(s4); Then(START, steps1 + [e2] + [e3] + [e4], s4, e5);
    steps, t := steps1 + [e2] + [e3] + [e4] + [e5], Apply(s4, e5);
  }

  /** After an operator has completed a job by hand through safe resume, the worker that was still
      at work on it commits its intent and presses the button: the application is submitted twice. */
  lemma ResumeThenClick()
    ensures exists steps, s, more, t {:trigger Reaches(START, steps, s), Reaches(START, more, t)} ::
              && Reaches(START, steps, s) && DoneAtWork(s)
              && Reaches(START, more, t) && steps <= more && t.clicks[0] == 1 && t.repeats[0] == 0
  {
    hide Reaches, OnJob, OnFence;
    var steps, s := CompletedAtWork();
    var more, t := PressZero(START, steps, s, 0);
  }

  // ---------------------------------------------------------------- two unfinished jobs for one application

  lemma EnqueueAgain(s: System)
    requires s.fence.None? && Solo(s) && Terminal(s.db.jobs[0].state)
    ensures var step := Enqueue(1, 0, 0, 3);
            && Enabled(s, step)
            && var t := Apply(s, step);
            && t.db.jobs == s.db.jobs[1 := NewJob(0, 0, 3, s.now)] && t == s.(db := t.db)
            && t.db.attempts == s.db.attempts && t.db.ctrl == s.db.ctrl
            && (OnJob(s, Working, Some(0)) ==> OnJob(t, Working, Some(0)))
  {
  }

  /** Job 0 goes back to work beside the new job 1. */
  lemma TwoJobs(t: System)
    requires 0 in t.db.jobs && 1 in t.db.jobs && t.db.jobs[0].app == t.db.jobs[1].app
    requires !Terminal(t.db.jobs[0].state) && !Terminal(t.db.jobs[1].state)
    ensures !OneActiveJob(t)
  {
  }

  /** Completing a running job through safe resume, and enqueueing its application again. */
  lemma ResumeBreaksOneActive()
    ensures exists steps, t {:trigger Reaches(START, steps, t)} :: Reaches(START, steps, t) && !OneActiveJob(t)
  {
    hide Reaches, Enabled, Apply, OneActiveJob, OnJob;
    var steps, s := CompletedAtWork();
    var e1 := Enqueue(1, 0, 0, 3);
    EnqueueAgain(s); Then(START, steps, s, e1);
    var s1 := Apply(s, e1);
    var e2 := Work(Latest(s1), CommitIntent);
    CommitIt(s1, Latest(s1), WORKER, 0); Then(START, steps + [e1], s1, e2);
    TwoJobs(Apply(s1, e2));
  }

  lemma SkipIt(s: System)
    requires Idle(s) && s.db.attempts == map[]
    ensures var step := Operate(0, Skip(None));
            && Enabled(s, step)
            && var t := Apply(s, step);
            t.fence.None? && Solo(t) && t.db.jobs[0].state == Skipped
  {
  }

  lemma ResolveIt(s: System)
    requires s.fence.None? && 0 in s.db.jobs && s.db.jobs[0].state == Skipped
    ensures var step := Operate(0, Resolve(false, None));
            && Enabled(s, step)
            && Apply(s, step).db.jobs == s.db.jobs[0 := ResolvedRow(s.db.jobs[0])]
  {
    assert MayResolve(s.db, 0, false, None, s.now);
  }

  /** Resolving a skipped job whose application has been enqueued again. */
  lemma ResolveBreaksOneActive()
    ensures exists steps, t {:trigger Reaches(START, steps, t)} :: Reaches(START, steps, t) && !OneActiveJob(t)
  {
    hide Reaches, Enabled, Apply, OneActiveJob, Idle;
    var steps, s := FirstJob();
    var e1, e2, e3 := Operate(0, Skip(None)), Enqueue(1, 0, 0, 3), Operate(0, Resolve(false, None));
    SkipIt(s); Then(START, steps, s, e1);
    var s1 := Apply(s, e1);
    EnqueueAgain(s1); Then(START, steps + [e1], s1, e2);
    var s2 := Apply(s1, e2);
    ResolveIt(s2); Then(START, steps + [e1] + [e2], s2, e3);
    TwoJobs(Apply(s2, e3));
  }

  // ---------------------------------------------------------------- a repair meets a job at work

  lemma NoteDoubtIt(s: System)
    requires InDoubt(s)
    ensures var step := Recover(0, NoteAmbiguous);
            && Enabled(s, step)
            && var t := Apply(s, step);
            t == s.(notes := t.notes) && AmbiguousRead(0) in t.notes && InDoubt(t)
  {
  }

  lemma ForceIt(s: System)
    requires InDoubt(s)
    ensures var step := Operate(0, Resolve(true, None));
            && Enabled(s, step)
            && var t := Apply(s, step);
            && t.fence.None? && Solo(t) && t.db.jobs[0].state == Ready && !t.db.jobs[0].cancelled
            && t.db.attempts == s.db.attempts && t.notes == s.notes
  {
    assert MayResolve(s.db, 0, true, None, s.now);
  }

  lemma RepairIt(s: System)
    requires OnJob(s, Working, None) && s.db.jobs[0].state == Claimed && AmbiguousRead(0) in s.notes
    requires s.db.attempts.Keys == {0} && s.db.attempts[0].job == 0 && s.db.attempts[0].ambiguous
    ensures var step := Recover(0, Repair(Some(0), Some(0)));
            && Enabled(s, step)
            && var t := Apply(s, step);
            && 0 in t.db.jobs && t.db.jobs[0].state == AmbiguousSubmission && t.db.jobs[0].owner.None?
            && t.db.ctrl.paused && t.runs == s.runs
  {
    assert MayMark(s.db, 0, REPAIR_MARK, Some(0), s.now);
  }

  /** A repair that listed an ambiguous job takes it, once it was resolved with force and claimed
      again, from the worker that is at work on it under a live lease. */
  lemma RepairTakesLiveJob()
    ensures exists steps, s {:trigger Reaches(START, steps, s)} ::
              && Reaches(START, steps, s) && OnJob(s, Working, None)
              && var step := Recover(0, Repair(Some(0), Some(0)));
              && Enabled(s, step)
              && var t := Apply(s, step);
              && 0 in t.db.jobs && t.db.jobs[0].state == AmbiguousSubmission && t.db.jobs[0].owner.None?
              && t.runs == s.runs
  {
    hide Reaches, Enabled, Apply, OnFence, InDoubt, Idle, OnJob;
    var steps1, s1 := FirstClick();
    var steps2, s2 := DoubtAfterClick(START, steps1, s1, 0);
    var e3, e4, e5 := Recover(0, NoteAmbiguous), Operate(0, Resolve(true, None)), Govern(SetPaused(false, None));
    NoteDoubtIt(s2); Then(START, steps2, s2, e3);
    var s3 := Apply(s2, e3);
    ForceIt(s3); Then(START, steps2 + [e3], s3, e4);
    var s4 := Apply(s3, e4);
    UnpauseIt(s4); Then(START, steps2 + [e3] + [e4], s4, e5);
    var s5 := Apply(s4, e5);
    var e6 := ClaimNext(0, WORKER, s5.now);
    ClaimZero(s5); Then(START, steps2 + [e3] + [e4] + [e5], s5, e6);
    RepairIt(Apply(s5, e6));
  }

  // ---------------------------------------------------------------- a hand-back meets a counter of zero

  predicate LoginParked(s: System) {
    s.fence.None? && Solo(s) && s.db.jobs[0].state == AuthRequired && !s.db.jobs[0].cancelled
  }

  predicate SameTally(s: System, t: System) {
    t.claims == s.claims && t.handBacks == s.handBacks && s.notes <= t.notes
  }

  lemma PauseIt(s: System)
    requires OnJob(s, Working, None) && Solo(s)
    ensures var step := Work(Latest(s), PauseForLogin);
            && Enabled(s, step)
            && var t := Apply(s, step);
            && SameTally(s, t) && t.runs == s.runs && t.fence == s.fence
            && t.db == s.db.(ctrl := s.db.ctrl.(paused := true))
  {
  }

  lemma ParkIt(s: System, g: nat)
    requires s.fence.None? && Solo(s) && RunId(0, g) in s.runs
    requires s.runs[RunId(0, g)].worker == WORKER && s.runs[RunId(0, g)].phase == Working
    requires Owns(s.db, 0, WORKER, g) && !s.db.jobs[0].cancelled
    ensures var step := Work(RunId(0, g), ParkForLogin);
            Enabled(s, step) && LoginParked(Apply(s, step)) && SameTally(s, Apply(s, step))
  {
    assert MayMove(s.db, 0, WORKER, g, Plain(AuthRequired), s.now);
  }

  lemma NoteParkedIt(s: System)
    requires LoginParked(s)
    ensures var step := Operate(0, NoteRequeue);
            && Enabled(s, step)
            && var t := Apply(s, step);
            LoginParked(t) && SameTally(s, t) && RequeueRead(0) in t.notes
  {
  }

  lemma ReopenIt(s: System)
    requires LoginParked(s)
    ensures var step := Operate(0, Resolve(false, None));
            && Enabled(s, step)
            && var t := Apply(s, step);
            && SameTally(s, t) && t.fence.None? && Solo(t) && t.db.jobs[0].state == Ready && !t.db.jobs[0].cancelled
  {
    assert MayResolve(s.db, 0, false, None, s.now);
  }

  lemma LateResetIt(s: System)
    requires OnJob(s, Working, None) && RequeueRead(0) in s.notes
    ensures var step := Operate(0, TrackerReset);
            && Enabled(s, step)
            && var t := Apply(s, step);
            OnJob(t, Working, None) && SameTally(s, t) && t.db.jobs[0].attemptCount == 0
  {
  }

  lemma HandBackIt(s: System)
    requires OnJob(s, Working, None) && s.db.jobs[0].attemptCount == 0
    ensures var step := Work(Latest(s), HandBack(0, s.now));
            && Enabled(s, step) && MayMove(s.db, 0, WORKER, Latest(s).gen, GateMove(0, s.now), s.now)
            && var t := Apply(s, step);
            && t.claims == s.claims && t.handBacks == s.handBacks + multiset{0}
            && 0 in t.db.jobs && t.db.jobs[0].attemptCount == 0
  {
    assert MayMove(s.db, 0, WORKER, Latest(s).gen, GateMove(0, s.now), s.now);
  }

  /** Job 0, claimed, has been parked for a login, noted by the tracker, and resolved. */
  lemma ParkedOnce() returns (steps: seq<Step>, t: System)
    ensures Reaches(START, steps, t) && Idle(t) && RequeueRead(0) in t.notes
    ensures t.claims[0] == 1 && t.handBacks[0] == 0
  {
    hide Reaches, Enabled, Apply, Idle, OnJob, LoginParked;
    var steps1, s1 := FirstJob();
    var e2 := ClaimNext(0, WORKER, s1.now);
    ClaimZero(s1); Then(START, steps1, s1, e2);
    var s2 := Apply(s1, e2);
    var r := Latest(s2);
    var e3, e4 := Work(r, PauseForLogin), Work(r, ParkForLogin);
    PauseIt(s2); Then(START, steps1 + [e2], s2, e3);
    var s3 := Apply(s2, e3);
    StillOwned(s2, s3);
    ParkIt(s3, r.gen); Then(START, steps1 + [e2] + [e3], s3, e4);
    var s4 := Apply(s3, e4);
    steps, t := ResolveParked(steps1 + [e2] + [e3] + [e4], s4);
  }

  lemma StillOwned(s: System, t: System)
    requires OnJob(s, Working, None) && Solo(s)
    requires t.db == s.db.(ctrl := s.db.ctrl.(paused := true)) && t.runs == s.runs && t.fence == s.fence
    ensures t.fence.None? && Solo(t) && Latest(s) in t.runs && t.runs[Latest(s)].worker == WORKER
    ensures t.runs[Latest(s)].phase == Working && Owns(t.db, 0, WORKER, Latest(s).gen) && !t.db.jobs[0].cancelled
  {
  }

  lemma ResolveParked(steps: seq<Step>, s: System) returns (steps': seq<Step>, t: System)
    requires Reaches(START, steps, s) && LoginParked(s)
    ensures Reaches(START, steps', t) && Idle(t) && RequeueRead(0) in t.notes
    ensures t.claims == s.claims && t.handBacks == s.handBacks
  {
    hide Reaches, Enabled, Apply, Idle, LoginParked;
    var e1, e2, e3 := Operate(0, NoteRequeue), Operate(0, Resolve(false, None)), Govern(SetPaused(false, None));
    NoteParkedIt(s); Then(START, steps, s, e1);
    var s1 := Apply(s, e1);
    ReopenIt(s1); Then(START, steps + [e1], s1, e2);
    var s2 := Apply(s1, e2);
    UnpauseIt(s2); Then(START, steps + [e1] + [e2], s2, e3);
    steps', t := steps + [e1] + [e2] + [e3], Apply(s2, e3);
  }

  /** A tracker requeue that read the job while it was parked lands on the next claim: the claim's
      accepted hand-back meets a counter of zero, and the counter no longer tells claims less hand-backs. */
  lemma HandBackMeetsZero()
    ensures exists steps, t {:trigger Reaches(START, steps, t)} ::
              && Reaches(START, steps, t) && 0 in t.db.jobs
              && t.db.jobs[0].attemptCount == 0 && t.claims[0] == 2 && t.handBacks[0] == 1
  {
    hide Reaches, Enabled, Apply, Idle, OnJob;
    var steps1, s1 := ParkedOnce();
    var e2, e3 := ClaimNext(0, WORKER, s1.now), Operate(0, TrackerReset);
    ClaimZero(s1); Then(START, steps1, s1, e2);
    var s2 := Apply(s1, e2);
    LateResetIt(s2); Then(START, steps1 + [e2], s2, e3);
    var s3 := Apply(s2, e3);
    var e4 := Work(Latest(s3), HandBack(0, s3.now));
    HandBackIt(s3); Then(START, steps1 + [e2] + [e3], s3, e4);
  }
}
