/** The queue and everything that acts on it, as one state machine.  A step is
    one transaction (or one browser action); worker runs keep their program
    order, everyone else may act at any time.  Values read in an earlier
    transaction are remembered in `notes` and may be used arbitrarily late. */
module Protocol {
  import opened Rows
  import opened Rules
  import opened Bulk

  /** A run is the processing of one claim; claims are numbered by generation. */
  datatype RunId = RunId(job: JobId, gen: nat)

  datatype Phase =
    | Working      // is_pre_submit still holds
    | Intended     // intent committed, permit not yet asked for
    | Fenced       // click fence open, button not yet pressed
    | Clicking     // click fence open, button pressed
    | Submitted    // adapter returned, fence released
    | Awaiting     // verifying announced, waiting for evidence
    | Uncertain    // an exception after the intent
    | Finished

  datatype Budget = Budget(count: nat, maxRetries: int)

  datatype Run = Run(
    worker: WorkerId,
    phase: Phase,
    attempt: Option<AttemptId>,
    intended: bool,
    clicked: bool,
    handedBack: bool,
    budget: Option<Budget>)

  datatype Read =
    | ResumeRead(job: JobId, worker: WorkerId, gen: nat)
    | StrandedRead(job: JobId, owner: Option<WorkerId>, gen: nat)
    | SubmittingRead(job: JobId, owner: Option<WorkerId>, gen: nat)
    | AmbiguousRead(job: JobId)
    | RequeueRead(job: JobId)

  /** A takeover lease as it was in force: from the grant to its expiry, release or replacement. */
  datatype Grant = Grant(owner: OperatorId, start: nat, end: nat)

  datatype System = System(
    db: Db,
    now: nat,
    runs: map<RunId, Run>,
    fence: Option<RunId>,
    notes: set<Read>,
    claims: multiset<JobId>,
    handBacks: multiset<JobId>,
    clicks: multiset<JobId>,
    repeats: multiset<JobId>,
    resets: multiset<JobId>,
    committed: set<JobId>,
    grants: seq<Grant>,
    published: map<JobId, nat>)

  /** What the worker program does in one run. */
  datatype Act =
    | OpenAttempt(attempt: AttemptId)
    | Navigate
    | PauseForLogin
    | ParkForLogin
    | Interrupt(to: JobState)
    | FailForGood
    | ReadBudget
    | FailTransient(failedAt: nat)
    | HandBack(delay: nat, handedAt: nat)
    | FinishFillOnly
    | CommitIntent
    | OpenFence
    | Click
    | CloseFence(ok: bool)
    | AnnounceVerifying
    | SkipVerifying
    | Confirm
    | Reject
    | Doubt(pick: Option<AttemptId>)
    | RecordOutcome(outcome: Outcome)
    | RecordFillOnly
    | PublishBrowser(active: bool, closed: bool)
    | RecordApplication(app: AppId, status: AppStatus)
    | EndRun

  /** The recovery sweeps and the marking half of clear-state. */
  datatype Sweep =
    | NoteStranded
    | MarkStranded(owner: Option<WorkerId>, gen: nat, pick: Option<AttemptId>)
    | NoteSubmitting
    | MarkCleared(owner: Option<WorkerId>, gen: nat, pick: Option<AttemptId>)
    | NoteAmbiguous
    | Repair(latest: Option<AttemptId>, pick: Option<AttemptId>)

  /** Operator calls about one job. */
  datatype Call =
    | Cancel
    | Skip(pick: Option<AttemptId>)
    | Resolve(force: bool, expected: Option<OperatorId>)
    | NoteRequeue
    | TrackerReset
    | ReopenLogin(expected: Option<OperatorId>)
    | NoteResume(worker: WorkerId, gen: nat)
    | CompleteByOperator(worker: WorkerId, gen: nat, expected: Option<OperatorId>)
    | OperatorOutcome(attempt: AttemptId)
    | ResumeReady(worker: WorkerId, gen: nat, expected: Option<OperatorId>)

  /** Calls about the runtime as a whole. */
  datatype Command =
    | ResetAll
    | StopEverything(rows: seq<JobId>, picks: Picks, stopper: Option<OperatorId>, t1: nat, t2: nat, t3: nat)
    | DaemonStop(worker: WorkerId, rows: seq<JobId>, picks: Picks)
    | SetPaused(paused: bool, expected: Option<OperatorId>)
    | SetStopped(stopped: bool)
    | Unstop(expected: Option<OperatorId>)
    | DropTakeover(expected: Option<OperatorId>)
    | TakeControl(operator: OperatorId, seconds: nat, sample: nat)
    | RenewControl(operator: OperatorId, seconds: nat)
    | ReleaseControl(releaser: Option<OperatorId>, force: bool)
    | Publish(publication: Publication)
    | ShutBrowser

  datatype Step =
    | Tick(time: nat)
    | Enqueue(job: JobId, app: AppId, priority: int, maxRetries: int)
    | SetStatus(app: AppId, status: AppStatus)
    | ClaimNext(job: JobId, worker: WorkerId, sample: nat)
    | Heartbeat(job: JobId, worker: WorkerId, gen: nat)
    | Work(run: RunId, act: Act)
    | Recover(job: JobId, sweep: Sweep)
    | Operate(job: JobId, call: Call)
    | Govern(command: Command)

  // ---------------------------------------------------------------- fixed arguments of the calls

  function DoubtMark(r: RunId, run: Run): Mark {
    Mark(Some(run.worker), Some(r.gen), true, true, run.attempt, EventKey(OpPostSubmit, Some(r.gen)), false)
  }

  function SweepMark(owner: Option<WorkerId>, g: nat): Mark {
    Mark(owner, Some(g), false, true, None, EventKey(OpCrashRecovery, Some(g)), false)
  }

  function ClearMark(owner: Option<WorkerId>, g: nat): Mark {
    Mark(owner, Some(g), false, true, None, EventKey(OpClearState, Some(g)), false)
  }

  const REPAIR_MARK := Mark(None, None, false, true, None, EventKey(OpRepair, None), true)

  /** What the stranded-job sweep lists. */
  predicate Stranded(row: Job, now: nat) {
    Submitting(row.state) && (row.expires.None? || row.expires.value <= Sec(now))
  }

  // ---------------------------------------------------------------- enabledness

  /** Steps that write nothing to the database; all others wait for the click fence. */
  predicate IsReadOnly(step: Step) {
    match step
    case Tick(_) => true
    case Work(_, act) => act.ReadBudget? || act.Click? || act.CloseFence? || act.SkipVerifying? || act.EndRun?
    case Recover(_, sweep) => sweep.NoteStranded? || sweep.NoteSubmitting? || sweep.NoteAmbiguous?
    case Operate(_, call) => call.NoteRequeue? || call.NoteResume?
    case _ => false
  }

  ghost predicate ActAllowed(s: System, r: RunId, act: Act) {
    r in s.runs &&
    var run := s.runs[r];
    match act
    case OpenAttempt(a) => run.phase == Working && run.attempt.None? && a !in s.db.attempts
    case Interrupt(to) => run.phase == Working && Exceptional(to)
    case FailTransient(t) => run.phase == Working && run.budget.Some? && t <= s.now
    case HandBack(_, t) => run.phase == Working && t <= s.now
    case CommitIntent => run.phase == Working && run.attempt.Some?
    case OpenFence => run.phase == Intended && run.attempt.Some?
    case Click => run.phase == Fenced
    case CloseFence(ok) => run.phase == Clicking || (run.phase == Fenced && !ok)
    case AnnounceVerifying => run.phase == Submitted
    case SkipVerifying => run.phase == Submitted
    case Confirm => run.phase == Awaiting
    case Reject => run.phase == Awaiting
    case Doubt(pick) => (run.phase.Intended? || run.phase.Awaiting? || run.phase.Uncertain?)
                        && IsTarget(s.db, r.job, DoubtMark(r, run), pick)
    case RecordOutcome(_) => run.phase == Finished && run.attempt.Some?
    case RecordFillOnly => run.phase == Finished && run.attempt.Some? && run.attempt.value in s.db.attempts
    case PublishBrowser(_, _) => true
    case RecordApplication(_, _) => true
    case EndRun => true
    case _ => run.phase == Working
  }

  ghost predicate SweepAllowed(s: System, j: JobId, sweep: Sweep) {
    match sweep
    case NoteStranded => j in s.db.jobs && Stranded(s.db.jobs[j], s.now)
    case MarkStranded(owner, g, pick) =>
      StrandedRead(j, owner, g) in s.notes && IsTarget(s.db, j, SweepMark(owner, g), pick)
    case NoteSubmitting => j in s.db.jobs && IsSubmitting(s.db.jobs[j]) && !s.db.jobs[j].cancelled
    case MarkCleared(owner, g, pick) =>
      SubmittingRead(j, owner, g) in s.notes && IsTarget(s.db, j, ClearMark(owner, g), pick)
    case NoteAmbiguous => j in s.db.jobs && s.db.jobs[j].state == AmbiguousSubmission
    case Repair(latest, pick) =>
      && AmbiguousRead(j) in s.notes && IsTarget(s.db, j, REPAIR_MARK, pick)
      && IsLatest(s.db.attempts, j, AnyRow, latest)
  }

  ghost predicate CallAllowed(s: System, j: JobId, call: Call) {
    match call
    case Skip(pick) => IsLatest(s.db.attempts, j, OpenRow, pick)
    case NoteRequeue => j in s.db.jobs && !RequeueKeeps(s.db.jobs[j].state) && !Terminal(s.db.jobs[j].state)
    case TrackerReset => RequeueRead(j) in s.notes
    case NoteResume(w, g) => MayResume(s.db, j, w, g, s.now)
    case CompleteByOperator(w, g, expected) => ResumeRead(j, w, g) in s.notes && OwnerGate(s.db, expected, s.now)
    case OperatorOutcome(a) => a in s.db.attempts && s.db.attempts[a].job == j
    case _ => true
  }

  ghost predicate CommandAllowed(s: System, command: Command) {
    match command
    case StopEverything(rows, picks, stopper, t1, t2, t3) =>
      && s.now <= t1 <= t2 <= t3 && Lists(s.db, rows, IsSubmitting)
      && PicksLatest(s.db.attempts, rows, picks, OpenOrAmbiguous)
    case DaemonStop(w, rows, picks) =>
      Lists(s.db, rows, TakenFrom(w)) && PicksLatest(s.db.attempts, rows, picks, OpenRow)
    case TakeControl(op, seconds, sample) => LeaseLengthOk(seconds) && sample <= s.now
    case RenewControl(op, seconds) => LeaseLengthOk(seconds)
    case _ => true
  }

  ghost predicate Allowed(s: System, step: Step) {
    match step
    case Tick(time) => s.now <= time
    case Enqueue(j, app, priority, maxRetries) => j !in s.db.jobs
    case ClaimNext(j, w, sample) => sample <= s.now && !Halted(s.db) && Best(s.db, j, sample)
    case Work(r, act) => ActAllowed(s, r, act)
    case Recover(j, sweep) => SweepAllowed(s, j, sweep)
    case Operate(j, call) => CallAllowed(s, j, call)
    case Govern(command) => CommandAllowed(s, command)
    case _ => true
  }

  ghost predicate Enabled(s: System, step: Step) {
    && (s.fence.None? || IsReadOnly(step))
    && Allowed(s, step)
  }

  // ---------------------------------------------------------------- effects

  function SetRun(s: System, r: RunId, run: Run): System {
    s.(runs := s.runs[r := run])
  }

  function Goto(s: System, r: RunId, p: Phase): System
    requires r in s.runs
  {
    SetRun(s, r, s.runs[r].(phase := p))
  }

  /** A fenced transition by a run, which then goes on in phase `p` whatever the answer. */
  function RunMove(s: System, r: RunId, m: Move, p: Phase): System
    requires r in s.runs
  {
    Goto(s.(db := TransitionJob(s.db, r.job, s.runs[r].worker, r.gen, m, s.now)), r, p)
  }

  function Remember(s: System, read: Read): System {
    s.(notes := s.notes + {read})
  }

  function CutGrants(grants: seq<Grant>, now: nat): seq<Grant> {
    if grants == [] then []
    else
      var last := grants[|grants| - 1];
      grants[|grants| - 1 := last.(end := if last.end <= now then last.end else now)]
  }

  /** Takes over a database in which the takeover may have been cleared. */
  function Cleared(s: System, db: Db): System {
    s.(db := db, grants := if db.ctrl.takeoverOwner.None? then CutGrants(s.grants, s.now) else s.grants)
  }

  function ClaimTaken(s: System, j: JobId, w: WorkerId, sample: nat): System
    requires j in s.db.jobs
  {
    var g := s.db.jobs[j].gen + 1;
    SetRun(s.(db := ClaimJob(s.db, j, w, sample), claims := s.claims + multiset{j}),
           RunId(j, g), Run(w, Working, None, false, false, false, None))
  }

  function HandedBack(s: System, r: RunId, delay: nat, sample: nat): System
    requires r in s.runs
  {
    var m := GateMove(delay, sample);
    if MayMove(s.db, r.job, s.runs[r].worker, r.gen, m, s.now) then
      var s1 := RunMove(s, r, m, Finished);
      SetRun(s1.(handBacks := s.handBacks + multiset{r.job}), r, s1.runs[r].(handedBack := true))
    else Goto(s, r, Finished)
  }

  /** A refused intent raises while is_pre_submit still holds, so the run stays in `Working`. */
  function IntentCommitted(s: System, r: RunId): System
    requires r in s.runs && s.runs[r].attempt.Some?
  {
    var run := s.runs[r];
    if MayCommitIntent(s.db, run.attempt.value, r.job, run.worker, r.gen, s.now) then
      SetRun(s.(db := RecordSubmitIntent(s.db, run.attempt.value, r.job, run.worker, r.gen, s.now),
             committed := s.committed + {r.job}),
             r, run.(phase := Intended, intended := true))
    else s
  }

  function FenceOpened(s: System, r: RunId): System
    requires r in s.runs && s.runs[r].attempt.Some?
  {
    var run := s.runs[r];
    if FenceOpens(s.db, run.attempt.value, r.job, run.worker, r.gen, s.now)
    then Goto(s.(fence := Some(r)), r, Fenced)
    else Goto(s, r, Uncertain)
  }

  function Unfenced(s: System, r: RunId): Option<RunId> {
    if s.fence == Some(r) then None else s.fence
  }

  /** The button was pressed for the intent that stands committed: the clicks of the job exceed
      those of the commitments that were overridden. */
  predicate Pressed(s: System, j: JobId) {
    j in s.committed && s.repeats[j] < s.clicks[j]
  }

  /** A forced resolution or a tracker requeue of a job whose intent is committed opens a new
      submission; it opens a repeated one if the button was pressed already. */
  function Overridden(s: System, j: JobId, db: Db): System {
    if j in s.committed then
      s.(db := db, committed := s.committed - {j},
      repeats := if Pressed(s, j) then s.repeats + multiset{j} else s.repeats)
    else s.(db := db)
  }

  function Reset(s: System, j: JobId): System {
    Overridden(s, j, TrackerRequeue(s.db, j)).(resets := s.resets + multiset{j})
  }

  function ReadCounters(db: Db, j: JobId): Budget {
    if j in db.jobs then Budget(db.jobs[j].attemptCount, db.jobs[j].maxRetries) else Budget(1, 3)
  }

  function TookControl(s: System, op: OperatorId, seconds: nat, sample: nat): System {
    if !MayClaimTakeover(s.db, op, sample) then s
    else
      var before := if s.db.ctrl.takeoverOwner == Some(op) then CutGrants(s.grants, s.now) else s.grants;
      s.(db := ClaimTakeover(s.db, op, seconds, sample),
      grants := before + [Grant(op, s.now, (Sec(sample) + seconds) * TICKS_PER_SECOND)])
  }

  function RenewedControl(s: System, op: OperatorId, seconds: nat): System {
    if !MayRenewTakeover(s.db, op, s.now) || s.grants == [] then s.(db := RenewTakeover(s.db, op, seconds, s.now))
    else
      var n := |s.grants| - 1;
      s.(db := RenewTakeover(s.db, op, seconds, s.now),
      grants := s.grants[n := s.grants[n].(end := (Sec(s.now) + seconds) * TICKS_PER_SECOND)])
  }

  function Published(s: System, p: Publication): System {
    var s1 := s.(db := SetBrowserState(s.db, p, s.now));
    if MayPublish(s.db, p, s.now) && NamesClaim(s.db, p, s.now)
    then s1.(published := s.published[p.job.value := p.gen.value])
    else s1
  }

  /** What a run publishes about its browser carries its own job and generation. */
  function RunPublication(r: RunId, active: bool, closed: bool): Publication {
    Publication(active, closed, Some(r.job), Some(r.gen))
  }

  ghost function ActEffect(s: System, r: RunId, act: Act): System
    requires ActAllowed(s, r, act)
  {
    var run := s.runs[r];
    match act
    case OpenAttempt(a) =>
      SetRun(s.(db := CreateAttempt(s.db, a, r.job, run.worker, r.gen, s.now)), r, run.(attempt := Some(a)))
    case Navigate => RunMove(s, r, Plain(Navigating), Working)
    case PauseForLogin => s.(db := SetPause(s.db, true, None, s.now))
    case ParkForLogin => RunMove(s, r, Plain(AuthRequired), Finished)
    case Interrupt(to) => RunMove(s, r, Live(to), Finished)
    case FailForGood => RunMove(s, r, Live(FailedPermanent), Finished)
    case ReadBudget => SetRun(s, r, run.(budget := Some(ReadCounters(s.db, r.job))))
    case FailTransient(t) => RunMove(s, r, TransientMove(run.budget.value.count, run.budget.value.maxRetries, t),
                                     Finished)
    case HandBack(delay, t) => HandedBack(s, r, delay, t)
    case FinishFillOnly => RunMove(s, r, Plain(Skipped), Finished)
    case CommitIntent => IntentCommitted(s, r)
    case OpenFence => FenceOpened(s, r)
    case Click => SetRun(s.(clicks := s.clicks + multiset{r.job}), r, run.(phase := Clicking, clicked := true))
    case CloseFence(ok) => Goto(s.(fence := Unfenced(s, r)), r, if ok then Submitted else Uncertain)
    case AnnounceVerifying => RunMove(s, r, Plain(Verifying), Awaiting)
    case SkipVerifying => Goto(s, r, Awaiting)
    case Confirm => RunMove(s, r, Live(Applied), Finished)
    case Reject => RunMove(s, r, Live(FailedPermanent), Finished)
    case Doubt(pick) => Goto(s.(db := MarkAmbiguous(s.db, r.job, DoubtMark(r, run), None, pick, s.now)), r, Finished)
    case RecordOutcome(outcome) =>
      s.(db := CompleteAttempt(s.db, run.attempt.value, r.job, run.worker, r.gen, outcome, s.now))
    case RecordFillOnly =>
      var a := run.attempt.value;
      s.(db := s.db.(attempts := s.db.attempts[a := CompletedAttempt(s.db.attempts[a], FillOnly, s.now)]))
    case PublishBrowser(active, closed) => Published(s, RunPublication(r, active, closed))
    case RecordApplication(app, status) => s.(db := s.db.(apps := s.db.apps[app := status]))
    case EndRun => Goto(s.(fence := Unfenced(s, r)), r, Finished)
  }

  ghost function SweepEffect(s: System, j: JobId, sweep: Sweep): System
    requires SweepAllowed(s, j, sweep)
  {
    match sweep
    case NoteStranded => Remember(s, StrandedRead(j, s.db.jobs[j].owner, s.db.jobs[j].gen))
    case MarkStranded(owner, g, pick) => s.(db := MarkAmbiguous(s.db, j, SweepMark(owner, g), None, pick, s.now))
    case NoteSubmitting => Remember(s, SubmittingRead(j, s.db.jobs[j].owner, s.db.jobs[j].gen))
    case MarkCleared(owner, g, pick) => s.(db := MarkAmbiguous(s.db, j, ClearMark(owner, g), None, pick, s.now))
    case NoteAmbiguous => Remember(s, AmbiguousRead(j))
    case Repair(latest, pick) => s.(db := MarkAmbiguous(s.db, j, REPAIR_MARK, latest, pick, s.now))
  }

  ghost function CallEffect(s: System, j: JobId, call: Call): System
    requires CallAllowed(s, j, call)
  {
    match call
    case Cancel => s.(db := CancelJob(s.db, j))
    case Skip(pick) => s.(db := SkipJob(s.db, j, pick, s.now))
    case Resolve(force, expected) =>
      var db := ResolveJob(s.db, j, force, expected, s.now);
      if MayResolve(s.db, j, force, expected, s.now) && s.db.jobs[j].state == AmbiguousSubmission
      then Overridden(s, j, db)
      else s.(db := db)
    case NoteRequeue => Remember(s, RequeueRead(j))
    case TrackerReset => Reset(s, j)
    case ReopenLogin(expected) =>
      if MayRequeueAuth(s.db, j, expected, s.now) then Cleared(s, RequeueAuth(s.db, j, expected, s.now)) else s
    case NoteResume(w, g) => Remember(s, ResumeRead(j, w, g))
    case CompleteByOperator(w, g, expected) => s.(db := TransitionJob(s.db, j, w, g, Live(Applied), s.now))
    case OperatorOutcome(a) =>
      s.(db := s.db.(attempts := s.db.attempts[a := CompletedAttempt(s.db.attempts[a], Reached(Applied), s.now)]))
    case ResumeReady(w, g, expected) => s.(db := SafeResumeReady(s.db, j, w, g, expected, s.now))
  }

  ghost function CommandEffect(s: System, command: Command): System
    requires CommandAllowed(s, command)
  {
    match command
    case ResetAll => Cleared(s, ClearReset(s.db))
    case StopEverything(rows, picks, stopper, t1, t2, t3) =>
      Cleared(s.(now := t3), EmergencyStop(s.db, rows, picks, stopper, t1, t2, t3))
    case DaemonStop(w, rows, picks) => s.(db := ShutdownAll(s.db, rows, picks, s.now))
    case SetPaused(paused, expected) => s.(db := SetPause(s.db, paused, expected, s.now))
    case SetStopped(stopped) => s.(db := SetStop(s.db, stopped))
    case Unstop(expected) => s.(db := ClearStop(s.db, expected, s.now))
    case DropTakeover(expected) => Cleared(s, ClearTakeover(s.db, expected, s.now))
    case TakeControl(op, seconds, sample) => TookControl(s, op, seconds, sample)
    case RenewControl(op, seconds) => RenewedControl(s, op, seconds)
    case ReleaseControl(op, force) => Cleared(s, ReleaseTakeover(s.db, op, force))
    case Publish(p) => Published(s, p)
    case ShutBrowser => s.(db := BrowserShutdown(s.db))
  }

  ghost function Apply(s: System, step: Step): System
    requires Enabled(s, step)
  {
    match step
    case Tick(time) => s.(now := time)
    case Enqueue(j, app, priority, maxRetries) => s.(db := EnqueueJob(s.db, j, app, priority, maxRetries, s.now))
    case SetStatus(app, status) => s.(db := s.db.(apps := s.db.apps[app := status]))
    case ClaimNext(j, w, sample) => ClaimTaken(s, j, w, sample)
    case Heartbeat(j, w, g) => s.(db := RenewLease(s.db, j, w, g, s.now))
    case Work(r, act) => ActEffect(s, r, act)
    case Recover(j, sweep) => SweepEffect(s, j, sweep)
    case Operate(j, call) => CallEffect(s, j, call)
    case Govern(command) => CommandEffect(s, command)
  }

  // ---------------------------------------------------------------- runs of the system

  predicate Initial(s: System) {
    && s.db.jobs == map[] && s.db.attempts == map[]
    && s.db.ctrl.takeoverOwner.None? && s.db.ctrl.takeoverExpires.None?
    && s.runs == map[] && s.fence.None? && s.notes == {}
    && s.claims == multiset{} && s.handBacks == multiset{} && s.clicks == multiset{} && s.repeats == multiset{}
    && s.resets == multiset{}
    && s.committed == {} && s.grants == [] && s.published == map[]
  }

  ghost predicate Valid(s: System, steps: seq<Step>)
    decreases |steps|
  {
    steps == [] || (Enabled(s, steps[0]) && Valid(Apply(s, steps[0]), steps[1..]))
  }

  ghost function After(s: System, steps: seq<Step>): System
    requires Valid(s, steps)
    decreases |steps|
  {
    if steps == [] then s else After(Apply(s, steps[0]), steps[1..])
  }
}
