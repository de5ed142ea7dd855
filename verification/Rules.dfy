/** What each queue operation does to the tables: one function per guarded
    transaction.  The methods of `Queue.Database` are proved against these, and
    the protocol is built from them. */
module Rules {
  import opened Rows

  const LEASE_SECONDS: nat := 60
  const SUBMIT_MARGIN: nat := 20
  const TAKEOVER_MAX_SECONDS: nat := 300

  // ---------------------------------------------------------------- row helpers

  predicate Owns(db: Db, j: JobId, w: WorkerId, g: nat) {
    j in db.jobs && db.jobs[j].owner == Some(w) && db.jobs[j].gen == g
  }

  predicate LeaseBeyond(row: Job, cutoff: nat) {
    row.expires.Some? && row.expires.value > cutoff
  }

  predicate LeaseOver(row: Job, second: nat) {
    row.expires.Some? && row.expires.value <= second
  }

  function SetApp(db: Db, app: AppId, status: AppStatus): Db {
    if app in db.apps then db.(apps := db.apps[app := status]) else db
  }

  /** A keyed event already present for the job is not inserted again. */
  function AddEvent(db: Db, e: Event): Db {
    if e.KeyedEvent? && e in db.events then db else db.(events := db.events + [e])
  }

  function Coalesce<T>(a: Option<T>, b: Option<T>): Option<T> {
    if a.Some? then a else b
  }

  // ---------------------------------------------------------------- attempt selection

  datatype Selection = AnyRow | OpenRow | OpenOrAmbiguous

  predicate Selected(a: Attempt, j: JobId, sel: Selection) {
    a.job == j &&
    match sel
    case AnyRow => true
    case OpenRow => a.completedAt.None?
    case OpenOrAmbiguous => a.completedAt.None? || a.ambiguous
  }

  /** ORDER BY created_at DESC LIMIT 1; rows of one second are taken in any order. */
  ghost predicate IsLatest(attempts: map<AttemptId, Attempt>, j: JobId, sel: Selection, pick: Option<AttemptId>) {
    match pick
    case None =>
      forall a | a in attempts :: !Selected(attempts[a], j, sel)
    case Some(p) =>
      && p in attempts && Selected(attempts[p], j, sel)
      && forall a | a in attempts && Selected(attempts[a], j, sel) :: attempts[a].createdAt <= attempts[p].createdAt
  }

  // ---------------------------------------------------------------- enqueue and claim

  function NewJob(app: AppId, priority: int, maxRetries: int, now: nat): Job {
    Job(app, Ready, priority, Sec(now), None, None, 0, 0, maxRetries, None, false)
  }

  predicate HasActiveJob(db: Db, app: AppId) {
    exists j | j in db.jobs :: db.jobs[j].app == app && !Terminal(db.jobs[j].state)
  }

  function EnqueueJob(db: Db, j: JobId, app: AppId, priority: int, maxRetries: int, now: nat): Db {
    if HasActiveJob(db, app) then db
    else AddEvent(db.(jobs := db.jobs[j := NewJob(app, priority, maxRetries, now)]), Event(Some(j), JobEnqueued))
  }

  predicate Halted(db: Db) {
    db.ctrl.paused || db.ctrl.stopped
  }

  predicate Eligible(db: Db, j: JobId, sample: nat)
    requires j in db.jobs
  {
    var row := db.jobs[j];
    && row.app in db.apps && db.apps[row.app] != Dismissed
    && !row.cancelled
    && (|| row.state == Ready
        || (row.state == RetryWait && (row.nextRetry.None? || row.nextRetry.value <= Sec(sample)))
        || (Running(row.state) && LeaseOver(row, Sec(sample))))
  }

  /** The ORDER BY of the claim: higher priority first, then earlier creation. */
  predicate Precedes(a: Job, b: Job) {
    a.priority > b.priority || (a.priority == b.priority && a.createdAt <= b.createdAt)
  }

  ghost predicate Best(db: Db, j: JobId, sample: nat) {
    && j in db.jobs && Eligible(db, j, sample)
    && forall k | k in db.jobs && Eligible(db, k, sample) :: Precedes(db.jobs[j], db.jobs[k])
  }

  function ClaimedRow(row: Job, w: WorkerId, sample: nat): Job {
    row.(state := Claimed, owner := Some(w), expires := Some(Sec(sample) + LEASE_SECONDS),
    gen := row.gen + 1, attemptCount := row.attemptCount + 1)
  }

  function ClaimJob(db: Db, j: JobId, w: WorkerId, sample: nat): Db
    requires j in db.jobs
  {
    AddEvent(db.(jobs := db.jobs[j := ClaimedRow(db.jobs[j], w, sample)]), Event(Some(j), JobClaimed))
  }

  // ---------------------------------------------------------------- the fenced worker calls

  predicate MayRenew(db: Db, j: JobId, w: WorkerId, g: nat, now: nat) {
    !db.ctrl.stopped && Owns(db, j, w, g) && !db.jobs[j].cancelled && LeaseBeyond(db.jobs[j], Sec(now))
  }

  function RenewLease(db: Db, j: JobId, w: WorkerId, g: nat, now: nat): Db {
    if MayRenew(db, j, w, g, now)
    then db.(jobs := db.jobs[j := db.jobs[j].(expires := Some(Sec(now) + LEASE_SECONDS))])
    else db
  }

  /** The optional arguments of a transition. */
  datatype Move = Move(to: JobState, live: bool, margin: nat, retryAt: Option<nat>, handBack: bool)

  function Plain(to: JobState): Move {
    Move(to, false, 0, None, false)
  }

  function Live(to: JobState): Move {
    Move(to, true, 0, None, false)
  }

  const INTENT_MOVE := Move(SubmitIntent, true, SUBMIT_MARGIN, None, false)

  predicate MayMove(db: Db, j: JobId, w: WorkerId, g: nat, m: Move, now: nat) {
    && Owns(db, j, w, g) && !db.jobs[j].cancelled
    && (m.live || m.margin > 0 ==> LeaseBeyond(db.jobs[j], Sec(now) + m.margin))
  }

  function MovedRow(row: Job, m: Move): Job {
    row.(state := m.to,
    nextRetry := Coalesce(m.retryAt, row.nextRetry),
    attemptCount := if m.handBack && row.attemptCount > 0 then row.attemptCount - 1 else row.attemptCount)
  }

  function ProjectApp(db: Db, app: AppId, to: JobState): Db {
    match to
    case FailedPermanent => SetApp(db, app, FailedApp)
    case Cancelled => SetApp(db, app, CancelledApp)
    case AmbiguousSubmission => SetApp(db, app, AmbiguousApp)
    case _ => db
  }

  function TransitionJob(db: Db, j: JobId, w: WorkerId, g: nat, m: Move, now: nat): Db {
    if !MayMove(db, j, w, g, m, now) then db
    else
      var row := db.jobs[j];
      AddEvent(ProjectApp(db.(jobs := db.jobs[j := MovedRow(row, m)]), row.app, m.to), Event(Some(j), StateTransition))
  }

  function NewAttempt(j: JobId, w: WorkerId, g: nat, now: nat): Attempt {
    Attempt(j, Some(w), Some(g), None, None, false, Sec(now), None)
  }

  function CreateAttempt(db: Db, a: AttemptId, j: JobId, w: WorkerId, g: nat, now: nat): Db {
    db.(attempts := db.attempts[a := NewAttempt(j, w, g, now)])
  }

  predicate IntentSlot(db: Db, a: AttemptId, j: JobId, w: WorkerId, g: nat) {
    && a in db.attempts && db.attempts[a].job == j && db.attempts[a].worker == Some(w)
    && db.attempts[a].gen == Some(g) && db.attempts[a].intentAt.None?
  }

  predicate MayCommitIntent(db: Db, a: AttemptId, j: JobId, w: WorkerId, g: nat, now: nat) {
    MayMove(db, j, w, g, INTENT_MOVE, now) && IntentSlot(db, a, j, w, g)
  }

  /** Both writes, or neither. */
  function RecordSubmitIntent(db: Db, a: AttemptId, j: JobId, w: WorkerId, g: nat, now: nat): Db {
    if !MayCommitIntent(db, a, j, w, g, now) then db
    else
      var moved := TransitionJob(db, j, w, g, INTENT_MOVE, now);
      AddEvent(moved.(attempts := moved.attempts[a := moved.attempts[a].(intentAt := Some(Sec(now)))]),
               KeyedEvent(Some(j), EventKey(OpIntent, None)))
  }

  predicate TakeoverLive(c: Control, now: nat) {
    c.takeoverOwner.Some? && c.takeoverExpires.Some? && c.takeoverExpires.value > Sec(now)
  }

  /** What the click fence validates under the write lock. */
  predicate FenceOpens(db: Db, a: AttemptId, j: JobId, w: WorkerId, g: nat, now: nat) {
    && Owns(db, j, w, g)
    && db.jobs[j].state == SubmitIntent && !db.jobs[j].cancelled
    && LeaseBeyond(db.jobs[j], Sec(now) + SUBMIT_MARGIN)
    && !Halted(db) && !TakeoverLive(db.ctrl, now)
    && a in db.attempts && db.attempts[a].job == j && db.attempts[a].worker == Some(w)
    && db.attempts[a].gen == Some(g) && db.attempts[a].intentAt.Some?
  }

  predicate MayComplete(db: Db, a: AttemptId, j: JobId, w: WorkerId, g: nat) {
    && a in db.attempts && db.attempts[a].job == j && db.attempts[a].worker == Some(w) && db.attempts[a].gen == Some(g)
    && Owns(db, j, w, g) && db.jobs[j].state != Ready
  }

  function CompletedAttempt(att: Attempt, outcome: Outcome, now: nat): Attempt {
    att.(outcome := Some(outcome), ambiguous := false, completedAt := Some(Sec(now)))
  }

  function CompleteAttempt(db: Db, a: AttemptId, j: JobId, w: WorkerId, g: nat, outcome: Outcome, now: nat): Db {
    if MayComplete(db, a, j, w, g)
    then db.(attempts := db.attempts[a := CompletedAttempt(db.attempts[a], outcome, now)])
    else db
  }

  // ---------------------------------------------------------------- failure arbitration

  const BACKOFFS: seq<nat> := [30, 120, 600]

  /** `backoffs[min(count - 1, 2)]`; Python reads index -1 as the last entry. */
  function Backoff(count: nat): nat {
    if count == 0 then 600 else if count <= 3 then BACKOFFS[count - 1] else 600
  }

  /** The transition chosen for a transient pre-submit failure, from the counters read beforehand. */
  function TransientMove(count: nat, maxRetries: int, sample: nat): Move {
    if count < maxRetries
    then Move(RetryWait, true, 0, Some(Sec(sample) + Backoff(count)), false)
    else Live(FailedPermanent)
  }

  function GateMove(delay: nat, sample: nat): Move {
    Move(RetryWait, true, 0, Some(Sec(sample) + delay), true)
  }

  /** What the failure arbiter is told about an error. */
  datatype Category = UncertainSubmit | Interactive(state: JobState) | PermanentFailure | Transient

  /** A transition and, if it won, the completion of the run's attempt with the state reached. */
  function MoveAndComplete(db: Db, j: JobId, w: WorkerId, g: nat, attempt: Option<AttemptId>, m: Move,
                           outcome: Outcome, now: nat): Db {
    var moved := TransitionJob(db, j, w, g, m, now);
    if MayMove(db, j, w, g, m, now)
       && attempt.Some? then CompleteAttempt(moved, attempt.value, j, w, g, outcome, now) else moved
  }

  // ---------------------------------------------------------------- ambiguity

  /** The optional arguments of an ambiguity mark. */
  datatype Mark = Mark(
    worker: Option<WorkerId>,
    gen: Option<nat>,
    live: bool,
    pause: bool,
    attempt: Option<AttemptId>,
    key: EventKey,
    repair: bool)

  /** The three projections of an ambiguous job besides its row. */
  predicate Projected(db: Db, j: JobId, latest: Option<AttemptId>)
    requires j in db.jobs
    requires latest.Some? ==> latest.value in db.attempts
  {
    && (latest.Some? ==> db.attempts[latest.value].completedAt.Some? && db.attempts[latest.value].ambiguous)
    && db.jobs[j].app in db.apps && db.apps[db.jobs[j].app] == AmbiguousApp
    && (exists e | e in db.events :: e.job == Some(j) && RecordsAmbiguity(e))
    && j in db.outbox
  }

  predicate MayMark(db: Db, j: JobId, m: Mark, latest: Option<AttemptId>, now: nat)
    requires latest.Some? ==> latest.value in db.attempts
  {
    j in db.jobs &&
    var row := db.jobs[j];
    if row.state == AmbiguousSubmission then m.repair && !Projected(db, j, latest)
    else
      && (Running(row.state) || Submitting(row.state))
      && (m.worker.Some? ==> row.owner == m.worker)
      && (m.gen.Some? ==> row.gen == m.gen.value)
      && (m.live ==> LeaseBeyond(row, Sec(now)))
  }

  function AmbiguousRow(row: Job): Job {
    if row.state == AmbiguousSubmission then row
    else row.(state := AmbiguousSubmission, owner := None, expires := None, gen := row.gen + 1)
  }

  ghost predicate IsTarget(db: Db, j: JobId, m: Mark, pick: Option<AttemptId>) {
    if m.attempt.Some? && m.attempt.value in db.attempts && db.attempts[m.attempt.value].job == j
    then pick == m.attempt
    else IsLatest(db.attempts, j, OpenOrAmbiguous, pick)
  }

  /** The attempt is closed as ambiguous; projecting a new event also stamps the mark's owner on it. */
  function UncertainAttempt(att: Attempt, m: Mark, stamped: bool, now: nat): Attempt {
    att.(outcome := Some(UncertainOutcome), ambiguous := true,
    completedAt := Coalesce(att.completedAt, Some(Sec(now))),
    worker := if stamped then Coalesce(m.worker, att.worker) else att.worker,
    gen := if stamped then Coalesce(m.gen, att.gen) else att.gen)
  }

  /** Attempt, application, pause flag, outbox and event of a marked job. */
  function ProjectAmbiguity(db: Db, j: JobId, app: AppId, m: Mark, pick: Option<AttemptId>, now: nat): Db
    requires pick.Some? ==> pick.value in db.attempts
  {
    var e := KeyedEvent(Some(j), m.key);
    AddEvent(SetApp(db.(
                    attempts := if pick.Some?
                    then db.attempts[pick.value := UncertainAttempt(db.attempts[pick.value], m, e !in db.events, now)]
                    else db.attempts,
                      ctrl := if m.pause then db.ctrl.(paused := true) else db.ctrl,
                      outbox := db.outbox + {j}), app, AmbiguousApp), e)
  }

  function MarkAmbiguous(db: Db, j: JobId, m: Mark, latest: Option<AttemptId>, pick: Option<AttemptId>, now: nat): Db
    requires latest.Some? ==> latest.value in db.attempts
    requires pick.Some? ==> pick.value in db.attempts
  {
    if !MayMark(db, j, m, latest, now) then db
    else ProjectAmbiguity(db.(jobs := db.jobs[j := AmbiguousRow(db.jobs[j])]), j, db.jobs[j].app, m, pick, now)
  }

  // ---------------------------------------------------------------- operator calls

  predicate CancelledAtOnce(s: JobState) {
    s.Ready? || s.RetryWait? || Parked(s)
  }

  function CancelledRow(row: Job): Job {
    row.(cancelled := true, state := if CancelledAtOnce(row.state) then Cancelled else row.state)
  }

  function CancelJob(db: Db, j: JobId): Db {
    if j !in db.jobs then db
    else AddEvent(SetApp(db.(jobs := db.jobs[j := CancelledRow(db.jobs[j])]), db.jobs[j].app, CancelledApp),
                  Event(Some(j), JobCancelled))
  }

  predicate Skippable(s: JobState) {
    s.Ready? || s.RetryWait? || s.SiteChanged? || Running(s) || Parked(s)
  }

  function SkippedRow(row: Job): Job {
    row.(state := Skipped, cancelled := true, owner := None, expires := None, gen := row.gen + 1)
  }

  function SkipClosed(att: Attempt, now: nat): Attempt {
    att.(outcome := Some(UncertainOutcome), ambiguous := true, completedAt := Some(Sec(now)))
  }

  function CloseAttempt(attempts: map<AttemptId, Attempt>, pick: Option<AttemptId>, now: nat): map<AttemptId, Attempt>
    requires pick.Some? ==> pick.value in attempts
  {
    if pick.Some? then attempts[pick.value := SkipClosed(attempts[pick.value], now)] else attempts
  }

  function SkipJob(db: Db, j: JobId, pick: Option<AttemptId>, now: nat): Db
    requires pick.Some? ==> pick.value in db.attempts
  {
    if j !in db.jobs then db
    else
      var row := db.jobs[j];
      if Submitting(row.state) then
        AddEvent(SetApp(db.(jobs := db.jobs[j := AmbiguousRow(row)],
                        attempts := CloseAttempt(db.attempts, pick, now),
                        ctrl := db.ctrl.(paused := true),
                        outbox := db.outbox + {j}), row.app, AmbiguousApp),
                 KeyedEvent(Some(j), EventKey(OpSkip, Some(row.gen))))
      else if Skippable(row.state) then
        AddEvent(SetApp(db.(jobs := db.jobs[j := SkippedRow(row)]), row.app, SkippedApp), Event(Some(j), JobSkipped))
      else db
  }

  predicate OwnerGate(db: Db, expected: Option<OperatorId>, now: nat) {
    expected.Some? ==> db.ctrl.takeoverOwner == expected && TakeoverLive(db.ctrl, now)
  }

  predicate MayResolve(db: Db, j: JobId, force: bool, expected: Option<OperatorId>, now: nat) {
    && j in db.jobs && OwnerGate(db, expected, now)
    && (Exceptional(db.jobs[j].state) || db.jobs[j].state == Skipped)
    && (db.jobs[j].state == AmbiguousSubmission ==> force)
  }

  function ResolvedRow(row: Job): Job {
    row.(state := Ready, cancelled := false, owner := None, expires := None, gen := row.gen + 1, nextRetry := None)
  }

  function ResolveJob(db: Db, j: JobId, force: bool, expected: Option<OperatorId>, now: nat): Db {
    if !MayResolve(db, j, force, expected, now) then db
    else
      var app := db.jobs[j].app;
      var db1 := db.(jobs := db.jobs[j := ResolvedRow(db.jobs[j])]);
      AddEvent(if app in db.apps && db.apps[app] in {AmbiguousApp, FailedApp, SkippedApp}
               then SetApp(db1, app, Pending) else db1,
               Event(Some(j), JobResolved))
  }

  /** The states in which the tracker's requeue leaves a job alone. */
  predicate RequeueKeeps(s: JobState) {
    s.Ready? || Running(s) || Submitting(s)
  }

  function TrackerRequeueRow(row: Job): Job {
    row.(state := Ready, attemptCount := 0, cancelled := false)
  }

  function TrackerRequeue(db: Db, j: JobId): Db {
    if j in db.jobs then db.(jobs := db.jobs[j := TrackerRequeueRow(db.jobs[j])]) else db
  }

  predicate MayRequeueAuth(db: Db, j: JobId, expected: Option<OperatorId>, now: nat) {
    && OwnerGate(db, expected, now) && j in db.jobs && db.jobs[j].state == AuthRequired
    && db.jobs[j].app in db.apps && !db.ctrl.stopped
  }

  function ReleasedRow(row: Job): Job {
    row.(state := Ready, owner := None, expires := None)
  }

  function Max(a: nat, b: nat): nat {
    if a >= b then a else b
  }

  function OrZero(g: Option<nat>): nat {
    if g.Some? then g.value else 0
  }

  function RequeueAuth(db: Db, j: JobId, expected: Option<OperatorId>, now: nat): Db {
    if !MayRequeueAuth(db, j, expected, now) then db
    else
      var next := db.jobs[j].gen + 1;
      AddEvent(db.(
               jobs := db.jobs[j := ReleasedRow(db.jobs[j]).(nextRetry := None)],
               ctrl := db.ctrl.(paused := false, takeoverOwner := None, takeoverExpires := None,
               browserActive := false, browserClosed := true, browserJob := Some(j), sessionGen := Some(next),
               shutdownGen := Some(Max(Max(OrZero(db.ctrl.shutdownGen), OrZero(db.ctrl.sessionGen)), next)))),
               Event(Some(j), AuthRetryRequested))
  }

  predicate Resumable(s: JobState) {
    Parked(s) || Running(s) || s.RetryWait?
  }

  predicate MayResume(db: Db, j: JobId, w: WorkerId, g: nat, now: nat) {
    Owns(db, j, w, g) && Resumable(db.jobs[j].state) && LeaseBeyond(db.jobs[j], Sec(now))
  }

  function SafeResumeReady(db: Db, j: JobId, w: WorkerId, g: nat, expected: Option<OperatorId>, now: nat): Db {
    if OwnerGate(db, expected, now) && MayResume(db, j, w, g, now)
    then db.(jobs := db.jobs[j := ReleasedRow(db.jobs[j])])
    else db
  }

  // ---------------------------------------------------------------- runtime control

  function SetPause(db: Db, paused: bool, expected: Option<OperatorId>, now: nat): Db {
    if OwnerGate(db, expected, now) then db.(ctrl := db.ctrl.(paused := paused)) else db
  }

  function SetStop(db: Db, stopped: bool): Db {
    db.(ctrl := db.ctrl.(stopped := stopped))
  }

  function ClearStop(db: Db, expected: Option<OperatorId>, now: nat): Db {
    if OwnerGate(db, expected, now) then SetStop(db, false) else db
  }

  function NoTakeover(c: Control): Control {
    c.(takeoverOwner := None, takeoverExpires := None)
  }

  function ClearTakeover(db: Db, expected: Option<OperatorId>, now: nat): Db {
    if OwnerGate(db, expected, now) then db.(ctrl := NoTakeover(db.ctrl)) else db
  }

  predicate LeaseLengthOk(seconds: nat) {
    1 <= seconds <= TAKEOVER_MAX_SECONDS
  }

  /** `sample` is read before the locks are taken. */
  predicate MayClaimTakeover(db: Db, op: OperatorId, sample: nat) {
    db.ctrl.takeoverOwner.Some? && db.ctrl.takeoverExpires.Some? ==>
      db.ctrl.takeoverOwner.value == op || sample >= db.ctrl.takeoverExpires.value * TICKS_PER_SECOND
  }

  function ClaimTakeover(db: Db, op: OperatorId, seconds: nat, sample: nat): Db {
    if !MayClaimTakeover(db, op, sample) then db
    else AddEvent(db.(ctrl := db.ctrl.(paused := true, takeoverOwner := Some(op),
                  takeoverExpires := Some(Sec(sample) + seconds))), Event(None, TakeoverClaimed))
  }

  predicate MayRenewTakeover(db: Db, op: OperatorId, now: nat) {
    db.ctrl.takeoverOwner == Some(op) && TakeoverLive(db.ctrl, now)
  }

  function RenewTakeover(db: Db, op: OperatorId, seconds: nat, now: nat): Db {
    if !MayRenewTakeover(db, op, now) then db
    else AddEvent(db.(ctrl := db.ctrl.(takeoverExpires := Some(Sec(now) + seconds))), Event(None, TakeoverRenewed))
  }

  predicate MayReleaseTakeover(db: Db, op: Option<OperatorId>, force: bool) {
    force || op.None? || db.ctrl.takeoverOwner.None? || db.ctrl.takeoverOwner == op
  }

  function ReleaseTakeover(db: Db, op: Option<OperatorId>, force: bool): Db {
    if !MayReleaseTakeover(db, op, force) then db
    else AddEvent(db.(ctrl := NoTakeover(db.ctrl)), Event(None, TakeoverReleased))
  }

  // ---------------------------------------------------------------- bulk resets

  function CloseBrowser(c: Control): Control {
    c.(browserActive := false, browserClosed := true, browserJob := None,
    shutdownGen := Some(Max(OrZero(c.shutdownGen), OrZero(c.sessionGen)) + 1))
  }

  predicate Clearable(s: JobState) {
    Running(s) || s.AuthRequired? || s.MfaRequired? || s.CaptchaRequired?
  }

  function RevokedRow(row: Job): Job {
    row.(state := Ready, owner := None, expires := None, gen := row.gen + 1)
  }

  function ClearRow(row: Job): Job {
    if Clearable(row.state) && !row.cancelled then RevokedRow(row) else row
  }

  /** The final transaction of clear-state; the uncertain submissions were marked before it. */
  function ClearReset(db: Db): Db {
    db.(ctrl := CloseBrowser(NoTakeover(db.ctrl)).(paused := false, stopped := false),
    jobs := map j | j in db.jobs :: ClearRow(db.jobs[j]))
  }

  function ShutdownState(s: JobState): JobState {
    if Submitting(s) then AmbiguousSubmission
    else if Parked(s) || s == AmbiguousSubmission then s
    else Ready
  }

  function ShutdownRow(row: Job): Job {
    row.(state := ShutdownState(row.state), owner := None, expires := None, gen := row.gen + 1)
  }

  predicate ShutdownTakes(row: Job, w: WorkerId) {
    row.owner == Some(w) && !Terminal(row.state)
  }

  function ShutdownOne(db: Db, j: JobId, pick: Option<AttemptId>, now: nat): Db
    requires j in db.jobs
    requires pick.Some? ==> pick.value in db.attempts
  {
    var row := db.jobs[j];
    var moved := db.(jobs := db.jobs[j := ShutdownRow(row)]);
    var projected :=
      if Submitting(row.state) then
        AddEvent(SetApp(moved.(attempts := CloseAttempt(db.attempts, pick, now), outbox := db.outbox + {j}), row.app,
                        AmbiguousApp),
                 KeyedEvent(Some(j), EventKey(OpShutdown, Some(row.gen))))
      else moved;
    AddEvent(projected, Event(Some(j), ShutdownReconciled))
  }

  // ---------------------------------------------------------------- browser publication

  predicate Publishable(s: JobState) {
    Running(s) || Submitting(s) || Parked(s) || s.AmbiguousSubmission?
  }

  predicate CurrentClaim(db: Db, j: JobId, g: nat, now: nat) {
    && j in db.jobs && db.jobs[j].gen == g && db.jobs[j].owner.Some?
    && LeaseBeyond(db.jobs[j], Sec(now)) && Publishable(db.jobs[j].state)
  }

  datatype Publication = Publication(active: bool, closed: bool, job: Option<JobId>, gen: Option<nat>)

  predicate NamesClaim(db: Db, p: Publication, now: nat) {
    p.active && p.job.Some? && p.gen.Some? && CurrentClaim(db, p.job.value, p.gen.value, now)
  }

  predicate MayPublish(db: Db, p: Publication, now: nat) {
    && (p.active && p.job.Some? && p.gen.Some? ==> NamesClaim(db, p, now))
    && (p.job.Some? && db.ctrl.browserJob.Some? ==>
          && p.job == db.ctrl.browserJob
          && (p.gen.Some? && db.ctrl.sessionGen.Some? ==> p.gen == db.ctrl.sessionGen || NamesClaim(db, p, now)))
  }

  function PublishedField(active: bool, given: Option<nat>, stored: Option<nat>): Option<nat> {
    if active then Coalesce(given, stored)
    else if given.None? || stored == given then None
    else stored
  }

  function SetBrowserState(db: Db, p: Publication, now: nat): Db {
    if !MayPublish(db, p, now) then db
    else db.(ctrl := db.ctrl.(
         browserActive := p.active, browserClosed := p.closed,
         sessionGen := PublishedField(p.active, p.gen, db.ctrl.sessionGen),
         shutdownGen := if NamesClaim(db, p, now) then None else db.ctrl.shutdownGen,
         browserJob := PublishedField(p.active, p.job, db.ctrl.browserJob)))
  }

  function BrowserShutdown(db: Db): Db {
    var next := Max(OrZero(db.ctrl.sessionGen), OrZero(db.ctrl.shutdownGen)) + 1;
    db.(ctrl := db.ctrl.(browserActive := false, browserClosed := true, browserJob := None,
    sessionGen := Some(next), shutdownGen := Some(next)))
  }
}
