/** The rows of the queue database and the clock they are compared with.
    Identifiers are uninterpreted numbers.  The clock counts microseconds; every
    stored timestamp is a whole second, as the "%Y-%m-%d %H:%M:%S" columns are. */
module Rows {

  datatype Option<+T> = None | Some(value: T)

  type JobId = nat
  type AppId = nat
  type AttemptId = nat
  type WorkerId = nat
  type OperatorId = nat

  const TICKS_PER_SECOND: nat := 1_000_000

  /** Truncation performed by strftime. */
  function Sec(t: nat): nat {
    t / TICKS_PER_SECOND
  }

  datatype JobState =
    | Ready | Claimed | Navigating | Filling | Validating | SubmitIntent | Verifying
    | Applied | AuthRequired | MfaRequired | CaptchaRequired | UnknownQuestion | SiteChanged
    | AmbiguousSubmission | RetryWait | Cancelled | FailedPermanent | Skipped

  predicate Running(s: JobState) {
    s.Claimed? || s.Navigating? || s.Filling? || s.Validating?
  }

  predicate Submitting(s: JobState) {
    s.SubmitIntent? || s.Verifying?
  }

  predicate Parked(s: JobState) {
    s.AuthRequired? || s.MfaRequired? || s.CaptchaRequired? || s.UnknownQuestion?
  }

  predicate Terminal(s: JobState) {
    s.Applied? || s.Cancelled? || s.FailedPermanent? || s.Skipped?
  }

  predicate Exceptional(s: JobState) {
    Parked(s) || s.SiteChanged? || s.AmbiguousSubmission?
  }

  /** Where a job may stand once its submission intent is on disk. */
  predicate PostSubmit(s: JobState) {
    Submitting(s) || s.Applied? || s.AmbiguousSubmission? || s.FailedPermanent?
  }

  datatype Job = Job(
    app: AppId,
    state: JobState,
    priority: int,
    createdAt: nat,
    owner: Option<WorkerId>,
    expires: Option<nat>,
    gen: nat,
    attemptCount: nat,
    maxRetries: int,
    nextRetry: Option<nat>,
    cancelled: bool)

  datatype Outcome = Reached(state: JobState) | UncertainOutcome | SafetyGateWait | FillOnly

  datatype Attempt = Attempt(
    job: JobId,
    worker: Option<WorkerId>,
    gen: Option<nat>,
    intentAt: Option<nat>,
    outcome: Option<Outcome>,
    ambiguous: bool,
    createdAt: nat,
    completedAt: Option<nat>)

  datatype AppStatus =
    | Pending | AppliedApp | AmbiguousApp | FailedApp | CancelledApp | SkippedApp | Dismissed | OtherStatus

  datatype Control = Control(
    paused: bool,
    stopped: bool,
    takeoverOwner: Option<OperatorId>,
    takeoverExpires: Option<nat>,
    browserActive: bool,
    browserClosed: bool,
    browserJob: Option<JobId>,
    sessionGen: Option<nat>,
    shutdownGen: Option<nat>)

  datatype EventType =
    | JobEnqueued | JobClaimed | StateTransition | JobSkipped | JobCancelled | JobResolved
    | AuthRetryRequested | TakeoverClaimed | TakeoverRenewed | TakeoverReleased
    | EmergencyStopEngaged | ShutdownReconciled

  datatype Operation =
    | OpIntent | OpPostSubmit | OpCrashRecovery | OpClearState | OpEmergencyStop | OpSkip | OpShutdown | OpRepair

  /** The idempotency key of an event; repair and intent keys carry no generation. */
  datatype EventKey = EventKey(operation: Operation, gen: Option<nat>)

  /** An event under an idempotency key has the type its operation writes. */
  datatype Event = Event(job: Option<JobId>, kind: EventType) | KeyedEvent(job: Option<JobId>, key: EventKey)

  /** The operations that write an event of type ambiguous_submission. */
  predicate RecordsAmbiguity(e: Event) {
    && e.KeyedEvent?
    && (e.key.operation.OpPostSubmit? || e.key.operation.OpCrashRecovery? || e.key.operation.OpShutdown?
        || e.key.operation.OpRepair?)
  }

  /** The tables. `outbox` holds the jobs with a pending ambiguity notification. */
  datatype Db = Db(
    jobs: map<JobId, Job>,
    attempts: map<AttemptId, Attempt>,
    apps: map<AppId, AppStatus>,
    ctrl: Control,
    events: seq<Event>,
    outbox: set<JobId>)
}
