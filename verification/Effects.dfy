/** What the guarded transactions read and write, said on the rows themselves: every guard as the
    columns it compares, every result as the columns it leaves. */
module Effects {
  import opened Rows
  import opened Rules
  import opened Bulk
  import opened Protocol

  // ---------------------------------------------------------------- states and seconds

  lemma StateClasses(s: JobState)
    ensures Running(s) <==> s == Claimed || s == Navigating || s == Filling || s == Validating
    ensures Submitting(s) <==> s == SubmitIntent || s == Verifying
    ensures Parked(s) <==> s == AuthRequired || s == MfaRequired || s == CaptchaRequired || s == UnknownQuestion
    ensures Terminal(s) <==> s == Applied || s == Cancelled || s == FailedPermanent || s == Skipped
    ensures Exceptional(s) <==> Parked(s) || s == SiteChanged || s == AmbiguousSubmission
    ensures CancelledAtOnce(s) <==> s == Ready || s == RetryWait || Parked(s)
    ensures Skippable(s) <==> s == Ready || s == RetryWait || s == SiteChanged || Running(s) || Parked(s)
    ensures RequeueKeeps(s) <==> s == Ready || Running(s) || Submitting(s)
    ensures Resumable(s) <==> Parked(s) || Running(s) || s == RetryWait
    ensures Clearable(s) <==> Running(s) || s == AuthRequired || s == MfaRequired || s == CaptchaRequired
    ensures Publishable(s) <==> Running(s) || Submitting(s) || Parked(s) || s == AmbiguousSubmission
  {
  }

  lemma WholeSeconds(now: nat)
    ensures Sec(now) * 1_000_000 <= now < (Sec(now) + 1) * 1_000_000
  {
  }

  /** The claim of `w` under generation `g` stands, uncancelled. */
  predicate Standing(db: Db, j: JobId, w: WorkerId, g: nat) {
    j in db.jobs && db.jobs[j].owner == Some(w) && db.jobs[j].gen == g && !db.jobs[j].cancelled
  }

  /** Its lease is over no sooner than the second after `second`. */
  predicate LastsPast(row: Job, second: nat) {
    row.expires.Some? && second < row.expires.value
  }

  // ---------------------------------------------------------------- enqueue, claim, renew

  lemma EnqueueEffect(db: Db, j: JobId, app: AppId, priority: int, maxRetries: int, now: nat)
    requires j !in db.jobs
    ensures var t := Rules.EnqueueJob(db, j, app, priority, maxRetries, now);
            var row := Job(app, Ready, priority, Sec(now), None, None, 0, 0, maxRetries, None, false);
            if exists k :: k in db.jobs && db.jobs[k].app == app
                           && !(db.jobs[k].state in {Applied, Cancelled, FailedPermanent, Skipped})
            then t == db
            else t == db.(jobs := db.jobs[j := row], events := db.events + [Event(Some(j), JobEnqueued)])
  {
  }

  /** When a job may be claimed at the sampled time. */
  lemma ClaimGuard(db: Db, j: JobId, sample: nat)
    requires j in db.jobs
    ensures var row := db.jobs[j];
            Eligible(db, j, sample) <==>
            && row.app in db.apps && db.apps[row.app] != Dismissed && !row.cancelled
            && (|| row.state == Ready
                || (row.state == RetryWait && (row.nextRetry.Some? ==> row.nextRetry.value <= Sec(sample)))
                || (row.state in {Claimed, Navigating, Filling, Validating}
                    && row.expires.Some? && row.expires.value <= Sec(sample)))
  {
  }

  lemma ClaimEffect(db: Db, j: JobId, w: WorkerId, sample: nat)
    requires j in db.jobs
    ensures var row := db.jobs[j];
            ClaimJob(db, j, w, sample) == db.(
            jobs := db.jobs[j := row.(state := Claimed, owner := Some(w), expires := Some(Sec(sample) + 60),
            gen := row.gen + 1, attemptCount := row.attemptCount + 1)],
            events := db.events + [Event(Some(j), JobClaimed)])
  {
  }

  lemma RenewEffect(db: Db, j: JobId, w: WorkerId, g: nat, now: nat)
    ensures var t := Rules.RenewLease(db, j, w, g, now);
            if !db.ctrl.stopped && Standing(db, j, w, g) && LastsPast(db.jobs[j], Sec(now))
            then
              && MayRenew(db, j, w, g, now)
              && t == db.(jobs := db.jobs[j := db.jobs[j].(expires := Some(Sec(now) + 60))])
            else !MayRenew(db, j, w, g, now) && t == db
  {
  }

  // ---------------------------------------------------------------- transitions, attempts, intent, fence

  lemma MoveArguments(to: JobState, delay: nat, sample: nat)
    ensures Plain(to) == Move(to, false, 0, None, false) && Live(to) == Move(to, true, 0, None, false)
    ensures INTENT_MOVE == Move(SubmitIntent, true, 20, None, false)
    ensures GateMove(delay, sample) == Move(RetryWait, true, 0, Some(Sec(sample) + delay), true)
  {
  }

  /** The application's status follows three of the states. */
  function Projection(db: Db, app: AppId, to: JobState): map<AppId, AppStatus> {
    if app !in db.apps then db.apps
    else if to == FailedPermanent then db.apps[app := FailedApp]
    else if to == Cancelled then db.apps[app := CancelledApp]
    else if to == AmbiguousSubmission then db.apps[app := AmbiguousApp]
    else db.apps
  }

  lemma MoveEffect(db: Db, j: JobId, w: WorkerId, g: nat, m: Move, now: nat)
    ensures var t := Rules.TransitionJob(db, j, w, g, m, now);
            if Standing(db, j, w, g) && (m.live || m.margin > 0 ==> LastsPast(db.jobs[j], Sec(now) + m.margin))
            then
              var row := db.jobs[j];
              && MayMove(db, j, w, g, m, now)
              && t == db.(
                      jobs := db.jobs[j := row.(state := m.to,
                      nextRetry := if m.retryAt.Some? then m.retryAt else row.nextRetry,
                      attemptCount := if m.handBack && row.attemptCount > 0
                      then row.attemptCount - 1 else row.attemptCount)],
                      apps := Projection(db, row.app, m.to),
                      events := db.events + [Event(Some(j), StateTransition)])
            else !MayMove(db, j, w, g, m, now) && t == db
  {
  }

  lemma AttemptEffect(db: Db, a: AttemptId, j: JobId, w: WorkerId, g: nat, now: nat)
    ensures Rules.CreateAttempt(db, a, j, w, g, now)
         == db.(attempts := db.attempts[a := Attempt(j, Some(w), Some(g), None, None, false, Sec(now), None)])
  {
  }

  /** The attempt was opened for the claim. */
  predicate OpenedFor(db: Db, a: AttemptId, j: JobId, w: WorkerId, g: nat) {
    && a in db.attempts && db.attempts[a].job == j && db.attempts[a].worker == Some(w)
    && db.attempts[a].gen == Some(g)
  }

  lemma IntentEffect(db: Db, a: AttemptId, j: JobId, w: WorkerId, g: nat, now: nat)
    ensures var t := Rules.RecordSubmitIntent(db, a, j, w, g, now);
            if Standing(db, j, w, g) && LastsPast(db.jobs[j], Sec(now) + 20)
               && OpenedFor(db, a, j, w, g) && db.attempts[a].intentAt.None?
            then
              && MayCommitIntent(db, a, j, w, g, now)
              && t.jobs == db.jobs[j := db.jobs[j].(state := SubmitIntent)]
              && t.attempts == db.attempts[a := db.attempts[a].(intentAt := Some(Sec(now)))]
              && t.apps == db.apps && t.ctrl == db.ctrl && t.outbox == db.outbox
            else !MayCommitIntent(db, a, j, w, g, now) && t == db
  {
  }

  lemma FenceGuard(db: Db, a: AttemptId, j: JobId, w: WorkerId, g: nat, now: nat)
    ensures FenceOpens(db, a, j, w, g, now) <==>
            && Standing(db, j, w, g) && db.jobs[j].state == SubmitIntent && LastsPast(db.jobs[j], Sec(now) + 20)
            && OpenedFor(db, a, j, w, g) && db.attempts[a].intentAt.Some?
            && !db.ctrl.paused && !db.ctrl.stopped
            && !(db.ctrl.takeoverOwner.Some? && db.ctrl.takeoverExpires.Some?
                 && db.ctrl.takeoverExpires.value > Sec(now))
  {
  }

  lemma CompleteEffect(db: Db, a: AttemptId, j: JobId, w: WorkerId, g: nat, outcome: Outcome, now: nat)
    ensures var t := Rules.CompleteAttempt(db, a, j, w, g, outcome, now);
            if OpenedFor(db, a, j, w, g) && j in db.jobs && db.jobs[j].owner == Some(w) && db.jobs[j].gen == g
               && db.jobs[j].state != Ready
            then
              && MayComplete(db, a, j, w, g)
              && t == db.(attempts := db.attempts[a := db.attempts[a].(outcome := Some(outcome), ambiguous := false,
                      completedAt := Some(Sec(now)))])
            else !MayComplete(db, a, j, w, g) && t == db
  {
  }

  /** Whether the query reads the attempt: any of the job's, the open ones, or the ambiguous ones too. */
  predicate Reads(att: Attempt, j: JobId, sel: Selection) {
    && att.job == j
    && (sel == AnyRow || att.completedAt.None? || (sel == OpenOrAmbiguous && att.ambiguous))
  }

  /** The newest among the attempts read, or none. */
  lemma LatestChoice(attempts: map<AttemptId, Attempt>, j: JobId, sel: Selection, pick: Option<AttemptId>)
    ensures IsLatest(attempts, j, sel, pick) <==>
            if pick.None? then forall a | a in attempts :: !Reads(attempts[a], j, sel)
            else
              && pick.value in attempts && Reads(attempts[pick.value], j, sel)
              && forall a | a in attempts && Reads(attempts[a], j, sel) ::
                   attempts[pick.value].createdAt >= attempts[a].createdAt
  {
  }

  // ---------------------------------------------------------------- ambiguity

  lemma MarkArguments(r: RunId, run: Run, owner: Option<WorkerId>, g: nat, row: Job)
    ensures DoubtMark(r, run)
         == Mark(Some(run.worker), Some(r.gen), true, true, run.attempt, EventKey(OpPostSubmit, Some(r.gen)), false)
    ensures SweepMark(owner, g) == Mark(owner, Some(g), false, true, None, EventKey(OpCrashRecovery, Some(g)), false)
    ensures ClearMark(owner, g) == Mark(owner, Some(g), false, true, None, EventKey(OpClearState, Some(g)), false)
    ensures StopMark(row)
         == Mark(row.owner, Some(row.gen), false, false, None, EventKey(OpEmergencyStop, Some(row.gen)), false)
    ensures REPAIR_MARK == Mark(None, None, false, true, None, EventKey(OpRepair, None), true)
  {
  }

  /** The four projections are complete. */
  lemma ProjectionsGuard(db: Db, j: JobId, latest: Option<AttemptId>)
    requires j in db.jobs && (latest.Some? ==> latest.value in db.attempts)
    ensures Projected(db, j, latest) <==>
            && (latest.Some? ==> db.attempts[latest.value].completedAt.Some? && db.attempts[latest.value].ambiguous)
            && db.jobs[j].app in db.apps && db.apps[db.jobs[j].app] == AmbiguousApp
            && (exists e | e in db.events ::
                  e.job == Some(j) && e.KeyedEvent?
                  && e.key.operation in {OpPostSubmit, OpCrashRecovery, OpShutdown, OpRepair})
            && j in db.outbox
  {
    forall e | e in db.events
      ensures RecordsAmbiguity(e)
         <==> e.KeyedEvent? && e.key.operation in {OpPostSubmit, OpCrashRecovery, OpShutdown, OpRepair}
    {
    }
  }

  lemma MarkGuard(db: Db, j: JobId, m: Mark, latest: Option<AttemptId>, now: nat)
    requires latest.Some? ==> latest.value in db.attempts
    ensures MayMark(db, j, m, latest, now) <==>
            && j in db.jobs
            && var row := db.jobs[j];
            if row.state == AmbiguousSubmission then m.repair && !Projected(db, j, latest)
            else
              && row.state in {Claimed, Navigating, Filling, Validating, SubmitIntent, Verifying}
              && (m.worker.None? || row.owner == m.worker) && (m.gen.None? || m.gen == Some(row.gen))
              && (!m.live || LastsPast(row, Sec(now)))
  {
  }

  /** A mark that takes effect: the row, the chosen attempt and every projection. */
  lemma MarkEffect(db: Db, j: JobId, m: Mark, latest: Option<AttemptId>, pick: Option<AttemptId>, now: nat)
    requires latest.Some? ==> latest.value in db.attempts
    requires pick.Some? ==> pick.value in db.attempts
    ensures var t := MarkAmbiguous(db, j, m, latest, pick, now);
            if !MayMark(db, j, m, latest, now) then t == db
            else
              var row, e := db.jobs[j], KeyedEvent(Some(j), m.key);
              && t.jobs == (if row.state == AmbiguousSubmission then db.jobs
                            else db.jobs[j := row.(state := AmbiguousSubmission, owner := None, expires := None,
                                 gen := row.gen + 1)])
              && t.apps == (if row.app in db.apps then db.apps[row.app := AmbiguousApp] else db.apps)
              && t.ctrl == db.ctrl.(paused := m.pause || db.ctrl.paused) && t.outbox == db.outbox + {j}
              && t.events == (if e in db.events then db.events else db.events + [e])
              && t.attempts.Keys == db.attempts.Keys
              && (forall a | a in db.attempts && Some(a) != pick :: t.attempts[a] == db.attempts[a])
              && (pick.Some? ==>
                    var att := db.attempts[pick.value];
                    t.attempts[pick.value] == att.(
                    outcome := Some(UncertainOutcome), ambiguous := true,
                    completedAt := if att.completedAt.Some? then att.completedAt else Some(Sec(now)),
                    worker := if e !in db.events && m.worker.Some? then m.worker else att.worker,
                    gen := if e !in db.events && m.gen.Some? then m.gen else att.gen))
  {
  }

  lemma TargetChoice(db: Db, j: JobId, m: Mark, pick: Option<AttemptId>)
    ensures IsTarget(db, j, m, pick) <==>
            if m.attempt.Some? && m.attempt.value in db.attempts && db.attempts[m.attempt.value].job == j
            then pick == m.attempt else IsLatest(db.attempts, j, OpenOrAmbiguous, pick)
  {
  }

  // ---------------------------------------------------------------- failures

  /** The transition of a transient failure: 30, 120, then 600 seconds; a counter of zero reads the last entry. */
  lemma TransientEffect(count: nat, maxRetries: int, sample: nat)
    ensures TransientMove(count, maxRetries, sample) ==
            if count >= maxRetries then Move(FailedPermanent, true, 0, None, false)
            else Move(RetryWait, true, 0,
                      Some(Sec(sample) + (if count == 1 then 30 else if count == 2 then 120 else 600)), false)
  {
  }

  /** A transition, and the run's attempt closed by its winner only. */
  lemma MoveAndCompleteEffect(db: Db, j: JobId, w: WorkerId, g: nat, attempt: Option<AttemptId>, m: Move,
                              outcome: Outcome, now: nat)
    ensures var moved := Rules.TransitionJob(db, j, w, g, m, now);
            MoveAndComplete(db, j, w, g, attempt, m, outcome, now) ==
            if !MayMove(db, j, w, g, m, now) || attempt.None? then moved
            else Rules.CompleteAttempt(moved, attempt.value, j, w, g, outcome, now)
  {
  }

  // ---------------------------------------------------------------- operator calls

  lemma CancelEffect(db: Db, j: JobId)
    ensures var t := Rules.CancelJob(db, j);
            if j !in db.jobs then t == db
            else
              var row := db.jobs[j];
              && t.jobs == db.jobs[j := row.(
                           cancelled := true,
                           state := if row.state in {Ready, RetryWait, UnknownQuestion, AuthRequired, MfaRequired,
                                                                                                      CaptchaRequired}
                           then Cancelled else row.state)]
              && t.apps == (if row.app in db.apps then db.apps[row.app := CancelledApp] else db.apps)
              && t.attempts == db.attempts && t.ctrl == db.ctrl && t.outbox == db.outbox
              && t.events == db.events + [Event(Some(j), JobCancelled)]
  {
  }

  lemma SkipEffect(db: Db, j: JobId, pick: Option<AttemptId>, now: nat)
    requires pick.Some? ==> pick.value in db.attempts
    ensures var t := Rules.SkipJob(db, j, pick, now);
            if j !in db.jobs then t == db
            else
              var row := db.jobs[j];
              if row.state in {SubmitIntent, Verifying} then
                && t.jobs == db.jobs[j := row.(state := AmbiguousSubmission, owner := None, expires := None,
                             gen := row.gen + 1)]
                && t.apps == (if row.app in db.apps then db.apps[row.app := AmbiguousApp] else db.apps)
                && t.attempts == (if pick.None? then db.attempts
                                  else db.attempts[pick.value := db.attempts[pick.value].(
                                       outcome := Some(UncertainOutcome), ambiguous := true,
                                       completedAt := Some(Sec(now)))])
                && t.ctrl == db.ctrl.(paused := true) && t.outbox == db.outbox + {j}
                && KeyedEvent(Some(j), EventKey(OpSkip, Some(row.gen))) in t.events
              else if row.state in {Ready, RetryWait, SiteChanged, Claimed, Navigating, Filling, Validating,
                                    AuthRequired, MfaRequired, CaptchaRequired, UnknownQuestion} then
                && t.jobs == db.jobs[j := row.(state := Skipped, cancelled := true, owner := None, expires := None,
                             gen := row.gen + 1)]
                && t.apps == (if row.app in db.apps then db.apps[row.app := SkippedApp] else db.apps)
                && t.attempts == db.attempts && t.ctrl == db.ctrl && t.outbox == db.outbox
              else t == db
  {
  }

  lemma OwnerGuard(db: Db, expected: Option<OperatorId>, now: nat)
    ensures OwnerGate(db, expected, now) <==>
            expected.None? || (db.ctrl.takeoverOwner == expected && db.ctrl.takeoverExpires.Some?
                               && db.ctrl.takeoverExpires.value > Sec(now))
  {
  }

  /** Who may resolve a job, and what that leaves. */
  lemma ResolveEffect(db: Db, j: JobId, force: bool, expected: Option<OperatorId>, now: nat)
    ensures var t := Rules.ResolveJob(db, j, force, expected, now);
            if j in db.jobs && OwnerGate(db, expected, now)
               && (|| db.jobs[j].state in {AuthRequired, MfaRequired, CaptchaRequired, UnknownQuestion, SiteChanged,
                                           Skipped}
                   || (db.jobs[j].state == AmbiguousSubmission && force))
            then
              var row := db.jobs[j];
              && MayResolve(db, j, force, expected, now)
              && t.jobs == db.jobs[j := row.(state := Ready, cancelled := false, owner := None, expires := None,
                           gen := row.gen + 1, nextRetry := None)]
              && t.apps == (if row.app in db.apps && db.apps[row.app] in {AmbiguousApp, FailedApp, SkippedApp}
                            then db.apps[row.app := Pending] else db.apps)
              && t.attempts == db.attempts && t.ctrl == db.ctrl && t.outbox == db.outbox
            else !MayResolve(db, j, force, expected, now) && t == db
  {
  }

  lemma RequeueEffect(db: Db, j: JobId)
    ensures TrackerRequeue(db, j) ==
            if j !in db.jobs then db
            else db.(jobs := db.jobs[j := db.jobs[j].(state := Ready, attemptCount := 0, cancelled := false)])
  {
  }

  function Greater(a: Option<nat>, b: Option<nat>): nat {
    var x, y := if a.Some? then a.value else 0, if b.Some? then b.value else 0;
    if x < y then y else x
  }

  lemma RequeueAuthEffect(db: Db, j: JobId, expected: Option<OperatorId>, now: nat)
    ensures var t := RequeueAuth(db, j, expected, now);
            if OwnerGate(db, expected, now) && j in db.jobs && db.jobs[j].state == AuthRequired
               && db.jobs[j].app in db.apps && !db.ctrl.stopped
            then
              var row := db.jobs[j];
              var seen := Greater(db.ctrl.shutdownGen, db.ctrl.sessionGen);
              && MayRequeueAuth(db, j, expected, now)
              && t.jobs == db.jobs[j := row.(state := Ready, owner := None, expires := None, nextRetry := None)]
              && t.ctrl == Control(false, false, None, None, false, true, Some(j), Some(row.gen + 1),
                                   Some(Greater(Some(seen), Some(row.gen + 1))))
              && t.attempts == db.attempts && t.apps == db.apps && t.outbox == db.outbox
            else !MayRequeueAuth(db, j, expected, now) && t == db
  {
  }

  lemma ResumeGuard(db: Db, j: JobId, w: WorkerId, g: nat, now: nat)
    ensures MayResume(db, j, w, g, now) <==>
            && j in db.jobs && db.jobs[j].owner == Some(w) && db.jobs[j].gen == g && LastsPast(db.jobs[j], Sec(now))
            && db.jobs[j].state in {AuthRequired, MfaRequired, CaptchaRequired, UnknownQuestion, Claimed, Navigating,
                                    Filling, Validating, RetryWait}
  {
  }

  lemma ResumeEffect(db: Db, j: JobId, w: WorkerId, g: nat, expected: Option<OperatorId>, now: nat)
    ensures SafeResumeReady(db, j, w, g, expected, now) ==
            if OwnerGate(db, expected, now) && MayResume(db, j, w, g, now)
            then db.(jobs := db.jobs[j := db.jobs[j].(state := Ready, owner := None, expires := None)]) else db
  {
  }

  // ---------------------------------------------------------------- runtime control

  lemma SwitchEffects(db: Db, paused: bool, stopped: bool, expected: Option<OperatorId>, now: nat)
    ensures SetPause(db, paused, expected, now)
         == if OwnerGate(db, expected, now) then db.(ctrl := db.ctrl.(paused := paused)) else db
    ensures SetStop(db, stopped) == db.(ctrl := db.ctrl.(stopped := stopped))
    ensures ClearStop(db, expected, now)
         == if OwnerGate(db, expected, now) then db.(ctrl := db.ctrl.(stopped := false)) else db
    ensures ClearTakeover(db, expected, now)
         == if OwnerGate(db, expected, now) then db.(ctrl := db.ctrl.(takeoverOwner := None, takeoverExpires := None))
            else db
  {
  }

  /** Who gets control, and until when. */
  lemma TakeoverEffect(db: Db, op: OperatorId, seconds: nat, sample: nat)
    ensures LeaseLengthOk(seconds) <==> 1 <= seconds <= 300
    ensures var t := ClaimTakeover(db, op, seconds, sample);
            if db.ctrl.takeoverOwner.None? || db.ctrl.takeoverExpires.None? || db.ctrl.takeoverOwner == Some(op)
               || db.ctrl.takeoverExpires.value * 1_000_000 <= sample
            then
              && MayClaimTakeover(db, op, sample)
              && t == db.(ctrl := db.ctrl.(paused := true, takeoverOwner := Some(op),
                      takeoverExpires := Some(Sec(sample) + seconds)),
                      events := db.events + [Event(None, TakeoverClaimed)])
            else !MayClaimTakeover(db, op, sample) && t == db
  {
  }

  lemma RenewTakeoverEffect(db: Db, op: OperatorId, seconds: nat, now: nat)
    ensures var t := RenewTakeover(db, op, seconds, now);
            if db.ctrl.takeoverOwner == Some(op) && db.ctrl.takeoverExpires.Some?
               && db.ctrl.takeoverExpires.value > Sec(now)
            then
              && MayRenewTakeover(db, op, now)
              && t == db.(ctrl := db.ctrl.(takeoverExpires := Some(Sec(now) + seconds)),
                      events := db.events + [Event(None, TakeoverRenewed)])
            else !MayRenewTakeover(db, op, now) && t == db
  {
  }

  lemma ReleaseEffect(db: Db, op: Option<OperatorId>, force: bool)
    ensures var t := ReleaseTakeover(db, op, force);
            if !force && op.Some? && db.ctrl.takeoverOwner.Some? && db.ctrl.takeoverOwner != op
            then !MayReleaseTakeover(db, op, force) && t == db
            else
              && MayReleaseTakeover(db, op, force)
              && t == db.(ctrl := db.ctrl.(takeoverOwner := None, takeoverExpires := None),
                      events := db.events + [Event(None, TakeoverReleased)])
  {
  }

  // ---------------------------------------------------------------- bulk resets

  /** The browser record after a reset: closed, without a job, past every generation seen. */
  lemma BrowserEffects(db: Db)
    ensures CloseBrowser(db.ctrl) == db.ctrl.(
                                     browserActive := false, browserClosed := true, browserJob := None,
                                     shutdownGen := Some(Greater(db.ctrl.shutdownGen, db.ctrl.sessionGen) + 1))
    ensures var next := Greater(db.ctrl.sessionGen, db.ctrl.shutdownGen) + 1;
            BrowserShutdown(db) == db.(ctrl := db.ctrl.(browserActive := false, browserClosed := true,
            browserJob := None, sessionGen := Some(next),
            shutdownGen := Some(next)))
  {
  }

  lemma ClearEffect(db: Db)
    ensures var t := ClearReset(db);
            && t.jobs.Keys == db.jobs.Keys && t.attempts == db.attempts && t.apps == db.apps && t.outbox == db.outbox
            && t.ctrl == CloseBrowser(db.ctrl).(paused := false, stopped := false, takeoverOwner := None,
                         takeoverExpires := None)
            && forall j | j in db.jobs ::
                 var row := db.jobs[j];
                 t.jobs[j] ==
                 if !row.cancelled && row.state in {Claimed, Navigating, Filling, Validating, AuthRequired, MfaRequired,
                                                    CaptchaRequired}
                 then row.(state := Ready, owner := None, expires := None, gen := row.gen + 1) else row
  {
  }

  /** The stop's last write: running jobs lose their claims, the runtime is halted and without takeover. */
  lemma EngageEffect(db: Db)
    ensures var t := Engage(db);
            && t.jobs.Keys == db.jobs.Keys && t.attempts == db.attempts && t.apps == db.apps && t.outbox == db.outbox
            && t.ctrl == CloseBrowser(db.ctrl).(paused := true, stopped := true, takeoverOwner := None,
                         takeoverExpires := None)
            && forall j | j in db.jobs ::
                 var row := db.jobs[j];
                 t.jobs[j] == if row.state in {Claimed, Navigating, Filling, Validating}
                 then row.(state := Ready, owner := None, expires := None, gen := row.gen + 1) else row
  {
  }

  lemma ShutdownEffect(db: Db, j: JobId, pick: Option<AttemptId>, now: nat, w: WorkerId)
    requires j in db.jobs && (pick.Some? ==> pick.value in db.attempts)
    ensures ShutdownTakes(db.jobs[j], w) <==>
            db.jobs[j].owner == Some(w) && !(db.jobs[j].state in {Applied, Cancelled, FailedPermanent, Skipped})
    ensures var t, row := ShutdownOne(db, j, pick, now), db.jobs[j];
            && t.jobs == db.jobs[j := row.(
                         state := if row.state in {SubmitIntent, Verifying} then AmbiguousSubmission
                         else if row.state in {AuthRequired, MfaRequired, CaptchaRequired, UnknownQuestion,
                                               AmbiguousSubmission}
                         then row.state else Ready,
                         owner := None, expires := None, gen := row.gen + 1)]
            && t.ctrl == db.ctrl
            && (if row.state in {SubmitIntent, Verifying} then
                  && t.outbox == db.outbox + {j}
                  && t.apps == (if row.app in db.apps then db.apps[row.app := AmbiguousApp] else db.apps)
                  && t.attempts == (if pick.None? then db.attempts
                                    else db.attempts[pick.value := db.attempts[pick.value].(
                                         outcome := Some(UncertainOutcome), ambiguous := true,
                                         completedAt := Some(Sec(now)))])
                else t.outbox == db.outbox && t.apps == db.apps && t.attempts == db.attempts)
  {
  }

  /** A stranded job: submitting, and its lease over or missing. */
  lemma StrandedGuard(row: Job, now: nat)
    ensures Stranded(row, now) <==> row.state in {SubmitIntent, Verifying} && !LastsPast(row, Sec(now))
  {
  }

  // ---------------------------------------------------------------- browser publication

  /** The publication names a job and its live claim. */
  predicate Names(db: Db, p: Publication, now: nat) {
    && p.active && p.job.Some? && p.gen.Some? && p.job.value in db.jobs
    && var row := db.jobs[p.job.value];
    && row.gen == p.gen.value && row.owner.Some? && LastsPast(row, Sec(now))
    && row.state in {Claimed, Navigating, Filling, Validating, SubmitIntent, Verifying, AuthRequired, MfaRequired,
                     CaptchaRequired, UnknownQuestion, AmbiguousSubmission}
  }

  lemma PublicationEffect(db: Db, p: Publication, now: nat)
    ensures var t, c := SetBrowserState(db, p, now), db.ctrl;
            if (p.active && p.job.Some? && p.gen.Some? && !Names(db, p, now))
               || (p.job.Some? && c.browserJob.Some? && p.job != c.browserJob)
               || (p.job.Some? && c.browserJob.Some? && p.gen.Some? && c.sessionGen.Some? && p.gen != c.sessionGen
                   && !Names(db, p, now))
            then t == db
            else t == db.(ctrl := c.(
                      browserActive := p.active, browserClosed := p.closed,
                      sessionGen := if p.active then (if p.gen.Some? then p.gen else c.sessionGen)
                      else if p.gen.None? || p.gen == c.sessionGen then None else c.sessionGen,
                      browserJob := if p.active then (if p.job.Some? then p.job else c.browserJob)
                      else if p.job.None? || p.job == c.browserJob then None else c.browserJob,
                      shutdownGen := if Names(db, p, now) then None else c.shutdownGen))
  {
  }
}
