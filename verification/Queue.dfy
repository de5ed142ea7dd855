/** The queue as the program runs it: tables updated in place by guarded statements inside
    locked transactions.  Each method is proved against its rule. */
module Queue {
  import opened Rows
  import opened Rules

  /** The claim of `w` under generation `g` stands and its lease is live. */
  predicate OwnsLive(db: Db, j: JobId, w: WorkerId, g: nat, now: nat) {
    && j in db.jobs && db.jobs[j].owner == Some(w) && db.jobs[j].gen == g
    && db.jobs[j].expires.Some? && db.jobs[j].expires.value > Sec(now)
  }

  /** The answer `reached` and the tables after a failure that moves the job to `to`: the claim has to
      stand, live and uncancelled, or nothing happens; the winner closes its attempt with that state. */
  predicate MovedTo(before: Db, after: Db, reached: Option<JobState>, j: JobId, w: WorkerId, g: nat,
                    attempt: Option<AttemptId>, to: JobState, retryAt: Option<nat>, now: nat)
  {
    && reached == (if OwnsLive(before, j, w, g, now) && !before.jobs[j].cancelled then Some(to) else None)
    && after == MoveAndComplete(before, j, w, g, attempt, Move(to, true, 0, retryAt, false), Reached(to), now)
    && (reached.None? ==> after == before)
    && (reached.Some? ==> j in after.jobs && after.jobs[j].state == to
                          && (retryAt.Some? ==> after.jobs[j].nextRetry == retryAt))
  }

  /** The same for a failure that leaves the job uncertain. */
  ghost predicate MarkedUncertain(before: Db, after: Db, reached: Option<JobState>, j: JobId, w: WorkerId, g: nat,
                                  attempt: Option<AttemptId>, pick: Option<AttemptId>, now: nat)
  {
    var mark := Mark(Some(w), Some(g), true, true, attempt, EventKey(OpPostSubmit, Some(g)), false);
    && IsTarget(before, j, mark, pick)
    && reached == (if OwnsLive(before, j, w, g, now)
                      && (Running(before.jobs[j].state) || Submitting(before.jobs[j].state))
                   then Some(AmbiguousSubmission) else None)
    && after == MarkAmbiguous(before, j, mark, None, pick, now)
    && (reached.None? ==> after == before)
    && (reached.Some? ==> j in after.jobs && after.jobs[j].state == AmbiguousSubmission)
  }

  lemma MarkedRow(db: Db, j: JobId, m: Mark, latest: Option<AttemptId>, pick: Option<AttemptId>, now: nat)
    requires latest.Some? ==> latest.value in db.attempts
    requires pick.Some? ==> pick.value in db.attempts
    requires MayMark(db, j, m, latest, now)
    ensures MarkAmbiguous(db, j, m, latest, pick, now).jobs == db.jobs[j := AmbiguousRow(db.jobs[j])]
  {
  }

  class Database {
    var jobs: map<JobId, Job>
    var attempts: map<AttemptId, Attempt>
    var apps: map<AppId, AppStatus>
    var ctrl: Control
    var events: seq<Event>
    var outbox: set<JobId>

    function Snapshot(): Db
      reads this
    {
      Db(jobs, attempts, apps, ctrl, events, outbox)
    }

    constructor (db: Db)
      ensures Snapshot() == db
    {
      jobs, attempts, apps, ctrl, events, outbox := db.jobs, db.attempts, db.apps, db.ctrl, db.events, db.outbox;
    }

    /** Puts back what the transaction began with. */
    method Rollback(db: Db)
      modifies this
      ensures Snapshot() == db
    {
      jobs, attempts, apps, ctrl, events, outbox := db.jobs, db.attempts, db.apps, db.ctrl, db.events, db.outbox;
    }

    method RecordEvent(e: Event)
      modifies this`events
      ensures Snapshot() == AddEvent(old(Snapshot()), e)
    {
      if !(e.KeyedEvent? && e in events) {
        events := events + [e];
      }
    }

    method SetStatus(app: AppId, status: AppStatus)
      modifies this`apps
      ensures Snapshot() == SetApp(old(Snapshot()), app, status)
    {
      if app in apps {
        apps := apps[app := status];
      }
    }

    /** The newest attempt of a job among those selected. */
    method LatestAttempt(j: JobId, sel: Selection) returns (pick: Option<AttemptId>)
      ensures IsLatest(attempts, j, sel, pick)
    {
      pick := None;
      var todo := attempts.Keys;
      while todo != {}
        invariant todo <= attempts.Keys
        invariant pick.Some? ==> pick.value in attempts && Selected(attempts[pick.value], j, sel)
        invariant forall a | a in attempts.Keys - todo && Selected(attempts[a], j, sel) ::
                    pick.Some? && attempts[a].createdAt <= attempts[pick.value].createdAt
        decreases |todo|
      {
        var a :| a in todo;
        todo := todo - {a};
        if Selected(attempts[a], j, sel) && (pick.None? || attempts[pick.value].createdAt < attempts[a].createdAt) {
          pick := Some(a);
        }
      }
    }

    // -------------------------------------------------------------- enqueue, claim, renew

    method FindActiveJob(app: AppId) returns (found: Option<JobId>)
      ensures found.Some? <==> HasActiveJob(Snapshot(), app)
      ensures found.Some? ==> found.value in jobs && jobs[found.value].app == app && !Terminal(jobs[found.value].state)
    {
      found := None;
      var todo := jobs.Keys;
      while todo != {}
        invariant todo <= jobs.Keys
        invariant found.Some? ==> found.value in jobs && jobs[found.value].app == app
                                  && !Terminal(jobs[found.value].state)
        invariant found.None? ==> forall k | k in jobs.Keys - todo :: jobs[k].app != app || Terminal(jobs[k].state)
        decreases |todo|
      {
        var k :| k in todo;
        todo := todo - {k};
        if jobs[k].app == app && !Terminal(jobs[k].state) {
          found := Some(k);
        }
      }
    }

    /** The existing unfinished job of the application, or a new one under the fresh id. */
    method EnqueueJob(newId: JobId, app: AppId, priority: int, maxRetries: int, now: nat) returns (job: JobId)
      requires newId !in jobs
      modifies this
      ensures Snapshot() == Rules.EnqueueJob(old(Snapshot()), newId, app, priority, maxRetries, now)
      ensures job in jobs && jobs[job].app == app && !Terminal(jobs[job].state)
    {
      var existing := FindActiveJob(app);
      if existing.Some? {
        return existing.value;
      }
      jobs := jobs[newId := NewJob(app, priority, maxRetries, now)];
      RecordEvent(Event(Some(newId), JobEnqueued));
      return newId;
    }

    /** The first eligible job in claim order, if any. */
    method SelectEligible(sample: nat) returns (best: Option<JobId>)
      ensures best.None? ==> forall k | k in jobs :: !Eligible(Snapshot(), k, sample)
      ensures best.Some? ==> Best(Snapshot(), best.value, sample)
    {
      best := None;
      var todo := jobs.Keys;
      while todo != {}
        invariant todo <= jobs.Keys
        invariant best.Some? ==> best.value in jobs && Eligible(Snapshot(), best.value, sample)
        invariant forall k | k in jobs.Keys - todo && Eligible(Snapshot(), k, sample) ::
                    best.Some? && Precedes(jobs[best.value], jobs[k])
        decreases |todo|
      {
        var k :| k in todo;
        todo := todo - {k};
        if Eligible(Snapshot(), k, sample) && (best.None? || !Precedes(jobs[best.value], jobs[k])) {
          best := Some(k);
        }
      }
    }

    /** The WHERE clause of the claim: an uncancelled job of an application that is there and not
        dismissed, ready, or waiting with its time reached, or running with its lease over. */
    ghost predicate MayClaim(j: JobId, sample: nat)
      requires j in jobs
      reads this
    {
      var row := jobs[j];
      && !row.cancelled && row.app in apps && apps[row.app] != Dismissed
      && (|| row.state == Ready
          || (row.state == RetryWait && (row.nextRetry.None? || row.nextRetry.value <= Sec(sample)))
          || (row.state in {Claimed, Navigating, Filling, Validating}
              && row.expires.Some? && row.expires.value <= Sec(sample)))
    }

    /** Claims a job that no eligible job precedes.  None exactly when the runtime is paused or
        stopped or nothing is eligible, and then nothing changes. */
    method ClaimNextJob(w: WorkerId, sample: nat) returns (claimed: Option<JobId>)
      modifies this
      ensures claimed.None? <==> Halted(old(Snapshot()))
                                 || forall k | k in old(jobs) :: !Eligible(old(Snapshot()), k, sample)
      ensures claimed.None? ==> Snapshot() == old(Snapshot())
      ensures claimed.Some? ==>
                && Best(old(Snapshot()), claimed.value, sample)
                && Snapshot() == ClaimJob(old(Snapshot()), claimed.value, w, sample)
      ensures claimed.None? <==> old(ctrl.paused) || old(ctrl.stopped)
                                 || forall k | k in old(jobs) :: !old(MayClaim(k, sample))
      ensures claimed.Some? ==>
                && claimed.value in old(jobs) && old(MayClaim(claimed.value, sample))
                && (forall k | k in old(jobs) && k != claimed.value && old(MayClaim(k, sample)) ::
                      || old(jobs)[k].priority < old(jobs)[claimed.value].priority
                      || (old(jobs)[k].priority == old(jobs)[claimed.value].priority
                          && old(jobs)[k].createdAt >= old(jobs)[claimed.value].createdAt))
                && jobs == old(jobs)[claimed.value := old(jobs)[claimed.value].(
                           state := Claimed, owner := Some(w), expires := Some(Sec(sample) + 60),
                           gen := old(jobs)[claimed.value].gen + 1,
                           attemptCount := old(jobs)[claimed.value].attemptCount + 1)]
    {
      if ctrl.paused || ctrl.stopped {
        return None;
      }
      claimed := SelectEligible(sample);
      if claimed.None? {
        return;
      }
      var j := claimed.value;
      var row := jobs[j];
      var newGen, newAttempt := row.gen + 1, row.attemptCount + 1;
      jobs := jobs[j := row.(state := Claimed, owner := Some(w), expires := Some(Sec(sample) + LEASE_SECONDS),
      gen := newGen, attemptCount := newAttempt)];
      RecordEvent(Event(Some(j), JobClaimed));
    }

    method RenewLease(j: JobId, w: WorkerId, g: nat, now: nat) returns (renewed: bool)
      modifies this`jobs
      ensures renewed == MayRenew(old(Snapshot()), j, w, g, now)
      ensures Snapshot() == Rules.RenewLease(old(Snapshot()), j, w, g, now)
    {
      if ctrl.stopped || j !in jobs {
        return false;
      }
      var row := jobs[j];
      if row.owner != Some(w) || row.gen != g || row.cancelled || row.expires.None? || row.expires.value <= Sec(now) {
        return false;
      }
      jobs := jobs[j := row.(expires := Some(Sec(now) + LEASE_SECONDS))];
      return true;
    }

    // -------------------------------------------------------------- transitions, attempts, intent, fence

    /** The WHERE clause of a transition. */
    method TransitionGuard(j: JobId, w: WorkerId, g: nat, m: Move, now: nat) returns (ok: bool)
      ensures ok == MayMove(Snapshot(), j, w, g, m, now)
    {
      if j !in jobs {
        return false;
      }
      var row := jobs[j];
      if row.owner != Some(w) || row.gen != g || row.cancelled {
        return false;
      }
      if m.live || m.margin > 0 {
        var cutoff := Sec(now) + m.margin;
        return row.expires.Some? && row.expires.value > cutoff;
      }
      return true;
    }

    method ProjectStatus(app: AppId, to: JobState)
      modifies this`apps
      ensures Snapshot() == ProjectApp(old(Snapshot()), app, to)
    {
      match to {
        case FailedPermanent => SetStatus(app, FailedApp);
        case Cancelled => SetStatus(app, CancelledApp);
        case AmbiguousSubmission => SetStatus(app, AmbiguousApp);
        case _ =>
      }
    }

    method TransitionJob(j: JobId, w: WorkerId, g: nat, m: Move, now: nat) returns (moved: bool)
      modifies this
      ensures moved == MayMove(old(Snapshot()), j, w, g, m, now)
      ensures Snapshot() == Rules.TransitionJob(old(Snapshot()), j, w, g, m, now)
    {
      moved := TransitionGuard(j, w, g, m, now);
      if !moved {
        return;
      }
      var row := jobs[j].(state := m.to);
      if m.retryAt.Some? {
        row := row.(nextRetry := m.retryAt);
      }
      if m.handBack && row.attemptCount > 0 {
        row := row.(attemptCount := row.attemptCount - 1);
      }
      jobs := jobs[j := row];
      ProjectStatus(row.app, m.to);
      RecordEvent(Event(Some(j), StateTransition));
    }

    method CreateAttempt(a: AttemptId, j: JobId, w: WorkerId, g: nat, now: nat)
      requires a !in attempts
      modifies this`attempts
      ensures Snapshot() == Rules.CreateAttempt(old(Snapshot()), a, j, w, g, now)
    {
      attempts := attempts[a := Attempt(j, Some(w), Some(g), None, None, false, Sec(now), None)];
    }

    /** The job's transition and the attempt's marker are written together or not at all. */
    method RecordSubmitIntent(a: AttemptId, j: JobId, w: WorkerId, g: nat, now: nat) returns (persisted: bool)
      modifies this
      ensures persisted == MayCommitIntent(old(Snapshot()), a, j, w, g, now)
      ensures Snapshot() == Rules.RecordSubmitIntent(old(Snapshot()), a, j, w, g, now)
    {
      var before := Snapshot();
      var moved := TransitionJob(j, w, g, INTENT_MOVE, now);
      if !moved {
        return false;
      }
      if a !in attempts || attempts[a].job != j || attempts[a].worker != Some(w) || attempts[a].gen != Some(g)
         || attempts[a].intentAt.Some? {
        Rollback(before);
        return false;
      }
      attempts := attempts[a := attempts[a].(intentAt := Some(Sec(now)))];
      RecordEvent(KeyedEvent(Some(j), EventKey(OpIntent, None)));
      return true;
    }

    /** The validation under which the click fence is handed out; it writes nothing. */
    method BeginSubmitClickFence(a: AttemptId, j: JobId, w: WorkerId, g: nat, now: nat) returns (open: bool)
      ensures open == FenceOpens(Snapshot(), a, j, w, g, now)
    {
      if j !in jobs {
        return false;
      }
      var row := jobs[j];
      var cutoff := Sec(now) + SUBMIT_MARGIN;
      var intent := None;
      if a in attempts && attempts[a].job == j && attempts[a].worker == Some(w) && attempts[a].gen == Some(g) {
        intent := attempts[a].intentAt;
      }
      var takeoverActive := ctrl.takeoverOwner.Some? && ctrl.takeoverExpires.Some?
                            && ctrl.takeoverExpires.value > Sec(now);
      open := !(row.state != SubmitIntent || row.owner != Some(w) || row.gen != g || row.cancelled
                || row.expires.None? || row.expires.value <= cutoff || ctrl.paused || ctrl.stopped
                || takeoverActive || intent.None?);
    }

    method CompleteAttempt(a: AttemptId, j: JobId, w: WorkerId, g: nat, outcome: Outcome, now: nat) returns (done: bool)
      modifies this`attempts
      ensures done == MayComplete(old(Snapshot()), a, j, w, g)
      ensures Snapshot() == Rules.CompleteAttempt(old(Snapshot()), a, j, w, g, outcome, now)
    {
      done := a in attempts && attempts[a].job == j && attempts[a].worker == Some(w) && attempts[a].gen == Some(g)
              && j in jobs && jobs[j].gen == g && jobs[j].owner == Some(w) && jobs[j].state != Ready;
      if done {
        attempts := attempts[a := attempts[a].(outcome := Some(outcome), ambiguous := false,
        completedAt := Some(Sec(now)))];
      }
    }

    // -------------------------------------------------------------- ambiguity

    /** Whether a job already ambiguous has all its projections. */
    method ProjectionsComplete(j: JobId, latest: Option<AttemptId>) returns (complete: bool)
      requires j in jobs && (latest.Some? ==> latest.value in attempts)
      ensures complete == Projected(Snapshot(), j, latest)
    {
      var attemptOk := latest.None? || (attempts[latest.value].completedAt.Some? && attempts[latest.value].ambiguous);
      var app := jobs[j].app;
      var eventExists := false;
      for i := 0 to |events|
        invariant eventExists <==> exists e | e in events[..i] :: e.job == Some(j) && RecordsAmbiguity(e)
      {
        assert events[..i + 1] == events[..i] + [events[i]];
        if events[i].job == Some(j) && RecordsAmbiguity(events[i]) {
          eventExists := true;
        }
      }
      assert events[..|events|] == events;
      complete := attemptOk && app in apps && apps[app] == AmbiguousApp && eventExists && j in outbox;
    }

    /** Whether a mark applies to the job as it stands. */
    method AmbiguityGuard(j: JobId, m: Mark, latest: Option<AttemptId>, now: nat) returns (ok: bool)
      requires latest.Some? ==> latest.value in attempts
      ensures ok == MayMark(Snapshot(), j, m, latest, now)
    {
      if j !in jobs {
        return false;
      }
      var row := jobs[j];
      if row.state == AmbiguousSubmission {
        if !m.repair {
          return false;
        }
        var complete := ProjectionsComplete(j, latest);
        return !complete;
      }
      if !Running(row.state) && !Submitting(row.state) {
        return false;
      }
      return !((m.worker.Some? && row.owner != m.worker) || (m.gen.Some? && row.gen != m.gen.value)
               || (m.live && (row.expires.None? || row.expires.value <= Sec(now))));
    }

    method MarkJobAmbiguous(j: JobId, m: Mark, now: nat)
      returns (marked: bool, latest: Option<AttemptId>, pick: Option<AttemptId>)
      modifies this
      ensures IsLatest(old(attempts), j, AnyRow, latest) && IsTarget(old(Snapshot()), j, m, pick)
      ensures marked == MayMark(old(Snapshot()), j, m, latest, now)
      ensures Snapshot() == MarkAmbiguous(old(Snapshot()), j, m, latest, pick, now)
    {
      latest := LatestAttempt(j, AnyRow);
      if m.attempt.Some? && m.attempt.value in attempts && attempts[m.attempt.value].job == j {
        pick := m.attempt;
      } else {
        pick := LatestAttempt(j, OpenOrAmbiguous);
      }
      marked := AmbiguityGuard(j, m, latest, now);
      if !marked {
        return;
      }
      hide Rules.ProjectAmbiguity, IsTarget, MayMark;
      var row := jobs[j];
      if row.state != AmbiguousSubmission {
        jobs := jobs[j := row.(state := AmbiguousSubmission, owner := None, expires := None, gen := row.gen + 1)];
      }
      assert jobs == old(jobs)[j := AmbiguousRow(row)];
      ProjectAmbiguity(j, row.app, m, pick, now);
    }

    /** Attempt, application, pause flag, event and outbox of a marked job. */
    method ProjectAmbiguity(j: JobId, app: AppId, m: Mark, pick: Option<AttemptId>, now: nat)
      requires pick.Some? ==> pick.value in attempts
      modifies this
      ensures Snapshot() == Rules.ProjectAmbiguity(old(Snapshot()), j, app, m, pick, now)
    {
      var e := KeyedEvent(Some(j), m.key);
      if pick.Some? {
        attempts := attempts[pick.value := UncertainAttempt(attempts[pick.value], m, e !in events, now)];
      }
      SetStatus(app, AmbiguousApp);
      if m.pause {
        ctrl := ctrl.(paused := true);
      }
      RecordEvent(e);
      outbox := outbox + {j};
    }

    // -------------------------------------------------------------- failures and reschedules

    method MoveAndRecord(j: JobId, w: WorkerId, g: nat, attempt: Option<AttemptId>, m: Move, outcome: Outcome, now: nat)
      returns (moved: bool)
      modifies this
      ensures moved == MayMove(old(Snapshot()), j, w, g, m, now)
      ensures Snapshot() == MoveAndComplete(old(Snapshot()), j, w, g, attempt, m, outcome, now)
      ensures moved ==> j in jobs && jobs[j].state == m.to && (m.retryAt.Some? ==> jobs[j].nextRetry == m.retryAt)
      ensures !moved ==> Snapshot() == old(Snapshot())
    {
      moved := TransitionJob(j, w, g, m, now);
      if moved && attempt.Some? {
        var done := CompleteAttempt(attempt.value, j, w, g, outcome, now);
      }
    }

    /** Moves the job while its lease is live, and answers where it got. */
    method MoveLive(j: JobId, w: WorkerId, g: nat, attempt: Option<AttemptId>, to: JobState, retryAt: Option<nat>,
                    now: nat)
      returns (reached: Option<JobState>)
      modifies this
      ensures MovedTo(old(Snapshot()), Snapshot(), reached, j, w, g, attempt, to, retryAt, now)
    {
      hide MoveAndComplete;
      var moved := MoveAndRecord(j, w, g, attempt, Move(to, true, 0, retryAt, false), Reached(to), now);
      return if moved then Some(to) else None;
    }

    /** Marks the job uncertain while its lease is live. */
    method MarkUncertain(j: JobId, w: WorkerId, g: nat, attempt: Option<AttemptId>, now: nat)
      returns (reached: Option<JobState>, pick: Option<AttemptId>)
      modifies this
      ensures MarkedUncertain(old(Snapshot()), Snapshot(), reached, j, w, g, attempt, pick, now)
    {
      hide Rules.ProjectAmbiguity;
      var mark := Mark(Some(w), Some(g), true, true, attempt, EventKey(OpPostSubmit, Some(g)), false);
      ghost var latest;
      var marked;
      marked, latest, pick := MarkJobAmbiguous(j, mark, now);
      assert marked ==> jobs == old(jobs)[j := AmbiguousRow(old(jobs)[j])] by {
        if marked { MarkedRow(old(Snapshot()), j, mark, latest, pick, now); }
      }
      return if marked then Some(AmbiguousSubmission) else None, pick;
    }

    /** The failure arbiter.  After the submission boundary nothing is ever retried: the job ends
        rejected or ambiguous.  Before it, the category and the counters decide. */
    method HandleJobFailure(j: JobId, w: WorkerId, g: nat, attempt: Option<AttemptId>, preSubmit: bool,
                            category: Category, failedAt: nat, now: nat)
      returns (reached: Option<JobState>, pick: Option<AttemptId>)
      modifies this
      ensures reached.Some? ==> j in jobs && jobs[j].state == reached.value
      ensures reached.None? ==> Snapshot() == old(Snapshot())
      ensures !preSubmit && category.UncertainSubmit? ==>
                MarkedUncertain(old(Snapshot()), Snapshot(), reached, j, w, g, attempt, pick, now)
      ensures !preSubmit && !category.UncertainSubmit? ==>
                MovedTo(old(Snapshot()), Snapshot(), reached, j, w, g, attempt, FailedPermanent, None, now)
      ensures preSubmit && category.UncertainSubmit? ==>
                MovedTo(old(Snapshot()), Snapshot(), reached, j, w, g, attempt, AmbiguousSubmission, None, now)
      ensures preSubmit && category.Interactive? ==>
                MovedTo(old(Snapshot()), Snapshot(), reached, j, w, g, attempt, category.state, None, now)
      ensures preSubmit && category.PermanentFailure? ==>
                MovedTo(old(Snapshot()), Snapshot(), reached, j, w, g, attempt, FailedPermanent, None, now)
      ensures preSubmit && category.Transient? && j !in old(jobs) ==> reached.None?
      ensures preSubmit && category.Transient? && j in old(jobs) ==>
                var count := old(jobs)[j].attemptCount;
                var delay := if count == 1 then 30 else if count == 2 then 120 else 600;
                if count < old(jobs)[j].maxRetries
                then MovedTo(old(Snapshot()), Snapshot(), reached, j, w, g, attempt, RetryWait,
                             Some(Sec(failedAt) + delay), now)
                else MovedTo(old(Snapshot()), Snapshot(), reached, j, w, g, attempt, FailedPermanent, None, now)
    {
      hide MoveAndComplete, MarkAmbiguous;
      pick := None;
      if !preSubmit {
        if category.UncertainSubmit? {
          reached, pick := MarkUncertain(j, w, g, attempt, now);
        } else {
          reached := MoveLive(j, w, g, attempt, FailedPermanent, None, now);
        }
        return;
      }
      match category {
        case UncertainSubmit => reached := MoveLive(j, w, g, attempt, AmbiguousSubmission, None, now);
        case Interactive(state) => reached := MoveLive(j, w, g, attempt, state, None, now);
        case PermanentFailure => reached := MoveLive(j, w, g, attempt, FailedPermanent, None, now);
        case Transient =>
          var count, most := 1, 3;
          if j in jobs {
            count, most := jobs[j].attemptCount, jobs[j].maxRetries;
          }
          if count < most {
            reached := MoveLive(j, w, g, attempt, RetryWait, Some(Sec(failedAt) + Backoff(count)), now);
          } else {
            reached := MoveLive(j, w, g, attempt, FailedPermanent, None, now);
          }
      }
    }

    method RescheduleForSafetyGate(j: JobId, w: WorkerId, g: nat, attempt: Option<AttemptId>, delay: nat,
                                   handedAt: nat, now: nat)
      returns (moved: bool)
      modifies this
      ensures moved == MayMove(old(Snapshot()), j, w, g, GateMove(delay, handedAt), now)
      ensures Snapshot() == MoveAndComplete(old(Snapshot()), j, w, g, attempt, GateMove(delay, handedAt),
                                            SafetyGateWait, now)
    {
      var nextRetry := Sec(handedAt) + delay;
      moved := MoveAndRecord(j, w, g, attempt, Move(RetryWait, true, 0, Some(nextRetry), true), SafetyGateWait, now);
    }

    // -------------------------------------------------------------- operator calls

    method CancelJob(j: JobId) returns (done: bool)
      modifies this
      ensures done == (j in old(jobs))
      ensures Snapshot() == Rules.CancelJob(old(Snapshot()), j)
    {
      if j !in jobs {
        return false;
      }
      var row := jobs[j];
      var state := row.state;
      if state.Ready? || state.RetryWait? || Parked(state) {
        state := Cancelled;
      }
      jobs := jobs[j := row.(cancelled := true, state := state)];
      SetStatus(row.app, CancelledApp);
      RecordEvent(Event(Some(j), JobCancelled));
      return true;
    }

    method SkipJob(j: JobId, now: nat) returns (done: bool, pick: Option<AttemptId>)
      modifies this
      ensures IsLatest(old(attempts), j, OpenRow, pick)
      ensures done == (j in old(jobs) && (Submitting(old(jobs)[j].state) || Skippable(old(jobs)[j].state)))
      ensures Snapshot() == Rules.SkipJob(old(Snapshot()), j, pick, now)
    {
      pick := LatestAttempt(j, OpenRow);
      if j !in jobs {
        return false, pick;
      }
      var row := jobs[j];
      if Submitting(row.state) {
        jobs := jobs[j := row.(state := AmbiguousSubmission, owner := None, expires := None, gen := row.gen + 1)];
        SetStatus(row.app, AmbiguousApp);
        if pick.Some? {
          attempts := attempts[pick.value := SkipClosed(attempts[pick.value], now)];
        }
        RecordEvent(KeyedEvent(Some(j), EventKey(OpSkip, Some(row.gen))));
        outbox := outbox + {j};
        ctrl := ctrl.(paused := true);
        return true, pick;
      }
      if !Skippable(row.state) {
        return false, pick;
      }
      jobs := jobs[j := row.(state := Skipped, cancelled := true, owner := None, expires := None, gen := row.gen + 1)];
      SetStatus(row.app, SkippedApp);
      RecordEvent(Event(Some(j), JobSkipped));
      return true, pick;
    }

    method OwnerMatches(expected: Option<OperatorId>, now: nat) returns (ok: bool)
      ensures ok == OwnerGate(Snapshot(), expected, now)
    {
      if expected.None? {
        return true;
      }
      ok := ctrl.takeoverOwner == expected && ctrl.takeoverExpires.Some? && ctrl.takeoverExpires.value > Sec(now);
    }

    method ResolveJob(j: JobId, force: bool, expected: Option<OperatorId>, now: nat) returns (done: bool)
      modifies this
      ensures done == MayResolve(old(Snapshot()), j, force, expected, now)
      ensures Snapshot() == Rules.ResolveJob(old(Snapshot()), j, force, expected, now)
      ensures done <==>
              && j in old(jobs)
              && (|| old(jobs)[j].state in {AuthRequired, MfaRequired, CaptchaRequired, UnknownQuestion, SiteChanged,
                                            Skipped}
                  || (old(jobs)[j].state == AmbiguousSubmission && force))
              && (expected.Some? ==> old(ctrl.takeoverOwner) == expected && old(ctrl.takeoverExpires).Some?
                                     && old(ctrl.takeoverExpires).value > Sec(now))
      ensures !done ==> Snapshot() == old(Snapshot())
      ensures done ==> jobs == old(jobs)[j := old(jobs)[j].(state := Ready, cancelled := false, owner := None,
                               expires := None, gen := old(jobs)[j].gen + 1, nextRetry := None)]
    {
      if j !in jobs {
        return false;
      }
      var row := jobs[j];
      var owned := OwnerMatches(expected, now);
      if !owned || (row.state == AmbiguousSubmission && !force) {
        return false;
      }
      if row.state != Skipped && !Exceptional(row.state) {
        return false;
      }
      jobs := jobs[j := row.(state := Ready, cancelled := false, owner := None, expires := None, gen := row.gen + 1,
      nextRetry := None)];
      if row.app in apps && (apps[row.app] == AmbiguousApp || apps[row.app] == FailedApp
                             || apps[row.app] == SkippedApp) {
        apps := apps[row.app := Pending];
      }
      RecordEvent(Event(Some(j), JobResolved));
      return true;
    }

    method RequeueAuthRequiredJob(j: JobId, expected: Option<OperatorId>, now: nat) returns (done: bool)
      modifies this
      ensures done == MayRequeueAuth(old(Snapshot()), j, expected, now)
      ensures Snapshot() == RequeueAuth(old(Snapshot()), j, expected, now)
    {
      var owned := OwnerMatches(expected, now);
      if !owned || j !in jobs || jobs[j].state != AuthRequired || jobs[j].app !in apps || ctrl.stopped {
        return false;
      }
      var row := jobs[j];
      var next := row.gen + 1;
      jobs := jobs[j := row.(state := Ready, owner := None, expires := None, nextRetry := None)];
      RecordEvent(Event(Some(j), AuthRetryRequested));
      ctrl := ctrl.(paused := false, takeoverOwner := None, takeoverExpires := None, browserActive := false,
      browserClosed := true,
      shutdownGen := Some(Max(Max(OrZero(ctrl.shutdownGen), OrZero(ctrl.sessionGen)), next)),
      browserJob := Some(j), sessionGen := Some(next));
      return true;
    }

    // -------------------------------------------------------------- takeover

    method ClaimManualTakeover(op: OperatorId, seconds: nat, sample: nat) returns (granted: bool)
      modifies this
      ensures granted == (LeaseLengthOk(seconds) && MayClaimTakeover(old(Snapshot()), op, sample))
      ensures Snapshot() == if LeaseLengthOk(seconds)
                            then ClaimTakeover(old(Snapshot()), op, seconds, sample) else old(Snapshot())
      ensures granted <==>
              && 1 <= seconds <= 300
              && (|| old(ctrl.takeoverOwner).None? || old(ctrl.takeoverExpires).None?
                  || old(ctrl.takeoverOwner) == Some(op)
                  || sample >= old(ctrl.takeoverExpires).value * 1_000_000)
      ensures !granted ==> Snapshot() == old(Snapshot())
      ensures granted ==>
                && ctrl == old(ctrl).(paused := true, takeoverOwner := Some(op),
                           takeoverExpires := Some(Sec(sample) + seconds))
                && jobs == old(jobs) && attempts == old(attempts) && apps == old(apps)
    {
      if !(1 <= seconds <= TAKEOVER_MAX_SECONDS) {
        return false;
      }
      if ctrl.takeoverOwner.Some? && ctrl.takeoverExpires.Some? {
        if sample < ctrl.takeoverExpires.value * TICKS_PER_SECOND && ctrl.takeoverOwner.value != op {
          return false;
        }
      }
      ctrl := ctrl.(paused := true, takeoverOwner := Some(op), takeoverExpires := Some(Sec(sample) + seconds));
      RecordEvent(Event(None, TakeoverClaimed));
      return true;
    }

    method RenewManualTakeover(op: OperatorId, seconds: nat, now: nat) returns (renewed: bool)
      modifies this
      ensures renewed == (LeaseLengthOk(seconds) && MayRenewTakeover(old(Snapshot()), op, now))
      ensures Snapshot() == if LeaseLengthOk(seconds)
                            then RenewTakeover(old(Snapshot()), op, seconds, now) else old(Snapshot())
    {
      if !(1 <= seconds <= TAKEOVER_MAX_SECONDS) || ctrl.takeoverOwner != Some(op) || ctrl.takeoverExpires.None?
         || ctrl.takeoverExpires.value <= Sec(now) {
        return false;
      }
      ctrl := ctrl.(takeoverExpires := Some(Sec(now) + seconds));
      RecordEvent(Event(None, TakeoverRenewed));
      return true;
    }

    method ReleaseManualTakeover(op: Option<OperatorId>, force: bool) returns (released: bool)
      modifies this
      ensures released == MayReleaseTakeover(old(Snapshot()), op, force)
      ensures Snapshot() == ReleaseTakeover(old(Snapshot()), op, force)
    {
      if !force && op.Some? && ctrl.takeoverOwner.Some? && ctrl.takeoverOwner != op {
        return false;
      }
      ctrl := ctrl.(takeoverOwner := None, takeoverExpires := None);
      RecordEvent(Event(None, TakeoverReleased));
      return true;
    }

    // -------------------------------------------------------------- browser publication

    method SetRuntimeBrowserState(p: Publication, now: nat)
      modifies this`ctrl
      ensures Snapshot() == SetBrowserState(old(Snapshot()), p, now)
    {
      var current := false;
      if p.active && p.job.Some? && p.gen.Some? {
        var j := p.job.value;
        if j in jobs && jobs[j].gen != p.gen.value {
          return;
        }
        current := j in jobs && jobs[j].gen == p.gen.value && jobs[j].owner.Some? && jobs[j].expires.Some?
                   && jobs[j].expires.value > Sec(now) && Publishable(jobs[j].state);
        if !current {
          return;
        }
      }
      if p.job.Some? && ctrl.browserJob.Some? {
        if ctrl.browserJob != p.job {
          return;
        }
        if p.gen.Some? && ctrl.sessionGen.Some? && p.gen != ctrl.sessionGen && !current {
          return;
        }
      }
      var session, job := ctrl.sessionGen, ctrl.browserJob;
      if p.active {
        session, job := Coalesce(p.gen, session), Coalesce(p.job, job);
      } else {
        if p.gen.None? || session == p.gen {
          session := None;
        }
        if p.job.None? || job == p.job {
          job := None;
        }
      }
      var shutdown := ctrl.shutdownGen;
      if p.active && current {
        shutdown := None;
      }
      ctrl := ctrl.(browserActive := p.active, browserClosed := p.closed, sessionGen := session,
      shutdownGen := shutdown,
      browserJob := job);
    }
  }
}
