/** Emergency stop: all of it or nothing, and quiet afterwards. */
module Emergency {
  import opened Rows
  import opened Rules
  import opened Bulk
  import opened BulkFacts
  import opened Protocol
  import opened Invariant
  import opened OperatorSteps
  import opened Submission

  /** A stop that names an owner never commits: the last ownership check reads the row from which
      this very transaction has just removed the owner.  Without an owner it always commits. */
  lemma StopCommitsOnlyAnonymously(db: Db, rows: seq<JobId>, picks: Picks, expected: Option<OperatorId>, t1: nat,
                                   t2: nat, t3: nat)
    requires Lists(db, rows, IsSubmitting) && PicksExist(db.attempts, rows, picks)
    ensures StopCommits(db, rows, picks, expected, t1, t2, t3) <==> expected.None?
  {
    StoppedJobs(db, rows, picks, t1);
  }

  /** What a successful stop leaves of one job. */
  predicate JobStopped(row: Job, row': Job) {
    if Submitting(row.state) then
      row'.state == AmbiguousSubmission && row'.owner.None? && row'.expires.None? && row'.gen > row.gen
      && row'.app == row.app
    else if Running(row.state) then
      row'.state == Ready && row'.owner.None? && row'.expires.None? && row'.gen > row.gen && row'.app == row.app
    else row' == row
  }

  /** The attempt chosen for a stopped submission is closed as ambiguous; every other is untouched. */
  predicate AttemptStopped(att: Attempt, att': Attempt, chosen: bool) {
    if chosen then att'.completedAt.Some? && att'.ambiguous && att'.outcome == Some(UncertainOutcome)
                   && att'.intentAt == att.intentAt
    else att' == att
  }

  lemma StopAttemptRows(db: Db, rows: seq<JobId>, picks: Picks, now: nat, a: AttemptId)
    requires Lists(db, rows, IsSubmitting) && PicksOwn(db.attempts, rows, picks) && a in db.attempts
    ensures AttemptStopped(db.attempts[a], Stopped(db, rows, picks, now).attempts[a], Chosen(db.attempts[a], a, rows,
                                                                                             picks))
  {
    hide MarkAll, Stopped;
    StoppedJobs(db, rows, picks, now);
    MarkAllAttempts(db, rows, picks, now);
  }

  lemma StopProjections(db: Db, rows: seq<JobId>, picks: Picks, now: nat, j: JobId)
    requires Lists(db, rows, IsSubmitting) && PicksOwn(db.attempts, rows, picks) && j in rows
    ensures var t := Stopped(db, rows, picks, now);
            j in t.outbox && (db.jobs[j].app in db.apps
                              ==> db.jobs[j].app in t.apps && t.apps[db.jobs[j].app] == AmbiguousApp)
  {
    MarkAllJobs(db, rows, picks, now);
    MarkAllApps(db, rows, picks, now);
    assert Covers(db.jobs, rows, db.jobs[j].app);
  }

  /** All or nothing.  On success no job is left running or submitting, each such job lost its
      owner for a larger generation, each submission is ambiguous in every projection with its
      open attempt closed, and the runtime is paused, stopped and free of takeover.  On rejection
      every table is unchanged, whenever during the transaction the lease ran out. */
  lemma StopIsAllOrNothing(db: Db, rows: seq<JobId>, picks: Picks, expected: Option<OperatorId>, t1: nat, t2: nat,
                           t3: nat)
    requires Lists(db, rows, IsSubmitting) && PicksLatest(db.attempts, rows, picks, OpenOrAmbiguous)
    ensures var t := EmergencyStop(db, rows, picks, expected, t1, t2, t3);
            if expected.Some? then t == db
            else
              && t.jobs.Keys == db.jobs.Keys && t.attempts.Keys == db.attempts.Keys
              && (forall j | j in db.jobs :: JobStopped(db.jobs[j], t.jobs[j]))
              && (forall j | j in db.jobs && Submitting(db.jobs[j].state) ::
                    j in t.outbox && (db.jobs[j].app in db.apps
                                      ==> db.jobs[j].app in t.apps && t.apps[db.jobs[j].app] == AmbiguousApp))
              && (forall a | a in db.attempts ::
                    AttemptStopped(db.attempts[a], t.attempts[a], Chosen(db.attempts[a], a, rows, picks)))
              && t.ctrl.paused && t.ctrl.stopped && t.ctrl.takeoverOwner.None? && !t.ctrl.browserActive
  {
    hide MarkAll, Stopped, StopCommits;
    StopCommitsOnlyAnonymously(db, rows, picks, expected, t1, t2, t3);
    StoppedJobs(db, rows, picks, t1);
    forall j | j in rows
      ensures j in Stopped(db, rows, picks, t1).outbox
              && (db.jobs[j].app in db.apps ==> db.jobs[j].app in Stopped(db, rows, picks, t1).apps
                                                && Stopped(db, rows, picks, t1).apps[db.jobs[j].app] == AmbiguousApp)
    {
      StopProjections(db, rows, picks, t1, j);
    }
    forall a | a in db.attempts
      ensures AttemptStopped(db.attempts[a], Stopped(db, rows, picks, t1).attempts[a], Chosen(db.attempts[a], a,
                                                                                              rows, picks))
    {
      StopAttemptRows(db, rows, picks, t1, a);
    }
  }

  /** After a successful stop no claim and no click happens until both flags have been cleared. */
  lemma QuietAfterStop(s: System, command: Command, steps: seq<Step>)
    requires Inv(s) && command.StopEverything? && command.stopper.None? && Enabled(s, Govern(command))
    requires Valid(Apply(s, Govern(command)), steps) && HaltedThroughout(Apply(s, Govern(command)), steps)
    ensures var t := After(Apply(s, Govern(command)), steps);
            t.clicks == s.clicks && t.claims == s.claims
    ensures Halted(Apply(s, Govern(command)).db)
  {
    StepKeeps(s, Govern(command));
    StopIsAllOrNothing(s.db, command.rows, command.picks, command.stopper, command.t1, command.t2, command.t3);
    HaltedIsQuiet(Apply(s, Govern(command)), steps);
  }
}
