/** What the two bulk transactions do row by row. */
module BulkFacts {
  import opened Rows
  import opened Rules
  import opened Bulk

  ghost predicate Distinct(rows: seq<JobId>) {
    forall i, k | 0 <= i < k < |rows| :: rows[i] != rows[k]
  }

  ghost predicate PicksOwn(attempts: map<AttemptId, Attempt>, rows: seq<JobId>, picks: Picks) {
    forall j | j in rows :: j in picks && (picks[j].Some?
                                           ==> picks[j].value in attempts && attempts[picks[j].value].job == j)
  }

  /** The attempt row that a bulk transaction closes for its job, if `a` is that row. */
  predicate Chosen(att: Attempt, a: AttemptId, rows: seq<JobId>, picks: Picks) {
    att.job in rows && att.job in picks && picks[att.job] == Some(a)
  }

  function StampedFor(att: Attempt, row: Job, stamped: bool, now: nat): Attempt {
    UncertainAttempt(att, StopMark(row), stamped, now)
  }

  lemma MarkOne(db: Db, j: JobId, row: Job, pick: Option<AttemptId>, now: nat)
    requires j in db.jobs && db.jobs[j] == row && Submitting(row.state)
    requires pick.Some? ==> pick.value in db.attempts
    ensures var r := MarkAmbiguous(db, j, StopMark(row), None, pick, now);
            && r.jobs == db.jobs[j := AmbiguousRow(row)] && r.ctrl == db.ctrl && r.outbox == db.outbox + {j}
            && r.attempts.Keys == db.attempts.Keys
            && (forall a | a in db.attempts && pick != Some(a) :: r.attempts[a] == db.attempts[a])
            && (pick.Some? ==> exists stamped :: r.attempts[pick.value]
                                                 == StampedFor(db.attempts[pick.value], row, stamped, now))
            && r.apps == (if row.app in db.apps then db.apps[row.app := AmbiguousApp] else db.apps)
  {
    var e := KeyedEvent(Some(j), StopMark(row).key);
    if pick.Some? {
      assert MarkAmbiguous(db, j, StopMark(row), None, pick, now).attempts[pick.value]
          == StampedFor(db.attempts[pick.value], row, e !in db.events, now);
    }
  }

  /** After the marks: listed jobs are ambiguous, everything else in the job table is as before. */
  lemma {:induction false} MarkAllJobs(db: Db, rows: seq<JobId>, picks: Picks, now: nat)
    requires Distinct(rows) && PicksExist(db.attempts, rows, picks)
    requires forall j | j in rows :: j in db.jobs && Submitting(db.jobs[j].state)
    ensures var r := MarkAll(db, rows, picks, now);
            && r.ctrl == db.ctrl && r.outbox == db.outbox + (set j | j in rows)
            && (forall j | j in db.jobs :: r.jobs[j] == if j in rows then AmbiguousRow(db.jobs[j]) else db.jobs[j])
    decreases |rows|
  {
    hide MarkAmbiguous;
    if rows != [] {
      var last := |rows| - 1;
      var before := MarkAll(db, rows[..last], picks, now);
      MarkAllJobs(db, rows[..last], picks, now);
      LastIsDistinct(rows);
      assert rows == rows[..last] + [rows[last]];
      MarkOne(before, rows[last], db.jobs[rows[last]], picks[rows[last]], now);
    }
  }

  /** A listed job is added: one more attempt row may be the chosen one. */
  lemma ChosenSplit(att: Attempt, a: AttemptId, rows: seq<JobId>, picks: Picks)
    requires rows != [] && forall j | j in rows :: j in picks
    ensures var last := rows[|rows| - 1];
            Chosen(att, a, rows, picks) <==> Chosen(att, a, rows[..|rows| - 1], picks) || (att.job == last
                                                                                           && picks[last] == Some(a))
  {
    assert rows == rows[..|rows| - 1] + [rows[|rows| - 1]];
  }

  /** What the marks make of one attempt row. */
  ghost predicate Marked(db: Db, a: AttemptId, att': Attempt, rows: seq<JobId>, picks: Picks, now: nat)
    requires a in db.attempts && forall j | j in rows :: j in db.jobs
  {
    var att := db.attempts[a];
    if Chosen(att, a, rows, picks)
    then exists stamped :: att' == StampedFor(att, db.jobs[att.job], stamped, now)
    else att' == att
  }

  lemma LastIsDistinct(rows: seq<JobId>)
    requires Distinct(rows) && rows != []
    ensures rows[|rows| - 1] !in rows[..|rows| - 1] && Distinct(rows[..|rows| - 1])
    ensures forall j | j in rows[..|rows| - 1] :: j in rows
  {
  }

  /** After the marks: exactly the chosen attempt rows are closed as uncertain. */
  lemma {:induction false} MarkAllAttempts(db: Db, rows: seq<JobId>, picks: Picks, now: nat)
    requires Distinct(rows) && PicksOwn(db.attempts, rows, picks)
    requires forall j | j in rows :: j in db.jobs && Submitting(db.jobs[j].state)
    ensures forall a | a in db.attempts :: Marked(db, a, MarkAll(db, rows, picks, now).attempts[a], rows, picks, now)
    decreases |rows|
  {
    hide MarkAmbiguous, Distinct, StampedFor;
    if rows != [] {
      var last := |rows| - 1;
      var j := rows[last];
      var before := MarkAll(db, rows[..last], picks, now);
      LastIsDistinct(rows);
      assert j in rows;
      MarkAllJobs(db, rows[..last], picks, now);
      MarkAllAttempts(db, rows[..last], picks, now);
      MarkOne(before, j, db.jobs[j], picks[j], now);
      forall a | a in db.attempts ensures Marked(db, a, MarkAll(db, rows, picks, now).attempts[a], rows, picks, now) {
        ChosenSplit(db.attempts[a], a, rows, picks);
        assert Marked(db, a, before.attempts[a], rows[..last], picks, now);
      }
    }
  }

  ghost predicate Covers(jobs: map<JobId, Job>, rows: seq<JobId>, app: AppId)
    requires forall j | j in rows :: j in jobs
  {
    exists j | j in rows :: jobs[j].app == app
  }

  lemma CoversSplit(jobs: map<JobId, Job>, rows: seq<JobId>, app: AppId)
    requires rows != [] && forall j | j in rows :: j in jobs
    ensures var last := |rows| - 1;
            Covers(jobs, rows, app) <==> Covers(jobs, rows[..last], app) || jobs[rows[last]].app == app
  {
    assert rows == rows[..|rows| - 1] + [rows[|rows| - 1]];
  }

  /** After the marks: every application with a listed job is ambiguous, the others are untouched. */
  lemma {:induction false} MarkAllApps(db: Db, rows: seq<JobId>, picks: Picks, now: nat)
    requires Distinct(rows) && PicksExist(db.attempts, rows, picks)
    requires forall j | j in rows :: j in db.jobs && Submitting(db.jobs[j].state)
    ensures var r := MarkAll(db, rows, picks, now);
            && r.apps.Keys == db.apps.Keys
            && forall app | app in db.apps ::
                 r.apps[app] == if Covers(db.jobs, rows, app) then AmbiguousApp else db.apps[app]
    decreases |rows|
  {
    if rows != [] {
      var last := |rows| - 1;
      var before := MarkAll(db, rows[..last], picks, now);
      MarkAllJobs(db, rows[..last], picks, now);
      MarkAllApps(db, rows[..last], picks, now);
      assert before.jobs[rows[last]] == db.jobs[rows[last]];
      MarkOne(before, rows[last], db.jobs[rows[last]], picks[rows[last]], now);
      forall app | app in db.apps
        ensures MarkAll(db, rows, picks, now).apps[app]
             == if Covers(db.jobs, rows, app) then AmbiguousApp else db.apps[app]
      {
        CoversSplit(db.jobs, rows, app);
      }
    }
  }

  /** What a committed emergency stop does to one job row. */
  function StopRow(row: Job): Job {
    if Submitting(row.state) then AmbiguousRow(row) else RevokeRunning(row)
  }

  lemma StoppedJobs(db: Db, rows: seq<JobId>, picks: Picks, now: nat)
    requires Lists(db, rows, IsSubmitting) && PicksExist(db.attempts, rows, picks)
    ensures var r := Stopped(db, rows, picks, now);
            && r.jobs.Keys == db.jobs.Keys
            && (forall j | j in db.jobs :: r.jobs[j] == StopRow(db.jobs[j]))
            && r.attempts == MarkAll(db, rows, picks, now).attempts
            && r.ctrl == CloseBrowser(NoTakeover(db.ctrl)).(paused := true, stopped := true)
  {
    MarkAllJobs(db, rows, picks, now);
  }

  // ---------------------------------------------------------------- daemon shutdown

  lemma ShutdownFrame(db: Db, j: JobId, pick: Option<AttemptId>, now: nat)
    requires j in db.jobs && (pick.Some? ==> pick.value in db.attempts)
    ensures var r := ShutdownOne(db, j, pick, now);
            && r.jobs == db.jobs[j := ShutdownRow(db.jobs[j])] && r.ctrl == db.ctrl
            && r.attempts == (if Submitting(db.jobs[j].state)
                              then CloseAttempt(db.attempts, pick, now) else db.attempts)
  {
  }

  lemma {:induction false} ShutdownAllJobs(db: Db, rows: seq<JobId>, picks: Picks, now: nat)
    requires Distinct(rows) && PicksExist(db.attempts, rows, picks)
    requires forall j | j in rows :: j in db.jobs
    ensures var r := ShutdownAll(db, rows, picks, now);
            && r.ctrl == db.ctrl
            && (forall j | j in db.jobs :: r.jobs[j] == if j in rows then ShutdownRow(db.jobs[j]) else db.jobs[j])
    decreases |rows|
  {
    if rows != [] {
      var last := |rows| - 1;
      ShutdownAllJobs(db, rows[..last], picks, now);
      assert rows == rows[..last] + [rows[last]];
      assert rows[last] !in rows[..last];
      ShutdownFrame(ShutdownAll(db, rows[..last], picks, now), rows[last], picks[rows[last]], now);
    }
  }

  lemma {:induction false} ShutdownAllAttempts(db: Db, rows: seq<JobId>, picks: Picks, now: nat)
    requires Distinct(rows) && PicksOwn(db.attempts, rows, picks)
    requires forall j | j in rows :: j in db.jobs
    ensures var r := ShutdownAll(db, rows, picks, now);
            forall a | a in db.attempts ::
              var att := db.attempts[a];
              r.attempts[a] ==
              if Chosen(att, a, rows, picks) && Submitting(db.jobs[att.job].state) then SkipClosed(att, now) else att
    decreases |rows|
  {
    hide ShutdownOne, Distinct, SkipClosed;
    if rows != [] {
      var last := |rows| - 1;
      var j := rows[last];
      LastIsDistinct(rows);
      assert j in rows;
      ShutdownAllJobs(db, rows[..last], picks, now);
      ShutdownAllAttempts(db, rows[..last], picks, now);
      ShutdownFrame(ShutdownAll(db, rows[..last], picks, now), j, picks[j], now);
      forall a | a in db.attempts
        ensures var att := db.attempts[a];
                Chosen(att, a, rows, picks) <==> Chosen(att, a, rows[..last], picks) || (att.job == j
                                                                                         && picks[j] == Some(a))
      {
        ChosenSplit(db.attempts[a], a, rows, picks);
      }
    }
  }
}
