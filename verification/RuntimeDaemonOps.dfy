/** The daemon's reconciliation of a worker that did not stop in time. */
module RuntimeDaemonOps {
  import opened Rows
  import opened Rules
  import opened Bulk
  import opened BulkFacts
  import opened Queue
  import Sweeps
  import EmergencyStopOps

  lemma {:induction false} SamePicks(db: Db, rows: seq<JobId>, p: Picks, q: Picks, now: nat)
    requires forall j | j in rows :: j in db.jobs
    requires PicksExist(db.attempts, rows, p) && PicksExist(db.attempts, rows, q)
    requires forall j | j in rows :: p[j] == q[j]
    ensures ShutdownAll(db, rows, p, now) == ShutdownAll(db, rows, q, now)
    decreases |rows|
  {
    if rows != [] {
      assert rows[|rows| - 1] in rows;
      SamePicks(db, rows[..|rows| - 1], p, q, now);
    }
  }

  ghost predicate ReconciledUpTo(first: Db, db: Db, rows: seq<JobId>, picks: Picks, now: nat)
    requires forall j | j in rows :: j in first.jobs
  {
    && PicksLatest(first.attempts, rows, picks, OpenRow) && PicksExist(first.attempts, rows, picks)
    && db == ShutdownAll(first, rows, picks, now)
  }

  lemma ChoiceAfterShutdowns(first: Db, rows: seq<JobId>, picks: Picks, j: JobId, pick: Option<AttemptId>, now: nat)
    requires Distinct(rows) && PicksOwn(first.attempts, rows, picks) && j !in rows
    requires forall k | k in rows :: k in first.jobs
    requires IsLatest(ShutdownAll(first, rows, picks, now).attempts, j, OpenRow, pick)
    ensures IsLatest(first.attempts, j, OpenRow, pick)
  {
    hide ShutdownAll, IsLatest;
    ShutdownAllAttempts(first, rows, picks, now);
    EmergencyStopOps.SameChoice(first.attempts, ShutdownAll(first, rows, picks, now).attempts, j, OpenRow, pick);
  }

  lemma ShutdownAllUnfolds(db: Db, rows: seq<JobId>, picks: Picks, j: JobId, now: nat)
    requires forall k | k in rows + [j] :: k in db.jobs
    requires PicksExist(db.attempts, rows + [j], picks) && PicksExist(db.attempts, rows, picks) && j in db.jobs
             && j in picks
    ensures ShutdownAll(db, rows + [j], picks, now) == ShutdownOne(ShutdownAll(db, rows, picks, now), j, picks[j], now)
  {
    hide ShutdownOne;
    assert (rows + [j])[..|rows|] == rows && (rows + [j])[|rows|] == j;
  }

  lemma OneMore(first: Db, before: Db, rows: seq<JobId>, picks: Picks, j: JobId, pick: Option<AttemptId>, now: nat)
    requires Distinct(rows + [j]) && forall k | k in rows + [j] :: k in first.jobs
    requires (forall k | k in rows :: k in first.jobs) && ReconciledUpTo(first, before, rows, picks, now)
    requires IsLatest(before.attempts, j, OpenRow, pick)
    ensures j in before.jobs && before.jobs[j] == first.jobs[j]
    ensures ReconciledUpTo(first, ShutdownOne(before, j, pick, now), rows + [j], picks[j := pick], now)
  {
    hide ShutdownOne, Distinct, ShutdownAll;
    EmergencyStopOps.LastIsNew(rows, j);
    assert j in rows + [j] && forall k | k in rows :: k in rows + [j];
    ShutdownAllJobs(first, rows, picks, now);
    assert PicksOwn(first.attempts, rows, picks);
    ChoiceAfterShutdowns(first, rows, picks, j, pick, now);
    EmergencyStopOps.OneMoreChoice(first.attempts, rows, picks, j, OpenRow, pick);
    SamePicks(first, rows, picks, picks[j := pick], now);
    ShutdownAllUnfolds(first, rows, picks[j := pick], j, now);
  }

  /** One job of the worker: win the row, then project an interrupted submission. */
  method ReconcileOne(db: Database, j: JobId, now: nat) returns (pick: Option<AttemptId>)
    requires j in db.jobs
    modifies db
    ensures IsLatest(old(db.attempts), j, OpenRow, pick)
    ensures db.Snapshot() == ShutdownOne(old(db.Snapshot()), j, pick, now)
  {
    pick := db.LatestAttempt(j, OpenRow);
    var row := db.jobs[j];
    var next := Ready;
    if Submitting(row.state) {
      next := AmbiguousSubmission;
    } else if Parked(row.state) || row.state == AmbiguousSubmission {
      next := row.state;
    }
    db.jobs := db.jobs[j := row.(state := next, owner := None, expires := None, gen := row.gen + 1)];
    if Submitting(row.state) {
      db.SetStatus(row.app, AmbiguousApp);
      if pick.Some? {
        db.attempts := db.attempts[pick.value := SkipClosed(db.attempts[pick.value], now)];
      }
      db.RecordEvent(KeyedEvent(Some(j), EventKey(OpShutdown, Some(row.gen))));
      db.outbox := db.outbox + {j};
    }
    db.RecordEvent(Event(Some(j), ShutdownReconciled));
  }

  method ReconcileInflightWorker(db: Database, w: WorkerId, now: nat) returns (reconciled: seq<JobId>, picks: Picks)
    modifies db
    ensures Lists(old(db.Snapshot()), reconciled, TakenFrom(w))
    ensures PicksExist(old(db.attempts), reconciled, picks) && PicksLatest(old(db.attempts), reconciled, picks, OpenRow)
    ensures db.Snapshot() == ShutdownAll(old(db.Snapshot()), reconciled, picks, now)
  {
    var rows := Sweeps.ListJobs(db, TakenFrom(w));
    ghost var first := db.Snapshot();
    reconciled, picks := [], map[];
    for i := 0 to |rows|
      invariant reconciled == rows[..i]
      invariant ReconciledUpTo(first, db.Snapshot(), rows[..i], picks, now)
    {
      assert rows[..i + 1] == rows[..i] + [rows[i]];
      ghost var before := db.Snapshot();
      ShutdownAllJobs(first, rows[..i], picks, now);
      var pick := ReconcileOne(db, rows[i], now);
      OneMore(first, before, rows[..i], picks, rows[i], pick, now);
      reconciled, picks := reconciled + [rows[i]], picks[rows[i] := pick];
    }
    assert rows[..|rows|] == rows;
  }

  /** Afterwards the worker owns no unfinished job, and an interrupted submission is ambiguous. */
  lemma WorkerIsGone(db: Db, rows: seq<JobId>, picks: Picks, w: WorkerId, now: nat, j: JobId)
    requires Lists(db, rows, TakenFrom(w)) && PicksExist(db.attempts, rows, picks) && j in db.jobs
    ensures var t := ShutdownAll(db, rows, picks, now);
            && j in t.jobs && !ShutdownTakes(t.jobs[j], w)
            && (ShutdownTakes(db.jobs[j], w) ==>
                  && t.jobs[j].owner.None? && t.jobs[j].gen == db.jobs[j].gen + 1
                  && (t.jobs[j].state == Ready || Parked(t.jobs[j].state) || t.jobs[j].state == AmbiguousSubmission)
                  && (Submitting(db.jobs[j].state) ==> t.jobs[j].state == AmbiguousSubmission))
            && (!ShutdownTakes(db.jobs[j], w) ==> t.jobs[j] == db.jobs[j])
  {
    ShutdownAllJobs(db, rows, picks, now);
  }
}
