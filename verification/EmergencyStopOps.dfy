/** Emergency stop as one transaction over the tables, with its three ownership checks. */
module EmergencyStopOps {
  import opened Rows
  import opened Rules
  import opened Bulk
  import opened BulkFacts
  import opened Queue
  import Sweeps

  /** The fold over listed jobs reads the choices of those jobs only. */
  lemma {:induction false} SamePicks(db: Db, rows: seq<JobId>, p: Picks, q: Picks, now: nat)
    requires forall j | j in rows :: j in db.jobs
    requires PicksExist(db.attempts, rows, p) && PicksExist(db.attempts, rows, q)
    requires forall j | j in rows :: p[j] == q[j]
    ensures MarkAll(db, rows, p, now) == MarkAll(db, rows, q, now)
    decreases |rows|
  {
    if rows != [] {
      assert rows[|rows| - 1] in rows;
      SamePicks(db, rows[..|rows| - 1], p, q, now);
    }
  }

  /** For a job that is not yet ambiguous the mark does not look at the latest attempt. */
  lemma LatestIgnored(db: Db, j: JobId, m: Mark, latest: Option<AttemptId>, pick: Option<AttemptId>, now: nat)
    requires j in db.jobs && !m.repair
    requires latest.Some? ==> latest.value in db.attempts
    requires pick.Some? ==> pick.value in db.attempts
    ensures MarkAmbiguous(db, j, m, latest, pick, now) == MarkAmbiguous(db, j, m, None, pick, now)
  {
  }

  /** While the attempts of a job stay as they are, so does the choice among them. */
  lemma SameChoice(attempts: map<AttemptId, Attempt>, attempts': map<AttemptId, Attempt>, j: JobId, sel: Selection,
                   pick: Option<AttemptId>)
    requires IsLatest(attempts', j, sel, pick) && attempts'.Keys == attempts.Keys
    requires forall a | a in attempts :: attempts'[a].job == attempts[a].job
    requires forall a | a in attempts && attempts[a].job == j :: attempts'[a] == attempts[a]
    ensures IsLatest(attempts, j, sel, pick)
  {
    forall a | a in attempts && Selected(attempts[a], j, sel)
      ensures pick.Some? && attempts[a].createdAt <= attempts[pick.value].createdAt
    {
      assert Selected(attempts'[a], j, sel);
    }
  }

  /** The state of the tables after the first marks of the list. */
  ghost predicate MarkedUpTo(first: Db, db: Db, rows: seq<JobId>, picks: Picks, now: nat)
    requires forall j | j in rows :: j in first.jobs
  {
    && PicksLatest(first.attempts, rows, picks, OpenOrAmbiguous) && PicksExist(first.attempts, rows, picks)
    && db == MarkAll(first, rows, picks, now)
  }

  lemma LastIsNew(rows: seq<JobId>, j: JobId)
    requires Distinct(rows + [j])
    ensures Distinct(rows) && j !in rows
  {
    var all := rows + [j];
    forall i | 0 <= i < |rows| ensures rows[i] != j { assert all[i] != all[|rows|]; }
    forall i, k | 0 <= i < k < |rows| ensures rows[i] != rows[k] { assert all[i] != all[k]; }
  }

  lemma ChoiceAfterMarks(first: Db, rows: seq<JobId>, picks: Picks, j: JobId, pick: Option<AttemptId>, now: nat)
    requires Distinct(rows) && PicksOwn(first.attempts, rows, picks) && j !in rows
    requires forall k | k in rows :: k in first.jobs && Submitting(first.jobs[k].state)
    requires IsLatest(MarkAll(first, rows, picks, now).attempts, j, OpenOrAmbiguous, pick)
    ensures IsLatest(first.attempts, j, OpenOrAmbiguous, pick)
  {
    hide MarkAll, IsLatest;
    MarkAllAttempts(first, rows, picks, now);
    SameChoice(first.attempts, MarkAll(first, rows, picks, now).attempts, j, OpenOrAmbiguous, pick);
  }

  lemma OneMoreChoice(attempts: map<AttemptId, Attempt>, rows: seq<JobId>, picks: Picks, j: JobId, sel: Selection,
                      pick: Option<AttemptId>)
    requires PicksLatest(attempts, rows, picks, sel) && IsLatest(attempts, j, sel, pick) && j !in rows
    ensures PicksLatest(attempts, rows + [j], picks[j := pick], sel)
            && PicksExist(attempts, rows + [j], picks[j := pick])
    ensures PicksExist(attempts, rows, picks[j := pick]) && PicksOwn(attempts, rows, picks)
    ensures forall k | k in rows :: picks[j := pick][k] == picks[k]
  {
    forall k | k in rows + [j] ensures k in picks[j := pick] && IsLatest(attempts, k, sel, picks[j := pick][k]) {
    }
  }

  lemma MarkAllUnfolds(db: Db, rows: seq<JobId>, picks: Picks, j: JobId, now: nat)
    requires forall k | k in rows + [j] :: k in db.jobs
    requires PicksExist(db.attempts, rows + [j], picks) && PicksExist(db.attempts, rows, picks) && j in db.jobs
             && j in picks
    ensures MarkAll(db, rows + [j], picks, now)
         == MarkAmbiguous(MarkAll(db, rows, picks, now), j, StopMark(db.jobs[j]), None, picks[j], now)
  {
    hide MarkAmbiguous;
    assert (rows + [j])[..|rows|] == rows && (rows + [j])[|rows|] == j;
  }

  lemma OneMoreMark(first: Db, before: Db, rows: seq<JobId>, picks: Picks, j: JobId, latest: Option<AttemptId>,
                    pick: Option<AttemptId>, now: nat)
    requires Distinct(rows + [j]) && forall k | k in rows + [j] :: k in first.jobs && Submitting(first.jobs[k].state)
    requires (forall k | k in rows :: k in first.jobs) && MarkedUpTo(first, before, rows, picks, now)
    requires IsLatest(before.attempts, j, AnyRow, latest) && IsLatest(before.attempts, j, OpenOrAmbiguous, pick)
    ensures before.ctrl == first.ctrl && j in before.jobs && before.jobs[j] == first.jobs[j]
    ensures MarkedUpTo(first, MarkAmbiguous(before, j, StopMark(first.jobs[j]), latest, pick, now), rows + [j],
                       picks[j := pick], now)
  {
    hide MarkAmbiguous, Distinct, MarkAll;
    LastIsNew(rows, j);
    assert j in rows + [j] && forall k | k in rows :: k in rows + [j];
    MarkAllJobs(first, rows, picks, now);
    assert PicksOwn(first.attempts, rows, picks);
    ChoiceAfterMarks(first, rows, picks, j, pick, now);
    OneMoreChoice(first.attempts, rows, picks, j, OpenOrAmbiguous, pick);
    SamePicks(first, rows, picks, picks[j := pick], now);
    LatestIgnored(before, j, StopMark(first.jobs[j]), latest, pick, now);
    MarkAllUnfolds(first, rows, picks[j := pick], j, now);
  }

  /** The first half of the transaction: mark every submission in progress. */
  method MarkSubmissions(db: Database, now: nat) returns (rows: seq<JobId>, picks: Picks)
    modifies db
    ensures Lists(old(db.Snapshot()), rows, IsSubmitting)
    ensures PicksExist(old(db.attempts), rows, picks) && PicksLatest(old(db.attempts), rows, picks, OpenOrAmbiguous)
    ensures db.Snapshot() == MarkAll(old(db.Snapshot()), rows, picks, now) && db.ctrl == old(db.ctrl)
  {
    rows := Sweeps.ListJobs(db, IsSubmitting);
    ghost var first := db.Snapshot();
    var listed := db.jobs;
    picks := map[];
    for i := 0 to |rows|
      invariant MarkedUpTo(first, db.Snapshot(), rows[..i], picks, now)
      invariant db.ctrl == first.ctrl
    {
      assert rows[..i + 1] == rows[..i] + [rows[i]];
      ghost var before := db.Snapshot();
      var marked, latest, pick := db.MarkJobAmbiguous(rows[i], StopMark(listed[rows[i]]), now);
      OneMoreMark(first, before, rows[..i], picks, rows[i], latest, pick, now);
      picks := picks[rows[i] := pick];
      MarkAllJobs(first, rows[..i + 1], picks, now);
    }
    assert rows[..|rows|] == rows;
  }

  /** Commits exactly when no owner is named; then the tables are those of the rule, otherwise they
      are as before. */
  method EmergencyStop(db: Database, expected: Option<OperatorId>, t1: nat, t2: nat, t3: nat)
    returns (committed: bool, rows: seq<JobId>, picks: Picks)
    modifies db
    ensures committed == expected.None?
    ensures committed ==>
              && Lists(old(db.Snapshot()), rows, IsSubmitting)
              && PicksExist(old(db.attempts), rows, picks)
              && PicksLatest(old(db.attempts), rows, picks, OpenOrAmbiguous)
              && db.Snapshot() == Stopped(old(db.Snapshot()), rows, picks, t1)
    ensures !committed ==> db.Snapshot() == old(db.Snapshot())
  {
    var before := db.Snapshot();
    rows, picks := [], map[];
    committed := db.OwnerMatches(expected, t1);
    if !committed {
      return;
    }
    rows, picks := MarkSubmissions(db, t1);
    committed := db.OwnerMatches(expected, t2);
    if !committed {
      db.Rollback(before);
      return;
    }
    var c := db.ctrl;
    db.ctrl := c.(stopped := true, paused := true, browserActive := false, browserClosed := true, browserJob := None,
    shutdownGen := Some(Max(OrZero(c.shutdownGen), OrZero(c.sessionGen)) + 1), takeoverOwner := None,
    takeoverExpires := None);
    db.jobs := map j | j in db.jobs :: RevokeRunning(db.jobs[j]);
    db.RecordEvent(Event(None, EmergencyStopEngaged));
    committed := db.OwnerMatches(expected, t3);
    if !committed {
      db.Rollback(before);
    }
  }
}
