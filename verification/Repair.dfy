/** Repair of ambiguous projections: when it converges, and what it may touch. */
module Repair {
  import opened Rows
  import opened Rules
  import opened Bulk
  import opened Protocol
  import opened WorkerSteps

  /** No two attempts of the job share the latest creation second. */
  ghost predicate LatestIsUnique(attempts: map<AttemptId, Attempt>, j: JobId) {
    forall a, b :: IsLatest(attempts, j, AnyRow, Some(a)) && IsLatest(attempts, j, AnyRow, Some(b)) ==> a == b
  }

  function Repaired(db: Db, j: JobId, latest: Option<AttemptId>, pick: Option<AttemptId>, now: nat): Db
    requires latest.Some? ==> latest.value in db.attempts
    requires pick.Some? ==> pick.value in db.attempts
  {
    MarkAmbiguous(db, j, REPAIR_MARK, latest, pick, now)
  }

  ghost predicate Choice(db: Db, j: JobId, latest: Option<AttemptId>, pick: Option<AttemptId>) {
    IsLatest(db.attempts, j, AnyRow, latest) && IsTarget(db, j, REPAIR_MARK, pick)
  }

  predicate Repairable(db: Db, latest: Option<AttemptId>)
    requires latest.Some? ==> latest.value in db.attempts
  {
    latest.Some? ==> db.attempts[latest.value].completedAt.None? || db.attempts[latest.value].ambiguous
  }

  lemma SameOrder(attempts: map<AttemptId, Attempt>, attempts': map<AttemptId, Attempt>, j: JobId,
                  latest: Option<AttemptId>)
    requires attempts'.Keys == attempts.Keys && IsLatest(attempts', j, AnyRow, latest)
    requires forall a {:trigger attempts'[a]} | a in attempts ::
               attempts'[a].job == attempts[a].job && attempts'[a].createdAt == attempts[a].createdAt
    ensures IsLatest(attempts, j, AnyRow, latest)
  {
    forall a | a in attempts && attempts[a].job == j
      ensures latest.Some? && attempts[a].createdAt <= attempts[latest.value].createdAt
    {
      assert Selected(attempts'[a], j, AnyRow);
    }
  }

  /** The latest attempt is the same row before and after a repair. */
  lemma LatestStays(db: Db, j: JobId, latest: Option<AttemptId>, pick: Option<AttemptId>, now: nat,
                    latest': Option<AttemptId>)
    requires j in db.jobs && LatestIsUnique(db.attempts, j) && Choice(db, j, latest, pick)
    requires IsLatest(Repaired(db, j, latest, pick, now).attempts, j, AnyRow, latest')
    ensures latest' == latest
  {
    if MayMark(db, j, REPAIR_MARK, latest, now) {
      MarkFrame(db, j, REPAIR_MARK, latest, pick, now);
      SameOrder(db.attempts, Repaired(db, j, latest, pick, now).attempts, j, latest');
    }
  }

  /** One repair of an ambiguous job makes its projections consistent exactly when its application
      exists and its latest attempt is missing, open or already ambiguous; the job table and every
      other job's attempts stay as they are. */
  lemma RepairConverges(db: Db, j: JobId, latest: Option<AttemptId>, pick: Option<AttemptId>, now: nat)
    requires j in db.jobs && db.jobs[j].state == AmbiguousSubmission
    requires LatestIsUnique(db.attempts, j) && Choice(db, j, latest, pick)
    ensures var t := Repaired(db, j, latest, pick, now);
            && t.jobs == db.jobs && t.attempts.Keys == db.attempts.Keys
            && (Projected(t, j, latest) <==> Repairable(db, latest) && db.jobs[j].app in db.apps)
            && (forall a | a in db.attempts && db.attempts[a].job != j :: t.attempts[a] == db.attempts[a])
  {
    if MayMark(db, j, REPAIR_MARK, latest, now) {
      MarkFrame(db, j, REPAIR_MARK, latest, pick, now);
      if latest.Some? && Repairable(db, latest) {
        UniquePick(db, j, latest.value, pick);
      }
      RepairRecords(db, j, latest, pick, now);
    }
  }

  lemma UniquePick(db: Db, j: JobId, latest: AttemptId, pick: Option<AttemptId>)
    requires LatestIsUnique(db.attempts, j) && Choice(db, j, Some(latest), pick)
    requires db.attempts[latest].completedAt.None? || db.attempts[latest].ambiguous
    ensures pick == Some(latest)
  {
    assert Selected(db.attempts[latest], j, OpenOrAmbiguous);
    assert IsLatest(db.attempts, j, AnyRow, pick);
  }

  lemma RepairRecords(db: Db, j: JobId, latest: Option<AttemptId>, pick: Option<AttemptId>, now: nat)
    requires latest.Some? ==> latest.value in db.attempts
    requires pick.Some? ==> pick.value in db.attempts
    requires MayMark(db, j, REPAIR_MARK, latest, now)
    ensures var t := Repaired(db, j, latest, pick, now);
            && t.apps == (if db.jobs[j].app in db.apps then db.apps[db.jobs[j].app := AmbiguousApp] else db.apps)
            && j in t.outbox
            && exists e | e in t.events :: e.job == Some(j) && RecordsAmbiguity(e)
  {
    assert KeyedEvent(Some(j), REPAIR_MARK.key) in Repaired(db, j, latest, pick, now).events;
  }

  /** A second repair reports nothing and changes nothing. */
  lemma SecondRepairIsIdle(db: Db, j: JobId, latest: Option<AttemptId>, pick: Option<AttemptId>, now: nat,
                           latest': Option<AttemptId>, pick': Option<AttemptId>, later: nat)
    requires j in db.jobs && db.jobs[j].state == AmbiguousSubmission
    requires LatestIsUnique(db.attempts, j) && Choice(db, j, latest, pick) && Repairable(db, latest)
    requires db.jobs[j].app in db.apps
    requires Choice(Repaired(db, j, latest, pick, now), j, latest', pick')
    ensures var t := Repaired(db, j, latest, pick, now);
            !MayMark(t, j, REPAIR_MARK, latest', later) && Repaired(t, j, latest', pick', later) == t
  {
    LatestStays(db, j, latest, pick, now, latest');
    RepairConverges(db, j, latest, pick, now);
  }

  /** When the latest attempt is completed and not ambiguous, no repair ever closes the case: each
      one reports the job again and pauses the runtime again. */
  lemma RepairNeverSettles(db: Db, j: JobId, latest: Option<AttemptId>, pick: Option<AttemptId>, now: nat)
    requires j in db.jobs && db.jobs[j].state == AmbiguousSubmission
    requires LatestIsUnique(db.attempts, j) && Choice(db, j, latest, pick) && !Repairable(db, latest)
    ensures var t := Repaired(db, j, latest, pick, now);
            && MayMark(t, j, REPAIR_MARK, latest, now) && t.ctrl.paused
            && IsLatest(t.attempts, j, AnyRow, latest) && LatestIsUnique(t.attempts, j) && !Repairable(t, latest)
  {
    RepairConverges(db, j, latest, pick, now);
    MarkFrame(db, j, REPAIR_MARK, latest, pick, now);
    var t := Repaired(db, j, latest, pick, now);
    forall a: AttemptId | IsLatest(t.attempts, j, AnyRow, Some(a)) ensures Some(a) == latest {
      LatestStays(db, j, latest, pick, now, Some(a));
    }
  }

  /** The repair lists in one transaction and marks in another, naming neither owner nor
      generation.  It leaves the job's state, owner and generation alone exactly when the job has
      not meanwhile been resolved and put back to work. */
  lemma RepairTouchesJob(db: Db, j: JobId, latest: Option<AttemptId>, pick: Option<AttemptId>, now: nat)
    requires j in db.jobs && Choice(db, j, latest, pick)
    ensures var t := Repaired(db, j, latest, pick, now);
            if Running(db.jobs[j].state) || Submitting(db.jobs[j].state)
            then t.jobs[j].state == AmbiguousSubmission && t.jobs[j].owner.None?
                 && t.jobs[j].gen == db.jobs[j].gen + 1 && t.ctrl.paused
            else t.jobs == db.jobs
  {
    if MayMark(db, j, REPAIR_MARK, latest, now) {
      MarkFrame(db, j, REPAIR_MARK, latest, pick, now);
    }
  }
}
