/** The loops over job rows: reconcile, repair and clear-state. */
module Sweeps {
  import opened Rows
  import opened Rules
  import opened Bulk
  import opened Protocol
  import opened WorkerSteps
  import opened Repair
  import opened Queue

  /** SELECT ... WHERE: each qualifying job once. */
  method ListJobs(db: Database, p: Job -> bool) returns (rows: seq<JobId>)
    ensures Lists(db.Snapshot(), rows, p)
  {
    rows := [];
    var todo := db.jobs.Keys;
    while todo != {}
      invariant todo <= db.jobs.Keys
      invariant forall i, k | 0 <= i < k < |rows| :: rows[i] != rows[k]
      invariant forall j :: j in rows <==> j in db.jobs && j !in todo && p(db.jobs[j])
      decreases |todo|
    {
      var j :| j in todo;
      todo := todo - {j};
      if p(db.jobs[j]) {
        rows := rows + [j];
      }
    }
  }

  // ---------------------------------------------------------------- stranded jobs

  function StrandedAt(now: nat): Job -> bool {
    row => Stranded(row, now)
  }

  lemma SweepMarkWorks(db: Db, j: JobId, latest: Option<AttemptId>, pick: Option<AttemptId>, now: nat)
    requires j in db.jobs && Submitting(db.jobs[j].state)
    requires latest.Some? ==> latest.value in db.attempts
    requires pick.Some? ==> pick.value in db.attempts
    ensures var m := SweepMark(db.jobs[j].owner, db.jobs[j].gen);
            var t := MarkAmbiguous(db, j, m, latest, pick, now);
            && MayMark(db, j, m, latest, now)
            && t.jobs == db.jobs[j := AmbiguousRow(db.jobs[j])] && t.outbox == db.outbox + {j}
            && t.ctrl == db.ctrl.(paused := true)
  {
  }

  /** Undisturbed, the sweep makes exactly the stranded jobs ambiguous, each without an owner and
      under the next generation, announces them, and pauses the runtime if there was one. */
  method ReconcileStrandedJobs(db: Database, now: nat) returns (reconciled: seq<JobId>)
    modifies db
    ensures Lists(old(db.Snapshot()), reconciled, StrandedAt(now))
    ensures db.jobs.Keys == old(db.jobs).Keys
    ensures forall j | j in old(db.jobs) ::
              db.jobs[j] == if Stranded(old(db.jobs)[j], now) then AmbiguousRow(old(db.jobs)[j]) else old(db.jobs)[j]
    ensures db.outbox == old(db.outbox) + set j | j in reconciled
    ensures db.ctrl == if reconciled == [] then old(db.ctrl) else old(db.ctrl).(paused := true)
  {
    hide MarkAmbiguous, MayMark, SweepMark, AmbiguousRow;
    var rows := ListJobs(db, StrandedAt(now));
    var listed := db.jobs;
    reconciled := [];
    for i := 0 to |rows|
      invariant reconciled == rows[..i]
      invariant db.jobs.Keys == listed.Keys
      invariant forall j | j in listed :: db.jobs[j] == if j in rows[..i] then AmbiguousRow(listed[j]) else listed[j]
      invariant db.outbox == old(db.outbox) + set j | j in rows[..i]
      invariant db.ctrl == if i == 0 then old(db.ctrl) else old(db.ctrl).(paused := true)
    {
      assert rows[i] !in rows[..i];
      assert rows[..i + 1] == rows[..i] + [rows[i]];
      ghost var before := db.Snapshot();
      var marked, latest, pick := db.MarkJobAmbiguous(rows[i], SweepMark(listed[rows[i]].owner, listed[rows[i]].gen),
                                                      now);
      SweepMarkWorks(before, rows[i], latest, pick, now);
      if marked {
        reconciled := reconciled + [rows[i]];
      }
    }
    assert rows[..|rows|] == rows;
  }

  // ---------------------------------------------------------------- repair

  predicate IsAmbiguous(row: Job) {
    row.state == AmbiguousSubmission
  }

  /** Whatever row counts as the latest attempt, the projections are consistent with it. */
  ghost predicate Consistent(db: Db, j: JobId)
    requires j in db.jobs
  {
    forall latest | IsLatest(db.attempts, j, AnyRow, latest) :: Projected(db, j, latest)
  }

  /** The condition under which one repair suffices. */
  ghost predicate WillConverge(db: Db, j: JobId)
    requires j in db.jobs
  {
    && db.jobs[j].app in db.apps && LatestIsUnique(db.attempts, j)
    && forall latest | IsLatest(db.attempts, j, AnyRow, latest) :: Repairable(db, latest)
  }

  /** Repairs of other jobs leave a job's attempts alone and only add to the other projections. */
  ghost predicate Grows(db: Db, db': Db, j: JobId) {
    && db'.jobs == db.jobs
    && (forall a | a in db.attempts && db.attempts[a].job == j :: a in db'.attempts
                                                                  && db'.attempts[a] == db.attempts[a])
    && (forall a | a in db'.attempts && db'.attempts[a].job == j :: a in db.attempts && db.attempts[a].job == j)
    && db'.apps.Keys == db.apps.Keys
    && (forall app | app in db.apps :: db'.apps[app] == db.apps[app] || db'.apps[app] == AmbiguousApp)
    && (forall e | e in db.events :: e in db'.events) && db.outbox <= db'.outbox
  }

  lemma RepairGrows(db: Db, j: JobId, latest: Option<AttemptId>, pick: Option<AttemptId>, now: nat, k: JobId)
    requires j in db.jobs && IsAmbiguous(db.jobs[j]) && Choice(db, j, latest, pick) && k != j
    ensures Grows(db, Repaired(db, j, latest, pick, now), k)
  {
    if MayMark(db, j, REPAIR_MARK, latest, now) {
      MarkFrame(db, j, REPAIR_MARK, latest, pick, now);
    }
  }

  lemma GrowsLatest(db: Db, db': Db, j: JobId, latest: Option<AttemptId>)
    requires Grows(db, db', j)
    ensures IsLatest(db.attempts, j, AnyRow, latest) <==> IsLatest(db'.attempts, j, AnyRow, latest)
  {
    if IsLatest(db.attempts, j, AnyRow, latest) {
      forall a | a in db'.attempts && Selected(db'.attempts[a], j, AnyRow)
        ensures latest.Some? && db'.attempts[a].createdAt <= db'.attempts[latest.value].createdAt
      {
        assert Selected(db.attempts[a], j, AnyRow);
      }
    }
    if IsLatest(db'.attempts, j, AnyRow, latest) {
      forall a | a in db.attempts && Selected(db.attempts[a], j, AnyRow)
        ensures latest.Some? && db.attempts[a].createdAt <= db.attempts[latest.value].createdAt
      {
        assert Selected(db'.attempts[a], j, AnyRow);
      }
    }
  }

  lemma GrowsConsistent(db: Db, db': Db, j: JobId)
    requires j in db.jobs && Grows(db, db', j)
    ensures Consistent(db, j) ==> Consistent(db', j)
    ensures WillConverge(db, j) ==> WillConverge(db', j)
  {
    forall latest: Option<AttemptId> ensures IsLatest(db.attempts, j, AnyRow, latest) <==> IsLatest(db'.attempts, j,
                                                                                                    AnyRow, latest) {
      GrowsLatest(db, db', j, latest);
    }
  }

  lemma RepairSettles(db: Db, j: JobId, latest: Option<AttemptId>, pick: Option<AttemptId>, now: nat)
    requires j in db.jobs && IsAmbiguous(db.jobs[j]) && Choice(db, j, latest, pick) && WillConverge(db, j)
    ensures j in Repaired(db, j, latest, pick, now).jobs && Consistent(Repaired(db, j, latest, pick, now), j)
  {
    var t := Repaired(db, j, latest, pick, now);
    RepairConverges(db, j, latest, pick, now);
    forall latest': Option<AttemptId> | IsLatest(t.attempts, j, AnyRow, latest') ensures Projected(t, j, latest') {
      LatestStays(db, j, latest, pick, now, latest');
    }
  }

  /** One undisturbed pass: the job table stays as it is, every ambiguous job that can converge has
      converged, and what is reported was not consistent.  When all ambiguous jobs are consistent,
      as after such a pass, it reports nothing and changes nothing. */
  method RepairAmbiguousProjections(db: Database, now: nat) returns (repaired: seq<JobId>)
    modifies db
    ensures db.jobs == old(db.jobs)
    ensures forall j | j in db.jobs && IsAmbiguous(db.jobs[j])
                       && WillConverge(old(db.Snapshot()), j) :: Consistent(db.Snapshot(), j)
    ensures forall j | j in repaired :: j in db.jobs && IsAmbiguous(db.jobs[j]) && !Consistent(old(db.Snapshot()), j)
    ensures (forall j | j in db.jobs && IsAmbiguous(db.jobs[j]) :: Consistent(old(db.Snapshot()), j)) ==>
              repaired == [] && db.Snapshot() == old(db.Snapshot())
  {
    ghost var first := db.Snapshot();
    var rows := ListJobs(db, IsAmbiguous);
    repaired := [];
    for i := 0 to |rows|
      invariant db.jobs == old(db.jobs)
      invariant forall j | j in rows[i..] :: Grows(first, db.Snapshot(), j)
      invariant forall j | j in rows[..i] && WillConverge(first, j) :: Consistent(db.Snapshot(), j)
      invariant forall j | j in repaired :: j in rows[..i] && !Consistent(first, j)
      invariant (forall j | j in rows[..i] :: Consistent(first, j)) ==> repaired == [] && db.Snapshot() == first
    {
      var j := rows[i];
      ghost var before := db.Snapshot();
      assert j in rows[i..] && Grows(first, before, j);
      GrowsConsistent(first, before, j);
      var marked, latest, pick := db.MarkJobAmbiguous(j, REPAIR_MARK, now);
      if marked {
        repaired := repaired + [j];
      }
      RepairPass(first, before, rows, i, latest, pick, now);
      assert rows[..i + 1] == rows[..i] + [j];
    }
    assert rows[..|rows|] == rows;
  }

  lemma RepairPass(first: Db, before: Db, rows: seq<JobId>, i: nat, latest: Option<AttemptId>,
                   pick: Option<AttemptId>, now: nat)
    requires i < |rows| && forall k, l | 0 <= k < l < |rows| :: rows[k] != rows[l]
    requires forall k | k in rows :: k in before.jobs && k in first.jobs
    requires IsAmbiguous(before.jobs[rows[i]]) && Choice(before, rows[i], latest, pick) && before.jobs == first.jobs
    requires forall j | j in rows[i..] :: Grows(first, before, j)
    requires forall j | j in rows[..i] && WillConverge(first, j) :: Consistent(before, j)
    ensures var after := Repaired(before, rows[i], latest, pick, now);
            && after.jobs == before.jobs
            && (forall j | j in rows[i + 1..] :: Grows(first, after, j))
            && (forall j | j in rows[..i + 1] && WillConverge(first, j) :: Consistent(after, j))
            && (MayMark(before, rows[i], REPAIR_MARK, latest, now) ==> !Consistent(first, rows[i]))
            && (!MayMark(before, rows[i], REPAIR_MARK, latest, now) ==> after == before)
  {
    var after := Repaired(before, rows[i], latest, pick, now);
    GrowsConsistent(first, before, rows[i]);
    if MayMark(before, rows[i], REPAIR_MARK, latest, now) {
      MarkFrame(before, rows[i], REPAIR_MARK, latest, pick, now);
    }
    forall j | j in rows[i + 1..] ensures Grows(first, after, j) {
      assert j in rows[i..];
      RepairGrows(before, rows[i], latest, pick, now, j);
    }
    forall j | j in rows[..i + 1] && WillConverge(first, j) ensures Consistent(after, j) {
      if j == rows[i] {
        RepairSettles(before, j, latest, pick, now);
      } else {
        assert j in rows[..i];
        RepairGrows(before, rows[i], latest, pick, now, j);
        GrowsConsistent(before, after, j);
      }
    }
  }

  /** A job that turns ambiguous before its intent leaves its attempt completed and unambiguous: the
      case that no repair settles. */
  lemma EarlyAmbiguityNeverSettles(db: Db, j: JobId, w: WorkerId, g: nat, a: AttemptId, now: nat)
    requires MayMove(db, j, w, g, Live(AmbiguousSubmission), now)
    requires a in db.attempts && db.attempts[a].job == j && db.attempts[a].worker == Some(w)
             && db.attempts[a].gen == Some(g)
    ensures var t := MoveAndComplete(db, j, w, g, Some(a), Live(AmbiguousSubmission), Reached(AmbiguousSubmission),
                                     now);
            && j in t.jobs && IsAmbiguous(t.jobs[j]) && a in t.attempts && !Repairable(t, Some(a))
            && MayMark(t, j, REPAIR_MARK, Some(a), now)
  {
    TransitionFrame(db, j, w, g, Live(AmbiguousSubmission), now);
  }

  /** A mark made by clear-state or emergency stop is not the event that repair looks for: if no such
      event was there before, the next repair reports the job and pauses the runtime once more. */
  lemma OtherMarksAreRepairedAgain(db: Db, j: JobId, m: Mark, latest: Option<AttemptId>, pick: Option<AttemptId>,
                                   now: nat,
                                   latest': Option<AttemptId>)
    requires m.key.operation.OpClearState? || m.key.operation.OpEmergencyStop?
    requires latest.Some? ==> latest.value in db.attempts
    requires pick.Some? ==> pick.value in db.attempts
    requires MayMark(db, j, m, latest, now) && db.jobs[j].state != AmbiguousSubmission
    requires forall e | e in db.events :: !(e.job == Some(j) && RecordsAmbiguity(e))
    requires latest'.Some? ==> latest'.value in MarkAmbiguous(db, j, m, latest, pick, now).attempts
    ensures var t := MarkAmbiguous(db, j, m, latest, pick, now);
            MayMark(t, j, REPAIR_MARK, latest', now) && (forall e | e in t.events :: !(e.job == Some(j)
                                                                                       && RecordsAmbiguity(e)))
  {
    MarkFrame(db, j, m, latest, pick, now);
  }

  // ---------------------------------------------------------------- clear-state

  predicate Interrupted(row: Job) {
    Submitting(row.state) && !row.cancelled
  }

  /** First the mark, then the reset: what clear-state does to one job row. */
  lemma ClearedInTwoSteps(row: Job)
    ensures ClearRow(if Interrupted(row) then AmbiguousRow(row) else row) ==
            if !row.cancelled && row.state in {SubmitIntent, Verifying}
            then row.(state := AmbiguousSubmission, owner := None, expires := None, gen := row.gen + 1)
            else if !row.cancelled && row.state in {Claimed, Navigating, Filling, Validating, AuthRequired, MfaRequired,
                                                    CaptchaRequired}
              then row.(state := Ready, owner := None, expires := None, gen := row.gen + 1)
              else row
    ensures Interrupted(row) <==> !row.cancelled && row.state in {SubmitIntent, Verifying}
  {
  }

  lemma ClearMarkWorks(db: Db, j: JobId, latest: Option<AttemptId>, pick: Option<AttemptId>, now: nat)
    requires j in db.jobs && Interrupted(db.jobs[j])
    requires latest.Some? ==> latest.value in db.attempts
    requires pick.Some? ==> pick.value in db.attempts
    ensures var m := ClearMark(db.jobs[j].owner, db.jobs[j].gen);
            var t := MarkAmbiguous(db, j, m, latest, pick, now);
            && MayMark(db, j, m, latest, now)
            && t.jobs == db.jobs[j := AmbiguousRow(db.jobs[j])] && t.outbox == db.outbox + {j}
            && t.ctrl == db.ctrl.(paused := true)
  {
  }

  method MarkInterrupted(db: Database, now: nat)
    modifies db
    ensures db.jobs.Keys == old(db.jobs).Keys
    ensures forall j | j in old(db.jobs) ::
              db.jobs[j] == if Interrupted(old(db.jobs)[j]) then AmbiguousRow(old(db.jobs)[j]) else old(db.jobs)[j]
    ensures forall j | j in old(db.jobs) && Interrupted(old(db.jobs)[j]) :: j in db.outbox
    ensures db.ctrl == old(db.ctrl).(paused := db.ctrl.paused)
  {
    hide MarkAmbiguous, MayMark;
    var rows := ListJobs(db, Interrupted);
    var listed := db.jobs;
    for i := 0 to |rows|
      invariant db.jobs.Keys == listed.Keys
      invariant forall j | j in listed :: db.jobs[j] == if j in rows[..i] then AmbiguousRow(listed[j]) else listed[j]
      invariant forall j | j in rows[..i] :: j in db.outbox
      invariant db.ctrl == old(db.ctrl).(paused := db.ctrl.paused)
    {
      assert rows[i] !in rows[..i];
      assert rows[..i + 1] == rows[..i] + [rows[i]];
      ghost var before := db.Snapshot();
      var marked, latest, pick := db.MarkJobAmbiguous(rows[i], ClearMark(listed[rows[i]].owner, listed[rows[i]].gen),
                                                      now);
      ClearMarkWorks(before, rows[i], latest, pick, now);
    }
    assert rows[..|rows|] == rows;
  }

  /** Undisturbed, clear-state makes each interrupted submission ambiguous instead of claimable,
      returns the recoverable jobs to the queue under the next generation, leaves the others alone,
      and opens the runtime; a caller who does not hold the takeover changes nothing. */
  method ClearAutomationState(db: Database, expected: Option<OperatorId>, now: nat) returns (cleared: bool)
    modifies db
    ensures cleared == OwnerGate(old(db.Snapshot()), expected, now)
    ensures !cleared ==> db.Snapshot() == old(db.Snapshot())
    ensures cleared ==>
              && db.jobs.Keys == old(db.jobs).Keys
              && (forall j | j in old(db.jobs) ::
                    var row := old(db.jobs)[j];
                    if !row.cancelled && row.state in {SubmitIntent, Verifying}
                    then
                      && db.jobs[j] == row.(state := AmbiguousSubmission, owner := None, expires := None,
                                       gen := row.gen + 1)
                      && j in db.outbox
                    else if !row.cancelled && row.state in {Claimed, Navigating, Filling, Validating, AuthRequired,
                                                            MfaRequired, CaptchaRequired}
                      then db.jobs[j] == row.(state := Ready, owner := None, expires := None, gen := row.gen + 1)
                      else db.jobs[j] == row)
              && db.ctrl == CloseBrowser(NoTakeover(old(db.ctrl))).(paused := false, stopped := false)
  {
    hide Interrupted, ClearRow, AmbiguousRow, OwnerGate;
    ghost var rows := db.jobs;
    cleared := db.OwnerMatches(expected, now);
    if !cleared {
      return;
    }
    MarkInterrupted(db, now);
    var c := db.ctrl;
    var fence := Max(OrZero(c.shutdownGen), OrZero(c.sessionGen)) + 1;
    db.ctrl := c.(paused := false, stopped := false, takeoverOwner := None, takeoverExpires := None,
    browserActive := false, browserClosed := true, browserJob := None, shutdownGen := Some(fence));
    db.jobs := map j | j in db.jobs :: ClearRow(db.jobs[j]);
    forall j | j in rows {
      ClearedInTwoSteps(rows[j]);
    }
  }
}
