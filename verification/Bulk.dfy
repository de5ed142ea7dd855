/** The two transactions that walk over many rows: emergency stop and the
    daemon's shutdown reconciliation. */
module Bulk {
  import opened Rows
  import opened Rules

  type Picks = map<JobId, Option<AttemptId>>

  /** Every listed job has a chosen attempt row, if it has an attempt to choose. */
  predicate PicksExist(attempts: map<AttemptId, Attempt>, rows: seq<JobId>, picks: Picks) {
    forall j | j in rows :: j in picks && (picks[j].Some? ==> picks[j].value in attempts)
  }

  ghost predicate PicksLatest(attempts: map<AttemptId, Attempt>, rows: seq<JobId>, picks: Picks, sel: Selection) {
    forall j | j in rows :: j in picks && IsLatest(attempts, j, sel, picks[j])
  }

  /** `rows` lists, once each, the jobs satisfying a condition. */
  ghost predicate Lists(db: Db, rows: seq<JobId>, p: Job -> bool) {
    && (forall i, k | 0 <= i < k < |rows| :: rows[i] != rows[k])
    && (forall j :: j in rows <==> j in db.jobs && p(db.jobs[j]))
  }

  // ---------------------------------------------------------------- emergency stop

  predicate IsSubmitting(row: Job) {
    Submitting(row.state)
  }

  function StopMark(row: Job): Mark {
    Mark(row.owner, Some(row.gen), false, false, None, EventKey(OpEmergencyStop, Some(row.gen)), false)
  }

  /** The ambiguity marks of the listed jobs, in list order. */
  function MarkAll(db: Db, rows: seq<JobId>, picks: Picks, now: nat): (r: Db)
    requires forall j | j in rows :: j in db.jobs
    requires PicksExist(db.attempts, rows, picks)
    ensures r.jobs.Keys == db.jobs.Keys && r.attempts.Keys == db.attempts.Keys
  {
    if rows == [] then db
    else
      var last := |rows| - 1;
      var before := MarkAll(db, rows[..last], picks, now);
      MarkAmbiguous(before, rows[last], StopMark(db.jobs[rows[last]]), None, picks[rows[last]], now)
  }

  function RevokeRunning(row: Job): Job {
    if Running(row.state) then RevokedRow(row) else row
  }

  function Engage(db: Db): Db {
    AddEvent(db.(ctrl := CloseBrowser(NoTakeover(db.ctrl)).(paused := true, stopped := true),
             jobs := map j | j in db.jobs :: RevokeRunning(db.jobs[j])),
             Event(None, EmergencyStopEngaged))
  }

  /** The result of the stop when every ownership check passes. */
  function Stopped(db: Db, rows: seq<JobId>, picks: Picks, now: nat): Db
    requires forall j | j in rows :: j in db.jobs
    requires PicksExist(db.attempts, rows, picks)
  {
    Engage(MarkAll(db, rows, picks, now))
  }

  /** The three ownership checks, each against the rows as this transaction has left them
      and each at its own time. */
  predicate StopCommits(db: Db, rows: seq<JobId>, picks: Picks, expected: Option<OperatorId>, t1: nat, t2: nat, t3: nat)
    requires forall j | j in rows :: j in db.jobs
    requires PicksExist(db.attempts, rows, picks)
  {
    && OwnerGate(db, expected, t1)
    && OwnerGate(MarkAll(db, rows, picks, t1), expected, t2)
    && OwnerGate(Stopped(db, rows, picks, t1), expected, t3)
  }

  function EmergencyStop(db: Db, rows: seq<JobId>, picks: Picks, expected: Option<OperatorId>, t1: nat, t2: nat,
                         t3: nat): Db
    requires forall j | j in rows :: j in db.jobs
    requires PicksExist(db.attempts, rows, picks)
  {
    if StopCommits(db, rows, picks, expected, t1, t2, t3) then Stopped(db, rows, picks, t1) else db
  }

  // ---------------------------------------------------------------- daemon shutdown

  function TakenFrom(w: WorkerId): Job -> bool {
    row => ShutdownTakes(row, w)
  }

  function ShutdownAll(db: Db, rows: seq<JobId>, picks: Picks, now: nat): (r: Db)
    requires forall j | j in rows :: j in db.jobs
    requires PicksExist(db.attempts, rows, picks)
    ensures r.jobs.Keys == db.jobs.Keys && r.attempts.Keys == db.attempts.Keys
  {
    if rows == [] then db
    else
      var last := |rows| - 1;
      ShutdownOne(ShutdownAll(db, rows[..last], picks, now), rows[last], picks[rows[last]], now)
  }
}
