/** The inductive invariant of the protocol. */
module Invariant {
  import opened Rows
  import opened Rules
  import opened Bulk
  import opened Protocol

  function Lookup<K, V>(m: map<K, V>, k: K): Option<V> {
    if k in m then Some(m[k]) else None
  }

  /** States in which a run leaves its job for later. */
  predicate SetAside(state: JobState) {
    Exceptional(state) || state.RetryWait?
  }

  /** A job row against the run of its current generation and the job's history. */
  predicate RowFine(row: Job, run: Option<Run>, committed: bool, clicks: nat, repeats: nat) {
    && (row.owner.Some? <==> row.expires.Some?)
    && (row.owner.Some? ==> run.Some? && run.value.worker == row.owner.value)
    && (Running(row.state) ==> row.owner.Some? && !run.value.intended)
    && (Submitting(row.state) ==> row.owner.Some? && run.value.intended)
    && (row.state == SubmitIntent ==> committed)
    && (committed ==> PostSubmit(row.state))
    && (row.owner.Some? && !run.value.intended ==> !committed)
    && repeats <= clicks <= repeats + (if committed then 1 else 0)
    && (row.owner.Some? && run.value.intended && !run.value.clicked && committed ==> clicks == repeats)
    && (row.owner.Some? && SetAside(row.state) ==> run.value.phase == Finished)
  }

  /** A run against its job's generation and the attempt it opened. */
  predicate RunFine(r: RunId, run: Run, jobGen: nat, att: Option<Attempt>) {
    && 1 <= r.gen <= jobGen
    && (run.phase == Working ==> !run.intended)
    && (!run.phase.Working? && !run.phase.Finished? ==> run.intended)
    && (run.clicked ==> run.intended)
    && (run.handedBack ==> run.phase == Finished)
    && (run.phase.Intended? || run.phase.Fenced? ==> !run.clicked)
    && (run.intended ==> run.attempt.Some?)
    && (run.attempt.Some? ==>
          && att.Some? && att.value.job == r.job
          && (run.intended ==> att.value.intentAt.Some?)
          && (jobGen == r.gen ==>
                && att.value.worker == Some(run.worker) && att.value.gen == Some(r.gen)
                && (!run.intended ==> att.value.intentAt.None?)))
  }

  /** An attempt stamped with its job's current claim is the one that claim's run opened. */
  predicate AttemptFine(a: AttemptId, att: Attempt, row: Job, run: Option<Run>) {
    att.gen.Some? ==>
      && att.gen.value <= row.gen
      && (att.gen.value == row.gen && row.owner.Some? ==> run.Some? && run.value.attempt == Some(a))
  }

  function CurrentRun(s: System, j: JobId): Option<Run>
    requires j in s.db.jobs
  {
    Lookup(s.runs, RunId(j, s.db.jobs[j].gen))
  }

  function AttemptOf(db: Db, run: Run): Option<Attempt> {
    if run.attempt.Some? then Lookup(db.attempts, run.attempt.value) else None
  }

  predicate JobOk(s: System, j: JobId)
    requires j in s.db.jobs
  {
    RowFine(s.db.jobs[j], CurrentRun(s, j), j in s.committed, s.clicks[j], s.repeats[j])
  }

  predicate RunOk(s: System, r: RunId)
    requires r in s.runs
  {
    r.job in s.db.jobs && RunFine(r, s.runs[r], s.db.jobs[r.job].gen, AttemptOf(s.db, s.runs[r]))
  }

  predicate AttemptOk(s: System, a: AttemptId)
    requires a in s.db.attempts
  {
    var att := s.db.attempts[a];
    att.job in s.db.jobs && AttemptFine(a, att, s.db.jobs[att.job], CurrentRun(s, att.job))
  }

  ghost predicate RowsOk(s: System) {
    && (forall j {:trigger JobOk(s, j)} | j in s.db.jobs :: JobOk(s, j))
    && (forall r {:trigger RunOk(s, r)} | r in s.runs :: RunOk(s, r))
    && (forall a {:trigger AttemptOk(s, a)} | a in s.db.attempts :: AttemptOk(s, a))
    && (forall j | j !in s.db.jobs :: s.clicks[j] == 0 && s.repeats[j] == 0 && j !in s.committed)
  }

  predicate HoldsFence(p: Phase) {
    p.Fenced? || p.Clicking?
  }

  /** What holds from the opening of the click fence until it is closed. */
  predicate FenceHeld(s: System, r: RunId) {
    && r in s.runs && HoldsFence(s.runs[r].phase) && s.runs[r].attempt.Some?
    && Owns(s.db, r.job, s.runs[r].worker, r.gen)
    && s.db.jobs[r.job].state == SubmitIntent && !s.db.jobs[r.job].cancelled
    && !Halted(s.db) && !TakeoverLive(s.db.ctrl, s.now)
    && IntentPersistedFor(s, r)
  }

  predicate IntentPersistedFor(s: System, r: RunId)
    requires r in s.runs && s.runs[r].attempt.Some?
  {
    var a := s.runs[r].attempt.value;
    && a in s.db.attempts && s.db.attempts[a].job == r.job && s.db.attempts[a].worker == Some(s.runs[r].worker)
    && s.db.attempts[a].gen == Some(r.gen) && s.db.attempts[a].intentAt.Some?
  }

  ghost predicate FenceOk(s: System) {
    && (s.fence.Some? ==> FenceHeld(s, s.fence.value))
    && (forall r | r in s.runs && HoldsFence(s.runs[r].phase) :: s.fence == Some(r))
  }

  ghost predicate GrantsDisjoint(grants: seq<Grant>) {
    forall i, k | 0 <= i < k < |grants| :: grants[i].end <= grants[k].start
  }

  function LastGrant(s: System): Grant
    requires s.grants != []
  {
    s.grants[|s.grants| - 1]
  }

  ghost predicate TakeoverOk(s: System) {
    var c := s.db.ctrl;
    && (c.takeoverOwner.Some? <==> c.takeoverExpires.Some?)
    && (c.takeoverOwner.Some? ==>
          && s.grants != [] && LastGrant(s).owner == c.takeoverOwner.value
          && LastGrant(s).end == c.takeoverExpires.value * TICKS_PER_SECOND
          && c.takeoverExpires.value <= Sec(s.now) + TAKEOVER_MAX_SECONDS)
    && (c.takeoverOwner.None? && s.grants != [] ==> LastGrant(s).end <= s.now)
    && GrantsDisjoint(s.grants)
    && (forall i | 0 <= i < |s.grants| :: s.grants[i].start <= s.now)
  }

  ghost predicate PublishedOk(s: System) {
    forall j | j in s.published :: j in s.db.jobs && s.published[j] <= s.db.jobs[j].gen
  }

  /** A note about a job is only ever taken of a job that exists. */
  ghost predicate NotesOk(s: System) {
    forall note | note in s.notes :: note.job in s.db.jobs
  }

  ghost predicate Inv(s: System) {
    RowsOk(s) && FenceOk(s) && TakeoverOk(s) && PublishedOk(s) && NotesOk(s)
  }

  // ---------------------------------------------------------------- framing

  /** A row keeps its owner and generation, or loses its owner and does not go back. */
  predicate RowStep(row: Job, row': Job) {
    row.gen <= row'.gen && (row'.owner.Some? ==> row'.owner == row.owner && row'.gen == row.gen)
  }

  /** An attempt keeps its intent; it is stamped anew only when its job's generation moves on. */
  predicate AttemptStep(att: Attempt, att': Attempt, gen: nat, gen': nat) {
    && att'.job == att.job
    && att'.intentAt == att.intentAt
    && (|| (att'.worker == att.worker && att'.gen == att.gen)
        || (gen < gen' && (att'.gen == att.gen || att'.gen == Some(gen))))
  }

  ghost predicate AttemptsStep(db: Db, db': Db) {
    && db'.attempts.Keys == db.attempts.Keys
    && forall a {:trigger db'.attempts[a]} | a in db.attempts ::
         var j := db.attempts[a].job;
         j in db.jobs && j in db'.jobs && AttemptStep(db.attempts[a], db'.attempts[a], db.jobs[j].gen, db'.jobs[j].gen)
  }

  /** At most the run `r` has changed, and it kept its worker and attempt. */
  predicate RunsStep(s: System, t: System, r: RunId) {
    || t.runs == s.runs
    || (&& r in s.runs && r in t.runs && t.runs == s.runs[r := t.runs[r]]
        && t.runs[r].worker == s.runs[r].worker && t.runs[r].attempt == s.runs[r].attempt)
  }

  /** Once every job row is shown to be in order, runs and attempts follow. */
  lemma RowsSettle(s: System, t: System, r: RunId)
    requires RowsOk(s)
    requires t.db.jobs.Keys == s.db.jobs.Keys
    requires forall j {:trigger JobOk(t, j)} | j in t.db.jobs :: JobOk(t, j) && RowStep(s.db.jobs[j], t.db.jobs[j])
    requires AttemptsStep(s.db, t.db) && RunsStep(s, t, r)
    requires t.runs != s.runs ==> RunOk(t, r)
    requires forall j | j !in t.db.jobs :: t.clicks[j] == 0 && t.repeats[j] == 0 && j !in t.committed
    ensures RowsOk(t)
  {
    forall q {:trigger RunOk(t, q)} | q in t.runs ensures RunOk(t, q) {
      assert q == r || RunOk(s, q);
      if q != r || t.runs == s.runs {
        assert RunOk(s, q);
        assert JobOk(t, q.job);
        assert t.runs[q] == s.runs[q];
      }
    }
    forall a {:trigger AttemptOk(t, a)} | a in t.db.attempts ensures AttemptOk(t, a) {
      assert AttemptOk(s, a);
      var j := s.db.attempts[a].job;
      assert JobOk(t, j);
    }
  }

  /** The single-job form of `RowsSettle`. */
  lemma JobChange(s: System, t: System, j: JobId, r: RunId)
    requires RowsOk(s) && j in s.db.jobs && r.job == j
    requires j in t.db.jobs && t.db.jobs == s.db.jobs[j := t.db.jobs[j]]
    requires JobOk(t, j) && RowStep(s.db.jobs[j], t.db.jobs[j])
    requires AttemptsStep(s.db, t.db) && RunsStep(s, t, r)
    requires t.runs != s.runs ==> RunOk(t, r)
    requires forall k | k != j :: t.clicks[k] == s.clicks[k] && t.repeats[k] == s.repeats[k]
    requires forall k | k != j :: k in t.committed <==> k in s.committed
    ensures RowsOk(t)
  {
    forall k {:trigger JobOk(t, k)} | k in t.db.jobs ensures JobOk(t, k) && RowStep(s.db.jobs[k], t.db.jobs[k]) {
      if k != j {
        assert JobOk(s, k);
        assert CurrentRun(t, k) == CurrentRun(s, k);
      }
    }
    RowsSettle(s, t, r);
  }

  /** Attempts that were not touched at all. */
  lemma SameAttempts(s: System, t: System)
    requires RowsOk(s) && t.db.attempts == s.db.attempts && s.db.jobs.Keys <= t.db.jobs.Keys
    ensures AttemptsStep(s.db, t.db)
  {
    forall a {:trigger t.db.attempts[a]} | a in s.db.attempts
      ensures var j := s.db.attempts[a].job;
              j in s.db.jobs && j in t.db.jobs
              && AttemptStep(s.db.attempts[a], t.db.attempts[a], s.db.jobs[j].gen, t.db.jobs[j].gen)
    {
      assert AttemptOk(s, a);
    }
  }

  /** Steps that leave fence, takeover and publications alone keep the rest of the invariant. */
  lemma QuietStep(s: System, t: System)
    requires Inv(s) && RowsOk(t)
    requires s.fence.None? && t.fence.None?
    requires forall r | r in t.runs :: HoldsFence(t.runs[r].phase) ==> r in s.runs && HoldsFence(s.runs[r].phase)
    requires t.db.ctrl.takeoverOwner == s.db.ctrl.takeoverOwner
             && t.db.ctrl.takeoverExpires == s.db.ctrl.takeoverExpires
    requires t.grants == s.grants && t.published == s.published && t.notes == s.notes && s.now <= t.now
    requires forall j | j in s.db.jobs :: j in t.db.jobs && s.db.jobs[j].gen <= t.db.jobs[j].gen
    ensures Inv(t)
  {
    assert Sec(s.now) <= Sec(t.now);
  }
}
