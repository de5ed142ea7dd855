/** Expired means expired, and what the two-transaction sweeps may rely on. */
module Leases {
  import opened Rows
  import opened Rules
  import opened Bulk
  import opened Protocol
  import opened Invariant
  import opened OperatorSteps
  import opened Advance

  /** The lease of generation `g` of the job is over: expired, revoked or replaced. */
  predicate LeaseDead(s: System, j: JobId, g: nat) {
    j in s.db.jobs && g <= s.db.jobs[j].gen
    && (g == s.db.jobs[j].gen ==> !LeaseBeyond(s.db.jobs[j], Sec(s.now)))
  }

  lemma DeadAdvance(s: System, t: System, step: Step, j: JobId, g: nat)
    requires LeaseDead(s, j, g) && StepAdvance(s, t, step)
    requires j in t.db.jobs ==> JobOk(t, j)
    ensures LeaseDead(t, j, g)
  {
    assert Sec(s.now) <= Sec(t.now);
  }

  lemma DeadStep(s: System, step: Step, j: JobId, g: nat)
    requires Inv(s) && Enabled(s, step) && LeaseDead(s, j, g)
    ensures LeaseDead(Apply(s, step), j, g)
  {
    hide Apply, StepAdvance;
    var t := Apply(s, step);
    StepKeeps(s, step);
    StepAdvances(s, step);
    DeadAdvance(s, t, step, j, g);
  }

  /** For a fixed job and generation, a lease that is over is never live again. */
  lemma {:induction false} ExpiredForever(s: System, steps: seq<Step>, j: JobId, g: nat)
    requires Inv(s) && Valid(s, steps) && LeaseDead(s, j, g)
    ensures LeaseDead(After(s, steps), j, g)
    decreases |steps|
  {
    if steps != [] {
      StepKeeps(s, steps[0]);
      DeadStep(s, steps[0], j, g);
      ExpiredForever(Apply(s, steps[0]), steps[1..], j, g);
    }
  }

  /** What a row noted by a sweep still tells later. */
  predicate NoteSound(s: System, note: Read) {
    match note
    case StrandedRead(j, owner, g) =>
      RunId(j, g) in s.runs && s.runs[RunId(j, g)].intended && LeaseDead(s, j, g)
    case SubmittingRead(j, owner, g) =>
      RunId(j, g) in s.runs && s.runs[RunId(j, g)].intended
    case _ => true
  }

  ghost predicate NotesSound(s: System) {
    forall note | note in s.notes :: NoteSound(s, note)
  }

  lemma OldNotes(s: System, step: Step, note: Read)
    requires Inv(s) && Enabled(s, step) && note in s.notes && NoteSound(s, note)
    ensures NoteSound(Apply(s, step), note)
  {
    hide Apply;
    StepAdvances(s, step);
    if note.StrandedRead? {
      DeadStep(s, step, note.job, note.gen);
    }
  }

  lemma SweepNotes(s: System, j: JobId, sweep: Sweep, note: Read)
    requires Inv(s) && SweepAllowed(s, j, sweep) && note !in s.notes && note in SweepEffect(s, j, sweep).notes
    ensures NoteSound(SweepEffect(s, j, sweep), note)
  {
    hide MarkAmbiguous, FenceOk, TakeoverOk, PublishedOk, AttemptOk, RunOk, NotesOk;
    assert j in s.db.jobs && JobOk(s, j);
  }

  lemma CallNotes(s: System, j: JobId, call: Call, note: Read)
    requires CallAllowed(s, j, call) && note !in s.notes && note in CallEffect(s, j, call).notes
    ensures note.RequeueRead? || note.ResumeRead?
  {
    hide CancelJob, SkipJob, ResolveJob, TransitionJob, RequeueAuth, TrackerRequeue, SafeResumeReady, MayRequeueAuth,
      MayResolve, CutGrants, OwnerGate, CompletedAttempt, IsLatest;
  }

  lemma OtherNotes(s: System, step: Step, note: Read)
    requires Enabled(s, step) && note !in s.notes && note in Apply(s, step).notes && !step.Recover?
    ensures note.RequeueRead? || note.ResumeRead?
  {
    hide ActEffect, SweepEffect, CallEffect, CommandEffect;
    match step
    case Work(r, act) => ActIsAloof(s, r, act);
    case Operate(j, call) => CallNotes(s, j, call, note);
    case Govern(command) => CommandIsAloof(s, command);
    case _ =>
  }

  lemma NewNotes(s: System, step: Step, note: Read)
    requires Inv(s) && Enabled(s, step) && note !in s.notes && note in Apply(s, step).notes
    ensures NoteSound(Apply(s, step), note)
  {
    hide ActEffect, SweepEffect, CallEffect, CommandEffect, Inv;
    if step.Recover? {
      SweepNotes(s, step.job, step.sweep, note);
    } else {
      OtherNotes(s, step, note);
    }
  }

  lemma NotesStep(s: System, step: Step)
    requires Inv(s) && Enabled(s, step) && NotesSound(s)
    ensures NotesSound(Apply(s, step))
  {
    forall note | note in Apply(s, step).notes ensures NoteSound(Apply(s, step), note) {
      if note in s.notes {
        OldNotes(s, step, note);
      } else {
        NewNotes(s, step, note);
      }
    }
  }

  lemma {:induction false} NotesAlwaysSound(s: System, steps: seq<Step>)
    requires Inv(s) && NotesSound(s) && Valid(s, steps)
    ensures NotesSound(After(s, steps))
    decreases |steps|
  {
    if steps != [] {
      StepKeeps(s, steps[0]);
      NotesStep(s, steps[0]);
      NotesAlwaysSound(Apply(s, steps[0]), steps[1..]);
    }
  }

  /** The stranded-job sweep lists in one transaction and marks in another without reading
      the expiry again.  Whenever such a mark takes effect, in any run, the job is still in
      submit_intent or verifying and its lease is still over. */
  lemma StrandedMarksAreSound(s: System, steps: seq<Step>, j: JobId, owner: Option<WorkerId>, g: nat,
                              pick: Option<AttemptId>)
    requires Initial(s) && Valid(s, steps)
    requires Enabled(After(s, steps), Recover(j, MarkStranded(owner, g, pick)))
    requires MayMark(After(s, steps).db, j, SweepMark(owner, g), None, After(s, steps).now)
    ensures var t := After(s, steps);
            Submitting(t.db.jobs[j].state) && !LeaseBeyond(t.db.jobs[j], Sec(t.now))
  {
    RunKeeps(s, steps);
    NotesAlwaysSound(s, steps);
    var t := After(s, steps);
    assert NoteSound(t, StrandedRead(j, owner, g));
    assert JobOk(t, j);
  }

  /** The same for clear-state: it only ever marks jobs that are still submitting. */
  lemma ClearMarksAreSound(s: System, steps: seq<Step>, j: JobId, owner: Option<WorkerId>, g: nat,
                           pick: Option<AttemptId>)
    requires Initial(s) && Valid(s, steps)
    requires Enabled(After(s, steps), Recover(j, MarkCleared(owner, g, pick)))
    requires MayMark(After(s, steps).db, j, ClearMark(owner, g), None, After(s, steps).now)
    ensures Submitting(After(s, steps).db.jobs[j].state)
  {
    RunKeeps(s, steps);
    NotesAlwaysSound(s, steps);
    var t := After(s, steps);
    assert NoteSound(t, SubmittingRead(j, owner, g));
    assert JobOk(t, j);
  }

  // ---------------------------------------------------------------- the submit margin

  /** A lease never reaches further than its full length ahead. */
  predicate LeaseBounded(row: Job, now: nat) {
    row.expires.Some? ==> row.expires.value <= Sec(now) + LEASE_SECONDS
  }

  ghost predicate LeasesBounded(s: System) {
    forall j {:trigger s.db.jobs[j]} | j in s.db.jobs :: LeaseBounded(s.db.jobs[j], s.now)
  }

  lemma BoundedAdvance(s: System, t: System, step: Step, j: JobId)
    requires StepAdvance(s, t, step) && Enabled(s, step) && LeasesBounded(s) && j in t.db.jobs && JobOk(t, j)
    requires j !in s.db.jobs ==> t.db.jobs[j].owner.None?
    ensures LeaseBounded(t.db.jobs[j], t.now)
  {
    hide IntentsStand, SameRuns, CountsStand, Best;
    assert Sec(s.now) <= Sec(t.now);
  }

  lemma NewcomersUnowned(s: System, t: System, step: Step, j: JobId)
    requires StepAdvance(s, t, step) && j in t.db.jobs && j !in s.db.jobs
    ensures t.db.jobs[j].owner.None?
  {
  }

  lemma BoundedStep(s: System, step: Step)
    requires Inv(s) && Enabled(s, step) && LeasesBounded(s)
    ensures LeasesBounded(Apply(s, step))
  {
    hide Apply, StepAdvance, LeaseBounded, Enabled;
    var t := Apply(s, step);
    StepKeeps(s, step);
    StepAdvances(s, step);
    forall j {:trigger t.db.jobs[j]} | j in t.db.jobs ensures LeaseBounded(t.db.jobs[j], t.now) {
      if j !in s.db.jobs {
        NewcomersUnowned(s, t, step, j);
      }
      assert JobOk(t, j);
      BoundedAdvance(s, t, step, j);
    }
  }

  lemma {:induction false} LeasesAlwaysBounded(s: System, steps: seq<Step>)
    requires Inv(s) && LeasesBounded(s) && Valid(s, steps)
    ensures LeasesBounded(After(s, steps))
    decreases |steps|
  {
    hide Apply, LeasesBounded;
    if steps != [] {
      StepKeeps(s, steps[0]);
      BoundedStep(s, steps[0]);
      LeasesAlwaysBounded(Apply(s, steps[0]), steps[1..]);
    }
  }

  /** While the claim `g` of `w` stands, its lease lasts beyond the moment `deadline`. */
  predicate LastsBeyond(s: System, j: JobId, w: WorkerId, g: nat, deadline: nat) {
    && j in s.db.jobs && g <= s.db.jobs[j].gen
    && (Owns(s.db, j, w, g) ==> s.db.jobs[j].expires.Some? && s.db.jobs[j].expires.value * TICKS_PER_SECOND > deadline)
  }

  lemma LastsAdvance(s: System, t: System, step: Step, j: JobId, w: WorkerId, g: nat, deadline: nat)
    requires StepAdvance(s, t, step) && LeasesBounded(s) && LastsBeyond(s, j, w, g, deadline)
    requires j in t.db.jobs ==> JobOk(t, j)
    ensures LastsBeyond(t, j, w, g, deadline)
  {
    hide IntentsStand, SameRuns, CountsStand;
    if j in t.db.jobs {
      assert LeaseBounded(s.db.jobs[j], s.now);
    }
  }

  /** Heartbeats may rewrite the lease, but never shorten it. */
  lemma {:induction false} LeaseLasts(s: System, steps: seq<Step>, j: JobId, w: WorkerId, g: nat, deadline: nat)
    requires Inv(s) && LeasesBounded(s) && Valid(s, steps) && LastsBeyond(s, j, w, g, deadline)
    ensures LastsBeyond(After(s, steps), j, w, g, deadline)
    decreases |steps|
  {
    hide Apply, LastsBeyond, StepAdvance, LeasesBounded;
    if steps != [] {
      var s1 := Apply(s, steps[0]);
      StepKeeps(s, steps[0]);
      StepAdvances(s, steps[0]);
      BoundedStep(s, steps[0]);
      assert j in s1.db.jobs ==> JobOk(s1, j);
      LastsAdvance(s, s1, steps[0], j, w, g, deadline);
      LeaseLasts(s1, steps[1..], j, w, g, deadline);
    }
  }

  /** More than the margin is left in real time, although both sides of the test are cut to seconds. */
  lemma MarginInTicks(row: Job, now: nat)
    requires LeaseBeyond(row, Sec(now) + SUBMIT_MARGIN)
    ensures row.expires.value * TICKS_PER_SECOND > now + SUBMIT_MARGIN * TICKS_PER_SECOND
  {
    assert row.expires.value >= Sec(now) + SUBMIT_MARGIN + 1;
    assert now < (Sec(now) + 1) * TICKS_PER_SECOND;
  }

  /** Neither a sweep nor a claim may count the job's lease as over, whatever earlier time it has
      sampled, and no sweep that listed the claim earlier can still mark it. */
  ghost predicate Untouchable(t: System, j: JobId) {
    && j in t.db.jobs && !Stranded(t.db.jobs[j], t.now)
    && (forall sample | 0 <= sample <= t.now :: !LeaseOver(t.db.jobs[j], Sec(sample)))
    && (forall owner, g, pick | Enabled(t, Recover(j, MarkStranded(owner, g, pick))) ::
          !MayMark(t.db, j, SweepMark(owner, g), None, t.now))
  }

  lemma NotYetOver(t: System, j: JobId, w: WorkerId, g: nat)
    requires Inv(t) && NotesSound(t) && Owns(t.db, j, w, g)
    requires t.db.jobs[j].expires.Some? && t.db.jobs[j].expires.value * TICKS_PER_SECOND > t.now
    ensures Untouchable(t, j)
  {
    hide RowFine, RunFine, AttemptFine, FenceOk, TakeoverOk, PublishedOk, IsTarget;
    assert t.db.jobs[j].expires.value > Sec(t.now);
    forall owner, g', pick | Enabled(t, Recover(j, MarkStranded(owner, g', pick)))
      ensures !MayMark(t.db, j, SweepMark(owner, g'), None, t.now)
    {
      assert NoteSound(t, StrandedRead(j, owner, g'));
    }
  }

  /** The margin is real.  From a moment at which the intent may be committed, or the click fence
      opens, and for 20 seconds of real time, through every run in which heartbeats, sweeps and
      everyone else interleave: as long as the claim stands, no sweep and no claim can take the
      job for a stranded or expired one. */
  lemma MarginIsReal(origin: System, before: seq<Step>, steps: seq<Step>, a: AttemptId, j: JobId, w: WorkerId, g: nat)
    requires Initial(origin) && Valid(origin, before)
    requires var s := After(origin, before);
             && (MayCommitIntent(s.db, a, j, w, g, s.now) || FenceOpens(s.db, a, j, w, g, s.now))
             && Valid(s, steps) && After(s, steps).now <= s.now + 20 * 1_000_000
    ensures var t := After(After(origin, before), steps);
            Owns(t.db, j, w, g) ==> Untouchable(t, j)
  {
    hide Apply, FenceOk, TakeoverOk, PublishedOk, RowsOk, Untouchable;
    var s := After(origin, before);
    var t := After(s, steps);
    InitialInv(origin);
    RunKeeps(origin, before);
    NotesAlwaysSound(origin, before);
    LeasesAlwaysBounded(origin, before);
    MarginInTicks(s.db.jobs[j], s.now);
    LeaseLasts(s, steps, j, w, g, s.now + SUBMIT_MARGIN * TICKS_PER_SECOND);
    RunKeeps(s, steps);
    NotesAlwaysSound(s, steps);
    if Owns(t.db, j, w, g) {
      NotYetOver(t, j, w, g);
    }
  }
}
