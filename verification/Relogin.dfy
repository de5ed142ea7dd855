/** A login-parked job that an operator reopens: the session on the screen is fenced off until the
    job is claimed again. */
module Relogin {
  import opened Rows
  import opened Rules
  import opened Bulk
  import opened Protocol
  import opened Invariant
  import opened WorkerSteps
  import opened OperatorSteps
  import opened Advance
  import opened Footprint

  /** The job waits for its next claim, and the control row names the browser of that claim. */
  predicate AwaitsClaim(s: System, j: JobId, g: nat) {
    && j in s.db.jobs && s.db.jobs[j].state == Ready && s.db.jobs[j].owner.None? && s.db.jobs[j].gen + 1 == g
    && s.db.ctrl.browserJob == Some(j) && s.db.ctrl.sessionGen == Some(g) && !s.db.ctrl.browserActive
  }

  /** The steps of workers and sweeps, other than the next claim of the job. */
  predicate ByOthers(step: Step, j: JobId) {
    || step.Tick? || step.Enqueue? || step.SetStatus? || step.Heartbeat? || step.Work? || step.Recover?
    || (step.ClaimNext? && step.job != j)
  }

  predicate SameSession(c: Control, c': Control) {
    c'.browserJob == c.browserJob && c'.sessionGen == c.sessionGen && c'.browserActive == c.browserActive
  }

  /** No publication of an older claim, or of another job, gets past the record. */
  lemma PublicationRefused(s: System, j: JobId, g: nat, r: RunId, active: bool, closed: bool)
    requires AwaitsClaim(s, j, g) && (r.job == j ==> r.gen < g)
    ensures SetBrowserState(s.db, RunPublication(r, active, closed), s.now) == s.db
  {
  }

  lemma ActSession(s: System, r: RunId, act: Act, j: JobId, g: nat)
    requires ActAllowed(s, r, act) && AwaitsClaim(s, j, g) && (r.job == j ==> r.gen < g)
    requires act.PauseForLogin? || act.Doubt? || act.PublishBrowser?
    ensures SameSession(s.db.ctrl, ActEffect(s, r, act).db.ctrl)
  {
    hide SetBrowserState, MayPublish, NamesClaim, AwaitsClaim, MayMark;
    if act.PublishBrowser? {
      PublicationRefused(s, j, g, r, act.active, act.closed);
    }
  }

  lemma SweepSession(s: System, k: JobId, sweep: Sweep)
    requires SweepAllowed(s, k, sweep)
    ensures SameSession(s.db.ctrl, SweepEffect(s, k, sweep).db.ctrl)
  {
    hide IsLatest;
  }

  lemma AwaitsStep(s: System, step: Step, j: JobId, g: nat)
    requires Inv(s) && Enabled(s, step) && AwaitsClaim(s, j, g) && ByOthers(step, j)
    ensures AwaitsClaim(Apply(s, step), j, g)
  {
    hide ActEffect, SweepEffect, CallEffect, CommandEffect, Best, FenceOk, TakeoverOk, PublishedOk, NotesOk;
    match step
    case Work(r, act) =>
      assert RunOk(s, r);
      ActRow(s, r, act);
      if act.PauseForLogin? || act.Doubt? || act.PublishBrowser? { ActSession(s, r, act, j, g); }
    case Recover(k, sweep) =>
      SweepRow(s, k, sweep);
      SweepSession(s, k, sweep);
    case _ =>
  }

  lemma {:induction false} AwaitsThroughout(s: System, steps: seq<Step>, j: JobId, g: nat)
    requires Inv(s) && Valid(s, steps) && AwaitsClaim(s, j, g) && forall i | 0 <= i < |steps| :: ByOthers(steps[i], j)
    ensures AwaitsClaim(After(s, steps), j, g) && Inv(After(s, steps))
    decreases |steps|
  {
    hide Apply, Inv, AwaitsClaim;
    if steps != [] {
      StepKeeps(s, steps[0]);
      AwaitsStep(s, steps[0], j, g);
      AwaitsThroughout(Apply(s, steps[0]), steps[1..], j, g);
    }
  }

  lemma ReopeningRecords(s: System, j: JobId, expected: Option<OperatorId>)
    requires Enabled(s, Operate(j, ReopenLogin(expected))) && MayRequeueAuth(s.db, j, expected, s.now)
    ensures var t := Apply(s, Operate(j, ReopenLogin(expected)));
            AwaitsClaim(t, j, s.db.jobs[j].gen + 1) && !t.db.ctrl.paused && t.db.ctrl.takeoverOwner.None?
  {
    hide CutGrants, OwnerGate;
  }

  /** `v` is `u` after the claim of job `j` by `w`, and at `at` it takes the claim's browser. */
  ghost predicate TakesBrowser(v: System, j: JobId, g: nat, at: nat) {
    var shown := SetBrowserState(v.db, RunPublication(RunId(j, g), true, false), at);
    shown.ctrl.browserActive && shown.ctrl.browserJob == Some(j) && shown.ctrl.sessionGen == Some(g)
    && shown.ctrl.shutdownGen.None?
  }

  lemma NextClaimIsRecorded(u: System, j: JobId, g: nat, w: WorkerId, sample: nat, at: nat)
    requires AwaitsClaim(u, j, g)
    ensures var v := ClaimTaken(u, j, w, sample);
            Owns(v.db, j, w, g) && (Sec(at) < Sec(sample) + LEASE_SECONDS ==> TakesBrowser(v, j, g, at))
  {
  }

  /** An admitted reopening frees takeover and pause and names the job's next claim in the control
      row.  Whatever workers and sweeps then do, in any order and with any stale publication, the
      record stands; the job's next claim is the one it names, and that claim's browser is accepted
      until its lease is over. */
  lemma ReopenedLoginIsFenced(s: System, j: JobId, expected: Option<OperatorId>, steps: seq<Step>, w: WorkerId,
                              sample: nat, at: nat)
    requires Inv(s) && Enabled(s, Operate(j, ReopenLogin(expected))) && MayRequeueAuth(s.db, j, expected, s.now)
    requires Valid(Apply(s, Operate(j, ReopenLogin(expected))), steps)
    requires forall i | 0 <= i < |steps| :: ByOthers(steps[i], j)
    ensures var t := Apply(s, Operate(j, ReopenLogin(expected)));
            !t.db.ctrl.paused && t.db.ctrl.takeoverOwner.None?
    ensures var u := After(Apply(s, Operate(j, ReopenLogin(expected))), steps);
            && AwaitsClaim(u, j, s.db.jobs[j].gen + 1)
            && var v := ClaimTaken(u, j, w, sample);
            && Owns(v.db, j, w, s.db.jobs[j].gen + 1)
            && (Sec(at) < Sec(sample) + LEASE_SECONDS ==> TakesBrowser(v, j, s.db.jobs[j].gen + 1, at))
  {
    hide Inv, Enabled, Apply, TakesBrowser;
    var t := Apply(s, Operate(j, ReopenLogin(expected)));
    StepKeeps(s, Operate(j, ReopenLogin(expected)));
    ReopeningRecords(s, j, expected);
    AwaitsThroughout(t, steps, j, s.db.jobs[j].gen + 1);
    NextClaimIsRecorded(After(t, steps), j, s.db.jobs[j].gen + 1, w, sample, at);
  }
}
