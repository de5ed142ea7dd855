/** Operator takeover and browser publications, over every run of the protocol. */
module Takeover {
  import opened Rows
  import opened Rules
  import opened Bulk
  import opened Protocol
  import opened Invariant
  import opened OperatorSteps
  import opened Advance

  // ---------------------------------------------------------------- one operator at a time

  /** `op` holds control at `time` according to the history of grants. */
  ghost predicate Holds(grants: seq<Grant>, op: OperatorId, time: nat) {
    exists i | 0 <= i < |grants| :: grants[i].owner == op && grants[i].start <= time < grants[i].end
  }

  lemma OneHolder(grants: seq<Grant>, a: OperatorId, b: OperatorId, time: nat)
    requires GrantsDisjoint(grants) && Holds(grants, a, time) && Holds(grants, b, time)
    ensures a == b
  {
    var i :| 0 <= i < |grants| && grants[i].owner == a && grants[i].start <= time < grants[i].end;
    var k :| 0 <= k < |grants| && grants[k].owner == b && grants[k].start <= time < grants[k].end;
    assert i < k ==> grants[i].end <= grants[k].start;
    assert k < i ==> grants[k].end <= grants[i].start;
  }

  lemma HolderIsStored(s: System, op: OperatorId)
    requires TakeoverOk(s)
    ensures Holds(s.grants, op, s.now) <==> s.db.ctrl.takeoverOwner == Some(op) && TakeoverLive(s.db.ctrl, s.now)
  {
    var n := |s.grants| - 1;
    forall i | 0 <= i < n ensures s.grants[i].end <= s.now {
      assert s.grants[i].end <= s.grants[n].start;
    }
    if s.db.ctrl.takeoverOwner == Some(op) && TakeoverLive(s.db.ctrl, s.now) {
      assert s.grants[n].owner == op && s.grants[n].start <= s.now < s.grants[n].end;
    }
  }

  /** At no moment of any run did two operators hold control; the stored lease is the history's
      present, and it never reaches further than 300 seconds ahead. */
  lemma TakeoverExclusion(s: System, steps: seq<Step>, a: OperatorId, b: OperatorId, time: nat)
    requires Initial(s) && Valid(s, steps)
    ensures var t := After(s, steps);
            && (Holds(t.grants, a, time) && Holds(t.grants, b, time) ==> a == b)
            && (Holds(t.grants, a, t.now) <==> t.db.ctrl.takeoverOwner == Some(a) && TakeoverLive(t.db.ctrl, t.now))
            && (t.db.ctrl.takeoverExpires.Some?
                ==> t.db.ctrl.takeoverExpires.value <= Sec(t.now) + TAKEOVER_MAX_SECONDS)
  {
    RunKeeps(s, steps);
    var t := After(s, steps);
    HolderIsStored(t, a);
    if Holds(t.grants, a, time) && Holds(t.grants, b, time) {
      OneHolder(t.grants, a, b, time);
    }
  }

  /** Although a claim reads the clock before it waits for the locks: when it is granted to a new
      operator, the previous lease is over by the time it takes effect.  A renewal prolongs only
      the caller's own unexpired lease, and otherwise changes nothing. */
  lemma GrantsAndRenewals(s: System, op: OperatorId, seconds: nat, sample: nat)
    requires Inv(s) && LeaseLengthOk(seconds) && sample <= s.now
    ensures MayClaimTakeover(s.db, op, sample) && s.db.ctrl.takeoverOwner != Some(op)
            ==> !TakeoverLive(s.db.ctrl, s.now)
    ensures TakeoverLive(s.db.ctrl, s.now) && s.db.ctrl.takeoverOwner != Some(op)
            ==> ClaimTakeover(s.db, op, seconds, sample) == s.db
    ensures var db := RenewTakeover(s.db, op, seconds, s.now);
            if s.db.ctrl.takeoverOwner == Some(op) && TakeoverLive(s.db.ctrl, s.now)
            then db.ctrl == s.db.ctrl.(takeoverExpires := Some(Sec(s.now) + seconds))
            else db == s.db
  {
    var c := s.db.ctrl;
    if c.takeoverExpires.Some? && sample >= c.takeoverExpires.value * TICKS_PER_SECOND {
      assert Sec(s.now) >= c.takeoverExpires.value;
    }
  }

  /** Control is granted to whoever finds it free: if nobody else held it at the moment the claim
      sampled the clock, and nobody else was granted it since, the claim succeeds. */
  lemma FreeControlIsGranted(s: System, op: OperatorId, seconds: nat, sample: nat)
    requires Inv(s) && Enabled(s, Govern(TakeControl(op, seconds, sample)))
    requires forall other | other != op :: !Holds(s.grants, other, sample)
    requires forall i | 0 <= i < |s.grants| && s.grants[i].owner != op :: s.grants[i].start <= sample
    ensures var t := Apply(s, Govern(TakeControl(op, seconds, sample)));
            && t.db.ctrl.takeoverOwner == Some(op) && t.db.ctrl.takeoverExpires == Some(sample / 1_000_000 + seconds)
            && t.db.ctrl.paused && (t.now < (sample / 1_000_000 + seconds) * 1_000_000 ==> Holds(t.grants, op, t.now))
  {
    hide RowsOk, FenceOk, PublishedOk, NotesOk;
    var step, c := Govern(TakeControl(op, seconds, sample)), s.db.ctrl;
    if c.takeoverOwner.Some? && c.takeoverOwner != Some(op) {
      var n := |s.grants| - 1;
      assert s.grants[n].owner == c.takeoverOwner.value && s.grants[n].start <= sample;
      assert !Holds(s.grants, c.takeoverOwner.value, sample);
    }
    assert MayClaimTakeover(s.db, op, sample);
    StepKeeps(s, step);
    HolderIsStored(Apply(s, step), op);
  }

  /** `grants'` tells the same story as `grants` about every moment before `now`. */
  ghost predicate SamePast(grants: seq<Grant>, grants': seq<Grant>, now: nat) {
    && |grants| <= |grants'|
    && (forall i | 0 <= i < |grants| ::
          && grants'[i].owner == grants[i].owner && grants'[i].start == grants[i].start
          && (grants'[i].end == grants[i].end || (now <= grants[i].end && now <= grants'[i].end)))
    && (forall i | |grants| <= i < |grants'| :: now <= grants'[i].start)
  }

  lemma ControlSamePast(s: System, command: Command)
    requires CommandAllowed(s, command) && TakeoverOk(s)
    ensures SamePast(s.grants, CommandEffect(s, command).grants, s.now)
  {
    hide ClearReset, EmergencyStop, ShutdownAll, MayPublish, NamesClaim, MayClaimTakeover, ClaimTakeover,
      RenewTakeover, SetBrowserState, ReleaseTakeover, ClearTakeover, GrantsDisjoint, StopCommits, SetPause,
      SetStop, ClearStop, BrowserShutdown, Lists, PicksLatest;
  }

  lemma StepSamePast(s: System, step: Step)
    requires Inv(s) && Enabled(s, step)
    ensures SamePast(s.grants, Apply(s, step).grants, s.now)
  {
    hide ActEffect, SweepEffect, CallEffect, CommandEffect, TakeoverOk, RowsOk, FenceOk, PublishedOk, NotesOk;
    match step
    case Work(r, act) => ActIsAloof(s, r, act);
    case Recover(j, sweep) => SweepIsAloof(s, j, sweep);
    case Operate(j, call) => CallIsAloof(s, j, call);
    case Govern(command) => ControlSamePast(s, command);
    case _ =>
  }

  /** Who held control at an earlier moment is never rewritten. */
  lemma GrantsAreHistory(s: System, step: Step, op: OperatorId, time: nat)
    requires Inv(s) && Enabled(s, step) && time < s.now
    ensures Holds(Apply(s, step).grants, op, time) <==> Holds(s.grants, op, time)
  {
    hide Apply, Inv;
    StepSamePast(s, step);
    var grants' := Apply(s, step).grants;
    if Holds(s.grants, op, time) {
      var i :| 0 <= i < |s.grants| && s.grants[i].owner == op && s.grants[i].start <= time < s.grants[i].end;
      assert grants'[i].owner == op && grants'[i].start <= time < grants'[i].end;
    }
  }

  /** An admitted release leaves no holder: nobody holds control from now on until the next grant,
      anyone may claim it at once, and the runtime stays paused as it was.  Only an unforced release
      in another operator's name is refused, and then nothing changes. */
  lemma ReleaseFrees(s: System, op: Option<OperatorId>, force: bool, other: OperatorId, sample: nat)
    requires Inv(s) && Enabled(s, Govern(ReleaseControl(op, force)))
    ensures var t := Apply(s, Govern(ReleaseControl(op, force)));
            var foreign := !force && op.Some? && s.db.ctrl.takeoverOwner.Some? && s.db.ctrl.takeoverOwner != op;
            if foreign then t == s
            else
              && !Holds(t.grants, other, t.now) && MayClaimTakeover(t.db, other, sample)
              && t.db.ctrl.paused == s.db.ctrl.paused && t.db.ctrl.stopped == s.db.ctrl.stopped
              && t.db.jobs == s.db.jobs && t.runs == s.runs
  {
    hide RowsOk, FenceOk, PublishedOk, NotesOk;
    var step := Govern(ReleaseControl(op, force));
    StepKeeps(s, step);
    HolderIsStored(Apply(s, step), other);
  }

  // ---------------------------------------------------------------- browser publications

  lemma RunPublishes(s: System, r: RunId, act: Act, j: JobId)
    requires Inv(s) && ActAllowed(s, r, act) && act.PublishBrowser? && j in s.published
    ensures var t := ActEffect(s, r, act); j in t.published && s.published[j] <= t.published[j]
  {
    hide RowsOk, FenceOk, TakeoverOk, NotesOk;
    assert s.published[j] <= s.db.jobs[j].gen;
  }

  lemma PublicationStep(s: System, step: Step, j: JobId)
    requires Inv(s) && Enabled(s, step) && j in s.published
    ensures var t := Apply(s, step); j in t.published && s.published[j] <= t.published[j]
  {
    hide ActEffect, SweepEffect, CallEffect, RowsOk, FenceOk, TakeoverOk, NotesOk;
    match step
    case Work(r, act) =>
      ActIsAloof(s, r, act);
      if act.PublishBrowser? { RunPublishes(s, r, act, j); }
    case Recover(k, sweep) => SweepIsAloof(s, k, sweep);
    case Operate(k, call) => CallIsAloof(s, k, call);
    case Govern(command) =>
      CommandIsAloof(s, command);
      assert s.published[j] <= s.db.jobs[j].gen;
    case _ =>
  }

  /** The generations published for one job never go down. */
  lemma {:induction false} PublicationsGrow(s: System, steps: seq<Step>, j: JobId)
    requires Inv(s) && Valid(s, steps) && j in s.published
    ensures var t := After(s, steps); j in t.published && s.published[j] <= t.published[j]
    decreases |steps|
  {
    if steps != [] {
      StepKeeps(s, steps[0]);
      PublicationStep(s, steps[0], j);
      PublicationsGrow(Apply(s, steps[0]), steps[1..], j);
    }
  }

  /** An active publication naming a job and a generation is stored only while that generation is
      the job's live claim, and then exactly as given, with any shutdown marker removed. */
  lemma ActivePublication(db: Db, j: JobId, g: nat, closed: bool, now: nat)
    ensures var c := SetBrowserState(db, Publication(true, closed, Some(j), Some(g)), now).ctrl;
            if CurrentClaim(db, j, g, now) && (db.ctrl.browserJob.None? || db.ctrl.browserJob == Some(j))
            then c.browserActive && c.browserJob == Some(j) && c.sessionGen == Some(g) && c.shutdownGen.None?
            else c == db.ctrl
  {
  }

  /** A session's close against what is recorded: it is ignored exactly when another job is
      recorded, or the same job with another generation; otherwise it clears the record. */
  lemma CloseDecides(db: Db, j: JobId, g: nat, now: nat)
    ensures var p := Publication(false, true, Some(j), Some(g));
            var c := SetBrowserState(db, p, now).ctrl;
            if db.ctrl.browserJob.Some? && (db.ctrl.browserJob != Some(j) || (db.ctrl.sessionGen.Some?
                                                                              && db.ctrl.sessionGen != Some(g)))
            then c == db.ctrl
            else !c.browserActive && c.browserClosed && c.browserJob.None? && (db.ctrl.browserJob == Some(j)
                                                                               ==> c.sessionGen.None?)
  {
  }

  /** A stale session's close never touches a replacement with a recorded job and generation. */
  lemma StaleCloseIsIgnored(db: Db, j: JobId, g: nat, closed: bool, now: nat)
    requires db.ctrl.browserJob.Some? && db.ctrl.sessionGen.Some?
    requires (db.ctrl.browserJob.value, db.ctrl.sessionGen.value) != (j, g)
    ensures SetBrowserState(db, Publication(false, closed, Some(j), Some(g)), now) == db
  {
  }
}
