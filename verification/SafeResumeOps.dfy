/** The two fenced halves of safe resume, as the sequences of transactions they are. */
module SafeResumeOps {
  import opened Rows
  import opened Rules
  import opened Queue

  datatype Verdict = OwnerRequired | ClaimChanged | StopNotCleared | TakeoverNotCleared | Resumed

  /** Clear the stop, clear the takeover, unpause: each checks the owner again. */
  function Opened(db: Db, expected: Option<OperatorId>, t2: nat, t3: nat): Db {
    SetPause(ClearTakeover(ClearStop(db, expected, t2), expected, t3), false, None, t3)
  }

  function OpeningVerdict(db: Db, expected: Option<OperatorId>, t2: nat, t3: nat): Verdict {
    if !OwnerGate(db, expected, t2) then StopNotCleared
    else if !OwnerGate(ClearStop(db, expected, t2), expected, t3) then TakeoverNotCleared
    else Resumed
  }

  method Open(db: Database, expected: Option<OperatorId>, t2: nat, t3: nat) returns (verdict: Verdict)
    modifies db`ctrl
    ensures verdict == OpeningVerdict(old(db.Snapshot()), expected, t2, t3)
    ensures verdict == Resumed ==> db.Snapshot() == Opened(old(db.Snapshot()), expected, t2, t3)
    ensures verdict != Resumed ==> db.ctrl == old(db.ctrl) || db.ctrl == old(db.ctrl).(stopped := false)
  {
    var owned := db.OwnerMatches(expected, t2);
    if !owned {
      return StopNotCleared;
    }
    db.ctrl := db.ctrl.(stopped := false);
    owned := db.OwnerMatches(expected, t3);
    if !owned {
      return TakeoverNotCleared;
    }
    db.ctrl := db.ctrl.(takeoverOwner := None, takeoverExpires := None);
    db.ctrl := db.ctrl.(paused := false);
    return Resumed;
  }

  /** The job's claim was found confirmed: it is marked applied while the claim stands, by a caller
      who holds the takeover.  The job keeps its owner and generation. */
  method ResumeConfirmed(db: Database, j: JobId, w: WorkerId, g: nat, expected: Option<OperatorId>, t1: nat, t2: nat,
                         t3: nat)
    returns (verdict: Verdict)
    modifies db
    ensures var before := old(db.Snapshot());
            var marked := TransitionJob(before, j, w, g, Live(Applied), t1);
            if !OwnerGate(before, expected, t1) then verdict == OwnerRequired && db.Snapshot() == before
            else if !MayResume(before, j, w, g, t1) || before.jobs[j].cancelled then verdict == ClaimChanged
                                                                                     && db.Snapshot() == before
            else
              && verdict == OpeningVerdict(marked, expected, t2, t3)
              && db.jobs == before.jobs[j := before.jobs[j].(state := Applied)]
              && (verdict == Resumed ==> db.Snapshot() == Opened(marked, expected, t2, t3))
  {
    var owned := db.OwnerMatches(expected, t1);
    if !owned {
      return OwnerRequired;
    }
    if j !in db.jobs || !Resumable(db.jobs[j].state) || db.jobs[j].gen != g || db.jobs[j].owner != Some(w)
       || db.jobs[j].expires.None? || db.jobs[j].expires.value <= Sec(t1) {
      return ClaimChanged;
    }
    var moved := db.TransitionJob(j, w, g, Live(Applied), t1);
    if !moved {
      return ClaimChanged;
    }
    verdict := Open(db, expected, t2, t3);
  }

  /** Without a confirmation the claim is given up and the job queued again, under its old generation. */
  method ResumeReleased(db: Database, j: JobId, w: WorkerId, g: nat, expected: Option<OperatorId>, t1: nat, t2: nat,
                        t3: nat)
    returns (verdict: Verdict)
    modifies db
    ensures var before := old(db.Snapshot());
            var released := SafeResumeReady(before, j, w, g, expected, t1);
            if !OwnerGate(before, expected, t1) then verdict == OwnerRequired && db.Snapshot() == before
            else if !MayResume(before, j, w, g, t1) then verdict == ClaimChanged && db.Snapshot() == before
            else
              && verdict == OpeningVerdict(released, expected, t2, t3)
              && db.jobs == before.jobs[j := ReleasedRow(before.jobs[j])]
              && (verdict == Resumed ==> db.Snapshot() == Opened(released, expected, t2, t3))
  {
    var owned := db.OwnerMatches(expected, t1);
    if !owned {
      return OwnerRequired;
    }
    if j !in db.jobs || !Resumable(db.jobs[j].state) || db.jobs[j].gen != g || db.jobs[j].owner != Some(w)
       || db.jobs[j].expires.None? || db.jobs[j].expires.value <= Sec(t1) {
      return ClaimChanged;
    }
    db.jobs := db.jobs[j := db.jobs[j].(state := Ready, owner := None, expires := None)];
    verdict := Open(db, expected, t2, t3);
  }

  /** A resume is approved for a named owner exactly when that owner's lease is live at each of its
      checks, and always when no owner is named; it then leaves the runtime open and free of takeover,
      and everything else alone.  If the lease runs out on the way the job has moved all the same. */
  lemma ResumeIsGated(db: Db, expected: Option<OperatorId>, t2: nat, t3: nat)
    requires t2 <= t3
    ensures var holds := db.ctrl.takeoverOwner == expected && db.ctrl.takeoverExpires.Some?;
            && (OpeningVerdict(db, expected, t2, t3) == Resumed <==>
                expected.None? || (holds && db.ctrl.takeoverExpires.value > Sec(t3)))
            && (OpeningVerdict(db, expected, t2, t3) == StopNotCleared <==>
                expected.Some? && !(holds && db.ctrl.takeoverExpires.value > Sec(t2)))
    ensures OpeningVerdict(db, expected, t2, t3) in {Resumed, StopNotCleared, TakeoverNotCleared}
    ensures OpeningVerdict(db, expected, t2, t3) == Resumed ==>
              Opened(db, expected, t2, t3)
              == db.(ctrl := db.ctrl.(stopped := false, paused := false, takeoverOwner := None,
              takeoverExpires := None))
  {
    assert Sec(t2) <= Sec(t3);
  }
}
