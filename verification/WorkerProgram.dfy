/** The worker's handling of one claim: process_claimed_job and run_autonomous_apply with their flags,
    against a world that may answer anything. Whatever it answers, the acts come in an order that the
    protocol's runs allow. */
module WorkerProgram {
  import opened Rows
  import opened Rules
  import opened Protocol

  // ---------------------------------------------------------------- the program's place in the protocol

  datatype Place = Place(phase: Phase, attempt: bool, budget: bool)

  function PlaceOf(run: Run): Place {
    Place(run.phase, run.attempt.Some?, run.budget.Some?)
  }

  /** Whether a run standing there may take the act next. */
  predicate Offers(p: Place, act: Act) {
    match act
    case OpenAttempt(_) => p.phase == Working && !p.attempt
    case Interrupt(to) => p.phase == Working && Exceptional(to)
    case FailTransient(_) => p.phase == Working && p.budget
    case CommitIntent => p.phase == Working && p.attempt
    case OpenFence => p.phase == Intended && p.attempt
    case Click => p.phase == Fenced
    case CloseFence(ok) => p.phase == Clicking || (p.phase == Fenced && !ok)
    case AnnounceVerifying => p.phase == Submitted
    case SkipVerifying => p.phase == Submitted
    case Confirm => p.phase == Awaiting
    case Reject => p.phase == Awaiting
    case Doubt(_) => p.phase.Intended? || p.phase.Awaiting? || p.phase.Uncertain?
    case RecordOutcome(_) => p.phase == Finished && p.attempt
    case RecordFillOnly => p.phase == Finished && p.attempt
    case PublishBrowser(_, _) => true
    case RecordApplication(_, _) => true
    case EndRun => true
    case _ => p.phase == Working
  }

  /** Where the act leads; `ok` is the answer of the intent and of the permit. */
  function Next(p: Place, act: Act, ok: bool): Place {
    match act
    case OpenAttempt(_) => p.(attempt := true)
    case Navigate => p
    case PauseForLogin => p
    case PublishBrowser(_, _) => p
    case RecordApplication(_, _) => p
    case ReadBudget => p.(budget := true)
    case CommitIntent => if ok then p.(phase := Intended) else p
    case OpenFence => p.(phase := if ok then Fenced else Uncertain)
    case Click => p.(phase := Clicking)
    case CloseFence(clean) => p.(phase := if clean then Submitted else Uncertain)
    case AnnounceVerifying => p.(phase := Awaiting)
    case SkipVerifying => p.(phase := Awaiting)
    case RecordOutcome(_) => p
    case RecordFillOnly => p
    case _ => p.(phase := Finished)
  }

  /** What the protocol asks of an act besides the run's place. */
  ghost predicate Circumstances(s: System, r: RunId, act: Act)
    requires r in s.runs
  {
    match act
    case OpenAttempt(a) => a !in s.db.attempts
    case FailTransient(t) => t <= s.now
    case HandBack(_, t) => t <= s.now
    case Doubt(pick) => IsTarget(s.db, r.job, DoubtMark(r, s.runs[r]), pick)
    case RecordFillOnly => s.runs[r].attempt.Some? ==> s.runs[r].attempt.value in s.db.attempts
    case _ => true
  }

  /** The database's answer to an act: whether its guarded write took effect. */
  predicate Accepted(s: System, r: RunId, act: Act)
    requires r in s.runs
  {
    var run := s.runs[r];
    match act
    case CommitIntent =>
      run.attempt.Some? && MayCommitIntent(s.db, run.attempt.value, r.job, run.worker, r.gen, s.now)
    case OpenFence => run.attempt.Some? && FenceOpens(s.db, run.attempt.value, r.job, run.worker, r.gen, s.now)
    case Confirm => MayMove(s.db, r.job, run.worker, r.gen, Live(Applied), s.now)
    case Reject => MayMove(s.db, r.job, run.worker, r.gen, Live(FailedPermanent), s.now)
    case Interrupt(to) => MayMove(s.db, r.job, run.worker, r.gen, Live(to), s.now)
    case FailTransient(_) => MayMove(s.db, r.job, run.worker, r.gen, Live(RetryWait), s.now)
    case HandBack(_, _) => MayMove(s.db, r.job, run.worker, r.gen, Live(RetryWait), s.now)
    case Doubt(_) => MayMark(s.db, r.job, DoubtMark(r, run), None, s.now)
    case _ => true
  }

  lemma OffersAgree(s: System, r: RunId, act: Act)
    requires r in s.runs
    ensures ActAllowed(s, r, act) <==> Offers(PlaceOf(s.runs[r]), act) && Circumstances(s, r, act)
  {
    hide IsTarget, DoubtMark;
  }

  lemma MoveAgrees(s: System, r: RunId, m: Move, p: Phase, delay: nat, at: nat)
    requires r in s.runs
    ensures r in RunMove(s, r, m, p).runs && PlaceOf(RunMove(s, r, m, p).runs[r]) == PlaceOf(s.runs[r]).(phase := p)
    ensures r in HandedBack(s, r, delay, at).runs
    ensures PlaceOf(HandedBack(s, r, delay, at).runs[r]) == PlaceOf(s.runs[r]).(phase := Finished)
  {
    hide TransitionJob, MayMove;
  }

  lemma PublishAgrees(s: System, p: Publication)
    ensures Published(s, p).runs == s.runs
  {
    hide SetBrowserState, MayPublish, NamesClaim;
  }

  lemma NextAgrees(s: System, r: RunId, act: Act)
    requires ActAllowed(s, r, act)
    ensures r in ActEffect(s, r, act).runs
    ensures PlaceOf(ActEffect(s, r, act).runs[r]) == Next(PlaceOf(s.runs[r]), act, Accepted(s, r, act))
  {
    hide RunMove, HandedBack, Published, MarkAmbiguous, RecordSubmitIntent, CompleteAttempt, FenceOpens,
      MayCommitIntent, IsTarget, MayMove, CreateAttempt, CompletedAttempt, ReadCounters, TransientMove, DoubtMark,
      Unfenced, SetPause, MayMark;
    match act
    case Navigate => MoveAgrees(s, r, Plain(Navigating), Working, 0, 0);
    case ParkForLogin => MoveAgrees(s, r, Plain(AuthRequired), Finished, 0, 0);
    case Interrupt(to) => MoveAgrees(s, r, Live(to), Finished, 0, 0);
    case FailForGood => MoveAgrees(s, r, Live(FailedPermanent), Finished, 0, 0);
    case FailTransient(t) =>
      var budget := s.runs[r].budget.value;
      MoveAgrees(s, r, TransientMove(budget.count, budget.maxRetries, t), Finished, 0, 0);
    case HandBack(delay, t) => MoveAgrees(s, r, Plain(RetryWait), Finished, delay, t);
    case FinishFillOnly => MoveAgrees(s, r, Plain(Skipped), Finished, 0, 0);
    case AnnounceVerifying => MoveAgrees(s, r, Plain(Verifying), Awaiting, 0, 0);
    case Confirm => MoveAgrees(s, r, Live(Applied), Finished, 0, 0);
    case Reject => MoveAgrees(s, r, Live(FailedPermanent), Finished, 0, 0);
    case PublishBrowser(active, closed) => PublishAgrees(s, RunPublication(r, active, closed));
    case _ =>
  }

  /** Places are the protocol's: an act is allowed exactly where it is offered, circumstances
      permitting, and takes the run to the next place. */
  lemma PlacesAgree(s: System, r: RunId, act: Act)
    requires r in s.runs
    ensures ActAllowed(s, r, act) <==> Offers(PlaceOf(s.runs[r]), act) && Circumstances(s, r, act)
    ensures ActAllowed(s, r, act) ==>
              && r in ActEffect(s, r, act).runs
              && PlaceOf(ActEffect(s, r, act).runs[r]) == Next(PlaceOf(s.runs[r]), act, Accepted(s, r, act))
  {
    hide ActAllowed, ActEffect, Offers, Next, Accepted, Circumstances;
    OffersAgree(s, r, act);
    if ActAllowed(s, r, act) {
      NextAgrees(s, r, act);
    }
  }

  datatype Entry = Entry(act: Act, ok: bool)

  function PlaceAfter(log: seq<Entry>): Place {
    if log == [] then Place(Working, false, false)
    else Next(PlaceAfter(log[..|log| - 1]), log[|log| - 1].act, log[|log| - 1].ok)
  }

  /** Every act of the log was offered where it was taken. */
  predicate Follows(log: seq<Entry>) {
    log == [] || (Follows(log[..|log| - 1]) && Offers(PlaceAfter(log[..|log| - 1]), log[|log| - 1].act))
  }

  function Clicks(log: seq<Entry>): nat {
    if log == [] then 0 else Clicks(log[..|log| - 1]) + if log[|log| - 1].act.Click? then 1 else 0
  }

  /** The act that ended the run, if it has ended. */
  function Decision(log: seq<Entry>): Option<Act> {
    if log == [] then None
    else if Decision(log[..|log| - 1]).Some? then Decision(log[..|log| - 1])
    else if PlaceAfter(log).phase == Finished then Some(log[|log| - 1].act)
    else None
  }

  function Rank(p: Phase): nat {
    match p
    case Working => 0
    case Intended => 1
    case Fenced => 2
    case Clicking => 3
    case _ => 4
  }

  /** A log that follows the places presses the button at most once, and only under an accepted
      permit after an accepted intent. */
  lemma {:induction false} OneClickPerRun(log: seq<Entry>)
    requires Follows(log)
    ensures Clicks(log) <= 1 && (Rank(PlaceAfter(log).phase) < 3 ==> Clicks(log) == 0)
    ensures Rank(PlaceAfter(log).phase) >= 1 && PlaceAfter(log).phase != Finished ==> Entry(CommitIntent, true) in log
    ensures Clicks(log) > 0 ==> Entry(CommitIntent, true) in log && Entry(OpenFence, true) in log
    ensures PlaceAfter(log).phase == Fenced ==> Entry(OpenFence, true) in log
    decreases |log|
  {
    if log != [] {
      OneClickPerRun(log[..|log| - 1]);
      assert log == log[..|log| - 1] + [log[|log| - 1]];
    }
  }

  predicate Retries(act: Act) {
    act.FailTransient? || act.HandBack? || act.Interrupt? || act.FailForGood? || act.ParkForLogin?
    || act.FinishFillOnly?
    || act.Navigate?
  }

  /** After an accepted intent a log never takes a pre-submit exit again: nothing requeues or parks
      the job, and the run ends rejected, confirmed or in doubt, or simply ends. */
  lemma {:induction false} NoRetryAfterIntent(log: seq<Entry>, i: nat, k: nat)
    requires Follows(log) && i < k < |log| && log[i] == Entry(CommitIntent, true)
    ensures !Retries(log[k].act) && !log[k].act.CommitIntent?
    ensures PlaceAfter(log).phase != Working
    decreases |log|
  {
    var front := log[..|log| - 1];
    if k < |log| - 1 {
      NoRetryAfterIntent(front, i, k);
    }
    if i < |log| - 2 {
      NoRetryAfterIntent(front, i, |log| - 2);
    }
  }

  // ---------------------------------------------------------------- the world

  datatype Gate = Clear | Pacing | Daily | Refused

  datatype Page =
    | Unreachable | Stale | Invalid | Blocked | FilledOnly
    | Challenge(state: JobState) | Unforeseen | PageCancelled | Submittable

  datatype Button = NeverPressed | PressedThenFailed | Pressed

  datatype Finding = NoFinding | ConfirmedFinding | AmbiguousFinding | UnconfirmedFinding

  /** Every answer the program may get. `lostFrom` counts the queries of the heartbeat flag, the
      worker's own and those of the page's cancellation check; `finalOk`
      and `exhausted` are the database's answers to the last transition. */
  datatype World = World(
    diskOk: bool, appFound: bool, aggregator: bool, artifactsOk: bool, halted: bool,
    earlyGate: Gate, starts: bool, authRetry: bool, page: Page,
    intentGate: Gate, intentOk: bool, cancelledAfterIntent: bool, cancelledAtPermit: bool, permitOk: bool,
    button: Button, verifyingOk: bool, finding: Finding, finalOk: bool, exhausted: bool, keepOpen: bool,
    lostFrom: nat, attempt: AttemptId, app: AppId, at: nat)

  datatype Exc = GateError(delay: nat) | ChallengeError(state: JobState) | OtherError

  datatype Status = AppliedStatus | AmbiguousStatus | FillOnlyStatus | FailedStatus

  datatype Result = Returned(status: Status) | Raised(exc: Exc)

  // ---------------------------------------------------------------- how a run has to end

  /** The world lets the intent be committed once the submit stage is reached. */
  predicate Commits(w: World) {
    w.page == Submittable && w.intentGate == Clear && w.intentOk
  }

  /** The world lets the button be pressed once the submit stage is reached. */
  predicate Presses(w: World) {
    Commits(w) && !w.cancelledAfterIntent && !w.cancelledAtPermit && w.permitOk && w.button != NeverPressed
  }

  function GateDelay(gate: Gate): nat {
    if gate == Pacing then 300 else 3600
  }

  /** What run_autonomous_apply has to report to a worker that keeps its lease. */
  function ReportOf(w: World): Result {
    match w.page
    case FilledOnly => Returned(FillOnlyStatus)
    case Challenge(state) => Raised(ChallengeError(state))
    case Unforeseen => Raised(OtherError)
    case PageCancelled => Raised(OtherError)
    case Submittable =>
      if w.intentGate == Pacing || w.intentGate == Daily then Raised(GateError(GateDelay(w.intentGate)))
      else if !Commits(w) then Returned(FailedStatus)
      else if Presses(w) && w.button == Pressed && w.finding == ConfirmedFinding then Returned(AppliedStatus)
      else Returned(AmbiguousStatus)
    case _ => Returned(FailedStatus)
  }

  function EvidenceOf(w: World): Finding {
    if Presses(w) && w.button == Pressed then w.finding else NoFinding
  }

  /** The exit of a run at the submit stage. */
  function SubmitExit(w: World): Act {
    if Commits(w) then
      match EvidenceOf(w)
      case ConfirmedFinding => Confirm
      case UnconfirmedFinding => Reject
      case _ => Doubt(Some(w.attempt))
    else match ReportOf(w)
         case Raised(GateError(delay)) => HandBack(delay, w.at)
         case Raised(ChallengeError(state)) => Interrupt(state)
         case Raised(OtherError) => Interrupt(SiteChanged)
         case Returned(FillOnlyStatus) => FinishFillOnly
         case _ => FailTransient(w.at)
  }

  /** The claim never gets to the page. */
  predicate TurnsBack(w: World) {
    || !w.diskOk || !w.appFound || w.aggregator || !w.artifactsOk || w.halted
    || w.earlyGate == Pacing || w.earlyGate == Daily || !w.starts || w.authRetry
  }

  /** The exit of a run that keeps its lease. */
  function Exit(w: World): Act {
    if !w.diskOk then EndRun
    else if !w.appFound then Interrupt(SiteChanged)
    else if w.aggregator then FailForGood
    else if !w.artifactsOk then FailTransient(w.at)
    else if w.halted then EndRun
    else if w.earlyGate == Pacing || w.earlyGate == Daily then HandBack(GateDelay(w.earlyGate), w.at)
    else if !w.starts then Interrupt(SiteChanged)
    else if w.authRetry then ParkForLogin
    else SubmitExit(w)
  }

  /** What the exits mean: a job is confirmed only on confirmed evidence after a press that went
      through; a press without evidence, or one that failed, ends in doubt; so does a committed
      intent without a press; and before the intent nothing ends confirmed, rejected or in doubt. */
  lemma ExitIsSafe(w: World)
    ensures Exit(w).Confirm? <==> !TurnsBack(w) && Presses(w) && w.button == Pressed && w.finding == ConfirmedFinding
    ensures Exit(w).Reject? <==> !TurnsBack(w) && Presses(w) && w.button == Pressed && w.finding == UnconfirmedFinding
    ensures Exit(w).Doubt? <==>
            !TurnsBack(w) && Commits(w)
            && !(Presses(w) && w.button == Pressed
                 && (w.finding == ConfirmedFinding || w.finding == UnconfirmedFinding))
    ensures !TurnsBack(w) && Commits(w) ==> !Retries(Exit(w)) && Exit(w) != EndRun
    ensures !TurnsBack(w) && w.page == Submittable && (w.intentGate == Pacing || w.intentGate == Daily)
            ==> Exit(w).HandBack?
  {
  }

  /** What the world has to answer for each exit, said on its answers. */
  lemma ExitByAnswers(w: World)
    ensures var checked := w.diskOk && w.appFound && !w.aggregator && w.artifactsOk && !w.halted;
            var arrived := checked && (w.earlyGate == Clear || w.earlyGate == Refused) && w.starts;
            var browsing := arrived && !w.authRetry;
            var submitting := browsing && w.page == Submittable;
            var pressed := submitting && w.intentGate == Clear && w.intentOk && !w.cancelledAfterIntent
                           && !w.cancelledAtPermit && w.permitOk && w.button != NeverPressed;
            && (Exit(w) == EndRun <==> !w.diskOk || (w.appFound && !w.aggregator && w.artifactsOk && w.halted))
            && (Exit(w) == FailForGood <==> w.diskOk && w.appFound && w.aggregator)
            && (Exit(w) == ParkForLogin <==> arrived && w.authRetry)
            && (Exit(w) == FinishFillOnly <==> browsing && w.page == FilledOnly)
            && (Exit(w) == HandBack(300, w.at) <==>
                (checked && w.earlyGate == Pacing) || (submitting && w.intentGate == Pacing))
            && (Exit(w) == HandBack(3600, w.at) <==>
                (checked && w.earlyGate == Daily) || (submitting && w.intentGate == Daily))
            && (Exit(w) == FailTransient(w.at) <==>
                || (w.diskOk && w.appFound && !w.aggregator && !w.artifactsOk)
                || (browsing && w.page in {Unreachable, Stale, Invalid, Blocked})
                || (submitting && (w.intentGate == Refused || (w.intentGate == Clear && !w.intentOk))))
            && (forall state :: Exit(w) == Interrupt(state) <==>
                                || (state == SiteChanged
                                    && (|| (w.diskOk && !w.appFound)
                                        || (checked && (w.earlyGate == Clear || w.earlyGate == Refused) && !w.starts)
                                        || (browsing && w.page in {Unforeseen, PageCancelled})))
                                || (browsing && w.page == Challenge(state)))
            && (Exit(w) == Confirm <==> pressed && w.button == Pressed && w.finding == ConfirmedFinding)
            && (Exit(w) == Reject <==> pressed && w.button == Pressed && w.finding == UnconfirmedFinding)
            && (Exit(w) == Doubt(Some(w.attempt)) <==>
                submitting && w.intentGate == Clear && w.intentOk
                && !(pressed && w.button == Pressed && w.finding in {ConfirmedFinding, UnconfirmedFinding}))
            && (!TurnsBack(w) && Presses(w) <==> pressed)
  {
  }

  /** What run_autonomous_apply reports, said on the same answers. */
  lemma ReportByAnswers(w: World)
    ensures var committed := w.page == Submittable && w.intentGate == Clear && w.intentOk;
            var through := committed && !w.cancelledAfterIntent && !w.cancelledAtPermit && w.permitOk
                           && w.button == Pressed;
            && (ReportOf(w) == Returned(AppliedStatus) <==> through && w.finding == ConfirmedFinding)
            && (ReportOf(w) == Returned(AmbiguousStatus) <==> committed && !(through && w.finding == ConfirmedFinding))
            && (ReportOf(w) == Returned(FillOnlyStatus) <==> w.page == FilledOnly)
            && (ReportOf(w) == Returned(FailedStatus) <==>
                || w.page in {Unreachable, Stale, Invalid, Blocked}
                || (w.page == Submittable && (w.intentGate == Refused || (w.intentGate == Clear && !w.intentOk))))
            && (ReportOf(w) == Raised(GateError(300)) <==> w.page == Submittable && w.intentGate == Pacing)
            && (ReportOf(w) == Raised(GateError(3600)) <==> w.page == Submittable && w.intentGate == Daily)
            && (forall state :: ReportOf(w) == Raised(ChallengeError(state)) <==> w.page == Challenge(state))
            && (ReportOf(w) == Raised(OtherError) <==> w.page in {Unforeseen, PageCancelled})
            && (EvidenceOf(w) == ConfirmedFinding <==> through && w.finding == ConfirmedFinding)
            && (EvidenceOf(w) == UnconfirmedFinding <==> through && w.finding == UnconfirmedFinding)
            && (EvidenceOf(w) == AmbiguousFinding <==> through && w.finding == AmbiguousFinding)
  {
  }

  /** How a run that lost its lease may end. */
  predicate LossExit(log: seq<Entry>) {
    Decision(log) == Some(EndRun) || Decision(log) == Some(Interrupt(SiteChanged))
  }

  // ---------------------------------------------------------------- the program

  class WorkerRun {
    const world: World
    var isPreSubmit: bool
    var boundaryReached: bool
    var fenceHeld: bool
    var lastEvidence: Finding
    var queries: nat
    var log: seq<Entry>

    constructor (world: World)
      ensures this.world == world && Fresh()
    {
      this.world := world;
      isPreSubmit, boundaryReached, fenceHeld, lastEvidence, queries, log := true, false, false, NoFinding, 0, [];
    }

    ghost predicate Fresh()
      reads this
    {
      && Valid() && PlaceAfter(log) == Place(Working, false, false) && Clicks(log) == 0 && !boundaryReached
      && lastEvidence == NoFinding && queries == 0
    }

    /** The flags against the place: pre-submit is the phase before the intent, and the boundary and
        the fence lie beyond it. */
    ghost predicate Valid()
      reads this
    {
      && Follows(log)
      && (Decision(log).None? <==> PlaceAfter(log).phase != Finished)
      && (PlaceAfter(log).phase != Finished ==> (isPreSubmit <==> PlaceAfter(log).phase == Working))
      && (PlaceAfter(log).phase != Finished ==>
            (fenceHeld <==> PlaceAfter(log).phase.Fenced? || PlaceAfter(log).phase.Clicking?))
      && (boundaryReached ==> !isPreSubmit)
    }

    /** The heartbeat's loss has been noticed. */
    predicate Lost()
      reads this
    {
      queries > world.lostFrom
    }

    method Take(act: Act, ok: bool)
      requires Follows(log) && Offers(PlaceAfter(log), act)
      modifies this`log
      ensures Follows(log) && log == old(log) + [Entry(act, ok)]
      ensures PlaceAfter(log) == Next(old(PlaceAfter(log)), act, ok)
      ensures Clicks(log) == old(Clicks(log)) + if act.Click? then 1 else 0
      ensures Decision(log) == if old(Decision(log)).Some? then old(Decision(log))
                               else if PlaceAfter(log).phase == Finished then Some(act) else None
    {
      log := log + [Entry(act, ok)];
      assert log[..|log| - 1] == old(log);
    }

    method HeartbeatLost() returns (lost: bool)
      modifies this`queries
      ensures lost == Lost() && (old(Lost()) ==> lost)
    {
      lost := queries >= world.lostFrom;
      queries := queries + 1;
    }

    /** on_submit_intent: the flag falls only after the intent is on disk. */
    method SubmitIntentGate() returns (raised: Option<Exc>)
      requires Valid() && PlaceAfter(log).phase == Working && PlaceAfter(log).attempt
      requires world.page == Submittable && !Lost()
      modifies this`isPreSubmit, this`queries, this`log
      ensures Valid() && PlaceAfter(log).attempt && Clicks(log) == old(Clicks(log))
      ensures PlaceAfter(log).phase == if raised.None? then Intended else Working
      ensures !Lost() ==> (raised.None? <==> Commits(world))
      ensures raised.Some? ==> !raised.value.ChallengeError? && (Lost() ==> raised.value.OtherError?)
      ensures raised.Some? && !Lost() ==>
                if world.intentGate == Pacing || world.intentGate == Daily
                then raised.value == GateError(GateDelay(world.intentGate)) else raised.value.OtherError?
      ensures raised.None? ==> !Lost()
    {
      hide Follows, PlaceAfter, Clicks, Decision;
      var lost := HeartbeatLost();
      if lost {
        return Some(OtherError);
      }
      match world.intentGate {
        case Pacing => return Some(GateError(300));
        case Daily => return Some(GateError(3600));
        case Refused => return Some(OtherError);
        case Clear =>
      }
      Take(CommitIntent, world.intentOk);
      if !world.intentOk {
        return Some(OtherError);
      }
      isPreSubmit := false;
      return None;
    }

    method GuardedSubmitIntent() returns (raised: Option<Exc>)
      requires Valid() && PlaceAfter(log).phase == Working && PlaceAfter(log).attempt
      requires world.page == Submittable && !Lost()
      requires !boundaryReached
      modifies this`isPreSubmit, this`boundaryReached, this`queries, this`log
      ensures Valid() && PlaceAfter(log).attempt && Clicks(log) == old(Clicks(log))
      ensures boundaryReached <==> PlaceAfter(log).phase == Intended
      ensures !boundaryReached <==> PlaceAfter(log).phase == Working
      ensures !Lost() ==> (boundaryReached <==> Commits(world))
      ensures raised.None? <==> boundaryReached && !Lost() && !world.cancelledAfterIntent
      ensures raised.Some? ==> !raised.value.ChallengeError? && (Lost() || boundaryReached ==> raised.value.OtherError?)
      ensures raised.Some? && !Lost() && !boundaryReached ==>
                if world.intentGate == Pacing || world.intentGate == Daily
                then raised.value == GateError(GateDelay(world.intentGate)) else raised.value.OtherError?
    {
      hide Follows, PlaceAfter, Clicks, Decision;
      raised := SubmitIntentGate();
      if raised.Some? {
        return;
      }
      boundaryReached := true;
      var lost := HeartbeatLost();
      if lost || world.cancelledAfterIntent {
        return Some(OtherError);
      }
    }

    method GuardedSubmitPermit() returns (raised: Option<Exc>)
      requires Valid() && PlaceAfter(log).phase == Intended && PlaceAfter(log).attempt
      modifies this`boundaryReached, this`fenceHeld, this`queries, this`log
      ensures Valid() && boundaryReached && PlaceAfter(log).attempt && Clicks(log) == old(Clicks(log))
      ensures raised.None? ==> PlaceAfter(log).phase == Fenced && !Lost()
      ensures raised.Some? ==>
                raised.value.OtherError? && (PlaceAfter(log).phase.Intended? || PlaceAfter(log).phase.Uncertain?)
      ensures !Lost() ==> (raised.None? <==> !world.cancelledAtPermit && world.permitOk)
      ensures old(Lost()) ==> Lost()
    {
      hide Follows, PlaceAfter, Clicks, Decision;
      boundaryReached := true;
      var lost := HeartbeatLost();
      if lost || world.cancelledAtPermit {
        return Some(OtherError);
      }
      lost := HeartbeatLost();
      if lost {
        return Some(OtherError);
      }
      Take(OpenFence, world.permitOk);
      if !world.permitOk {
        return Some(OtherError);
      }
      fenceHeld := true;
      return None;
    }

    /** The adapter's contract: the intent, then the permit, then at most one press. */
    method AdapterSubmit() returns (raised: Option<Exc>)
      requires Valid() && PlaceAfter(log).phase == Working && PlaceAfter(log).attempt
      requires world.page == Submittable && !Lost()
      requires !boundaryReached && Clicks(log) == 0
      modifies this`isPreSubmit, this`boundaryReached, this`fenceHeld, this`queries, this`log
      ensures Valid() && PlaceAfter(log).attempt
      ensures raised.None? ==> boundaryReached && PlaceAfter(log).phase == Clicking
      ensures raised.Some? ==> !raised.value.ChallengeError? && (Lost() || boundaryReached ==> raised.value.OtherError?)
      ensures raised.Some? && !boundaryReached ==> PlaceAfter(log).phase == Working
      ensures raised.Some? && boundaryReached ==>
                || PlaceAfter(log).phase.Intended? || PlaceAfter(log).phase.Uncertain?
                || PlaceAfter(log).phase.Fenced? || PlaceAfter(log).phase.Clicking?
      ensures !Lost() ==>
                && (boundaryReached <==> Commits(world)) && Clicks(log) == (if Presses(world) then 1 else 0)
                && (raised.None? <==> Presses(world) && world.button == Pressed)
      ensures Clicks(log) > 0 ==> Presses(world)
      ensures raised.Some? && !Lost() && !boundaryReached ==>
                if world.intentGate == Pacing || world.intentGate == Daily
                then raised.value == GateError(GateDelay(world.intentGate)) else raised.value.OtherError?
    {
      hide Follows, PlaceAfter, Clicks, Decision;
      raised := GuardedSubmitIntent();
      if raised.Some? {
        return;
      }
      raised := GuardedSubmitPermit();
      if raised.Some? {
        return;
      }
      if world.button == NeverPressed {
        return Some(OtherError);
      }
      Take(Click, true);
      if world.button == PressedThenFailed {
        return Some(OtherError);
      }
      return None;
    }

    /** Releases the fence, if it is held. */
    method FinishFence(clicked: bool)
      requires Valid() && PlaceAfter(log).phase != Finished && (clicked ==> PlaceAfter(log).phase == Clicking)
      modifies this`log, this`fenceHeld
      ensures Valid() && PlaceAfter(log).attempt == old(PlaceAfter(log).attempt) && Clicks(log) == old(Clicks(log))
      ensures PlaceAfter(log).phase == if old(fenceHeld) then (if clicked then Submitted else Uncertain)
                                       else old(PlaceAfter(log).phase)
    {
      hide Follows, PlaceAfter, Clicks, Decision;
      if fenceHeld {
        Take(CloseFence(clicked), true);
        fenceHeld := false;
      }
    }

    /** Looks for evidence after a submission that went through, and reports it. A failed announcement
        is only noted; a lease lost by then leaves the submission without evidence. */
    method Verify() returns (status: Status)
      requires Valid() && PlaceAfter(log).phase == Submitted && PlaceAfter(log).attempt && boundaryReached
      requires lastEvidence == NoFinding
      modifies this`log, this`queries, this`lastEvidence
      ensures Valid() && PlaceAfter(log).attempt && PlaceAfter(log).phase == Awaiting && Clicks(log) == old(Clicks(log))
      ensures (old(Lost()) ==> Lost()) && lastEvidence == if Lost() then NoFinding else world.finding
      ensures status == if lastEvidence == ConfirmedFinding then AppliedStatus else AmbiguousStatus
    {
      hide Follows, PlaceAfter, Clicks, Decision;
      Take(if world.verifyingOk then AnnounceVerifying else SkipVerifying, true);
      var lost := HeartbeatLost();
      if !lost {
        lastEvidence := world.finding;
      }
      if lastEvidence == ConfirmedFinding {
        Take(RecordApplication(world.app, AppliedApp), true);
        return AppliedStatus;
      }
      Take(RecordApplication(world.app, if boundaryReached then AmbiguousApp else FailedApp), true);
      return if boundaryReached then AmbiguousStatus else FailedStatus;
    }

    /** Submits the filled form and looks for evidence. Once the boundary is reached every failure is
        reported as ambiguous; before it, none is. */
    method SubmitStage() returns (result: Result)
      requires Valid() && PlaceAfter(log).phase == Working && PlaceAfter(log).attempt && !boundaryReached && !Lost()
      requires lastEvidence == NoFinding && Clicks(log) == 0 && world.page == Submittable
      modifies this
      ensures Valid() && PlaceAfter(log).attempt && PlaceAfter(log).phase != Finished
      ensures !Lost() ==> result == ReportOf(world) && lastEvidence == EvidenceOf(world)
      ensures !Lost() ==> Clicks(log) == (if Presses(world) then 1 else 0)
      ensures Clicks(log) > 0 ==> Presses(world)
      ensures result.Raised? && Lost() ==> result == Raised(OtherError)
      ensures if boundaryReached then result == Returned(AppliedStatus) || result == Returned(AmbiguousStatus)
              else result.Raised? || result == Returned(FailedStatus) || result == Returned(FillOnlyStatus)
      ensures !boundaryReached ==> PlaceAfter(log).phase == Working
      ensures boundaryReached ==>
                || PlaceAfter(log).phase == Awaiting
                || (lastEvidence == NoFinding && (PlaceAfter(log).phase.Intended? || PlaceAfter(log).phase.Uncertain?))
      ensures result == Returned(AppliedStatus)
              ==> PlaceAfter(log).phase == Awaiting && lastEvidence == ConfirmedFinding
      ensures lastEvidence != NoFinding ==> PlaceAfter(log).phase == Awaiting
    {
      hide Follows, PlaceAfter, Clicks, Decision;
      var lost := HeartbeatLost();
      if lost {
        return Raised(OtherError);
      }
      boundaryReached := false;
      lost := HeartbeatLost();
      if lost {
        Take(RecordApplication(world.app, FailedApp), true);
        return Returned(FailedStatus);
      }
      var raised := AdapterSubmit();
      if raised.Some? {
        FinishFence(false);
        if raised.value.GateError? {
          return Raised(raised.value);
        }
        Take(RecordApplication(world.app, if boundaryReached then AmbiguousApp else FailedApp), true);
        return Returned(if boundaryReached then AmbiguousStatus else FailedStatus);
      }
      FinishFence(true);
      var status := Verify();
      return Returned(status);
    }

    /** Opens and fills the form, submits, and looks for evidence, or says why not. */
    method RunAutonomousApply() returns (result: Result)
      requires Valid() && PlaceAfter(log).phase == Working && PlaceAfter(log).attempt && !boundaryReached && !Lost()
      requires lastEvidence == NoFinding && Clicks(log) == 0
      modifies this
      ensures Valid() && PlaceAfter(log).attempt && PlaceAfter(log).phase != Finished
      ensures !Lost() ==> result == ReportOf(world) && lastEvidence == EvidenceOf(world)
      ensures !Lost() ==> Clicks(log) == (if Presses(world) then 1 else 0)
      ensures Clicks(log) > 0 ==> Presses(world)
      ensures result.Raised? && Lost() ==> result == Raised(OtherError)
      ensures if boundaryReached then result == Returned(AppliedStatus) || result == Returned(AmbiguousStatus)
              else result.Raised? || result == Returned(FailedStatus) || result == Returned(FillOnlyStatus)
      ensures !boundaryReached ==> PlaceAfter(log).phase == Working
      ensures boundaryReached ==>
                || PlaceAfter(log).phase == Awaiting
                || (lastEvidence == NoFinding && (PlaceAfter(log).phase.Intended? || PlaceAfter(log).phase.Uncertain?))
      ensures result == Returned(AppliedStatus)
              ==> PlaceAfter(log).phase == Awaiting && lastEvidence == ConfirmedFinding
      ensures lastEvidence != NoFinding ==> PlaceAfter(log).phase == Awaiting
    {
      hide Follows, PlaceAfter, Clicks, Decision;
      var lost := HeartbeatLost();
      if lost {
        return Raised(OtherError);
      }
      match world.page {
        case Unreachable => return Returned(FailedStatus);
        case Stale => return Returned(FailedStatus);
        case Invalid => return Returned(FailedStatus);
        case Blocked => return Returned(FailedStatus);
        case FilledOnly =>
          Take(RecordApplication(world.app, OtherStatus), true);
          return Returned(FillOnlyStatus);
        case Challenge(state) => return Raised(ChallengeError(state));
        case Unforeseen => return Raised(OtherError);
        case PageCancelled => return Raised(OtherError);
        case Submittable => result := SubmitStage();
      }
    }

    // -------------------------------------------------------------- outcomes

    /** complete_attempt after a transition: only its winner closes the attempt. */
    method Record(outcome: Outcome)
      requires Follows(log) && PlaceAfter(log).phase == Finished && Decision(log).Some?
      modifies this`log
      ensures Follows(log) && PlaceAfter(log) == old(PlaceAfter(log)) && Decision(log) == old(Decision(log))
      ensures Clicks(log) == old(Clicks(log))
      ensures log == old(log)
                     + if world.finalOk && PlaceAfter(log).attempt then [Entry(RecordOutcome(outcome), true)] else []
    {
      hide Follows, PlaceAfter, Clicks, Decision;
      if world.finalOk && PlaceAfter(log).attempt {
        Take(RecordOutcome(outcome), true);
      }
    }

    /** The entries of an exit: the act, and the attempt's outcome if the act took effect. */
    function Closing(act: Act, outcome: Outcome, attempt: bool): seq<Entry> {
      [Entry(act, world.finalOk)] + if world.finalOk && attempt then [Entry(RecordOutcome(outcome), true)] else []
    }

    /** handle_job_failure in its place: before the boundary by category and counters, beyond it always
        in doubt. Only an exit that took effect records an outcome, and doubt records its own. */
    method Fail(category: Option<JobState>)
      requires Valid() && PlaceAfter(log).phase != Finished
      requires isPreSubmit || PlaceAfter(log).phase.Intended? || PlaceAfter(log).phase.Uncertain?
               || PlaceAfter(log).phase.Awaiting?
      requires category.Some? ==> Exceptional(category.value)
      modifies this`log
      ensures Follows(log) && PlaceAfter(log).phase == Finished && Clicks(log) == old(Clicks(log))
      ensures Decision(log) == Some(if !isPreSubmit then Doubt(Some(world.attempt))
                                    else if category.Some? then Interrupt(category.value) else FailTransient(world.at))
      ensures !isPreSubmit ==> log == old(log) + [Entry(Doubt(Some(world.attempt)), world.finalOk)]
      ensures isPreSubmit && category.Some? ==>
                log == old(log)
                + Closing(Interrupt(category.value), Reached(category.value), old(PlaceAfter(log).attempt))
      ensures isPreSubmit && category.None? ==>
                log == old(log) + [Entry(ReadBudget, true)]
                + Closing(FailTransient(world.at), Reached(if world.exhausted then FailedPermanent else RetryWait),
                          old(PlaceAfter(log).attempt))
    {
      hide Follows, PlaceAfter, Clicks, Decision;
      if !isPreSubmit {
        Take(Doubt(Some(world.attempt)), world.finalOk);
      } else if category.Some? {
        Take(Interrupt(category.value), world.finalOk);
        Record(Reached(category.value));
      } else {
        Take(ReadBudget, true);
        Take(FailTransient(world.at), world.finalOk);
        Record(Reached(if world.exhausted then FailedPermanent else RetryWait));
      }
    }

    /** reconcile_submission_outcome: the evidence decides, not the reported status. Confirmed evidence
        is applied and then recorded as applied; ambiguous evidence is doubt, which records its own
        outcome; anything else is rejected for good, and recorded so. */
    method Reconcile(evidence: Finding)
      requires Valid() && evidence != NoFinding && PlaceAfter(log).attempt
      requires PlaceAfter(log).phase == Awaiting
               || (evidence == AmbiguousFinding
                   && (PlaceAfter(log).phase.Intended? || PlaceAfter(log).phase.Uncertain?))
      modifies this`log
      ensures Follows(log) && PlaceAfter(log).phase == Finished && Clicks(log) == old(Clicks(log))
      ensures evidence == ConfirmedFinding ==>
                && Decision(log) == Some(Confirm)
                && log == old(log) + Closing(Confirm, Reached(Applied), true)
                          + if world.finalOk then [Entry(RecordApplication(world.app, AppliedApp), true)] else []
      ensures evidence == AmbiguousFinding ==>
                && Decision(log) == Some(Doubt(Some(world.attempt)))
                && log == old(log) + [Entry(Doubt(Some(world.attempt)), world.finalOk)]
      ensures evidence == UnconfirmedFinding ==>
                && Decision(log) == Some(Reject)
                && log == old(log) + Closing(Reject, Reached(FailedPermanent), true)
    {
      hide Follows, PlaceAfter, Clicks, Decision;
      if evidence == ConfirmedFinding {
        Take(Confirm, world.finalOk);
        Record(Reached(Applied));
        if world.finalOk {
          Take(RecordApplication(world.app, AppliedApp), true);
        }
      } else if evidence == AmbiguousFinding {
        Take(Doubt(Some(world.attempt)), world.finalOk);
      } else {
        Take(Reject, world.finalOk);
        Record(Reached(FailedPermanent));
      }
    }

    /** reschedule_for_safety_gate. */
    method HandBackFor(delay: nat)
      requires Valid() && PlaceAfter(log).phase == Working
      modifies this`log
      ensures Follows(log) && PlaceAfter(log).phase == Finished && Clicks(log) == old(Clicks(log))
      ensures Decision(log) == Some(HandBack(delay, world.at))
      ensures log == old(log) + Closing(HandBack(delay, world.at), SafetyGateWait, old(PlaceAfter(log).attempt))
    {
      hide Follows, PlaceAfter, Clicks, Decision;
      Take(HandBack(delay, world.at), world.finalOk);
      Record(SafetyGateWait);
    }

    /** Ends the run by what run_autonomous_apply reported or raised. */
    method Conclude(result: Result)
      requires Valid() && PlaceAfter(log).attempt && PlaceAfter(log).phase != Finished
      requires !Lost() ==> result == ReportOf(world) && lastEvidence == EvidenceOf(world)
      requires result.Raised? && Lost() ==> result == Raised(OtherError)
      requires if boundaryReached then result == Returned(AppliedStatus) || result == Returned(AmbiguousStatus)
               else result.Raised? || result == Returned(FailedStatus) || result == Returned(FillOnlyStatus)
      requires !boundaryReached ==> PlaceAfter(log).phase == Working && lastEvidence == NoFinding
      requires boundaryReached ==>
                 || PlaceAfter(log).phase == Awaiting
                 || (lastEvidence == NoFinding && (PlaceAfter(log).phase.Intended? || PlaceAfter(log).phase.Uncertain?))
      requires result == Returned(AppliedStatus) ==> lastEvidence == ConfirmedFinding
      requires world.page.Challenge? ==> Exceptional(world.page.state)
      modifies this
      ensures Follows(log) && PlaceAfter(log).phase == Finished && Clicks(log) == old(Clicks(log))
      ensures Decision(log) == Some(if !Lost() then SubmitExit(world)
                                    else if result.Raised? then Interrupt(SiteChanged) else EndRun)
      ensures old(Lost()) ==> Lost()
    {
      hide Follows, PlaceAfter, Clicks, Decision;
      match result {
        case Raised(GateError(delay)) => HandBackFor(delay);
        case Raised(ChallengeError(state)) => Fail(Some(state));
        case Raised(OtherError) => Fail(Some(SiteChanged));
        case Returned(status) =>
          var lost := HeartbeatLost();
          if lost {
            Take(EndRun, true);
            return;
          }
          var evidence := lastEvidence;
          if status == AppliedStatus || status == AmbiguousStatus || evidence != NoFinding {
            if evidence == NoFinding {
              evidence := if status == AppliedStatus then ConfirmedFinding else AmbiguousFinding;
            }
            Reconcile(evidence);
          } else if status == FillOnlyStatus {
            Take(FinishFillOnly, true);
            Take(RecordFillOnly, true);
          } else {
            Fail(None);
          }
      }
    }

    /** Before the browser: the checks that need no page, and the attempt. */
    method Prepare() returns (ended: bool)
      requires Fresh()
      modifies this
      ensures if ended then Follows(log) && PlaceAfter(log).phase == Finished && Clicks(log) == 0
              else Valid() && PlaceAfter(log) == Place(Working, true, false) && Clicks(log) == 0 && !boundaryReached
                   && lastEvidence == NoFinding && !Lost()
      ensures ended ==> TurnsBack(world) || Lost()
      ensures ended ==> Decision(log) == Some(if Lost() then EndRun else Exit(world))
      ensures !ended ==> world.diskOk && world.appFound && !world.aggregator && world.artifactsOk && !world.halted
                         && (world.earlyGate == Clear || world.earlyGate == Refused)
    {
      hide Follows, PlaceAfter, Clicks, Decision;
      if !world.diskOk {
        Take(EndRun, true);
        return true;
      }
      if !world.appFound {
        Fail(Some(SiteChanged));
        return true;
      }
      if world.aggregator {
        Take(FailForGood, world.finalOk);
        return true;
      }
      if !world.artifactsOk {
        Fail(None);
        return true;
      }
      Take(OpenAttempt(world.attempt), true);
      if world.halted {
        Take(EndRun, true);
        return true;
      }
      var lost := HeartbeatLost();
      if lost {
        Take(EndRun, true);
        return true;
      }
      if world.earlyGate == Pacing {
        HandBackFor(300);
        return true;
      }
      if world.earlyGate == Daily {
        HandBackFor(3600);
        return true;
      }
      return false;
    }

    /** Starts the browser and opens the page, unless the lease is lost or the browser fails. */
    method Start() returns (ended: bool)
      requires Valid() && PlaceAfter(log) == Place(Working, true, false) && !Lost()
      modifies this`queries, this`log
      ensures Clicks(log) == old(Clicks(log))
      ensures if ended then Follows(log) && PlaceAfter(log).phase == Finished
              else Valid() && PlaceAfter(log) == Place(Working, true, false) && world.starts && !Lost()
      ensures ended ==> Lost() || !world.starts
      ensures ended ==> Decision(log) == Some(if Lost() then EndRun else Interrupt(SiteChanged))
    {
      hide Follows, PlaceAfter, Clicks, Decision;
      var lost := HeartbeatLost();
      if lost {
        Take(EndRun, true);
        return true;
      }
      if !world.starts {
        Fail(Some(SiteChanged));
        return true;
      }
      lost := HeartbeatLost();
      if lost {
        Take(EndRun, true);
        return true;
      }
      Take(PublishBrowser(true, false), true);
      Take(Navigate, true);
      return false;
    }

    /** A requested login: open the page between two looks at the lease, pause, park the job, and
        publish the browser if it is still open. */
    method OpenLogin()
      requires Valid() && PlaceAfter(log) == Place(Working, true, false) && !Lost()
      modifies this`queries, this`log
      ensures Follows(log) && PlaceAfter(log).phase == Finished && Clicks(log) == old(Clicks(log))
      ensures Decision(log) == Some(if Lost() then EndRun else ParkForLogin)
    {
      hide Follows, PlaceAfter, Clicks, Decision;
      var lost := HeartbeatLost();
      if !lost {
        lost := HeartbeatLost();
      }
      if lost {
        Take(EndRun, true);
        return;
      }
      Take(PauseForLogin, true);
      Take(ParkForLogin, world.finalOk);
      if world.keepOpen {
        Take(PublishBrowser(true, false), true);
      }
    }

    /** From the start of the browser to the run's exit. */
    method Browse()
      requires Valid() && PlaceAfter(log) == Place(Working, true, false) && Clicks(log) == 0 && !boundaryReached
      requires lastEvidence == NoFinding && !Lost() && (world.page.Challenge? ==> Exceptional(world.page.state))
      requires world.diskOk && world.appFound && !world.aggregator && world.artifactsOk && !world.halted
               && (world.earlyGate == Clear || world.earlyGate == Refused)
      modifies this
      ensures Follows(log) && PlaceAfter(log).phase == Finished
      ensures if Lost() then LossExit(log) else Decision(log) == Some(Exit(world))
      ensures !Lost() ==> Clicks(log) == if !TurnsBack(world) && Presses(world) then 1 else 0
      ensures Clicks(log) > 0 ==> !TurnsBack(world) && Presses(world)
    {
      hide Follows, PlaceAfter, Clicks, Decision, SubmitExit, Presses, ReportOf, EvidenceOf, Offers, Next;
      var ended := Start();
      if ended {
        return;
      }
      if world.authRetry {
        OpenLogin();
        return;
      }
      var result := RunAutonomousApply();
      Conclude(result);
    }

    /** The whole handling of a claim. Whatever the world answers, every act is one the protocol offers
        the run at that point; a run that loses its lease just ends, or takes the failure exit if the
        page's check saw the loss before the intent; every other run takes the exit its world calls
        for, and presses exactly when its world lets it. */
    method ProcessClaimedJob()
      requires Fresh() && (world.page.Challenge? ==> Exceptional(world.page.state))
      modifies this
      ensures Follows(log) && PlaceAfter(log).phase == Finished
      ensures if Lost() then LossExit(log) else Decision(log) == Some(Exit(world))
      ensures !Lost() ==> Clicks(log) == if !TurnsBack(world) && Presses(world) then 1 else 0
      ensures Clicks(log) > 0 ==> !TurnsBack(world) && Presses(world)
    {
      hide Follows, PlaceAfter, Clicks, Decision;
      var ended := Prepare();
      if ended {
        return;
      }
      Browse();
      if Lost() || !world.keepOpen {
        Take(PublishBrowser(false, true), true);
      }
    }
  }
}
