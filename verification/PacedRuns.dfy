/** The daily limit over runs of the protocol: the gate counts the attempts table itself. */
module PacedRuns {
  import opened Rows
  import opened Rules
  import opened Bulk
  import opened Protocol
  import opened Invariant
  import opened WorkerSteps
  import opened BulkFacts
  import opened OperatorSteps
  import opened Advance
  import opened Footprint
  import RateLimit

  type Attempts = map<AttemptId, Attempt>

  predicate IsApplied(att: Attempt) {
    att.outcome == Some(Reached(Applied)) && att.completedAt.Some?
  }

  /** What the gate counts: applied attempts completed at the cutoff or later. */
  ghost function Since(attempts: Attempts, cutoff: int): set<AttemptId> {
    set a | a in attempts && IsApplied(attempts[a]) && attempts[a].completedAt.value >= cutoff
  }

  /** Applied attempts completed in the closed 24-hour window that begins at `from`. */
  ghost function InWindow(attempts: Attempts, from: int): set<AttemptId> {
    set a | a in Since(attempts, from) && attempts[a].completedAt.value <= from + RateLimit.WINDOW_SECONDS
  }

  // ---------------------------------------------------------------- who completes attempts as applied

  /** Every applied attempt was applied before, at the same time. */
  ghost predicate NoneApplied(attempts: Attempts, attempts': Attempts) {
    forall a {:trigger attempts'[a]} {:trigger a in attempts'} | a in attempts' && IsApplied(attempts'[a]) ::
      a in attempts && IsApplied(attempts[a]) && attempts[a].completedAt == attempts'[a].completedAt
  }

  lemma MoveApplies(s: System, r: RunId, m: Move, p: Phase)
    requires r in s.runs
    ensures NoneApplied(s.db.attempts, RunMove(s, r, m, p).db.attempts)
  {
    TransitionFrame(s.db, r.job, s.runs[r].worker, r.gen, m, s.now);
  }

  lemma MarkApplies(s: System, j: JobId, m: Mark, latest: Option<AttemptId>, pick: Option<AttemptId>)
    requires latest.Some? ==> latest.value in s.db.attempts
    requires pick.Some? ==> pick.value in s.db.attempts
    ensures NoneApplied(s.db.attempts, MarkAmbiguous(s.db, j, m, latest, pick, s.now).attempts)
  {
    hide MarkAmbiguous;
    if MayMark(s.db, j, m, latest, s.now) {
      MarkFrame(s.db, j, m, latest, pick, s.now);
    } else {
      MarkRefused(s.db, j, m, latest, pick, s.now);
    }
  }

  lemma CommitApplies(s: System, r: RunId)
    requires ActAllowed(s, r, CommitIntent)
    ensures NoneApplied(s.db.attempts, IntentCommitted(s, r).db.attempts)
  {
    var run := s.runs[r];
    if MayCommitIntent(s.db, run.attempt.value, r.job, run.worker, r.gen, s.now) {
      IntentFrame(s.db, run.attempt.value, r.job, run.worker, r.gen, s.now);
    }
  }

  lemma HandBackApplies(s: System, r: RunId, delay: nat, at: nat)
    requires r in s.runs
    ensures NoneApplied(s.db.attempts, HandedBack(s, r, delay, at).db.attempts)
  {
    TransitionFrame(s.db, r.job, s.runs[r].worker, r.gen, GateMove(delay, at), s.now);
  }

  lemma RecordsApply(s: System, r: RunId, act: Act)
    requires ActAllowed(s, r, act) && Records(act) && act != RecordOutcome(Reached(Applied))
    ensures NoneApplied(s.db.attempts, ActEffect(s, r, act).db.attempts)
  {
    hide MayComplete, MayPublish, NamesClaim, OwnerGate;
  }

  lemma ActApplies(s: System, r: RunId, act: Act)
    requires ActAllowed(s, r, act) && act != RecordOutcome(Reached(Applied))
    ensures NoneApplied(s.db.attempts, ActEffect(s, r, act).db.attempts)
  {
    hide TransitionJob, MarkAmbiguous, MayMove, IntentCommitted, HandedBack, FenceOpens, CompleteAttempt,
      CompletedAttempt, Published, SetPause;
    match act
    case Navigate => MoveApplies(s, r, Plain(Navigating), Working);
    case ParkForLogin => MoveApplies(s, r, Plain(AuthRequired), Finished);
    case Interrupt(to) => MoveApplies(s, r, Live(to), Finished);
    case FailForGood => MoveApplies(s, r, Live(FailedPermanent), Finished);
    case FailTransient(t) =>
      MoveApplies(s, r, TransientMove(s.runs[r].budget.value.count, s.runs[r].budget.value.maxRetries, t), Finished);
    case HandBack(delay, t) => HandBackApplies(s, r, delay, t);
    case FinishFillOnly => MoveApplies(s, r, Plain(Skipped), Finished);
    case CommitIntent => CommitApplies(s, r);
    case AnnounceVerifying => MoveApplies(s, r, Plain(Verifying), Awaiting);
    case Confirm => MoveApplies(s, r, Live(Applied), Finished);
    case Reject => MoveApplies(s, r, Live(FailedPermanent), Finished);
    case Doubt(pick) => MarkApplies(s, r.job, DoubtMark(r, s.runs[r]), None, pick);
    case RecordOutcome(_) | RecordFillOnly | PauseForLogin | PublishBrowser(_, _) | RecordApplication(_, _) =>
      RecordsApply(s, r, act);
    case _ =>
  }

  lemma SweepApplies(s: System, j: JobId, sweep: Sweep)
    requires SweepAllowed(s, j, sweep)
    ensures NoneApplied(s.db.attempts, SweepEffect(s, j, sweep).db.attempts)
  {
    hide MarkAmbiguous;
    match sweep
    case MarkStranded(owner, g, pick) => MarkApplies(s, j, SweepMark(owner, g), None, pick);
    case MarkCleared(owner, g, pick) => MarkApplies(s, j, ClearMark(owner, g), None, pick);
    case Repair(latest, pick) => MarkApplies(s, j, REPAIR_MARK, latest, pick);
    case _ =>
  }

  lemma SkipApplies(s: System, j: JobId, pick: Option<AttemptId>)
    requires pick.Some? ==> pick.value in s.db.attempts
    ensures NoneApplied(s.db.attempts, SkipJob(s.db, j, pick, s.now).attempts)
  {
    if j in s.db.jobs { SkipFrame(s.db, j, pick, s.now); }
  }

  lemma ResolveApplies(s: System, j: JobId, force: bool, expected: Option<OperatorId>)
    ensures NoneApplied(s.db.attempts, CallEffect(s, j, Resolve(force, expected)).db.attempts)
  {
    if MayResolve(s.db, j, force, expected, s.now) { ResolveFrame(s.db, j, force, expected, s.now); }
  }

  lemma CallApplies(s: System, j: JobId, call: Call)
    requires CallAllowed(s, j, call) && !call.OperatorOutcome?
    ensures NoneApplied(s.db.attempts, CallEffect(s, j, call).db.attempts)
  {
    hide TransitionJob, SkipJob, ResolveJob, MayResolve, OwnerGate, LeaseBeyond;
    match call
    case Skip(pick) => SkipApplies(s, j, pick);
    case Resolve(force, expected) => ResolveApplies(s, j, force, expected);
    case CompleteByOperator(w, g, _) => TransitionFrame(s.db, j, w, g, Live(Applied), s.now);
    case _ =>
  }

  lemma StopApplies(s: System, command: Command)
    requires CommandAllowed(s, command) && command.StopEverything?
    ensures NoneApplied(s.db.attempts, CommandEffect(s, command).db.attempts)
  {
    hide Stopped, MarkAll;
    if StopCommits(s.db, command.rows, command.picks, command.stopper, command.t1, command.t2, command.t3) {
      StoppedJobs(s.db, command.rows, command.picks, command.t1);
      MarkAllAttempts(s.db, command.rows, command.picks, command.t1);
    }
  }

  lemma CommandApplies(s: System, command: Command)
    requires CommandAllowed(s, command)
    ensures NoneApplied(s.db.attempts, CommandEffect(s, command).db.attempts)
  {
    hide ShutdownAll, EmergencyStop;
    match command
    case ResetAll =>
    case StopEverything(_, _, _, _, _, _) => StopApplies(s, command);
    case DaemonStop(w, rows, picks) => ShutdownAllAttempts(s.db, rows, picks, s.now);
    case _ => ControlCommandFrame(s, command);
  }

  /** The steps that complete an attempt as applied: a worker's record, and an operator's. */
  predicate ByWorker(step: Step) {
    step.Work? && step.act == RecordOutcome(Reached(Applied))
  }

  predicate ByOperator(step: Step) {
    step.Operate? && step.call.OperatorOutcome?
  }

  lemma StepApplies(s: System, step: Step)
    requires Enabled(s, step) && !ByWorker(step) && !ByOperator(step)
    ensures NoneApplied(s.db.attempts, Apply(s, step).db.attempts)
  {
    hide ActEffect, SweepEffect, CallEffect, CommandEffect, Best;
    match step
    case Work(r, act) => ActApplies(s, r, act);
    case Recover(j, sweep) => SweepApplies(s, j, sweep);
    case Operate(j, call) => CallApplies(s, j, call);
    case Govern(command) => CommandApplies(s, command);
    case _ =>
  }

  /** The one attempt that such a step completes. */
  function CompletedBy(s: System, step: Step): AttemptId
    requires Enabled(s, step) && (ByWorker(step) || ByOperator(step))
  {
    if step.Work? then s.runs[step.run].attempt.value else step.call.attempt
  }

  /** Such a step completes at most the one attempt, now. */
  ghost predicate OneApplied(attempts: Attempts, attempts': Attempts, a: AttemptId, now: nat) {
    forall b {:trigger attempts'[b]} {:trigger b in attempts'} | b in attempts' && IsApplied(attempts'[b]) ::
      || (b == a && attempts'[b].completedAt == Some(Sec(now)))
      || (b in attempts && IsApplied(attempts[b]) && attempts[b].completedAt == attempts'[b].completedAt)
  }

  lemma RecordApplies(s: System, step: Step)
    requires Enabled(s, step) && (ByWorker(step) || ByOperator(step))
    ensures OneApplied(s.db.attempts, Apply(s, step).db.attempts, CompletedBy(s, step), s.now)
    ensures Apply(s, step).now == s.now
  {
    hide MayComplete;
  }

  // ---------------------------------------------------------------- one sequential worker

  /** A gate that has passed and is not used up. */
  datatype Ticket = Ticket(run: RunId, at: nat)

  /** The protocol's state, the worker's passed gate, and how many attempts operators completed. */
  datatype Shop = Shop(sys: System, desk: Option<Ticket>, operators: nat)

  datatype Event = Check(run: RunId, adapter: RateLimit.AdapterId) | Take(step: Step)

  type Controls = map<RateLimit.AdapterId, RateLimit.Limits>

  /** A check passes the daily gate.  The worker records an applied attempt only for the run it has
      checked last, once; everybody else may take any step. */
  ghost predicate May(controls: Controls, shop: Shop, e: Event) {
    match e
    case Check(r, adapter) =>
      && adapter in controls
      && |Since(shop.sys.db.attempts, Sec(shop.sys.now) - RateLimit.WINDOW_SECONDS)| < controls[adapter].maxDaily
    case Take(step) =>
      && Enabled(shop.sys, step)
      && (ByWorker(step) ==> shop.desk.Some? && shop.desk.value.run == step.run)
  }

  ghost function Do(controls: Controls, shop: Shop, e: Event): Shop
    requires May(controls, shop, e)
  {
    match e
    case Check(r, adapter) => shop.(desk := Some(Ticket(r, shop.sys.now)))
    case Take(step) =>
      Shop(Apply(shop.sys, step), if ByWorker(step) then None else shop.desk,
           shop.operators + if ByOperator(step) then 1 else 0)
  }

  ghost predicate Works(controls: Controls, shop: Shop, events: seq<Event>)
    decreases |events|
  {
    events == [] || (May(controls, shop, events[0]) && Works(controls, Do(controls, shop, events[0]), events[1..]))
  }

  ghost function Finally(controls: Controls, shop: Shop, events: seq<Event>): Shop
    requires Works(controls, shop, events)
    decreases |events|
  {
    if events == [] then shop else Finally(controls, Do(controls, shop, events[0]), events[1..])
  }

  // ---------------------------------------------------------------- the bound

  ghost predicate WindowsWithin(attempts: Attempts, bound: nat) {
    forall from: int :: |InWindow(attempts, from)| <= bound
  }

  /** The bound holds, and leaves room for the attempt that the passed gate still allows. */
  ghost predicate Within(shop: Shop, bound: nat) {
    && WindowsWithin(shop.sys.db.attempts, bound + shop.operators)
    && (shop.desk.Some? ==>
          var ticket := shop.desk.value;
          && ticket.at <= shop.sys.now
          && |Since(shop.sys.db.attempts, Sec(ticket.at) - RateLimit.WINDOW_SECONDS)| < bound + shop.operators)
  }

  lemma {:induction false} SubsetSize<T>(small: set<T>, large: set<T>)
    requires small <= large
    ensures |small| <= |large|
    decreases |small|
  {
    if small != {} {
      var x :| x in small;
      SubsetSize(small - {x}, large - {x});
    }
  }

  lemma FewerSince(attempts: Attempts, attempts': Attempts, cutoff: int)
    requires NoneApplied(attempts, attempts')
    ensures |Since(attempts', cutoff)| <= |Since(attempts, cutoff)|
  {
    SubsetSize(Since(attempts', cutoff), Since(attempts, cutoff));
  }

  lemma FewerInWindow(attempts: Attempts, attempts': Attempts, from: int)
    requires NoneApplied(attempts, attempts')
    ensures |InWindow(attempts', from)| <= |InWindow(attempts, from)|
  {
    SubsetSize(InWindow(attempts', from), InWindow(attempts, from));
  }

  lemma OneMoreSince(attempts: Attempts, attempts': Attempts, a: AttemptId, now: nat, cutoff: int)
    requires OneApplied(attempts, attempts', a, now)
    ensures |Since(attempts', cutoff)| <= |Since(attempts, cutoff)| + 1
  {
    SubsetSize(Since(attempts', cutoff), Since(attempts, cutoff) + {a});
  }

  lemma OneMoreInWindow(attempts: Attempts, attempts': Attempts, a: AttemptId, now: nat, from: int)
    requires OneApplied(attempts, attempts', a, now)
    ensures |InWindow(attempts', from)| <= |InWindow(attempts, from)| + 1
    ensures !(from <= Sec(now) <= from + RateLimit.WINDOW_SECONDS) ==>
              |InWindow(attempts', from)| <= |InWindow(attempts, from)|
  {
    SubsetSize(InWindow(attempts', from), InWindow(attempts, from) + {a});
    if !(from <= Sec(now) <= from + RateLimit.WINDOW_SECONDS) {
      SubsetSize(InWindow(attempts', from), InWindow(attempts, from));
    }
  }

  lemma WindowInSince(attempts: Attempts, from: int, cutoff: int)
    requires cutoff <= from
    ensures |InWindow(attempts, from)| <= |Since(attempts, cutoff)|
  {
    SubsetSize(InWindow(attempts, from), Since(attempts, cutoff));
  }

  /** The worker's record takes the room that its gate left. */
  lemma WorkerWithin(controls: Controls, shop: Shop, step: Step, bound: nat)
    requires May(controls, shop, Take(step)) && ByWorker(step) && Within(shop, bound)
    ensures Within(Do(controls, shop, Take(step)), bound)
  {
    hide Apply, Enabled, IsApplied, InWindow, Since, NoneApplied, OneApplied;
    var s, a, at := shop.sys, CompletedBy(shop.sys, step), shop.desk.value.at;
    var attempts' := Apply(s, step).db.attempts;
    RecordApplies(s, step);
    assert Sec(at) <= Sec(s.now);
    forall from: int ensures |InWindow(attempts', from)| <= bound + shop.operators {
      OneMoreInWindow(s.db.attempts, attempts', a, s.now, from);
      if from <= Sec(s.now) <= from + RateLimit.WINDOW_SECONDS {
        WindowInSince(s.db.attempts, from, Sec(at) - RateLimit.WINDOW_SECONDS);
      }
    }
  }

  lemma OperatorWithin(controls: Controls, shop: Shop, step: Step, bound: nat)
    requires May(controls, shop, Take(step)) && ByOperator(step) && Within(shop, bound)
    ensures Within(Do(controls, shop, Take(step)), bound)
  {
    hide Apply, Enabled, IsApplied, InWindow, Since, NoneApplied, OneApplied;
    var s, a := shop.sys, CompletedBy(shop.sys, step);
    var attempts' := Apply(s, step).db.attempts;
    RecordApplies(s, step);
    forall from: int ensures |InWindow(attempts', from)| <= bound + shop.operators + 1 {
      OneMoreInWindow(s.db.attempts, attempts', a, s.now, from);
    }
    if shop.desk.Some? {
      OneMoreSince(s.db.attempts, attempts', a, s.now, Sec(shop.desk.value.at) - RateLimit.WINDOW_SECONDS);
    }
  }

  lemma OtherWithin(controls: Controls, shop: Shop, step: Step, bound: nat)
    requires Inv(shop.sys) && May(controls, shop, Take(step)) && !ByWorker(step) && !ByOperator(step)
    requires Within(shop, bound)
    ensures Within(Do(controls, shop, Take(step)), bound)
  {
    hide Apply, Enabled, Inv, IsApplied, InWindow, Since, NoneApplied, JobsAdvance, RunsAdvance, CountsStand, SameRuns;
    var s := shop.sys;
    var attempts' := Apply(s, step).db.attempts;
    StepApplies(s, step);
    StepAdvances(s, step);
    forall from: int ensures |InWindow(attempts', from)| <= bound + shop.operators {
      FewerInWindow(s.db.attempts, attempts', from);
    }
    if shop.desk.Some? {
      FewerSince(s.db.attempts, attempts', Sec(shop.desk.value.at) - RateLimit.WINDOW_SECONDS);
    }
  }

  ghost predicate LimitsWithin(controls: Controls, bound: nat) {
    forall a | a in controls :: controls[a].maxDaily <= bound
  }

  lemma {:induction false} WithinAlways(controls: Controls, shop: Shop, events: seq<Event>, bound: nat)
    requires Inv(shop.sys) && Works(controls, shop, events) && LimitsWithin(controls, bound) && Within(shop, bound)
    ensures Within(Finally(controls, shop, events), bound)
    decreases |events|
  {
    hide Apply, Enabled, Inv, WindowsWithin, Since;
    if events != [] {
      match events[0] {
        case Check(_, _) =>
        case Take(step) =>
          StepKeeps(shop.sys, step);
          if ByWorker(step) {
            WorkerWithin(controls, shop, step, bound);
          } else if ByOperator(step) {
            OperatorWithin(controls, shop, step, bound);
          } else {
            OtherWithin(controls, shop, step, bound);
          }
      }
      WithinAlways(controls, Do(controls, shop, events[0]), events[1..], bound);
    }
  }

  lemma NothingInWindow(s: System, bound: nat)
    requires s.db.attempts == map[]
    ensures Within(Shop(s, None, 0), bound)
  {
    forall from: int ensures InWindow(s.db.attempts, from) == {} {
    }
  }

  lemma WithinEverywhere(shop: Shop, bound: nat, from: int)
    requires Within(shop, bound)
    ensures |InWindow(shop.sys.db.attempts, from)| <= bound + shop.operators
  {
  }

  lemma WindowMeans(attempts: Attempts, from: int)
    ensures InWindow(attempts, from)
         == set a | a in attempts && attempts[a].outcome == Some(Reached(Applied)) && attempts[a].completedAt.Some?
                    && from <= attempts[a].completedAt.value <= from + 86_400
  {
  }

  /** The daily limit over every run of the protocol with one sequential worker: although checks come
      before the clicks, clicks before the records, and anything may happen in between, no closed
      24-hour window over the attempts table holds more applied attempts than the greatest daily
      limit, not counting those that operators complete, which no gate holds back. */
  lemma DailyLimitHolds(controls: Controls, s: System, events: seq<Event>, bound: nat, from: int)
    requires Initial(s) && Works(controls, Shop(s, None, 0), events) && LimitsWithin(controls, bound)
    ensures var t := Finally(controls, Shop(s, None, 0), events);
            var attempts := t.sys.db.attempts;
            |set a | a in attempts && attempts[a].outcome == Some(Reached(Applied)) && attempts[a].completedAt.Some?
                     && from <= attempts[a].completedAt.value <= from + 86_400| <= bound + t.operators
  {
    hide Inv, InWindow, Within;
    InitialInv(s);
    NothingInWindow(s, bound);
    WithinAlways(controls, Shop(s, None, 0), events, bound);
    WithinEverywhere(Finally(controls, Shop(s, None, 0), events), bound, from);
    WindowMeans(Finally(controls, Shop(s, None, 0), events).sys.db.attempts, from);
  }

  /** An operator's completion passes whatever has been counted. */
  lemma OperatorsAreUnlimited(controls: Controls, shop: Shop, j: JobId, a: AttemptId)
    requires shop.sys.fence.None? && a in shop.sys.db.attempts && shop.sys.db.attempts[a].job == j
    requires !IsApplied(shop.sys.db.attempts[a])
    ensures var e := Take(Operate(j, OperatorOutcome(a)));
            && May(controls, shop, e)
            && var now := Sec(shop.sys.now);
            InWindow(Do(controls, shop, e).sys.db.attempts, now) == InWindow(shop.sys.db.attempts, now) + {a}
  {
  }
}
