/** Attempt counters against the history of claims and hand-backs. */
module Retry {
  import opened Rows
  import opened Rules
  import opened Bulk
  import opened Protocol
  import opened Invariant
  import opened WorkerSteps
  import opened OperatorSteps
  import opened Advance

  /** The claims of a job that no safety gate has handed back. */
  ghost function LiveClaims(runs: map<RunId, Run>, j: JobId): set<RunId> {
    set r | r in runs && r.job == j && !runs[r].handedBack
  }

  ghost predicate CountOk(s: System, j: JobId) {
    if j in s.db.jobs then
      s.resets[j] == 0 ==>
        && s.db.jobs[j].attemptCount + s.handBacks[j] == s.claims[j]
        && s.db.jobs[j].attemptCount == |LiveClaims(s.runs, j)|
    else s.claims[j] == 0 && s.handBacks[j] == 0
  }

  /** What a run read of the counters still holds while its claim is the current one. */
  ghost predicate BudgetOk(s: System, r: RunId)
    requires r in s.runs
  {
    var run := s.runs[r];
    r.job in s.db.jobs && s.resets[r.job] == 0 && s.db.jobs[r.job].gen == r.gen && run.budget.Some?
    && !run.handedBack ==>
      run.budget.value == Budget(s.db.jobs[r.job].attemptCount, s.db.jobs[r.job].maxRetries)
  }

  ghost predicate CountsOk(s: System) {
    && (forall j :: CountOk(s, j))
    && (forall r | r in s.runs :: BudgetOk(s, r))
  }

  lemma NoRunsYet(s: System, j: JobId)
    requires Inv(s) && j !in s.db.jobs
    ensures LiveClaims(s.runs, j) == {}
  {
    forall r | r in s.runs ensures r.job != j {
      assert RunOk(s, r);
    }
  }

  lemma OneMoreClaim(runs: map<RunId, Run>, r: RunId, run: Run, j: JobId)
    requires r !in runs && !run.handedBack
    ensures r !in LiveClaims(runs, j)
    ensures LiveClaims(runs[r := run], j) == LiveClaims(runs, j) + if r.job == j then {r} else {}
  {
  }

  lemma CountClaim(s: System, t: System, j: JobId, k: JobId, w: WorkerId, sample: nat)
    requires ClaimAdvance(s, t, k, w, sample) && CountOk(s, j)
    ensures CountOk(t, j)
  {
    hide HistoryAdvance, LiveClaims;
    ResetsGrow(s, t, j);
    OneMoreClaim(s.runs, RunId(k, s.db.jobs[k].gen + 1), Run(w, Working, None, false, false, false, None), j);
  }

  lemma ResetsGrow(s: System, t: System, j: JobId)
    requires HistoryAdvance(s, t)
    ensures s.resets[j] <= t.resets[j]
  {
  }

  lemma CountHandBack(s: System, t: System, j: JobId, r: RunId)
    requires HandBackAdvance(s, t, r) && CountOk(s, j) && r in LiveClaims(s.runs, r.job)
    ensures CountOk(t, j)
  {
    hide HistoryAdvance, JobsAdvance;
    ResetsGrow(s, t, j);
    assert LiveClaims(t.runs, j) == LiveClaims(s.runs, j) - {r};
  }

  lemma CountOther(s: System, t: System, j: JobId)
    requires Advances(s, t) && CountOk(s, j) && (j !in s.db.jobs ==> LiveClaims(s.runs, j) == {})
    ensures CountOk(t, j)
  {
    hide HistoryAdvance, JobsAdvance;
    ResetsGrow(s, t, j);
    assert LiveClaims(t.runs, j) == LiveClaims(s.runs, j);
  }

  lemma CountClick(s: System, t: System, j: JobId, r: RunId)
    requires ClickAdvance(s, t, r) && CountOk(s, j)
    ensures CountOk(t, j)
  {
    hide HistoryAdvance;
    ResetsGrow(s, t, j);
    assert LiveClaims(t.runs, j) == LiveClaims(s.runs, j);
  }

  lemma CountStep(s: System, step: Step, j: JobId)
    requires Inv(s) && Enabled(s, step) && CountOk(s, j)
    ensures CountOk(Apply(s, step), j)
  {
    hide Apply, CountOk, Advances, ClaimAdvance, ClickAdvance, HandBackAdvance, RowsOk, FenceOk, TakeoverOk;
    var t := Apply(s, step);
    StepAdvances(s, step);
    if j !in s.db.jobs {
      NoRunsYet(s, j);
    }
    if step.ClaimNext? {
      CountClaim(s, t, j, step.job, step.worker, step.sample);
    } else if IsClick(step) {
      CountClick(s, t, j, step.run);
    } else if IsHandBack(s, step) {
      WorkingIsLive(s, step.run);
      CountHandBack(s, t, j, step.run);
    } else {
      CountOther(s, t, j);
    }
  }

  /** A run that is still at work has not handed its claim back. */
  lemma WorkingIsLive(s: System, r: RunId)
    requires Inv(s) && r in s.runs && s.runs[r].phase == Working
    ensures r in LiveClaims(s.runs, r.job)
  {
    assert RunOk(s, r);
  }

  lemma BudgetAdvance(s: System, t: System, step: Step, r: RunId)
    requires StepAdvance(s, t, step) && r in t.runs
    requires r in s.runs ==> BudgetOk(s, r) && r.job in s.db.jobs && r.gen <= s.db.jobs[r.job].gen
    ensures BudgetOk(t, r)
  {
    hide IntentsStand;
  }

  lemma BudgetStep(s: System, step: Step, r: RunId)
    requires Inv(s) && Enabled(s, step) && CountsOk(s) && r in Apply(s, step).runs
    ensures BudgetOk(Apply(s, step), r)
  {
    hide Apply, FenceOk, TakeoverOk, PublishedOk, NotesOk, IntentsStand, CountOk, StepAdvance;
    StepAdvances(s, step);
    if r in s.runs {
      assert RunOk(s, r);
      assert BudgetOk(s, r);
    }
    BudgetAdvance(s, Apply(s, step), step, r);
  }

  lemma CountsStep(s: System, step: Step)
    requires Inv(s) && Enabled(s, step) && CountsOk(s)
    ensures CountsOk(Apply(s, step))
  {
    forall j ensures CountOk(Apply(s, step), j) { CountStep(s, step, j); }
    forall r | r in Apply(s, step).runs ensures BudgetOk(Apply(s, step), r) { BudgetStep(s, step, r); }
  }

  lemma {:induction false} CountsAlways(s: System, steps: seq<Step>)
    requires Inv(s) && CountsOk(s) && Valid(s, steps)
    ensures CountsOk(After(s, steps))
    decreases |steps|
  {
    if steps != [] {
      StepKeeps(s, steps[0]);
      CountsStep(s, steps[0]);
      CountsAlways(Apply(s, steps[0]), steps[1..]);
    }
  }

  lemma InitialCounts(s: System)
    requires Initial(s)
    ensures Inv(s) && CountsOk(s)
  {
  }

  /** Over every run in which the tracker did not reset the job: the counter is the number of
      claims less the accepted hand-backs, and that is the number of claims never handed back. */
  lemma RetryAccounting(s: System, steps: seq<Step>, j: JobId)
    requires Initial(s) && Valid(s, steps)
    requires var t := After(s, steps); j in t.db.jobs && t.resets[j] == 0
    ensures var t := After(s, steps);
            && t.db.jobs[j].attemptCount + t.handBacks[j] == t.claims[j]
            && t.db.jobs[j].attemptCount == |LiveClaims(t.runs, j)|
  {
    InitialCounts(s);
    CountsAlways(s, steps);
    assert CountOk(After(s, steps), j);
  }

  lemma CounterPositive(s: System, r: RunId)
    requires Inv(s) && CountsOk(s) && r in s.runs && s.runs[r].phase == Working && s.resets[r.job] == 0
    ensures r.job in s.db.jobs && s.db.jobs[r.job].attemptCount >= 1
  {
    assert RunOk(s, r) && CountOk(s, r.job);
    WorkingIsLive(s, r);
  }

  /** The zero floor of an accepted hand-back never applies, and a run that reads the counter
      finds at least its own claim in it: the back-off index never wraps to the last entry. */
  lemma FloorNeverApplies(s: System, steps: seq<Step>, r: RunId, delay: nat, at: nat)
    requires Initial(s) && Valid(s, steps)
    requires var t := After(s, steps); r in t.runs && t.runs[r].phase == Working && t.resets[r.job] == 0
    ensures var t := After(s, steps);
            && r.job in t.db.jobs && ReadCounters(t.db, r.job).count >= 1
            && MovedRow(t.db.jobs[r.job], GateMove(delay, at)).attemptCount == t.db.jobs[r.job].attemptCount - 1
  {
    InitialCounts(s);
    RunKeeps(s, steps);
    CountsAlways(s, steps);
    CounterPositive(After(s, steps), r);
  }

  // ---------------------------------------------------------------- after a reset

  /** The claims of a job after generation `g` that no safety gate has handed back. */
  ghost function LiveSince(runs: map<RunId, Run>, j: JobId, g: nat): set<RunId> {
    set r | r in LiveClaims(runs, j) && r.gen > g
  }

  function Returned(runs: map<RunId, Run>, r: RunId): nat {
    if r in runs && runs[r].handedBack then 1 else 0
  }

  /** The account of the job at `t`, opened at `s` with a counter of zero. */
  ghost predicate SinceOk(s: System, t: System, j: JobId)
    requires j in s.db.jobs
  {
    var g := s.db.jobs[j].gen;
    && j in t.db.jobs && g <= t.db.jobs[j].gen && s.resets[j] <= t.resets[j]
    && (t.resets[j] == s.resets[j] ==>
          && t.db.jobs[j].attemptCount == |LiveSince(t.runs, j, g)|
          && t.db.jobs[j].attemptCount + t.handBacks[j] + s.claims[j] + Returned(s.runs, RunId(j, g))
             == t.claims[j] + s.handBacks[j] + Returned(t.runs, RunId(j, g)))
  }

  lemma NoneSince(t: System, j: JobId)
    requires Inv(t) && j in t.db.jobs
    ensures LiveSince(t.runs, j, t.db.jobs[j].gen) == {}
  {
    forall r | r in t.runs ensures r.job == j ==> r.gen <= t.db.jobs[j].gen {
      assert RunOk(t, r);
    }
  }

  lemma OneMoreSince(runs: map<RunId, Run>, r: RunId, run: Run, j: JobId, g: nat)
    requires r !in runs && !run.handedBack
    ensures r !in LiveSince(runs, j, g)
    ensures LiveSince(runs[r := run], j, g) == LiveSince(runs, j, g) + if r.job == j && r.gen > g then {r} else {}
  {
  }

  lemma SinceClaim(s: System, t: System, u: System, j: JobId, k: JobId, w: WorkerId, sample: nat)
    requires j in s.db.jobs && SinceOk(s, t, j) && ClaimAdvance(t, u, k, w, sample)
    ensures SinceOk(s, u, j)
  {
    hide HistoryAdvance, LiveSince;
    ResetsGrow(t, u, j);
    var g, r := s.db.jobs[j].gen, RunId(k, t.db.jobs[k].gen + 1);
    OneMoreSince(t.runs, r, Run(w, Working, None, false, false, false, None), j, g);
  }

  lemma OneLess(runs: map<RunId, Run>, r: RunId, j: JobId, g: nat)
    requires r in runs
    ensures LiveSince(runs[r := runs[r].(phase := Finished, handedBack := true)], j, g) == LiveSince(runs, j, g) - {r}
    ensures !runs[r].handedBack ==> (r in LiveSince(runs, j, g) <==> r.job == j && r.gen > g)
  {
  }

  /** A hand-back of the claim the reset met finds the counter at zero; a later one finds its own claim counted. */
  lemma SinceHandBack(s: System, t: System, u: System, j: JobId, r: RunId)
    requires j in s.db.jobs && SinceOk(s, t, j) && HandBackAdvance(t, u, r) && Inv(t)
    requires Owns(t.db, r.job, t.runs[r].worker, r.gen)
    ensures SinceOk(s, u, j)
  {
    hide HistoryAdvance, Inv, LiveSince;
    ResetsGrow(t, u, j);
    assert !t.runs[r].handedBack by { WorkingIsLive(t, r); }
    OneLess(t.runs, r, j, s.db.jobs[j].gen);
    NoneSince(t, r.job);
    assert u.db.jobs[j].attemptCount
        == t.db.jobs[j].attemptCount - (if j == r.job && t.db.jobs[j].attemptCount > 0 then 1 else 0);
  }

  lemma SinceOther(s: System, t: System, u: System, j: JobId)
    requires j in s.db.jobs && SinceOk(s, t, j) && Advances(t, u)
    ensures SinceOk(s, u, j)
  {
    hide HistoryAdvance;
    ResetsGrow(t, u, j);
    assert LiveSince(u.runs, j, s.db.jobs[j].gen) == LiveSince(t.runs, j, s.db.jobs[j].gen);
  }

  lemma SinceClick(s: System, t: System, u: System, j: JobId, r: RunId)
    requires j in s.db.jobs && SinceOk(s, t, j) && ClickAdvance(t, u, r)
    ensures SinceOk(s, u, j)
  {
    hide HistoryAdvance;
    ResetsGrow(t, u, j);
    assert LiveSince(u.runs, j, s.db.jobs[j].gen) == LiveSince(t.runs, j, s.db.jobs[j].gen);
  }

  lemma SinceStep(s: System, t: System, step: Step, j: JobId)
    requires j in s.db.jobs && SinceOk(s, t, j) && Inv(t) && Enabled(t, step)
    ensures SinceOk(s, Apply(t, step), j)
  {
    hide Apply, SinceOk, Advances, ClaimAdvance, ClickAdvance, HandBackAdvance, Inv;
    var u := Apply(t, step);
    StepAdvances(t, step);
    if step.ClaimNext? {
      SinceClaim(s, t, u, j, step.job, step.worker, step.sample);
    } else if IsClick(step) {
      SinceClick(s, t, u, j, step.run);
    } else if IsHandBack(t, step) {
      SinceHandBack(s, t, u, j, step.run);
    } else {
      SinceOther(s, t, u, j);
    }
  }

  lemma {:induction false} SinceAlways(s: System, t: System, steps: seq<Step>, j: JobId)
    requires j in s.db.jobs && SinceOk(s, t, j) && Inv(t) && Valid(t, steps)
    ensures SinceOk(s, After(t, steps), j) && Inv(After(t, steps))
    decreases |steps|
  {
    hide SinceOk;
    if steps != [] {
      StepKeeps(t, steps[0]);
      SinceStep(s, t, steps[0], j);
      SinceAlways(s, Apply(t, steps[0]), steps[1..], j);
    }
  }

  /** From a state in which the counter stands at zero, as the tracker's requeue leaves it, and over
      every run without another reset: the counter is the number of claims less the accepted
      hand-backs, where a hand-back of the claim that was current at the beginning does not count. */
  lemma RetrySinceReset(s: System, steps: seq<Step>, j: JobId)
    requires Inv(s) && j in s.db.jobs && s.db.jobs[j].attemptCount == 0 && Valid(s, steps)
    requires After(s, steps).resets[j] == s.resets[j]
    ensures var t := After(s, steps);
            var met := RunId(j, s.db.jobs[j].gen);
            && j in t.db.jobs
            && t.db.jobs[j].attemptCount + t.handBacks[j] + s.claims[j] + Returned(s.runs, met)
               == t.claims[j] + s.handBacks[j] + Returned(t.runs, met)
  {
    NoneSince(s, j);
    SinceAlways(s, s, steps, j);
  }

  /** After a reset the zero floor applies to exactly one hand-back: that of the claim the reset met. */
  lemma FloorSinceReset(s: System, steps: seq<Step>, r: RunId)
    requires Inv(s) && r.job in s.db.jobs && s.db.jobs[r.job].attemptCount == 0 && Valid(s, steps)
    requires var t := After(s, steps);
             && t.resets[r.job] == s.resets[r.job] && r in t.runs && t.runs[r].phase == Working
             && Owns(t.db, r.job, t.runs[r].worker, r.gen)
    ensures var t := After(s, steps);
            t.db.jobs[r.job].attemptCount == 0 <==> r.gen == s.db.jobs[r.job].gen
  {
    var t := After(s, steps);
    NoneSince(s, r.job);
    SinceAlways(s, s, steps, r.job);
    NoneSince(t, r.job);
    WorkingIsLive(t, r);
    if r.gen > s.db.jobs[r.job].gen {
      assert r in LiveSince(t.runs, r.job, s.db.jobs[r.job].gen);
    }
  }

  // ---------------------------------------------------------------- transient failures only

  function AllowedClaims(maxRetries: int): nat {
    if maxRetries <= 1 then 1 else maxRetries
  }

  /** Nothing but claims of a waiting job, navigation, hand-backs and transient failures moves the job. */
  ghost predicate OnlyTransient(s: System, step: Step, j: JobId)
    requires Enabled(s, step)
  {
    || (step.ClaimNext? && (step.job == j ==> j in s.db.jobs && !Running(s.db.jobs[j].state)))
    || (step.Work? && step.run.job == j && (step.act.Navigate? || step.act.HandBack? || step.act.FailTransient?))
    || (!step.ClaimNext? && (j in s.db.jobs && j in Apply(s, step).db.jobs
                             ==> Apply(s, step).db.jobs[j].state == s.db.jobs[j].state))
  }

  ghost predicate OnlyTransientThroughout(s: System, steps: seq<Step>, j: JobId)
    requires Valid(s, steps)
    decreases |steps|
  {
    steps == [] || (OnlyTransient(s, steps[0], j) && OnlyTransientThroughout(Apply(s, steps[0]), steps[1..], j))
  }

  /** Where a job hit only by transient failures may stand, by the number of its live claims. */
  predicate WithinBudget(row: Job) {
    var most := AllowedClaims(row.maxRetries);
    match row.state
    case Ready => row.attemptCount < most
    case RetryWait => row.attemptCount < most
    case Claimed => row.attemptCount <= most
    case Navigating => row.attemptCount <= most
    case FailedPermanent => row.attemptCount == most
    case _ => false
  }

  ghost predicate TransientOk(s: System, j: JobId) {
    j in s.db.jobs && s.resets[j] == 0 ==> WithinBudget(s.db.jobs[j])
  }

  lemma TransientFailure(s: System, r: RunId, at: nat)
    requires Inv(s) && CountsOk(s) && ActAllowed(s, r, FailTransient(at)) && TransientOk(s, r.job)
    ensures TransientOk(ActEffect(s, r, FailTransient(at)), r.job)
  {
    var run := s.runs[r];
    var m := TransientMove(run.budget.value.count, run.budget.value.maxRetries, at);
    TransitionFrame(s.db, r.job, run.worker, r.gen, m, s.now);
    if s.resets[r.job] == 0 && MayMove(s.db, r.job, run.worker, r.gen, m, s.now) {
      CounterPositive(s, r);
      assert RunOk(s, r);
      assert BudgetOk(s, r);
    }
  }

  lemma TransientHandBack(s: System, r: RunId, delay: nat, at: nat)
    requires Inv(s) && CountsOk(s) && ActAllowed(s, r, HandBack(delay, at)) && TransientOk(s, r.job)
    ensures TransientOk(ActEffect(s, r, HandBack(delay, at)), r.job)
  {
    TransitionFrame(s.db, r.job, s.runs[r].worker, r.gen, GateMove(delay, at), s.now);
    if s.resets[r.job] == 0 {
      CounterPositive(s, r);
    }
  }

  lemma TransientNavigate(s: System, r: RunId)
    requires Inv(s) && ActAllowed(s, r, Navigate) && TransientOk(s, r.job)
    ensures TransientOk(ActEffect(s, r, Navigate), r.job)
  {
    TransitionFrame(s.db, r.job, s.runs[r].worker, r.gen, Plain(Navigating), s.now);
  }

  lemma TransientStep(s: System, step: Step, j: JobId)
    requires Inv(s) && CountsOk(s) && Enabled(s, step) && TransientOk(s, j) && OnlyTransient(s, step, j)
    ensures TransientOk(Apply(s, step), j)
  {
    hide ActEffect, SweepEffect, CallEffect, CommandEffect, RowsOk, FenceOk, TakeoverOk, PublishedOk, NotesOk;
    StepAdvances(s, step);
    if step.Work? && step.run.job == j && step.act.Navigate? {
      TransientNavigate(s, step.run);
    } else if step.Work? && step.run.job == j && step.act.HandBack? {
      TransientHandBack(s, step.run, step.act.delay, step.act.handedAt);
    } else if step.Work? && step.run.job == j && step.act.FailTransient? {
      TransientFailure(s, step.run, step.act.failedAt);
    } else {
      TransientOther(s, Apply(s, step), step, j);
    }
  }

  lemma TransientOther(s: System, t: System, step: Step, j: JobId)
    requires Enabled(s, step) && StepAdvance(s, t, step) && TransientOk(s, j)
    requires step.ClaimNext? && step.job == j ==> j in s.db.jobs && !Running(s.db.jobs[j].state)
    requires !step.ClaimNext? && j in s.db.jobs && j in t.db.jobs ==> t.db.jobs[j].state == s.db.jobs[j].state
    requires step.Work? && step.act.HandBack? ==> step.run.job != j
    ensures TransientOk(t, j)
  {
  }

  lemma {:induction false} TransientAlways(s: System, steps: seq<Step>, j: JobId)
    requires Inv(s) && CountsOk(s) && TransientOk(s, j) && Valid(s, steps) && OnlyTransientThroughout(s, steps, j)
    ensures TransientOk(After(s, steps), j)
    decreases |steps|
  {
    if steps != [] {
      StepKeeps(s, steps[0]);
      CountsStep(s, steps[0]);
      TransientStep(s, steps[0], j);
      TransientAlways(Apply(s, steps[0]), steps[1..], j);
    }
  }

  /** A job hit only by transient failures is failed_permanent exactly when its claims that were
      not handed back have reached max(1, max_retries); it never exceeds that number. */
  lemma TransientBudget(s: System, steps: seq<Step>, j: JobId)
    requires Initial(s) && Valid(s, steps) && OnlyTransientThroughout(s, steps, j)
    requires var t := After(s, steps); j in t.db.jobs && t.resets[j] == 0
    ensures var t := After(s, steps);
            var most := t.handBacks[j] + AllowedClaims(t.db.jobs[j].maxRetries);
            && t.claims[j] <= most
            && (t.db.jobs[j].state == FailedPermanent ==> t.claims[j] == most)
            && (t.db.jobs[j].state == FailedPermanent || Running(t.db.jobs[j].state) || t.claims[j] < most)
  {
    InitialCounts(s);
    RetryAccounting(s, steps, j);
    TransientAlways(s, steps, j);
  }

  lemma FailureDecides(s: System, r: RunId, at: nat)
    requires Inv(s) && CountsOk(s) && ActAllowed(s, r, FailTransient(at)) && s.resets[r.job] == 0
    requires MayMove(s.db, r.job, s.runs[r].worker, r.gen, Live(RetryWait), s.now)
    ensures var t := ActEffect(s, r, FailTransient(at));
            && r.job in s.db.jobs && r.job in t.db.jobs
            && (t.db.jobs[r.job].state == FailedPermanent
                <==> s.claims[r.job] >= s.handBacks[r.job] + AllowedClaims(s.db.jobs[r.job].maxRetries))
            && (t.db.jobs[r.job].state == RetryWait || t.db.jobs[r.job].state == FailedPermanent)
  {
    hide FenceOk, TakeoverOk, PublishedOk, NotesOk, TransitionJob, LiveClaims;
    var run := s.runs[r];
    TransitionFrame(s.db, r.job, run.worker, r.gen, TransientMove(run.budget.value.count,
                                                                  run.budget.value.maxRetries, at), s.now);
    assert RunOk(s, r) && BudgetOk(s, r) && CountOk(s, r.job);
    CounterPositive(s, r);
  }

  /** Whether a transient failure that takes effect is the last one: exactly when the claims that
      were not handed back have reached the limit. */
  lemma TransientFailureDecides(s: System, steps: seq<Step>, r: RunId, at: nat)
    requires Initial(s) && Valid(s, steps)
    requires var t := After(s, steps);
             && Enabled(t, Work(r, FailTransient(at))) && t.resets[r.job] == 0
             && MayMove(t.db, r.job, t.runs[r].worker, r.gen, Live(RetryWait), t.now)
    ensures var t := After(s, steps);
            var u := ActEffect(t, r, FailTransient(at));
            && r.job in t.db.jobs && r.job in u.db.jobs
            && (u.db.jobs[r.job].state == FailedPermanent
                <==> t.claims[r.job] >= t.handBacks[r.job] + AllowedClaims(t.db.jobs[r.job].maxRetries))
            && (u.db.jobs[r.job].state == RetryWait || u.db.jobs[r.job].state == FailedPermanent)
  {
    hide ActEffect, MayMove, Inv, CountsOk, AllowedClaims;
    InitialCounts(s);
    RunKeeps(s, steps);
    CountsAlways(s, steps);
    FailureDecides(After(s, steps), r, at);
  }
}
