/** Runs that can be continued: from a state to a press of the button, step by step. */
module Continuations {
  import opened Rows
  import opened Rules
  import opened Bulk
  import opened Protocol
  import opened Advance

  ghost predicate Reaches(s: System, steps: seq<Step>, t: System) {
    Valid(s, steps) && After(s, steps) == t
  }

  lemma {:induction false} Compose(s: System, steps: seq<Step>, t: System, more: seq<Step>, u: System)
    requires Reaches(s, steps, t) && Reaches(t, more, u)
    ensures Reaches(s, steps + more, u)
    decreases |steps|
  {
    hide Enabled, Apply;
    if steps == [] {
      assert steps + more == more;
    } else {
      Compose(Apply(s, steps[0]), steps[1..], t, more, u);
      assert (steps + more)[1..] == steps[1..] + more && (steps + more)[0] == steps[0];
    }
  }

  lemma One(s: System, step: Step)
    requires Enabled(s, step)
    ensures Reaches(s, [step], Apply(s, step))
  {
    hide Enabled, Apply;
    var t := Apply(s, step);
    assert [step][1..] == [];
    assert Valid(t, []) && After(t, []) == t;
    assert Valid(s, [step]);
  }

  lemma Then(s: System, steps: seq<Step>, t: System, step: Step)
    requires Reaches(s, steps, t) && Enabled(t, step)
    ensures Reaches(s, steps + [step], Apply(t, step))
  {
    hide Reaches, Enabled, Apply;
    One(t, step);
    Compose(s, steps, t, [step], Apply(t, step));
  }

  /** The run reaches `t`, and no operator calls about the job on the way. */
  ghost predicate Leads(s: System, steps: seq<Step>, t: System, j: JobId) {
    Reaches(s, steps, t) && forall i | 0 <= i < |steps| :: !Concerns(steps[i], j)
  }

  predicate Concerns(step: Step, j: JobId) {
    step.Operate? && step.job == j
  }

  lemma Extend(s: System, steps: seq<Step>, t: System, step: Step, j: JobId)
    requires Leads(s, steps, t, j) && Enabled(t, step) && !Concerns(step, j)
    ensures Leads(s, steps + [step], Apply(t, step), j)
  {
    hide Reaches, Enabled, Apply;
    Then(s, steps, t, step);
  }

  lemma Nowhere(s: System, j: JobId)
    ensures Leads(s, [], s, j)
  {
  }

  lemma Join(s: System, steps: seq<Step>, t: System, more: seq<Step>, u: System, j: JobId)
    requires Leads(s, steps, t, j) && Leads(t, more, u, j)
    ensures Leads(s, steps + more, u, j)
  {
    hide Reaches;
    Compose(s, steps, t, more, u);
  }

  lemma {:induction false} LeadsQuietly(s: System, steps: seq<Step>, t: System, j: JobId)
    requires Leads(s, steps, t, j)
    ensures Valid(s, steps) && NeverPutBack(s, steps, j) && After(s, steps) == t
    decreases |steps|
  {
    hide Enabled, Apply, PutsBack;
    if steps != [] {
      forall i | 0 <= i < |steps[1..]| ensures !Concerns(steps[1..][i], j) { assert steps[1..][i] == steps[i + 1]; }
      LeadsQuietly(Apply(s, steps[0]), steps[1..], t, j);
    }
  }

  lemma {:induction false} FreshId(ids: set<nat>) returns (newId: nat)
    ensures newId !in ids
    ensures forall k | k in ids :: k < newId
    decreases |ids|
  {
    newId := 0;
    if ids != {} {
      var k :| k in ids;
      newId := FreshId(ids - {k});
      assert forall i :: i in ids ==> i == k || i in ids - {k};
      if newId <= k { newId := k + 1; }
    }
  }

  // ---------------------------------------------------------------- the road to the button

  /** Nothing about the runtime holds a worker back. */
  predicate RoadOpen(s: System) {
    s.fence.None? && !Halted(s.db) && s.db.ctrl.takeoverOwner.None?
  }

  /** The clock and the history stand still, but for claims and commitments. */
  predicate SameBooks(s: System, t: System) {
    && t.now == s.now && t.notes == s.notes && t.clicks == s.clicks
    && t.repeats == s.repeats && t.handBacks == s.handBacks && t.resets == s.resets
  }

  /** The run `r` of `w` owns its job under a lease with margin, and stands at `p` with attempt `a`. */
  predicate AtWork(s: System, r: RunId, w: WorkerId, p: Phase, a: Option<AttemptId>) {
    && RoadOpen(s) && Owns(s.db, r.job, w, r.gen) && !s.db.jobs[r.job].cancelled
    && LeaseBeyond(s.db.jobs[r.job], Sec(s.now) + SUBMIT_MARGIN)
    && r in s.runs && s.runs[r].worker == w && s.runs[r].phase == p && s.runs[r].attempt == a
    && (a.Some? ==>
          && a.value in s.db.attempts && s.db.attempts[a.value].job == r.job
          && s.db.attempts[a.value].worker == Some(w) && s.db.attempts[a.value].gen == Some(r.gen))
  }

  /** The job waits and is the only one that may be claimed. */
  predicate Waiting(s: System, j: JobId) {
    && RoadOpen(s) && j in s.db.jobs && s.db.jobs[j].state == Ready && !s.db.jobs[j].cancelled
    && s.db.jobs[j].app in s.db.apps && s.db.apps[s.db.jobs[j].app] != Dismissed
    && forall k | k in s.db.jobs && k != j :: s.db.jobs[k].cancelled
  }

  lemma ClaimIt(s: System, j: JobId, w: WorkerId)
    requires Waiting(s, j)
    ensures var step := ClaimNext(j, w, s.now);
            && Enabled(s, step)
            && var t := Apply(s, step);
            && AtWork(t, RunId(j, s.db.jobs[j].gen + 1), w, Working, None) && SameBooks(s, t)
            && t.claims == s.claims + multiset{j} && t.committed == s.committed
            && t.db == s.db.(jobs := t.db.jobs, events := t.db.events)
            && t.db.jobs == s.db.jobs[j := ClaimedRow(s.db.jobs[j], w, s.now)]
  {
    assert Eligible(s.db, j, s.now);
  }

  lemma OpenIt(s: System, r: RunId, w: WorkerId, a: AttemptId)
    requires AtWork(s, r, w, Working, None) && a !in s.db.attempts
    ensures var step := Work(r, OpenAttempt(a));
            && Enabled(s, step)
            && var t := Apply(s, step);
            && AtWork(t, r, w, Working, Some(a)) && SameBooks(s, t)
            && t.claims == s.claims && t.committed == s.committed
            && t.db == s.db.(attempts := s.db.attempts[a := NewAttempt(r.job, w, r.gen, s.now)])
  {
  }

  lemma CommitIt(s: System, r: RunId, w: WorkerId, a: AttemptId)
    requires AtWork(s, r, w, Working, Some(a)) && s.db.attempts[a].intentAt.None?
    ensures var step := Work(r, CommitIntent);
            && Enabled(s, step)
            && var t := Apply(s, step);
            && AtWork(t, r, w, Intended, Some(a)) && SameBooks(s, t)
            && t.claims == s.claims && t.committed == s.committed + {r.job}
            && t.db.jobs == s.db.jobs[r.job := s.db.jobs[r.job].(state := SubmitIntent)]
            && t.db == s.db.(jobs := t.db.jobs, attempts := t.db.attempts, events := t.db.events)
            && t.db.attempts.Keys == s.db.attempts.Keys && t.db.attempts[a].intentAt.Some?
  {
    assert MayCommitIntent(s.db, a, r.job, w, r.gen, s.now);
  }

  /** The click fence is open for the run, which stands at `p`. */
  predicate AtFence(s: System, r: RunId, w: WorkerId, a: AttemptId, p: Phase) {
    && s.fence == Some(r) && r in s.runs
    && s.runs[r].worker == w && s.runs[r].phase == p && s.runs[r].attempt == Some(a)
    && Owns(s.db, r.job, w, r.gen) && s.db.jobs[r.job].state == SubmitIntent && r.job in s.committed
    && LeaseBeyond(s.db.jobs[r.job], Sec(s.now)) && a in s.db.attempts && s.db.attempts[a].job == r.job
  }

  lemma FenceIt(s: System, r: RunId, w: WorkerId, a: AttemptId)
    requires AtWork(s, r, w, Intended, Some(a)) && s.db.attempts[a].intentAt.Some?
    requires s.db.jobs[r.job].state == SubmitIntent && r.job in s.committed
    ensures var step := Work(r, OpenFence);
            && Enabled(s, step)
            && var t := Apply(s, step);
            AtFence(t, r, w, a, Fenced) && SameBooks(s, t) && t.claims == s.claims && t.db == s.db
  {
    assert FenceOpens(s.db, a, r.job, w, r.gen, s.now);
  }

  lemma ClickIt(s: System, r: RunId, w: WorkerId, a: AttemptId)
    requires AtFence(s, r, w, a, Fenced)
    ensures var step := Work(r, Click);
            && Enabled(s, step)
            && var t := Apply(s, step);
            && AtFence(t, r, w, a, Clicking) && SameBooks(s, t.(clicks := s.clicks))
            && t.clicks == s.clicks + multiset{r.job} && t.claims == s.claims && t.db == s.db
  {
  }

  /** From a run at work to a pressed button. */
  lemma CommitAndClick(s: System, r: RunId, w: WorkerId, a: AttemptId) returns (steps: seq<Step>, t: System)
    requires AtWork(s, r, w, Working, Some(a)) && s.db.attempts[a].intentAt.None?
    ensures Leads(s, steps, t, r.job) && AtFence(t, r, w, a, Clicking) && SameBooks(s, t.(clicks := s.clicks))
    ensures t.clicks == s.clicks + multiset{r.job} && t.claims == s.claims
    ensures t.db.jobs == s.db.jobs[r.job := s.db.jobs[r.job].(state := SubmitIntent)]
    ensures t.db.attempts.Keys == s.db.attempts.Keys && t.db.apps == s.db.apps && t.db.ctrl == s.db.ctrl
  {
    hide Leads, Enabled, Apply, AtFence, AtWork, SameBooks;
    var e1, e2, e3 := Work(r, CommitIntent), Work(r, OpenFence), Work(r, Click);
    Nowhere(s, r.job);
    CommitIt(s, r, w, a); Extend(s, [], s, e1, r.job);
    var s1 := Apply(s, e1);
    FenceIt(s1, r, w, a); Extend(s, [] + [e1], s1, e2, r.job);
    var s2 := Apply(s1, e2);
    ClickIt(s2, r, w, a); Extend(s, [] + [e1] + [e2], s2, e3, r.job);
    steps, t := [] + [e1] + [e2] + [e3], Apply(s2, e3);
    assert SameBooks(s, t.(clicks := s.clicks)) by { BooksCompose(s, s1, s2, t); }
  }

  lemma BooksCompose(s: System, s1: System, s2: System, t: System)
    requires SameBooks(s, s1) && SameBooks(s1, s2) && SameBooks(s2, t.(clicks := s2.clicks))
    ensures SameBooks(s, t.(clicks := s.clicks)) && s2.clicks == s.clicks
  {
  }

  /** From a run at work, with or without an attempt, to a pressed button. */
  lemma Press(s: System, r: RunId, w: WorkerId, a: Option<AttemptId>) returns (steps: seq<Step>, t: System)
    requires AtWork(s, r, w, Working, a) && (a.Some? ==> s.db.attempts[a.value].intentAt.None?)
    ensures Leads(s, steps, t, r.job) && t.clicks == s.clicks + multiset{r.job}
  {
    hide Leads, Enabled, Apply, AtFence;
    if a.Some? {
      steps, t := CommitAndClick(s, r, w, a.value);
    } else {
      var b := FreshId(s.db.attempts.Keys);
      var e := Work(r, OpenAttempt(b));
      Nowhere(s, r.job);
      OpenIt(s, r, w, b); Extend(s, [], s, e, r.job);
      var s1 := Apply(s, e);
      var more;
      more, t := CommitAndClick(s1, r, w, b);
      Join(s, [] + [e], s1, more, t, r.job);
      steps := [] + [e] + more;
    }
  }

  /** From a waiting job to a pressed button. */
  lemma Submit(s: System, j: JobId, w: WorkerId) returns (steps: seq<Step>, t: System)
    requires Waiting(s, j)
    ensures Leads(s, steps, t, j) && t.clicks == s.clicks + multiset{j}
  {
    hide Leads, Enabled, Apply, AtWork, RoadOpen;
    var e := ClaimNext(j, w, s.now);
    Nowhere(s, j);
    ClaimIt(s, j, w); Extend(s, [], s, e, j);
    var s1 := Apply(s, e);
    var more;
    more, t := Press(s1, RunId(j, s.db.jobs[j].gen + 1), w, None);
    Join(s, [] + [e], s1, more, t, j);
    steps := [] + [e] + more;
  }

  // ---------------------------------------------------------------- clearing the road

  /** Only the control row and the record of grants differ. */
  predicate OnlyControl(s: System, t: System) {
    t == s.(db := s.db.(ctrl := t.db.ctrl), grants := t.grants)
  }

  /** Stop cleared, takeover dropped, pause lifted. */
  lemma OpenRoad(s: System, j: JobId) returns (steps: seq<Step>, t: System)
    requires s.fence.None?
    ensures Leads(s, steps, t, j) && RoadOpen(t) && OnlyControl(s, t)
  {
    hide Leads;
    var e1, e2, e3 := Govern(SetStopped(false)), Govern(DropTakeover(None)), Govern(SetPaused(false, None));
    Nowhere(s, j);
    Extend(s, [], s, e1, j);
    var s1 := Apply(s, e1);
    Extend(s, [] + [e1], s1, e2, j);
    var s2 := Apply(s1, e2);
    Extend(s, [] + [e1] + [e2], s2, e3, j);
    steps, t := [] + [e1] + [e2] + [e3], Apply(s2, e3);
  }

  lemma CancelIt(s: System, k: JobId)
    requires s.fence.None? && k in s.db.jobs
    ensures var step := Operate(k, Cancel);
            && Enabled(s, step)
            && var t := Apply(s, step);
            && t == s.(db := t.db) && t.db.ctrl == s.db.ctrl && t.db.attempts == s.db.attempts
            && t.db.jobs == s.db.jobs[k := CancelledRow(s.db.jobs[k])]
  {
  }

  /** The jobs `ids` are cancelled, one after the other. */
  lemma {:induction false} CancelAll(s: System, ids: set<JobId>, j: JobId) returns (steps: seq<Step>, t: System)
    requires s.fence.None? && j in s.db.jobs && j !in ids && ids <= s.db.jobs.Keys
    ensures Leads(s, steps, t, j) && t == s.(db := t.db) && t.db.ctrl == s.db.ctrl && t.db.attempts == s.db.attempts
    ensures t.db.jobs.Keys == s.db.jobs.Keys && t.db.jobs[j] == s.db.jobs[j]
    ensures forall k | k in s.db.jobs && (k in ids || s.db.jobs[k].cancelled) :: t.db.jobs[k].cancelled
    decreases |ids|
  {
    hide Leads, Enabled, Apply;
    Nowhere(s, j);
    steps, t := [], s;
    if ids != {} {
      var k :| k in ids;
      var e := Operate(k, Cancel);
      CancelIt(s, k);
      Extend(s, [], s, e, j);
      var more;
      var s1 := Apply(s, e);
      more, t := CancelAll(s1, ids - {k}, j);
      Join(s, [] + [e], s1, more, t, j);
      steps := [] + [e] + more;
    }
  }

  /** From any state without an open fence a waiting job can come to a press, without any operator
      call about it: the runtime is opened, the other jobs are cancelled, the application is set to
      pending, and a worker does the rest. */
  lemma WaitingJobIsPressed(s: System, j: JobId) returns (steps: seq<Step>, t: System)
    requires s.fence.None? && j in s.db.jobs && s.db.jobs[j].state == Ready && !s.db.jobs[j].cancelled
    ensures Leads(s, steps, t, j) && t.clicks == s.clicks + multiset{j}
  {
    hide Leads;
    var steps1, s1 := OpenRoad(s, j);
    var steps2, s2 := CancelAll(s1, s1.db.jobs.Keys - {j}, j);
    Join(s, steps1, s1, steps2, s2, j);
    var e := SetStatus(s2.db.jobs[j].app, Pending);
    Extend(s, steps1 + steps2, s2, e, j);
    var s3 := Apply(s2, e);
    var steps4;
    steps4, t := Submit(s3, j, 0);
    Join(s, steps1 + steps2 + [e], s3, steps4, t, j);
    steps := steps1 + steps2 + [e] + steps4;
  }
}
