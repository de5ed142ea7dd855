/** Pacing and the daily limit: the checks, the data behind them, and what they bound over a run
    of one sequential worker. */
module RateLimit {
  import opened Rows

  type AdapterId = nat

  const WINDOW_SECONDS: nat := 86400

  datatype Limits = Limits(minInterval: nat, maxDaily: nat)

  datatype Verdict = Pass | NoControls | PacingViolation | DailyLimitReached

  /** Each adapter's limits and last recorded submission, and when applied attempts were completed. */
  datatype Books = Books(limits: map<AdapterId, Limits>, last: map<AdapterId, nat>, applied: seq<nat>)

  /** How many of the times are not before the cutoff. */
  function CountFrom(times: seq<nat>, cutoff: int): nat {
    if times == [] then 0
    else CountFrom(times[..|times| - 1], cutoff) + if times[|times| - 1] >= cutoff then 1 else 0
  }

  /** Every recorded submission lies at least the interval back. */
  ghost predicate Paced(books: Books, interval: nat, now: nat) {
    forall a | a in books.last :: (books.last[a] + interval) * TICKS_PER_SECOND <= now
  }

  ghost predicate Passes(books: Books, adapter: AdapterId, now: nat) {
    && adapter in books.limits
    && Paced(books, books.limits[adapter].minInterval, now)
    && CountFrom(books.applied, Sec(now) - WINDOW_SECONDS) < books.limits[adapter].maxDaily
  }

  function Stamped(books: Books, adapter: AdapterId, now: nat): Books {
    if adapter in books.limits then books.(last := books.last[adapter := Sec(now)]) else books
  }

  class Ledger {
    var limits: map<AdapterId, Limits>
    var last: map<AdapterId, nat>
    var applied: seq<nat>

    function Contents(): Books
      reads this
    {
      Books(limits, last, applied)
    }

    constructor (books: Books)
      ensures Contents() == books
    {
      limits, last, applied := books.limits, books.last, books.applied;
    }

    /** Completing an attempt as applied. */
    method CompleteApplied(now: nat)
      modifies this`applied
      ensures Contents() == old(Contents()).(applied := old(applied) + [Sec(now)])
    {
      applied := applied + [Sec(now)];
    }

    method RecordSubmissionTimestamp(adapter: AdapterId, now: nat)
      modifies this`last
      ensures Contents() == Stamped(old(Contents()), adapter, now)
    {
      if adapter in limits {
        last := last[adapter := Sec(now)];
      }
    }

    /** The largest recorded submission time over all adapters. */
    method GetLatestSubmissionTimestamp() returns (latest: Option<nat>)
      ensures latest.None? <==> last == map[]
      ensures latest.Some? ==> (exists a :: a in last && last[a] == latest.value)
                               && forall a | a in last :: last[a] <= latest.value
    {
      latest := None;
      var todo := last.Keys;
      while todo != {}
        invariant todo <= last.Keys
        invariant latest.None? ==> todo == last.Keys
        invariant latest.Some? ==>
                    && (exists a :: a in last && last[a] == latest.value)
                    && forall a | a in last.Keys - todo :: last[a] <= latest.value
        decreases |todo|
      {
        var a :| a in todo;
        todo := todo - {a};
        if latest.None? || latest.value < last[a] {
          latest := Some(last[a]);
        }
      }
    }

    method GetSubmissionsInWindow(now: nat) returns (count: nat)
      ensures count == CountFrom(applied, Sec(now) - WINDOW_SECONDS)
      ensures count == |set i | 0 <= i < |applied| && applied[i] >= now / 1_000_000 - 86_400|
    {
      var cutoff := Sec(now) - WINDOW_SECONDS;
      count := 0;
      for i := 0 to |applied|
        invariant count == CountFrom(applied[..i], cutoff)
      {
        assert applied[..i + 1][..i] == applied[..i];
        if applied[i] >= cutoff {
          count := count + 1;
        }
      }
      assert applied[..|applied|] == applied;
      CountedFrom(applied, cutoff);
    }

    /** The gate before a submission. It passes exactly when every adapter's last submission is far
        enough back and fewer than the daily number were completed in the last 24 hours. */
    method ValidatePacingAndDailyLimits(adapter: AdapterId, now: nat) returns (verdict: Verdict)
      ensures verdict == Pass <==> Passes(Contents(), adapter, now)
      ensures verdict == PacingViolation <==>
              adapter in limits
              && exists a :: a in last && now < (last[a] + limits[adapter].minInterval) * 1_000_000
      ensures verdict == NoControls <==> adapter !in limits
      ensures verdict == Pass <==>
              && adapter in limits
              && (forall a | a in last :: (last[a] + limits[adapter].minInterval) * 1_000_000 <= now)
              && |set i | 0 <= i < |applied| && applied[i] >= now / 1_000_000 - 86_400| < limits[adapter].maxDaily
    {
      CountedFrom(applied, Sec(now) - WINDOW_SECONDS);
      if adapter !in limits {
        return NoControls;
      }
      var latest := GetLatestSubmissionTimestamp();
      if latest.Some? {
        var elapsed := now - latest.value * TICKS_PER_SECOND;
        if elapsed < limits[adapter].minInterval * TICKS_PER_SECOND {
          ghost var a :| a in last && last[a] == latest.value;
          assert !Paced(Contents(), limits[adapter].minInterval, now);
          return PacingViolation;
        }
        assert forall a | a in last :: last[a] * TICKS_PER_SECOND <= latest.value * TICKS_PER_SECOND;
      }
      var count := GetSubmissionsInWindow(now);
      if count >= limits[adapter].maxDaily {
        return DailyLimitReached;
      }
      return Pass;
    }
  }

  // ---------------------------------------------------------------- one sequential worker

  /** One click after a passed gate.  Completing the attempt as applied and recording the timestamp
      are two transactions, in this order; either may be missing, when the outcome was another one,
      when the worker ended between them, or when the completion was refused. */
  datatype Cycle = Cycle(adapter: AdapterId, checkedAt: nat, completed: bool, completedAt: nat,
                         recorded: bool, recordedAt: nat)

  function Completed(books: Books, c: Cycle): Books {
    if c.completed then books.(applied := books.applied + [Sec(c.completedAt)]) else books
  }

  function Booked(books: Books, c: Cycle): Books {
    if c.recorded then Stamped(Completed(books, c), c.adapter, c.recordedAt) else Completed(books, c)
  }

  /** The cycles of one worker, one after the other, from `since` on. */
  ghost predicate Sequential(books: Books, since: nat, cycles: seq<Cycle>)
    decreases |cycles|
  {
    cycles == [] ||
    var c := cycles[0];
    && since <= c.checkedAt <= c.completedAt <= c.recordedAt
    && Passes(books, c.adapter, c.checkedAt)
    && Sequential(Booked(books, c), c.recordedAt, cycles[1..])
  }

  function AfterCycles(books: Books, cycles: seq<Cycle>): Books
    decreases |cycles|
  {
    if cycles == [] then books else AfterCycles(Booked(books, cycles[0]), cycles[1..])
  }

  /** The greatest daily limit among the adapters. */
  ghost predicate DailyBound(books: Books, bound: nat) {
    forall a | a in books.limits :: books.limits[a].maxDaily <= bound
  }

  /** How many of the times lie in the closed 24-hour window that begins at `from`. */
  function CountWindow(times: seq<nat>, from: int): nat {
    if times == [] then 0
    else CountWindow(times[..|times| - 1], from) + if from <= times[|times| - 1] <= from + WINDOW_SECONDS then 1 else 0
  }

  lemma {:induction false} WindowAtMostFrom(times: seq<nat>, from: int, cutoff: int)
    requires cutoff <= from
    ensures CountWindow(times, from) <= CountFrom(times, cutoff)
    decreases |times|
  {
    if times != [] {
      WindowAtMostFrom(times[..|times| - 1], from, cutoff);
    }
  }

  /** Every closed 24-hour window over the completed submissions holds at most the bound. */
  ghost predicate WindowsBounded(times: seq<nat>, bound: nat) {
    forall from: int :: CountWindow(times, from) <= bound
  }

  lemma OneMoreSubmission(times: seq<nat>, bound: nat, at: nat, checked: nat, limit: nat)
    requires WindowsBounded(times, bound) && checked <= at && limit <= bound
    requires CountFrom(times, Sec(checked) - WINDOW_SECONDS) < limit
    ensures WindowsBounded(times + [Sec(at)], bound)
  {
    var times' := times + [Sec(at)];
    assert times'[..|times|] == times;
    forall from: int ensures CountWindow(times', from) <= bound {
      if from <= Sec(at) <= from + WINDOW_SECONDS {
        assert Sec(checked) - WINDOW_SECONDS <= from;
        WindowAtMostFrom(times, from, Sec(checked) - WINDOW_SECONDS);
      }
    }
  }

  lemma {:induction false} WindowsStayBounded(books: Books, since: nat, cycles: seq<Cycle>, bound: nat)
    requires Sequential(books, since, cycles) && DailyBound(books, bound) && WindowsBounded(books.applied, bound)
    ensures WindowsBounded(AfterCycles(books, cycles).applied, bound)
    decreases |cycles|
  {
    if cycles != [] {
      var c := cycles[0];
      if c.completed {
        OneMoreSubmission(books.applied, bound, c.completedAt, c.checkedAt, books.limits[c.adapter].maxDaily);
      }
      WindowsStayBounded(Booked(books, c), c.recordedAt, cycles[1..], bound);
    }
  }

  /** One sequential worker, starting from any ledger within the bound: although the checks come
      before the completions and all times are cut to seconds, every closed window of 24 hours holds
      at most the greatest daily limit of applied submissions. */
  lemma SlidingWindowBound(books: Books, since: nat, cycles: seq<Cycle>, bound: nat, from: int)
    requires Sequential(books, since, cycles) && DailyBound(books, bound)
    requires WindowsBounded(books.applied, bound)
    ensures CountWindow(AfterCycles(books, cycles).applied, from) <= bound
    ensures var times := AfterCycles(books, cycles).applied;
            |set i | 0 <= i < |times| && from <= times[i] <= from + 86_400| <= bound
  {
    WindowsStayBounded(books, since, cycles, bound);
    CountedWindow(AfterCycles(books, cycles).applied, from);
  }

  lemma {:induction false} CountedFrom(times: seq<nat>, cutoff: int)
    ensures CountFrom(times, cutoff) == |set i | 0 <= i < |times| && times[i] >= cutoff|
    decreases |times|
  {
    if times != [] {
      var front := times[..|times| - 1];
      CountedFrom(front, cutoff);
      var last := |times| - 1;
      assert (set i | 0 <= i < |times| && times[i] >= cutoff)
          == (set i | 0 <= i < |front| && front[i] >= cutoff) + (if times[last] >= cutoff then {last} else {});
    }
  }

  lemma {:induction false} CountedWindow(times: seq<nat>, from: int)
    ensures CountWindow(times, from) == |set i | 0 <= i < |times| && from <= times[i] <= from + 86_400|
    decreases |times|
  {
    if times != [] {
      var front := times[..|times| - 1];
      CountedWindow(front, from);
      var last := |times| - 1;
      assert (set i | 0 <= i < |times| && from <= times[i] <= from + 86_400)
          == (set i | 0 <= i < |front| && from <= front[i] <= from + 86_400)
             + (if from <= times[last] <= from + 86_400 then {last} else {});
    }
  }

  /** A gate that passed lies after every recorded submission, so a new record is never older. */
  lemma StampsRise(books: Books, c: Cycle, a: AdapterId)
    requires Passes(books, c.adapter, c.checkedAt) && c.checkedAt <= c.completedAt <= c.recordedAt && a in books.last
    ensures a in Booked(books, c).last && Booked(books, c).last[a] >= books.last[a]
  {
    assert (books.last[a] + books.limits[c.adapter].minInterval) * TICKS_PER_SECOND <= c.checkedAt;
    assert books.last[a] <= Sec(c.checkedAt) <= Sec(c.recordedAt);
  }

  /** A stamp on record holds back every later gate, also when later stamps have replaced it. */
  lemma {:induction false} StampHolds(books: Books, since: nat, cycles: seq<Cycle>, k: nat, a: AdapterId, floor: nat)
    requires Sequential(books, since, cycles) && k < |cycles|
    requires a in books.last && books.last[a] >= floor
    ensures cycles[k].adapter in books.limits
    ensures (floor + books.limits[cycles[k].adapter].minInterval) * TICKS_PER_SECOND <= cycles[k].checkedAt
    decreases k
  {
    var c := cycles[0];
    if k == 0 {
      assert (books.last[a] + books.limits[c.adapter].minInterval) * TICKS_PER_SECOND <= c.checkedAt;
    } else {
      StampsRise(books, c, a);
      StampHolds(Booked(books, c), c.recordedAt, cycles[1..], k - 1, a, floor);
    }
  }

  /** What a record of a known adapter is for: whatever the worker does next, no gate, of this or
      any other adapter, passes until the gate's own interval since the record is over. */
  lemma RecordBlocksGate(books: Books, adapter: AdapterId, at: nat, since: nat, cycles: seq<Cycle>, k: nat)
    requires adapter in books.limits && Sequential(Stamped(books, adapter, at), since, cycles) && k < |cycles|
    ensures cycles[k].adapter in books.limits
    ensures (Sec(at) + books.limits[cycles[k].adapter].minInterval) * TICKS_PER_SECOND <= cycles[k].checkedAt
  {
    StampHolds(Stamped(books, adapter, at), since, cycles, k, adapter, Sec(at));
  }

  /** Any two recorded submissions of a worker, whatever clicks lie between them: their timestamps
      are at least the later adapter's interval apart. */
  lemma {:induction false} SubmissionsArePaced(books: Books, since: nat, cycles: seq<Cycle>, i: nat, k: nat)
    requires Sequential(books, since, cycles) && i < k < |cycles| && cycles[i].recorded && cycles[k].recorded
    ensures cycles[k].adapter in books.limits
    ensures Sec(cycles[k].recordedAt) >= Sec(cycles[i].recordedAt) + books.limits[cycles[k].adapter].minInterval
    decreases i
  {
    var c := cycles[0];
    if i == 0 {
      RecordBlocksGate(Completed(books, c), c.adapter, c.recordedAt, c.recordedAt, cycles[1..], k - 1);
      RecordedAfter(Booked(books, c), c.recordedAt, cycles[1..], k - 1);
    } else {
      SubmissionsArePaced(Booked(books, c), c.recordedAt, cycles[1..], i - 1, k - 1);
    }
  }

  lemma {:induction false} RecordedAfter(books: Books, since: nat, cycles: seq<Cycle>, k: nat)
    requires Sequential(books, since, cycles) && k < |cycles|
    ensures cycles[k].checkedAt <= cycles[k].recordedAt
    decreases k
  {
    if k > 0 {
      RecordedAfter(Booked(books, cycles[0]), cycles[0].recordedAt, cycles[1..], k - 1);
    }
  }

  // ---------------------------------------------------------------- what is not bounded

  function Unsuccessful(adapter: AdapterId, at: nat, n: nat): seq<Cycle> {
    seq(n, i => Cycle(adapter, at, false, at, false, at))
  }

  /** Only applied attempts count: once the gate passes, any number of clicks that end rejected or
      ambiguous may follow within the same instant, and the gate still passes. */
  lemma {:induction false} UnsuccessfulClicksAreUnlimited(books: Books, adapter: AdapterId, at: nat, n: nat)
    requires Passes(books, adapter, at)
    ensures Sequential(books, at, Unsuccessful(adapter, at, n)) && |Unsuccessful(adapter, at, n)| == n
    ensures AfterCycles(books, Unsuccessful(adapter, at, n)) == books
  {
    var cycles := Unsuccessful(adapter, at, n);
    if n > 0 {
      UnsuccessfulClicksAreUnlimited(books, adapter, at, n - 1);
      assert cycles[1..] == Unsuccessful(adapter, at, n - 1);
    }
  }
}
