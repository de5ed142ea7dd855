/** The backup retention policy: newest per day and per ISO week, everything else pruned. */
module Retention {
  import opened Calendar

  datatype Backup = Backup(path: nat, at: Moment)

  type Key = Backup -> string

  function DayKey(b: Backup): string {
    DayText(b.at)
  }

  function WeekKey(b: Backup): string
    requires Proper(b.at)
  {
    WeekText(b.at)
  }

  predicate Dated(b: Backup) {
    FourDigitWeek(b.at)
  }

  predicate AllDated(s: seq<Backup>) {
    forall i | 0 <= i < |s| :: Dated(s[i])
  }

  predicate DistinctPaths(s: seq<Backup>) {
    forall i, k | 0 <= i < k < |s| :: s[i].path != s[k].path
  }

  function Stamp(b: Backup): nat {
    if Proper(b.at) then Seconds(b.at) else 0
  }

  predicate NewestFirst(s: seq<Backup>) {
    forall i, k | 0 <= i < k < |s| :: Stamp(s[i]) >= Stamp(s[k])
  }

  // ---------------------------------------------------------------- what is to be kept

  /** A key that never comes out of order over the backups, newest first. */
  ghost predicate Graded(s: seq<Backup>, keys: seq<string>) {
    && |keys| == |s|
    && forall i, k | 0 <= i < k < |keys| :: keys[i] == keys[k] || Before(keys[k], keys[i])
  }

  predicate IsFirst(keys: seq<string>, i: nat)
    requires i < |keys|
  {
    forall k | 0 <= k < i :: keys[k] != keys[i]
  }

  /** The distinct keys in front of a position. */
  function KeysBefore(keys: seq<string>, i: nat): set<string>
    requires i <= |keys|
  {
    set k | 0 <= k < i :: keys[k]
  }

  /** The newest of its key, which is among the `limit` latest keys. */
  predicate Chosen(keys: seq<string>, i: nat, limit: nat)
    requires i < |keys|
  {
    IsFirst(keys, i) && |KeysBefore(keys, i)| < limit
  }

  function DayKeys(s: seq<Backup>): (keys: seq<string>)
    ensures |keys| == |s|
  {
    seq(|s|, i requires 0 <= i < |s| => DayKey(s[i]))
  }

  function WeekKeys(s: seq<Backup>): (keys: seq<string>)
    requires AllDated(s)
    ensures |keys| == |s|
  {
    seq(|s|, i requires 0 <= i < |s| => WeekKey(s[i]))
  }

  predicate Kept(s: seq<Backup>, i: nat, daily: nat, weekly: nat)
    requires AllDated(s) && i < |s|
  {
    Chosen(DayKeys(s), i, daily) || Chosen(WeekKeys(s), i, weekly)
  }

  /** Of the first `n`, those kept, or those not kept. */
  function Part(s: seq<Backup>, n: nat, daily: nat, weekly: nat, kept: bool): seq<Backup>
    requires AllDated(s) && n <= |s|
  {
    if n == 0 then []
    else Part(s, n - 1, daily, weekly, kept) + if Kept(s, n - 1, daily, weekly) == kept then [s[n - 1]] else []
  }

  /** A backup is in the part that its decision puts it in. */
  lemma {:induction false} PartHolds(s: seq<Backup>, n: nat, i: nat, daily: nat, weekly: nat, kept: bool)
    requires AllDated(s) && DistinctPaths(s) && i < n <= |s|
    ensures s[i] in Part(s, n, daily, weekly, kept) <==> Kept(s, i, daily, weekly) == kept
    decreases n
  {
    hide Kept, Dated;
    if i < n - 1 {
      PartHolds(s, n - 1, i, daily, weekly, kept);
      assert s[i].path != s[n - 1].path;
    } else {
      PartIsFromFront(s, n - 1, i, daily, weekly, kept);
    }
  }

  lemma {:induction false} PartIsFromFront(s: seq<Backup>, n: nat, i: nat, daily: nat, weekly: nat, kept: bool)
    requires AllDated(s) && DistinctPaths(s) && n <= i < |s|
    ensures s[i] !in Part(s, n, daily, weekly, kept)
    decreases n
  {
    hide Kept, Dated;
    if n > 0 {
      PartIsFromFront(s, n - 1, i, daily, weekly, kept);
      assert s[n - 1].path != s[i].path;
    }
  }

  /** A later backup has no earlier day and no earlier week. */
  lemma KeysFall(a: Backup, b: Backup)
    requires Dated(a) && Dated(b) && Stamp(a) >= Stamp(b)
    ensures DayKey(a) == DayKey(b) || Before(DayKey(b), DayKey(a))
    ensures WeekKey(a) == WeekKey(b) || Before(WeekKey(b), WeekKey(a))
  {
    hide DayText, WeekText, DayNumber;
    DayTextOrder(b.at, a.at);
    WeekTextOrder(b.at, a.at);
    ClockOrder(a.at, b.at);
    ClockOrder(b.at, a.at);
  }

  lemma KeysAreGraded(s: seq<Backup>)
    requires AllDated(s) && NewestFirst(s)
    ensures Graded(s, DayKeys(s)) && Graded(s, WeekKeys(s))
  {
    hide DayKey, WeekKey, Stamp;
    forall i, k | 0 <= i < k < |s|
      ensures DayKeys(s)[i] == DayKeys(s)[k] || Before(DayKeys(s)[k], DayKeys(s)[i])
      ensures WeekKeys(s)[i] == WeekKeys(s)[k] || Before(WeekKeys(s)[k], WeekKeys(s)[i])
    {
      KeysFall(s[i], s[k]);
    }
  }

  // ---------------------------------------------------------------- the latest keys

  predicate Descending(keys: seq<string>) {
    forall i, k | 0 <= i < k < |keys| :: Before(keys[k], keys[i])
  }

  function Later(keys: set<string>, key: string): set<string> {
    set k | k in keys && Before(key, k)
  }

  lemma {:induction false} PrefixSize(keys: seq<string>, n: nat)
    requires Descending(keys) && n <= |keys|
    ensures |set i | 0 <= i < n :: keys[i]| == n
    decreases n
  {
    var front := set i | 0 <= i < n :: keys[i];
    if n > 0 {
      PrefixSize(keys, n - 1);
      var shorter := set i | 0 <= i < n - 1 :: keys[i];
      forall i | 0 <= i < n - 1 ensures keys[i] != keys[n - 1] {
        BeforeTotal(keys[i], keys[n - 1]);
      }
      assert front == shorter + {keys[n - 1]};
    }
  }

  /** In the descending list a key's position is the number of later keys. */
  lemma PositionCounts(keys: seq<string>, p: nat)
    requires Descending(keys) && p < |keys|
    ensures |Later(AllKeys(keys), keys[p])| == p
  {
    PrefixSize(keys, p);
    forall i | 0 <= i < |keys| ensures Before(keys[p], keys[i]) <==> i < p {
      BeforeTotal(keys[p], keys[i]);
    }
    assert Later(AllKeys(keys), keys[p]) == (set i | 0 <= i < p :: keys[i]);
  }

  function AllKeys(keys: seq<string>): set<string> {
    set k | k in keys
  }

  /** Over graded keys, what stands in front of the first of a key are just the later keys. */
  lemma BeforeIsLater(s: seq<Backup>, keys: seq<string>, i: nat)
    requires Graded(s, keys) && i < |keys| && IsFirst(keys, i)
    ensures KeysBefore(keys, i) == Later(AllKeys(keys), keys[i])
  {
    forall k | 0 <= k < |keys| ensures Before(keys[i], keys[k]) <==> k < i {
      BeforeTotal(keys[i], keys[k]);
    }
  }

  /** Being chosen is being the first of a key that the descending list of keys has among its first. */
  lemma ChosenIsListed(s: seq<Backup>, keys: seq<string>, i: nat, sorted: seq<string>, limit: nat)
    requires Graded(s, keys) && i < |keys|
    requires Descending(sorted) && AllKeys(sorted) == AllKeys(keys)
    ensures Chosen(keys, i, limit) <==> IsFirst(keys, i) && keys[i] in sorted[..Least(limit, |sorted|)]
  {
    if IsFirst(keys, i) {
      BeforeIsLater(s, keys, i);
      assert keys[i] in AllKeys(sorted);
      var p :| 0 <= p < |sorted| && sorted[p] == keys[i];
      PositionCounts(sorted, p);
      var n := Least(limit, |sorted|);
      if p < n {
        assert sorted[..n][p] == keys[i];
      } else {
        forall q | 0 <= q < n ensures sorted[q] != keys[i] {
          BeforeTotal(sorted[p], sorted[q]);
        }
      }
    }
  }

  function Least(a: nat, b: nat): nat {
    if a <= b then a else b
  }

  // ---------------------------------------------------------------- keys as numbers

  /** The keys are equal and ordered as the numbers are. */
  ghost predicate Alike(keys: seq<string>, nums: seq<nat>) {
    && |keys| == |nums|
    && forall i, k | 0 <= i < |keys| && 0 <= k < |keys| ::
         (keys[i] == keys[k] <==> nums[i] == nums[k]) && (Before(keys[i], keys[k]) <==> nums[i] < nums[k])
  }

  /** Of the first `n`, the distinct keys, or numbers, greater than that at `i`. */
  function KeysAbove(keys: seq<string>, i: nat, n: nat): set<string>
    requires i < |keys| && n <= |keys|
  {
    set k | 0 <= k < n && Before(keys[i], keys[k]) :: keys[k]
  }

  function NumbersAbove(nums: seq<nat>, i: nat, n: nat): set<nat>
    requires i < |nums| && n <= |nums|
  {
    set k | 0 <= k < n && nums[i] < nums[k] :: nums[k]
  }

  lemma OneMoreAbove(keys: seq<string>, nums: seq<nat>, i: nat, n: nat)
    requires i < |keys| == |nums| && n < |keys|
    ensures KeysAbove(keys, i, n + 1) == KeysAbove(keys, i, n) + if Before(keys[i], keys[n]) then {keys[n]} else {}
    ensures NumbersAbove(nums, i, n + 1) == NumbersAbove(nums, i, n) + if nums[i] < nums[n] then {nums[n]} else {}
  {
    hide Before;
  }

  lemma SameAbove(keys: seq<string>, nums: seq<nat>, i: nat, n: nat)
    requires Alike(keys, nums) && i < |keys| && n < |keys|
    ensures |nums| == |keys| && (Before(keys[i], keys[n]) <==> nums[i] < nums[n])
    ensures keys[n] in KeysAbove(keys, i, n) <==> nums[n] in NumbersAbove(nums, i, n)
  {
    hide Before;
    if keys[n] in KeysAbove(keys, i, n) {
      var k :| 0 <= k < n && Before(keys[i], keys[k]) && keys[k] == keys[n];
      assert nums[k] == nums[n] && nums[i] < nums[k];
    }
    if nums[n] in NumbersAbove(nums, i, n) {
      var k :| 0 <= k < n && nums[i] < nums[k] && nums[k] == nums[n];
      assert keys[k] == keys[n] && Before(keys[i], keys[k]);
    }
  }

  lemma NothingAbove(keys: seq<string>, nums: seq<nat>, i: nat)
    requires i < |keys| == |nums|
    ensures KeysAbove(keys, i, 0) == {} && NumbersAbove(nums, i, 0) == {}
  {
  }

  lemma {:induction false} AsManyAbove(keys: seq<string>, nums: seq<nat>, i: nat, n: nat)
    requires Alike(keys, nums) && i < |keys| == |nums| && n <= |keys|
    ensures |KeysAbove(keys, i, n)| == |NumbersAbove(nums, i, n)|
    decreases n
  {
    hide KeysAbove, NumbersAbove, Alike, Before;
    if n == 0 {
      NothingAbove(keys, nums, i);
    } else {
      AsManyAbove(keys, nums, i, n - 1);
      OneMoreAbove(keys, nums, i, n - 1);
      SameAbove(keys, nums, i, n - 1);
    }
  }

  /** Being chosen, said on the numbers. */
  lemma ChosenByNumber(s: seq<Backup>, keys: seq<string>, nums: seq<nat>, i: nat, limit: nat)
    requires Graded(s, keys) && Alike(keys, nums) && i < |keys|
    ensures Chosen(keys, i, limit) <==>
            (forall k | 0 <= k < i :: nums[k] != nums[i]) && |NumbersAbove(nums, i, |nums|)| < limit
  {
    assert IsFirst(keys, i) <==> forall k | 0 <= k < i :: nums[k] != nums[i];
    if IsFirst(keys, i) {
      BeforeIsLater(s, keys, i);
      AsManyAbove(keys, nums, i, |keys|);
      assert Later(AllKeys(keys), keys[i]) == KeysAbove(keys, i, |keys|);
    }
  }

  lemma DatesAreAlike(s: seq<Backup>, days: seq<nat>, weeks: seq<nat>)
    requires AllDated(s) && |days| == |weeks| == |s|
    requires forall k | 0 <= k < |s| :: days[k] == DayNumber(s[k].at) && weeks[k] == WeekIndex(s[k].at)
    ensures Alike(DayKeys(s), days) && Alike(WeekKeys(s), weeks)
  {
    hide DayText, WeekText, DayNumber, WeekIndex, IsoYear, Before;
    forall i, k | 0 <= i < |s| && 0 <= k < |s|
      ensures (DayKeys(s)[i] == DayKeys(s)[k] <==> days[i] == days[k])
              && (Before(DayKeys(s)[i], DayKeys(s)[k]) <==> days[i] < days[k])
      ensures (WeekKeys(s)[i] == WeekKeys(s)[k] <==> weeks[i] == weeks[k])
              && (Before(WeekKeys(s)[i], WeekKeys(s)[k]) <==> weeks[i] < weeks[k])
    {
      DayTextOrder(s[i].at, s[k].at);
      WeekTextOrder(s[i].at, s[k].at);
    }
  }

  /** The newest of one of the latest days, or of one of the latest weeks. */
  ghost predicate LatestByDate(s: seq<Backup>, i: nat, daily: nat, weekly: nat)
    requires AllDated(s) && i < |s|
  {
    || (var day := DayNumber(s[i].at);
        && (forall k | 0 <= k < i :: DayNumber(s[k].at) != day)
        && |set b | b in s && day < DayNumber(b.at) :: DayNumber(b.at)| < daily)
    || (var week := WeekIndex(s[i].at);
        && (forall k | 0 <= k < i :: WeekIndex(s[k].at) != week)
        && |set b | b in s && week < WeekIndex(b.at) :: WeekIndex(b.at)| < weekly)
  }

  lemma KeptByDate(s: seq<Backup>, i: nat, daily: nat, weekly: nat)
    requires AllDated(s) && NewestFirst(s) && i < |s|
    ensures Kept(s, i, daily, weekly) <==> LatestByDate(s, i, daily, weekly)
  {
    hide DayKeys, WeekKeys, DayNumber, WeekIndex, Stamp, Graded, Chosen, Alike, IsoYear;
    KeysAreGraded(s);
    var days := seq(|s|, k requires 0 <= k < |s| => DayNumber(s[k].at));
    var weeks := seq(|s|, k requires 0 <= k < |s| => WeekIndex(s[k].at));
    DatesAreAlike(s, days, weeks);
    ChosenByNumber(s, DayKeys(s), days, i, daily);
    ChosenByNumber(s, WeekKeys(s), weeks, i, weekly);
    var day, week := DayNumber(s[i].at), WeekIndex(s[i].at);
    assert NumbersAbove(days, i, |days|) == set b | b in s && day < DayNumber(b.at) :: DayNumber(b.at);
    assert NumbersAbove(weeks, i, |weeks|) == set b | b in s && week < WeekIndex(b.at) :: WeekIndex(b.at);
  }

  // ---------------------------------------------------------------- the loops

  /** Every listed backup once, newest first. */
  ghost predicate SortedListing(s: seq<Backup>, listing: seq<Backup>) {
    AllDated(s) && NewestFirst(s) && DistinctPaths(s) && |s| == |listing| && forall b :: b in s <==> b in listing
  }

  function InsertAt(s: seq<Backup>, b: Backup, i: nat): (r: seq<Backup>)
    requires i <= |s|
    ensures |r| == |s| + 1
  {
    s[..i] + [b] + s[i..]
  }

  lemma InsertedMembers(s: seq<Backup>, b: Backup, i: nat)
    requires i <= |s|
    ensures forall c :: c in InsertAt(s, b, i) <==> c in s + [b]
    ensures AllDated(s) && Dated(b) ==> AllDated(InsertAt(s, b, i))
  {
    hide Dated;
    assert s == s[..i] + s[i..];
  }

  lemma InsertedOrder(s: seq<Backup>, b: Backup, i: nat)
    requires i <= |s| && NewestFirst(s)
    requires forall k | 0 <= k < i :: Stamp(s[k]) >= Stamp(b)
    requires i < |s| ==> Stamp(s[i]) < Stamp(b)
    ensures NewestFirst(InsertAt(s, b, i))
  {
    hide Stamp;
    var r := InsertAt(s, b, i);
    forall p, q | 0 <= p < q < |r| ensures Stamp(r[p]) >= Stamp(r[q]) {
      assert r[p] == if p < i then s[p] else if p == i then b else s[p - 1];
      assert r[q] == if q < i then s[q] else if q == i then b else s[q - 1];
      if p == i {
        assert i == q - 1 || Stamp(s[i]) >= Stamp(s[q - 1]);
      }
    }
  }

  lemma InsertedPaths(s: seq<Backup>, b: Backup, i: nat)
    requires i <= |s| && DistinctPaths(s) && forall k | 0 <= k < |s| :: s[k].path != b.path
    ensures DistinctPaths(InsertAt(s, b, i))
  {
    var r := InsertAt(s, b, i);
    forall p, q | 0 <= p < q < |r| ensures r[p].path != r[q].path {
      assert r[p] == if p < i then s[p] else if p == i then b else s[p - 1];
      assert r[q] == if q < i then s[q] else if q == i then b else s[q - 1];
    }
  }

  lemma NewPath(s: seq<Backup>, listing: seq<Backup>, b: Backup)
    requires DistinctPaths(listing + [b]) && forall c :: c in s <==> c in listing
    ensures forall k | 0 <= k < |s| :: s[k].path != b.path
  {
    forall k | 0 <= k < |s| ensures s[k].path != b.path {
      assert s[k] in s && s[k] in listing;
      var l :| 0 <= l < |listing| && listing[l] == s[k];
      assert (listing + [b])[l].path != (listing + [b])[|listing|].path;
    }
  }

  lemma Inserted(s: seq<Backup>, listing: seq<Backup>, b: Backup, i: nat)
    requires SortedListing(s, listing) && Dated(b) && DistinctPaths(listing + [b]) && i <= |s|
    requires forall k | 0 <= k < i :: Stamp(s[k]) >= Stamp(b)
    requires i < |s| ==> Stamp(s[i]) < Stamp(b)
    ensures SortedListing(InsertAt(s, b, i), listing + [b])
  {
    hide Stamp, InsertAt, AllDated, NewestFirst, DistinctPaths;
    NewPath(s, listing, b);
    InsertedPaths(s, b, i);
    InsertedOrder(s, b, i);
    InsertedMembers(s, b, i);
  }

  /** backups.sort(key, reverse=True) */
  method SortNewestFirst(listing: seq<Backup>) returns (s: seq<Backup>)
    requires AllDated(listing) && DistinctPaths(listing)
    ensures SortedListing(s, listing)
  {
    hide Stamp, Dated, NewestFirst;
    s := [];
    assert NewestFirst(s) by { SingleOrder(); }
    for n := 0 to |listing|
      invariant SortedListing(s, listing[..n])
    {
      var b := listing[n];
      var i := 0;
      while i < |s| && Stamp(s[i]) >= Stamp(b)
        invariant i <= |s|
        invariant forall k | 0 <= k < i :: Stamp(s[k]) >= Stamp(b)
      {
        i := i + 1;
      }
      assert listing[..n + 1] == listing[..n] + [b];
      Inserted(s, listing[..n], b, i);
      s := InsertAt(s, b, i);
    }
    assert listing[..|listing|] == listing;
  }

  lemma SingleOrder()
    ensures NewestFirst([])
  {
  }

  /** daily_map and weekly_map: the first path seen under each key. */
  method FirstPaths(s: seq<Backup>, keys: seq<string>) returns (m: map<string, nat>)
    requires |keys| == |s|
    ensures m.Keys == AllKeys(keys)
    ensures forall i | 0 <= i < |s| && IsFirst(keys, i) :: m[keys[i]] == s[i].path
    ensures forall key | key in m :: exists i :: 0 <= i < |s| && IsFirst(keys, i) && keys[i] == key
  {
    m := map[];
    for n := 0 to |s|
      invariant m.Keys == KeysBefore(keys, n)
      invariant forall i | 0 <= i < n && IsFirst(keys, i) :: m[keys[i]] == s[i].path
      invariant forall key | key in m :: exists i :: 0 <= i < n && IsFirst(keys, i) && keys[i] == key
    {
      if keys[n] !in m {
        m := m[keys[n] := s[n].path];
        assert IsFirst(keys, n);
      }
    }
  }

  /** sorted(keys, reverse=True) */
  method SortKeys(keys: set<string>) returns (sorted: seq<string>)
    ensures Descending(sorted) && AllKeys(sorted) == keys
  {
    sorted := [];
    var todo := keys;
    while todo != {}
      invariant todo <= keys && Descending(sorted)
      invariant AllKeys(sorted) == keys - todo
      invariant forall k, t | k in sorted && t in todo :: Before(t, k)
      decreases |todo|
    {
      var greatest := GreatestKey(todo);
      assert AllKeys(sorted + [greatest]) == AllKeys(sorted) + {greatest};
      sorted := sorted + [greatest];
      todo := todo - {greatest};
    }
  }

  method GreatestKey(keys: set<string>) returns (greatest: string)
    requires keys != {}
    ensures greatest in keys && forall k | k in keys && k != greatest :: Before(k, greatest)
  {
    greatest :| greatest in keys;
    var todo := keys - {greatest};
    while todo != {}
      invariant todo <= keys && greatest in keys && greatest !in todo
      invariant forall k | k in keys - todo && k != greatest :: Before(k, greatest)
      decreases |todo|
    {
      var k :| k in todo;
      todo := todo - {k};
      BeforeTotal(k, greatest);
      if Before(greatest, k) {
        forall x | x in keys - todo && x != k ensures Before(x, k) {
          if x != greatest { BeforeTransitive(x, greatest, k); }
        }
        greatest := k;
      }
    }
  }

  /** The paths retained for one kind of key. */
  method RetainedPaths(s: seq<Backup>, keys: seq<string>, limit: nat) returns (paths: set<nat>)
    requires AllDated(s) && DistinctPaths(s) && Graded(s, keys)
    ensures forall i | 0 <= i < |s| :: s[i].path in paths <==> Chosen(keys, i, limit)
  {
    var m := FirstPaths(s, keys);
    var sorted := SortKeys(m.Keys);
    var top := sorted[..Least(limit, |sorted|)];
    assert forall key | key in top :: key in AllKeys(sorted);
    paths := set key | key in top :: m[key];
    forall i | 0 <= i < |s| ensures s[i].path in paths <==> Chosen(keys, i, limit) {
      ChosenIsListed(s, keys, i, sorted, limit);
      if s[i].path in paths {
        var key :| key in top && m[key] == s[i].path;
        var k :| 0 <= k < |s| && IsFirst(keys, k) && keys[k] == key;
        assert s[k].path == s[i].path;
        assert k == i;
      }
      if IsFirst(keys, i) && keys[i] in top {
        assert m[keys[i]] == s[i].path;
      }
    }
  }

  /** What is retained, in days and weeks. */
  lemma RetainedByDate(s: seq<Backup>, retained: seq<Backup>, daily: nat, weekly: nat)
    requires AllDated(s) && DistinctPaths(s) && NewestFirst(s) && retained == Part(s, |s|, daily, weekly, true)
    ensures forall i | 0 <= i < |s| :: s[i] in retained <==> LatestByDate(s, i, daily, weekly)
  {
    hide Part, Kept, LatestByDate, Stamp;
    forall i | 0 <= i < |s|
      ensures s[i] in retained <==> LatestByDate(s, i, daily, weekly)
    {
      PartHolds(s, |s|, i, daily, weekly, true);
      KeptByDate(s, i, daily, weekly);
    }
  }

  class BackupDirectory {
    var files: set<Backup>

    constructor (contents: set<Backup>)
      ensures files == contents
    {
      files := contents;
    }

    method Prune(backups: seq<Backup>, retainedAll: set<nat>, daily: nat, weekly: nat, dryRun: bool)
      returns (retained: seq<Backup>, pruned: seq<Backup>)
      requires AllDated(backups) && DistinctPaths(backups)
      requires forall i | 0 <= i < |backups| :: backups[i].path in retainedAll <==> Kept(backups, i, daily, weekly)
      modifies this
      ensures retained == Part(backups, |backups|, daily, weekly, true)
      ensures pruned == Part(backups, |backups|, daily, weekly, false)
      ensures files == if dryRun then old(files) else old(files) - (set b | b in pruned)
    {
      hide Kept;
      retained, pruned := [], [];
      for n := 0 to |backups|
        invariant retained == Part(backups, n, daily, weekly, true)
        invariant pruned == Part(backups, n, daily, weekly, false)
        invariant files == if dryRun then old(files) else old(files) - (set b | b in pruned)
      {
        if backups[n].path in retainedAll {
          retained := retained + [backups[n]];
        } else {
          pruned := pruned + [backups[n]];
          if !dryRun {
            files := files - {backups[n]};
          }
        }
      }
    }

    /** Scans the listed backups, decides, and removes the pruned ones unless this is a dry run. */
    method ApplyRetentionPolicy(listing: seq<Backup>, daily: nat, weekly: nat, dryRun: bool)
      returns (backups: seq<Backup>, retained: seq<Backup>, pruned: seq<Backup>)
      requires AllDated(listing) && DistinctPaths(listing) && (forall b :: b in listing <==> b in files)
      modifies this
      ensures SortedListing(backups, listing)
      ensures forall i | 0 <= i < |backups| ::
                backups[i] in retained <==>
                              || (var day := DayNumber(backups[i].at);
                                  && (forall k | 0 <= k < i :: DayNumber(backups[k].at) != day)
                                  && |set b | b in backups && day < DayNumber(b.at) :: DayNumber(b.at)| < daily)
                              || (var week := WeekIndex(backups[i].at);
                                  && (forall k | 0 <= k < i :: WeekIndex(backups[k].at) != week)
                                  && |set b | b in backups && week < WeekIndex(b.at) :: WeekIndex(b.at)| < weekly)
      ensures forall b :: b in backups <==> b in retained || b in pruned
      ensures forall b | b in pruned :: b !in retained
      ensures retained == Part(backups, |backups|, daily, weekly, true)
      ensures pruned == Part(backups, |backups|, daily, weekly, false)
      ensures files == if dryRun then old(files) else (set b | b in retained)
    {
      hide Part, Chosen, Graded;
      backups := SortNewestFirst(listing);
      KeysAreGraded(backups);
      var retainedDaily := RetainedPaths(backups, DayKeys(backups), daily);
      var retainedWeekly := RetainedPaths(backups, WeekKeys(backups), weekly);
      var retainedAll := retainedDaily + retainedWeekly;
      retained, pruned := Prune(backups, retainedAll, daily, weekly, dryRun);
      PartsPartition(backups, |backups|, daily, weekly);
      assert backups[..|backups|] == backups;
      RetainedByDate(backups, retained, daily, weekly);
    }
  }

  // ---------------------------------------------------------------- what the policy promises

  /** Retained and pruned are disjoint and together are all the backups. */
  lemma {:induction false} PartsPartition(s: seq<Backup>, n: nat, daily: nat, weekly: nat)
    requires AllDated(s) && DistinctPaths(s) && n <= |s|
    ensures forall b :: b in s[..n] <==> b in Part(s, n, daily, weekly, true) || b in Part(s, n, daily, weekly, false)
    ensures forall b :: !(b in Part(s, n, daily, weekly, true) && b in Part(s, n, daily, weekly, false))
    ensures |Part(s, n, daily, weekly, true)| + |Part(s, n, daily, weekly, false)| == n
    decreases n
  {
    hide Kept, Dated;
    if n > 0 {
      PartsPartition(s, n - 1, daily, weekly);
      assert s[..n] == s[..n - 1] + [s[n - 1]];
      assert s[n - 1] !in s[..n - 1] by {
        forall k | 0 <= k < n - 1 ensures s[k] != s[n - 1] { assert s[k].path != s[n - 1].path; }
      }
    }
  }

  /** A chosen backup is the newest of its key, and the latest keys each have exactly one. */
  lemma ChosenIsNewest(s: seq<Backup>, keys: seq<string>, i: nat, limit: nat)
    requires NewestFirst(s) && Graded(s, keys) && i < |keys|
    ensures Chosen(keys, i, limit) ==>
              && |Later(AllKeys(keys), keys[i])| < limit
              && forall k | 0 <= k < |s| && keys[k] == keys[i] :: Stamp(s[k]) <= Stamp(s[i])
    ensures |Later(AllKeys(keys), keys[i])| < limit ==>
              exists k :: 0 <= k <= i && keys[k] == keys[i] && Chosen(keys, k, limit)
    ensures forall k | 0 <= k < |keys| && k != i && Chosen(keys, k, limit)
                       && Chosen(keys, i, limit) :: keys[k] != keys[i]
  {
    hide Stamp, Graded;
    var first := FirstOf(keys, i);
    BeforeIsLater(s, keys, first);
    if IsFirst(keys, i) {
      BeforeIsLater(s, keys, i);
    }
  }

  lemma {:induction false} FirstOf(keys: seq<string>, i: nat) returns (first: nat)
    requires i < |keys|
    ensures first <= i && keys[first] == keys[i] && IsFirst(keys, first)
    decreases i
  {
    first := i;
    if !IsFirst(keys, i) {
      var k :| 0 <= k < i && keys[k] == keys[i];
      first := FirstOf(keys, k);
    }
  }

  // ---------------------------------------------------------------- how many are retained

  function CountChosen(keys: seq<string>, n: nat, limit: nat): nat
    requires n <= |keys|
  {
    if n == 0 then 0 else CountChosen(keys, n - 1, limit) + if Chosen(keys, n - 1, limit) then 1 else 0
  }

  /** One backup for each of the latest keys, up to the limit. */
  lemma {:induction false} ChosenPerKey(keys: seq<string>, n: nat, limit: nat)
    requires n <= |keys|
    ensures CountChosen(keys, n, limit) == Least(limit, |KeysBefore(keys, n)|)
    decreases n
  {
    if n == 0 {
      assert KeysBefore(keys, 0) == {};
    } else {
      ChosenPerKey(keys, n - 1, limit);
      assert KeysBefore(keys, n) == KeysBefore(keys, n - 1) + {keys[n - 1]};
      if !IsFirst(keys, n - 1) {
        assert KeysBefore(keys, n) == KeysBefore(keys, n - 1);
      }
    }
  }

  lemma {:induction false} RetainedCount(s: seq<Backup>, n: nat, daily: nat, weekly: nat)
    requires AllDated(s) && n <= |s|
    ensures |Part(s, n, daily, weekly, true)| + (if n > 0 && daily > 0 && weekly > 0 then 1 else 0)
         <= CountChosen(DayKeys(s), n, daily) + CountChosen(WeekKeys(s), n, weekly)
    decreases n
  {
    hide DayKey, WeekKey, Dated;
    if n > 0 {
      RetainedCount(s, n - 1, daily, weekly);
      if n == 1 {
        assert KeysBefore(DayKeys(s), 0) == {} && KeysBefore(WeekKeys(s), 0) == {};
        assert CountChosen(DayKeys(s), 0, daily) == 0 && CountChosen(WeekKeys(s), 0, weekly) == 0;
      }
    }
  }

  lemma {:induction false} NewestIsRetained(s: seq<Backup>, n: nat, daily: nat, weekly: nat)
    requires AllDated(s) && 1 <= n <= |s| && (daily > 0 || weekly > 0)
    ensures s[0] in Part(s, n, daily, weekly, true)
    decreases n
  {
    hide DayKey, WeekKey, Dated;
    if n == 1 {
      assert KeysBefore(DayKeys(s), 0) == {} && KeysBefore(WeekKeys(s), 0) == {};
    } else {
      NewestIsRetained(s, n - 1, daily, weekly);
    }
  }

  /** With both limits positive and a backup present: the newest overall is retained, and at most
      daily + weekly - 1 are. */
  lemma RetentionBounds(s: seq<Backup>, daily: nat, weekly: nat)
    requires AllDated(s) && s != [] && daily >= 1 && weekly >= 1
    ensures s[0] in Part(s, |s|, daily, weekly, true)
    ensures |Part(s, |s|, daily, weekly, true)| <= daily + weekly - 1
  {
    NewestIsRetained(s, |s|, daily, weekly);
    RetainedCount(s, |s|, daily, weekly);
    ChosenPerKey(DayKeys(s), |s|, daily);
    ChosenPerKey(WeekKeys(s), |s|, weekly);
  }

  // ---------------------------------------------------------------- running it again

  lemma PrefixChosen(a: seq<string>, b: seq<string>, i: nat, limit: nat)
    requires i < |a| && a <= b
    ensures Chosen(a, i, limit) == Chosen(b, i, limit)
  {
    assert KeysBefore(a, i) == KeysBefore(b, i);
  }

  lemma PrefixKept(a: seq<Backup>, b: seq<Backup>, i: nat, daily: nat, weekly: nat)
    requires AllDated(a) && AllDated(b) && i < |a| && a <= b
    ensures Kept(a, i, daily, weekly) == Kept(b, i, daily, weekly)
  {
    hide DayKey, WeekKey, Dated;
    PrefixChosen(DayKeys(a), DayKeys(b), i, daily);
    PrefixChosen(WeekKeys(a), WeekKeys(b), i, weekly);
  }

  /** Fewer backups in front: what was chosen stays chosen. */
  lemma ChosenAmongFewer(few: seq<string>, many: seq<string>, i: nat, k: nat, limit: nat)
    requires i < |few| && k < |many| && few[i] == many[k] && Chosen(many, k, limit)
    requires forall p | 0 <= p < i :: few[p] in KeysBefore(many, k)
    ensures Chosen(few, i, limit)
  {
    Subset(KeysBefore(few, i), KeysBefore(many, k));
  }

  lemma {:induction false} Subset(a: set<string>, b: set<string>)
    requires a <= b
    ensures |a| <= |b|
    decreases |a|
  {
    if a != {} {
      var x :| x in a;
      Subset(a - {x}, b - {x});
    }
  }

  lemma {:induction false} KeptAgain(s: seq<Backup>, n: nat, daily: nat, weekly: nat)
    requires AllDated(s) && DistinctPaths(s) && n <= |s|
    ensures var r := Part(s, n, daily, weekly, true);
            AllDated(r) && forall i | 0 <= i < |r| :: Kept(r, i, daily, weekly)
    decreases n
  {
    hide DayKey, WeekKey, Dated, Chosen, KeysBefore;
    if n > 0 {
      var r' := Part(s, n - 1, daily, weekly, true);
      var r := Part(s, n, daily, weekly, true);
      KeptAgain(s, n - 1, daily, weekly);
      forall i | 0 <= i < |r| ensures Kept(r, i, daily, weekly) {
        if i < |r'| {
          PrefixKept(r', r, i, daily, weekly);
        } else {
          LastKept(s, n, daily, weekly);
        }
      }
    }
  }

  lemma LastKept(s: seq<Backup>, n: nat, daily: nat, weekly: nat)
    requires AllDated(s) && DistinctPaths(s) && 0 < n <= |s| && Kept(s, n - 1, daily, weekly)
    requires AllDated(Part(s, n, daily, weekly, true))
    ensures var r := Part(s, n, daily, weekly, true);
            r != [] && Kept(r, |r| - 1, daily, weekly)
  {
    hide DayKey, WeekKey, Dated, Chosen;
    var r' := Part(s, n - 1, daily, weekly, true);
    var r := Part(s, n, daily, weekly, true);
    assert r == r' + [s[n - 1]];
    PartsPartition(s, n - 1, daily, weekly);
    forall p | 0 <= p < |r'|
      ensures DayKeys(r)[p] in KeysBefore(DayKeys(s), n - 1) && WeekKeys(r)[p] in KeysBefore(WeekKeys(s), n - 1)
    {
      assert r'[p] in s[..n - 1];
      var q :| 0 <= q < n - 1 && s[q] == r'[p];
      assert DayKeys(s)[q] == DayKeys(r)[p] && WeekKeys(s)[q] == WeekKeys(r)[p];
    }
    if Chosen(DayKeys(s), n - 1, daily) {
      ChosenAmongFewer(DayKeys(r), DayKeys(s), |r'|, n - 1, daily);
    } else {
      ChosenAmongFewer(WeekKeys(r), WeekKeys(s), |r'|, n - 1, weekly);
    }
  }

  lemma {:induction false} KeptAll(r: seq<Backup>, n: nat, daily: nat, weekly: nat)
    requires AllDated(r) && n <= |r| && forall i | 0 <= i < |r| :: Kept(r, i, daily, weekly)
    ensures Part(r, n, daily, weekly, true) == r[..n] && Part(r, n, daily, weekly, false) == []
    decreases n
  {
    hide Kept;
    if n > 0 {
      KeptAll(r, n - 1, daily, weekly);
      assert r[..n] == r[..n - 1] + [r[n - 1]];
    }
  }

  lemma SameInstantSameKeys(a: Backup, b: Backup)
    requires Dated(a) && Dated(b) && Stamp(a) == Stamp(b)
    ensures DayKey(a) == DayKey(b) && WeekKey(a) == WeekKey(b)
  {
    hide DayText, WeekText, DayNumber;
    DayTextOrder(a.at, b.at);
    WeekTextOrder(a.at, b.at);
    ClockOrder(a.at, b.at);
  }

  lemma KeptHasNewKey(r: seq<Backup>, i: nat, k: nat, daily: nat, weekly: nat)
    requires AllDated(r) && i < k < |r| && Kept(r, k, daily, weekly)
    ensures DayKey(r[i]) != DayKey(r[k]) || WeekKey(r[i]) != WeekKey(r[k])
  {
    hide DayKey, WeekKey;
    assert DayKeys(r)[i] == DayKey(r[i]) && DayKeys(r)[k] == DayKey(r[k]);
    assert WeekKeys(r)[i] == WeekKey(r[i]) && WeekKeys(r)[k] == WeekKey(r[k]);
  }

  /** Two backups of one instant share day and week, so at most one of them is retained. */
  lemma RetainedInstantsDiffer(r: seq<Backup>, i: nat, k: nat, daily: nat, weekly: nat)
    requires AllDated(r) && i < k < |r| && Kept(r, k, daily, weekly)
    ensures Stamp(r[i]) != Stamp(r[k])
  {
    hide Stamp, DayKey, WeekKey;
    KeptHasNewKey(r, i, k, daily, weekly);
    if Stamp(r[i]) == Stamp(r[k]) {
      SameInstantSameKeys(r[i], r[k]);
    }
  }

  /** Without ties there is only one order, newest first. */
  lemma {:induction false} OneOrder(a: seq<Backup>, b: seq<Backup>)
    requires |a| == |b| && (forall c :: c in a <==> c in b) && NewestFirst(a) && DistinctPaths(a)
    requires forall i, k | 0 <= i < k < |b| :: Stamp(b[i]) > Stamp(b[k])
    ensures a == b
    decreases |a|
  {
    hide Stamp;
    if a != [] {
      assert a[0] in b && b[0] in a;
      assert a[0] == b[0];
      forall i | 1 <= i < |a| ensures a[i] != a[0] {
        assert a[i].path != a[0].path;
      }
      assert a == [a[0]] + a[1..] && b == [b[0]] + b[1..];
      forall c ensures c in a[1..] <==> c in b[1..] {
        if c in a[1..] { assert c in b; }
        if c in b[1..] { assert c in a; }
      }
      OneOrder(a[1..], b[1..]);
    }
  }

  lemma {:induction false} PartKeepsOrder(s: seq<Backup>, n: nat, daily: nat, weekly: nat)
    requires AllDated(s) && DistinctPaths(s) && NewestFirst(s) && n <= |s|
    ensures NewestFirst(Part(s, n, daily, weekly, true)) && DistinctPaths(Part(s, n, daily, weekly, true))
    decreases n
  {
    hide Kept, Stamp, Dated;
    if n > 0 {
      var r := Part(s, n - 1, daily, weekly, true);
      PartKeepsOrder(s, n - 1, daily, weekly);
      PartsPartition(s, n - 1, daily, weekly);
      forall i | 0 <= i < |r| ensures Stamp(r[i]) >= Stamp(s[n - 1]) && r[i].path != s[n - 1].path {
        assert r[i] in s[..n - 1];
        var q :| 0 <= q < n - 1 && s[q] == r[i];
      }
    }
  }

  /** Applied to what it has left, in whatever order the directory lists it, the policy prunes nothing. */
  lemma SecondRunPrunesNothing(s: seq<Backup>, daily: nat, weekly: nat, listing: seq<Backup>, again: seq<Backup>)
    requires AllDated(s) && DistinctPaths(s) && NewestFirst(s)
    requires var r := Part(s, |s|, daily, weekly, true);
             |listing| == |r| && forall b :: b in listing <==> b in r
    requires SortedListing(again, listing)
    ensures again == Part(s, |s|, daily, weekly, true)
    ensures Part(again, |again|, daily, weekly, true) == again && Part(again, |again|, daily, weekly, false) == []
  {
    hide Stamp, Kept, Dated;
    var r := Part(s, |s|, daily, weekly, true);
    PartKeepsOrder(s, |s|, daily, weekly);
    KeptAgain(s, |s|, daily, weekly);
    forall i, k | 0 <= i < k < |r| ensures Stamp(r[i]) > Stamp(r[k]) {
      RetainedInstantsDiffer(r, i, k, daily, weekly);
    }
    OneOrder(again, r);
    KeptAll(r, |r|, daily, weekly);
    assert r[..|r|] == r;
  }
}
