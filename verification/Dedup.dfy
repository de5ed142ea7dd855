/** Greedy deduplication of application packages by canonical URL and by role. */
module Dedup {
  import opened Calendar

  /** A package folder; an absent or unusable URL is the empty string. */
  datatype Folder = Folder(name: string, url: string, role: string)

  /** A URL counts only when it is there; a role signature always does. */
  predicate SharesUrl(a: Folder, b: Folder) {
    a.url != "" && a.url == b.url
  }

  predicate Shares(a: Folder, b: Folder) {
    SharesUrl(a, b) || a.role == b.role
  }

  function Urls(folders: set<Folder>): set<string> {
    set f | f in folders && f.url != "" :: f.url
  }

  function Roles(folders: set<Folder>): set<string> {
    set f | f in folders :: f.role
  }

  function Members(folders: seq<Folder>): set<Folder> {
    set f | f in folders
  }

  /** The decision about one folder, given the submitted packages and those kept so far. */
  predicate Duplicate(f: Folder, applied: set<Folder>, kept: seq<Folder>) {
    || (f.url != "" && f.url in Urls(applied)) || f.role in Roles(applied)
    || (f.url != "" && f.url in Urls(Members(kept))) || f.role in Roles(Members(kept))
  }

  /** The survivors of the first `n` folders: each is kept unless it duplicates an earlier survivor
      or a submitted package. */
  function Survivors(folders: seq<Folder>, n: nat, applied: set<Folder>): seq<Folder>
    requires n <= |folders|
  {
    if n == 0 then []
    else
      var kept := Survivors(folders, n - 1, applied);
      if Duplicate(folders[n - 1], applied, kept) then kept else kept + [folders[n - 1]]
  }

  function Pruned(folders: seq<Folder>, n: nat, applied: set<Folder>): seq<Folder>
    requires n <= |folders|
  {
    if n == 0 then []
    else
      Pruned(folders, n - 1, applied)
      + if Duplicate(folders[n - 1], applied, Survivors(folders, n - 1, applied)) then [folders[n - 1]] else []
  }

  lemma NoKeys()
    ensures Members([]) == {} && Urls(Members([])) == {} && Roles(Members([])) == {}
  {
  }

  lemma MoreKeys(kept: seq<Folder>, f: Folder)
    ensures Urls(Members(kept + [f])) == Urls(Members(kept)) + if f.url != "" then {f.url} else {}
    ensures Roles(Members(kept + [f])) == Roles(Members(kept)) + {f.role}
    ensures Members(kept + [f]) == Members(kept) + {f}
  {
    assert Members(kept + [f]) == Members(kept) + {f};
  }

  // ---------------------------------------------------------------- the program

  ghost predicate SortedByName(folders: seq<Folder>) {
    forall i, k | 0 <= i < k < |folders| :: Before(folders[i].name, folders[k].name)
  }

  /** The index of existing packages: every key leads to a folder that has it. */
  ghost predicate Indexes(folders: seq<Folder>, n: nat, urls: map<string, string>, roles: map<string, string>)
    requires n <= |folders|
  {
    && (forall i | 0 <= i < n && folders[i].url != "" :: folders[i].url in urls)
    && (forall i | 0 <= i < n :: folders[i].role in roles)
    && (forall u | u in urls :: exists i :: 0 <= i < n && folders[i].url == u != "" && folders[i].name == urls[u])
    && (forall r | r in roles :: exists i :: 0 <= i < n && folders[i].role == r && folders[i].name == roles[r])
  }

  /** Submitted folders first, then pending ones, each in name order. */
  method GetExistingApplicationsIndex(folders: seq<Folder>) returns (urls: map<string, string>, roles: map<string,
                                                                                                           string>)
    ensures Indexes(folders, |folders|, urls, roles)
  {
    urls, roles := map[], map[];
    for n := 0 to |folders|
      invariant Indexes(folders, n, urls, roles)
    {
      var f := folders[n];
      if f.url != "" && f.url !in urls {
        urls := urls[f.url := f.name];
      }
      if f.role !in roles {
        roles := roles[f.role := f.name];
      }
    }
  }

  /** Looks a posting up in the index: it is reported exactly when an existing folder shares one of
      its keys, and the folder named is one that does. */
  method IsDuplicateApplication(posting: Folder, ghost folders: seq<Folder>, urls: map<string, string>,
                                roles: map<string, string>)
    returns (duplicate: bool, folder: string)
    requires Indexes(folders, |folders|, urls, roles)
    ensures duplicate <==> exists i :: 0 <= i < |folders| && ((posting.url != "" && folders[i].url == posting.url)
                                                              || folders[i].role == posting.role)
    ensures duplicate ==> exists i :: 0 <= i < |folders| && folders[i].name == folder
                                      && ((posting.url != "" && folders[i].url == posting.url)
                                          || folders[i].role == posting.role)
  {
    if posting.url != "" && posting.url in urls {
      ghost var i :| 0 <= i < |folders| && folders[i].url == posting.url && folders[i].name == urls[posting.url];
      return true, urls[posting.url];
    }
    if posting.role in roles {
      ghost var i :| 0 <= i < |folders| && folders[i].role == posting.role && folders[i].name == roles[posting.role];
      return true, roles[posting.role];
    }
    return false, "";
  }

  class Workspace {
    var pending: set<Folder>
    var submitted: set<Folder>

    constructor (pending: set<Folder>, submitted: set<Folder>)
      ensures this.pending == pending && this.submitted == submitted
    {
      this.pending, this.submitted := pending, submitted;
    }

    /** sorted(directories, key=name) */
    method FoldersByName() returns (folders: seq<Folder>)
      requires forall a, b | a in pending && b in pending && a.name == b.name :: a == b
      ensures SortedByName(folders) && forall f :: f in folders <==> f in pending
    {
      folders := [];
      var todo := pending;
      while todo != {}
        invariant todo <= pending && SortedByName(folders)
        invariant forall f :: f in folders <==> f in pending && f !in todo
        invariant forall f, t | f in folders && t in todo :: Before(f.name, t.name)
        decreases |todo|
      {
        var least := LeastName(todo);
        folders := folders + [least];
        todo := todo - {least};
      }
    }

    method LeastName(todo: set<Folder>) returns (least: Folder)
      requires todo != {} && forall a, b | a in todo && b in todo && a.name == b.name :: a == b
      ensures least in todo && forall f | f in todo && f != least :: Before(least.name, f.name)
    {
      least :| least in todo;
      var rest := todo - {least};
      while rest != {}
        invariant rest <= todo && least in todo && least !in rest
        invariant forall f | f in todo - rest && f != least :: Before(least.name, f.name)
        decreases |rest|
      {
        var f :| f in rest;
        rest := rest - {f};
        BeforeTotal(f.name, least.name);
        if Before(f.name, least.name) {
          forall g | g in todo - rest && g != f ensures Before(f.name, g.name) {
            if g != least { BeforeTransitive(f.name, least.name, g.name); }
          }
          least := f;
        }
      }
    }

    /** Collects the keys of the submitted packages. */
    method AppliedKeys() returns (urls: set<string>, roles: set<string>)
      ensures urls == Urls(submitted) && roles == Roles(submitted)
    {
      urls, roles := {}, {};
      var todo := submitted;
      while todo != {}
        invariant todo <= submitted
        invariant urls == Urls(submitted - todo) && roles == Roles(submitted - todo)
        decreases |todo|
      {
        var f :| f in todo;
        todo := todo - {f};
        if f.url != "" {
          urls := urls + {f.url};
        }
        roles := roles + {f.role};
      }
    }

    /** The four lookups, submitted packages first. */
    method IsSeen(f: Folder, appliedUrls: set<string>, appliedRoles: set<string>, seenUrls: map<string, Folder>,
                  seenRoles: map<string, Folder>, ghost kept: seq<Folder>)
      returns (duplicate: bool)
      requires appliedUrls == Urls(submitted) && appliedRoles == Roles(submitted)
      requires seenUrls.Keys == Urls(Members(kept)) && seenRoles.Keys == Roles(Members(kept))
      ensures duplicate == Duplicate(f, submitted, kept)
    {
      if f.url != "" && f.url in appliedUrls {
        return true;
      } else if f.role in appliedRoles {
        return true;
      } else if f.url != "" && f.url in seenUrls {
        return true;
      } else if f.role in seenRoles {
        return true;
      }
      return false;
    }

    /** Goes over the folders in order, keeps or deletes each, and remembers the keys of those kept. */
    method Pass(folders: seq<Folder>, appliedUrls: set<string>, appliedRoles: set<string>) returns (pruned: seq<Folder>)
      requires appliedUrls == Urls(submitted) && appliedRoles == Roles(submitted)
      modifies this`pending
      ensures pruned == Pruned(folders, |folders|, submitted)
      ensures pending == old(pending) - Members(pruned)
    {
      hide Urls, Roles, Duplicate, Members;
      var seenUrls: map<string, Folder>, seenRoles: map<string, Folder> := map[], map[];
      pruned := [];
      NoKeys();
      for n := 0 to |folders|
        invariant pruned == Pruned(folders, n, submitted)
        invariant seenUrls.Keys == Urls(Members(Survivors(folders, n, submitted)))
        invariant seenRoles.Keys == Roles(Members(Survivors(folders, n, submitted)))
        invariant pending == old(pending) - Members(pruned)
      {
        var f := folders[n];
        ghost var kept := Survivors(folders, n, submitted);
        var duplicate := IsSeen(f, appliedUrls, appliedRoles, seenUrls, seenRoles, kept);
        if duplicate {
          MoreKeys(pruned, f);
          pending := pending - {f};
          pruned := pruned + [f];
        } else {
          MoreKeys(kept, f);
          if f.url != "" {
            seenUrls := seenUrls[f.url := f];
          }
          seenRoles := seenRoles[f.role := f];
        }
      }
    }

    /** One pass in name order. What is left is the survivors; what is reported is the rest, and it
        is deleted. */
    method PruneDuplicateApplications() returns (folders: seq<Folder>, pruned: seq<Folder>)
      requires forall a, b | a in pending && b in pending && a.name == b.name :: a == b
      modifies this`pending
      ensures SortedByName(folders) && (forall f :: f in folders <==> f in old(pending))
      ensures pruned == Pruned(folders, |folders|, submitted)
      ensures forall f :: f in pending <==> f in Survivors(folders, |folders|, submitted)
      ensures forall f :: f in old(pending) <==> f in pending || f in pruned
      ensures forall f | f in old(pending) ::
                f in pruned <==>
                     || (exists g :: g in submitted && ((f.url != "" && g.url == f.url) || g.role == f.role))
                     || (exists g :: g in pending && Before(g.name, f.name)
                                     && ((f.url != "" && g.url == f.url) || g.role == f.role))
      ensures forall f | f in pruned :: f !in pending
    {
      hide Before;
      var appliedUrls, appliedRoles := AppliedKeys();
      folders := FoldersByName();
      pruned := Pass(folders, appliedUrls, appliedRoles);
      SurvivorsAndPruned(folders, |folders|, submitted);
      assert folders[..|folders|] == folders;
      forall f | f in old(pending)
        ensures f in pruned <==>
                || (exists g :: g in submitted && ((f.url != "" && g.url == f.url) || g.role == f.role))
                || (exists g :: g in pending && Before(g.name, f.name)
                                && ((f.url != "" && g.url == f.url) || g.role == f.role))
      {
        PrunedByKeys(folders, submitted, f);
      }
    }
  }

  // ---------------------------------------------------------------- what the pass promises

  lemma {:induction false} SurvivorsAndPruned(folders: seq<Folder>, n: nat, applied: set<Folder>)
    requires n <= |folders| && SortedByName(folders)
    ensures forall f :: f in folders[..n] <==> f in Survivors(folders, n, applied) || f in Pruned(folders, n, applied)
    ensures forall f :: !(f in Survivors(folders, n, applied) && f in Pruned(folders, n, applied))
    decreases n
  {
    if n > 0 {
      SurvivorsAndPruned(folders, n - 1, applied);
      assert folders[..n] == folders[..n - 1] + [folders[n - 1]];
      forall k | 0 <= k < n - 1 ensures folders[k] != folders[n - 1] {
        BeforeTotal(folders[k].name, folders[n - 1].name);
      }
      assert folders[n - 1] !in folders[..n - 1];
    }
  }

  lemma DuplicateShares(f: Folder, applied: set<Folder>, kept: seq<Folder>)
    ensures Duplicate(f, applied, kept) <==> (exists g :: g in applied && Shares(f, g)) || (exists g :: g in kept
                                                                                                        && Shares(f, g))
  {
    if f.url != "" && f.url in Urls(applied) {
      var g :| g in applied && g.url != "" && g.url == f.url;
      assert Shares(f, g);
    } else if f.role in Roles(applied) {
      var g :| g in applied && g.role == f.role;
      assert Shares(f, g);
    } else if f.url != "" && f.url in Urls(Members(kept)) {
      var g :| g in kept && g.url != "" && g.url == f.url;
      assert Shares(f, g);
    } else if f.role in Roles(Members(kept)) {
      var g :| g in kept && g.role == f.role;
      assert Shares(f, g);
    }
  }

  /** No two survivors share a key, and none shares one with a submitted package. */
  lemma {:induction false} SurvivorsAreDistinct(folders: seq<Folder>, n: nat, applied: set<Folder>)
    requires n <= |folders|
    ensures var kept := Survivors(folders, n, applied);
            && (forall i, k | 0 <= i < k < |kept| :: !Shares(kept[i], kept[k]))
            && (forall f, g | f in kept && g in applied :: !Shares(f, g))
    decreases n
  {
    if n > 0 {
      SurvivorsAreDistinct(folders, n - 1, applied);
      var kept := Survivors(folders, n - 1, applied);
      DuplicateShares(folders[n - 1], applied, kept);
      forall i | 0 <= i < |kept| ensures Shares(kept[i], folders[n - 1]) == Shares(folders[n - 1], kept[i]) {
      }
    }
  }

  /** Every pruned folder shares a key with a submitted package or with a survivor that comes before
      it in name order: the first of each kind wins. */
  lemma {:induction false} PrunedHaveAReason(folders: seq<Folder>, n: nat, applied: set<Folder>, f: Folder)
    requires n <= |folders| && SortedByName(folders) && f in Pruned(folders, n, applied)
    ensures || (exists g :: g in applied && Shares(f, g))
            || (exists g :: g in Survivors(folders, n, applied) && Shares(f, g) && Before(g.name, f.name))
    decreases n
  {
    hide Duplicate, SharesUrl;
    var kept := Survivors(folders, n - 1, applied);
    if f in Pruned(folders, n - 1, applied) {
      PrunedHaveAReason(folders, n - 1, applied, f);
    } else {
      DuplicateShares(f, applied, kept);
      SurvivorsAndPruned(folders, n - 1, applied);
      if g :| g in kept && Shares(f, g) {
        assert g in folders[..n - 1];
      }
    }
  }

  /** A folder is pruned exactly when a submitted package, or a survivor before it in name order, has
      its URL or its role. */
  lemma PrunedByKeys(folders: seq<Folder>, applied: set<Folder>, f: Folder)
    requires SortedByName(folders) && f in folders
    ensures f in Pruned(folders, |folders|, applied) <==>
            || (exists g :: g in applied && ((f.url != "" && g.url == f.url) || g.role == f.role))
            || (exists g :: g in Survivors(folders, |folders|, applied) && Before(g.name, f.name)
                            && ((f.url != "" && g.url == f.url) || g.role == f.role))
  {
    hide Before, Pruned, Survivors;
    var kept := Survivors(folders, |folders|, applied);
    SurvivorsAndPruned(folders, |folders|, applied);
    assert folders[..|folders|] == folders;
    if f in Pruned(folders, |folders|, applied) {
      PrunedHaveAReason(folders, |folders|, applied, f);
    } else {
      SurvivorsAreDistinct(folders, |folders|, applied);
      forall g | g in kept && Before(g.name, f.name) ensures !Shares(f, g) {
        BeforeTotal(f.name, f.name);
        SurvivorsDiffer(folders, applied, f, g);
      }
    }
  }

  lemma SurvivorsDiffer(folders: seq<Folder>, applied: set<Folder>, f: Folder, g: Folder)
    requires f in Survivors(folders, |folders|, applied) && g in Survivors(folders, |folders|, applied) && f != g
    ensures !Shares(f, g)
  {
    hide Shares, Survivors;
    SurvivorsAreDistinct(folders, |folders|, applied);
    StillDistinct(Survivors(folders, |folders|, applied), f, g);
  }

  /** Over packages of which no two share a key, and none with a submitted one, the pass keeps all. */
  lemma {:induction false} NothingToPrune(folders: seq<Folder>, n: nat, applied: set<Folder>)
    requires n <= |folders|
    requires forall i, k | 0 <= i < k < |folders| :: !Shares(folders[i], folders[k])
    requires forall f, g | f in folders && g in applied :: !Shares(f, g)
    ensures Survivors(folders, n, applied) == folders[..n] && Pruned(folders, n, applied) == []
    decreases n
  {
    if n > 0 {
      NothingToPrune(folders, n - 1, applied);
      DuplicateShares(folders[n - 1], applied, folders[..n - 1]);
      forall i | 0 <= i < n - 1 ensures !Shares(folders[n - 1], folders[i]) {
        assert !Shares(folders[i], folders[n - 1]);
      }
      assert folders[..n] == folders[..n - 1] + [folders[n - 1]];
    }
  }

  lemma StillDistinct(kept: seq<Folder>, f: Folder, g: Folder)
    requires forall i, k | 0 <= i < k < |kept| :: !Shares(kept[i], kept[k])
    requires f in kept && g in kept && f != g
    ensures !Shares(f, g)
  {
    var p :| 0 <= p < |kept| && kept[p] == f;
    var q :| 0 <= q < |kept| && kept[q] == g;
    if q < p {
      assert !Shares(kept[q], kept[p]);
    }
  }

  /** A second pass over what is left prunes nothing. */
  lemma SecondPassPrunesNothing(folders: seq<Folder>, applied: set<Folder>, again: seq<Folder>)
    requires SortedByName(again) && forall f :: f in again <==> f in Survivors(folders, |folders|, applied)
    ensures Pruned(again, |again|, applied) == []
  {
    hide Pruned, Before, Survivors, Shares;
    SurvivorsAreDistinct(folders, |folders|, applied);
    forall i, k | 0 <= i < k < |again| ensures !Shares(again[i], again[k]) {
      assert again[i] in again && again[k] in again;
      BeforeTotal(again[i].name, again[k].name);
      SurvivorsDiffer(folders, applied, again[i], again[k]);
    }
    NothingToPrune(again, |again|, applied);
  }
}
