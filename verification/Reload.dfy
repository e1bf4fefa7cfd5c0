/** What re-reading the configuration does to one append-only table, on values. */
module Merging {
  import opened Options
  import opened KeyedTables

  /** The commit loop with unlimited room: entries the table does not have yet are appended in order. */
  function Merge<K(==), V>(t: seq<(K, V)>, file: seq<(K, V)>): seq<(K, V)>
    decreases |file|
  {
    if file == [] then t
    else if Find(t, file[0].0).Some? then Merge(t, file[1..])
    else Merge(t + [file[0]], file[1..])
  }

  /** How a commit loop ends: through the file, at an entry the table refuses, or at one that could not
      be copied into memory. */
  datatype End = Done | Refused | NoMemory

  /** The commit loop as it runs. `memory` is the number of new entries that can be copied before an
      allocation fails; an entry is copied first and registered then. */
  function Commit<K(==), V>(t: seq<(K, V)>, file: seq<(K, V)>, open: bool, capacity: nat, memory: nat): (r: (seq<(K, V)>, End, nat))
    ensures |r.0| >= |t|
    decreases |file|
  {
    if file == [] then (t, Done, memory)
    else if Find(t, file[0].0).Some? then Commit(t, file[1..], open, capacity, memory)
    else if memory == 0 then (t, NoMemory, 0)
    else if !open || |t| == capacity then (t, Refused, memory - 1)
    else Commit(t + [file[0]], file[1..], open, capacity, memory - 1)
  }

  /** One pass of the commit loop, at entry `i`. */
  lemma CommitStep<K, V>(t: seq<(K, V)>, file: seq<(K, V)>, i: nat, open: bool, capacity: nat, memory: nat)
    requires i < |file|
    ensures Commit(t, file[i..], open, capacity, memory) ==
              if Find(t, file[i].0).Some? then Commit(t, file[i + 1..], open, capacity, memory)
              else if memory == 0 then (t, NoMemory, 0)
              else if !open || |t| == capacity then (t, Refused, memory - 1)
              else Commit(t + [file[i]], file[i + 1..], open, capacity, memory - 1)
  {
    assert file[i..][1..] == file[i + 1..];
    hide Find;
  }

  lemma CommitEnds<K, V>(t: seq<(K, V)>, file: seq<(K, V)>, open: bool, capacity: nat, memory: nat)
    ensures file[0..] == file && Commit(t, file[|file|..], open, capacity, memory) == (t, Done, memory)
  {
  }

  datatype Verdict = Unchanged | Changed | Removed

  /** The checks before the commit: no entry of the file contradicts the table, none of the table is
      missing from the file. */
  ghost function Check<K, V>(t: seq<(K, V)>, file: seq<(K, V)>): Verdict {
    if exists i :: 0 <= i < |file| && Contradicts(t, file[i]) then Changed
    else if exists i :: 0 <= i < |t| && Find(file, t[i].0).None? then Removed
    else Unchanged
  }

  ghost predicate Contradicts<K, V>(t: seq<(K, V)>, e: (K, V)) {
    Find(t, e.0).Some? && Find(t, e.0).value != e.1
  }

  /** How many entries of the file the table does not have. */
  function New<K(==), V>(t: seq<(K, V)>, file: seq<(K, V)>): int {
    |Merge(t, file)| - |t|
  }

  /** How many more entries the table takes. */
  function Room<K, V>(t: seq<(K, V)>, open: bool, capacity: nat): int {
    if open then capacity - |t| else 0
  }

  lemma {:induction false} MergeGrows<K, V>(t: seq<(K, V)>, file: seq<(K, V)>)
    ensures t <= Merge(t, file)
    decreases |file|
  {
    if file != [] {
      if Find(t, file[0].0).Some? {
        MergeGrows(t, file[1..]);
      } else {
        MergeGrows(t + [file[0]], file[1..]);
      }
    }
  }

  /** As maps, merging adds the file under what is already there. */
  lemma {:induction false} MergedFind<K, V>(t: seq<(K, V)>, file: seq<(K, V)>, k: K)
    ensures Find(Merge(t, file), k) == if Find(t, k).Some? then Find(t, k) else Find(file, k)
    decreases |file|
  {
    if file != [] {
      var e := file[0];
      if Find(t, e.0).Some? {
        MergedFind(t, file[1..], k);
      } else {
        FindSplits(t, [e], k);
        MergedFind(t + [e], file[1..], k);
      }
    }
  }

  lemma {:induction false} MergeKeepsUnique<K, V>(t: seq<(K, V)>, file: seq<(K, V)>)
    requires Unique(t)
    ensures Unique(Merge(t, file))
    decreases |file|
  {
    if file != [] {
      if Find(t, file[0].0).Some? {
        MergeKeepsUnique(t, file[1..]);
      } else {
        AppendKeepsUnique(t, file[0]);
        MergeKeepsUnique(t + [file[0]], file[1..]);
      }
    }
  }

  lemma {:induction false} NothingNewNothingAdded<K, V>(t: seq<(K, V)>, file: seq<(K, V)>)
    requires forall i :: 0 <= i < |file| ==> Find(t, file[i].0).Some?
    ensures Merge(t, file) == t
    decreases |file|
  {
    if file != [] {
      NothingNewNothingAdded(t, file[1..]);
    }
  }

  /** Two tables are the same map when every lookup agrees. */
  lemma SameLookupsSameMap<K(!new), V>(a: seq<(K, V)>, b: seq<(K, V)>)
    requires forall k :: Find(a, k) == Find(b, k)
    ensures AsMap(a) == AsMap(b)
  {
    var x, y := AsMap(a), AsMap(b);
    forall k ensures (k in x <==> Find(a, k).Some?) && (k in y <==> Find(a, k).Some?) {
      FindIsLookup(a, k);
      FindIsLookup(b, k);
    }
    forall k | k in x ensures x[k] == y[k] {
      FindIsLookup(a, k);
      FindIsLookup(b, k);
    }
    assert x.Keys == y.Keys;
  }

  lemma EveryEntryIsFound<K, V>(t: seq<(K, V)>, i: nat)
    requires Unique(t) && i < |t|
    ensures Find(t, t[i].0) == Some(t[i].1)
  {
    FoundAt(t, i);
  }

  lemma EntryHasItsKey<K, V>(t: seq<(K, V)>, k: K)
    requires Find(t, k).Some?
    ensures exists i :: 0 <= i < |t| && t[i].0 == k
  {
    AbsentMeansNoEntry(t, k);
  }

  /** Everything the table says, the file says too. */
  ghost predicate Submap<K(!new), V>(t: seq<(K, V)>, file: seq<(K, V)>) {
    var a, b := AsMap(t), AsMap(file);
    a.Keys <= b.Keys && forall k :: k in a ==> b[k] == a[k]
  }

  lemma SubmapByLookup<K(!new), V>(t: seq<(K, V)>, file: seq<(K, V)>, k: K)
    requires Submap(t, file) && Find(t, k).Some?
    ensures Find(file, k) == Find(t, k)
  {
    FindIsLookup(t, k);
    FindIsLookup(file, k);
    hide Find, AsMap;
  }

  lemma LookupsMakeSubmap<K(!new), V>(t: seq<(K, V)>, file: seq<(K, V)>)
    requires forall k :: Find(t, k).Some? ==> Find(file, k) == Find(t, k)
    ensures Submap(t, file)
  {
    var a, b := AsMap(t), AsMap(file);
    forall k | k in a ensures k in b && b[k] == a[k] {
      FindIsLookup(t, k);
      FindIsLookup(file, k);
    }
    hide Find, AsMap;
  }

  /** With no key twice, the checks pass exactly when the table, as a map, is part of the file. */
  lemma CheckIsSubmap<K(!new), V>(t: seq<(K, V)>, file: seq<(K, V)>)
    requires Unique(t) && Unique(file)
    ensures Check(t, file) == Unchanged <==> Submap(t, file)
  {
    if Check(t, file) == Unchanged {
      forall k | Find(t, k).Some? ensures Find(file, k) == Find(t, k) {
        EntryHasItsKey(t, k);
        var i :| 0 <= i < |t| && t[i].0 == k;
        assert Find(file, t[i].0).Some?;
        EntryHasItsKey(file, k);
        var j :| 0 <= j < |file| && file[j].0 == k;
        EveryEntryIsFound(file, j);
        assert !Contradicts(t, file[j]);
      }
      LookupsMakeSubmap(t, file);
    } else if i :| 0 <= i < |file| && Contradicts(t, file[i]) {
      EveryEntryIsFound(file, i);
      if Submap(t, file) {
        SubmapByLookup(t, file, file[i].0);
      }
    } else {
      var i :| 0 <= i < |t| && Find(file, t[i].0).None?;
      EveryEntryIsFound(t, i);
      if Submap(t, file) {
        SubmapByLookup(t, file, t[i].0);
      }
    }
  }

  /** The file has a key of the table with another value. */
  ghost predicate Clash<K, V>(t: seq<(K, V)>, file: seq<(K, V)>) {
    exists i, j :: 0 <= i < |t| && 0 <= j < |file| && t[i].0 == file[j].0 && t[i].1 != file[j].1
  }

  /** The file lacks a key of the table. */
  ghost predicate Lacks<K, V>(t: seq<(K, V)>, file: seq<(K, V)>) {
    exists i :: 0 <= i < |t| && Absent(file, t[i].0)
  }

  ghost predicate Absent<K, V>(file: seq<(K, V)>, k: K) {
    forall j :: 0 <= j < |file| ==> file[j].0 != k
  }

  lemma ClashContradicts<K, V>(t: seq<(K, V)>, file: seq<(K, V)>)
    requires Unique(t)
    ensures Clash(t, file) <==> exists j :: 0 <= j < |file| && Contradicts(t, file[j])
  {
    if i, j :| 0 <= i < |t| && 0 <= j < |file| && t[i].0 == file[j].0 && t[i].1 != file[j].1 {
      EveryEntryIsFound(t, i);
      assert Contradicts(t, file[j]);
    }
    if j :| 0 <= j < |file| && Contradicts(t, file[j]) {
      EntryHasItsKey(t, file[j].0);
      var i :| 0 <= i < |t| && t[i].0 == file[j].0;
      EveryEntryIsFound(t, i);
    }
  }

  lemma LacksIsNotFound<K, V>(t: seq<(K, V)>, file: seq<(K, V)>)
    ensures Lacks(t, file) <==> exists i :: 0 <= i < |t| && Find(file, t[i].0).None?
  {
    forall i | 0 <= i < |t| ensures Find(file, t[i].0).None? <==> Absent(file, t[i].0) {
      AbsentMeansNoEntry(file, t[i].0);
    }
    hide Find, Absent;
  }

  /** What the verdict means, entry by entry. */
  lemma CheckSaysWhy<K, V>(t: seq<(K, V)>, file: seq<(K, V)>)
    requires Unique(t)
    ensures Check(t, file) == if Clash(t, file) then Changed else if Lacks(t, file) then Removed else Unchanged
  {
    ClashContradicts(t, file);
    LacksIsNotFound(t, file);
    hide Find, Clash, Lacks, Contradicts;
  }

  /** After a checked merge the table is the file: same map, earlier slots in place, no key twice; and
      merging the same file again passes the checks and adds nothing. */
  lemma MergedTableIsTheFile<K(!new), V>(t: seq<(K, V)>, file: seq<(K, V)>)
    requires Unique(t) && Unique(file) && Check(t, file) == Unchanged
    ensures var merged := Merge(t, file);
            && t <= merged && Unique(merged)
            && AsMap(merged) == AsMap(file)
            && Check(merged, file) == Unchanged
            && Merge(merged, file) == merged
  {
    var merged := Merge(t, file);
    MergeGrows(t, file);
    MergeKeepsUnique(t, file);
    CheckIsSubmap(t, file);
    forall k ensures Find(merged, k) == Find(file, k) {
      MergedFind(t, file, k);
      if Find(t, k).Some? {
        SubmapByLookup(t, file, k);
      }
    }
    SameLookupsSameMap(merged, file);
    LookupsMakeSubmap(merged, file);
    CheckIsSubmap(merged, file);
    forall i | 0 <= i < |file| ensures Find(merged, file[i].0).Some? {
      EveryEntryIsFound(file, i);
    }
    NothingNewNothingAdded(merged, file);
  }

  /** The commit gets as far as room and memory both allow: it is the merge if that is all of it, and a
      prefix of the merge otherwise; what runs out first is what it stops at, memory if both do. */
  lemma {:induction false} CommitIsMergeOrPrefix<K, V>(t: seq<(K, V)>, file: seq<(K, V)>, open: bool, capacity: nat, memory: nat)
    requires |t| <= capacity
    ensures var (got, end, left) := Commit(t, file, open, capacity, memory);
            var (added, room) := (New(t, file), Room(t, open, capacity));
            && t <= got <= Merge(t, file) && 0 <= added
            && |got| == |t| + Min(added, Min(room, memory))
            && end == (if added <= Min(room, memory) then Done else if memory <= room then NoMemory else Refused)
            && (end.Done? ==> got == Merge(t, file) && left == memory - added)
    decreases |file|
  {
    MergeGrows(t, file);
    if file != [] {
      if Find(t, file[0].0).Some? {
        CommitIsMergeOrPrefix(t, file[1..], open, capacity, memory);
      } else {
        MergeGrows(t + [file[0]], file[1..]);
        if open && |t| < capacity && memory > 0 {
          CommitIsMergeOrPrefix(t + [file[0]], file[1..], open, capacity, memory - 1);
        }
      }
    }
  }
}

/** Re-reading the configuration file into the two tables a running gateway shares. */
module HotReload {
  import opened Options
  import opened BigEndian
  import opened KeyedTables
  import opened Merging
  import opened RealmTable
  import opened RouteCatalogs

  type Realms = seq<(Name, RealmId)>
  type Routes = seq<(ScopedRoute, seq<Endpoint>)>

  datatype ReloadError =
    | RealmChanged | RealmRemoved | RouteChanged | RouteRemoved
    | RealmRefused(realmError: RealmError) | RouteRefused(routeError: CatalogError) | OutOfMemory

  datatype Summary = Summary(realmsAdded: nat, routesAdded: nat)

  datatype Config = Config(realms: seq<RealmEntry>, routes: seq<RouteEntry>)

  /** Both tables with the room they were given at start; `open` tells a deployment of several realms. */
  datatype Tables = Tables(realms: Realms, open: bool, realmRoom: nat, routes: Routes, routeRoom: nat)

  /** What a loaded file is known to satisfy: no server name twice, ignoring case, and no route twice. */
  ghost predicate Validated(realms: Realms, routes: Routes) {
    Unique(realms) && Unique(routes)
  }

  ghost predicate Sane(t: Tables) {
    Unique(t.realms) && Unique(t.routes) && |t.realms| <= t.realmRoom && |t.routes| <= t.routeRoom
  }

  /** All the checks that run before anything is appended. */
  ghost function Checked(t: Tables, realms: Realms, routes: Routes): Option<ReloadError> {
    match Check(t.realms, realms)
    case Changed => Some(RealmChanged)
    case Removed => Some(RealmRemoved)
    case Unchanged =>
      match Check(t.routes, routes)
      case Changed => Some(RouteChanged)
      case Removed => Some(RouteRemoved)
      case Unchanged => None
  }

  /** One reload, with so much memory for what is new. */
  ghost function Reload(t: Tables, realms: Realms, routes: Routes, memory: nat): (Tables, Result<Summary, ReloadError>) {
    if Checked(t, realms, routes).Some? then (t, Err(Checked(t, realms, routes).value))
    else
      var (realms1, end, left) := Commit(t.realms, realms, t.open, t.realmRoom, memory);
      var t1 := t.(realms := realms1);
      match end
      case NoMemory => (t1, Err(OutOfMemory))
      case Refused => (t1, Err(RealmRefused(if t.open then TableFull else SingleRealmDeployment)))
      case Done =>
        var (routes1, end1, _) := Commit(t.routes, routes, true, t.routeRoom, left);
        var t2 := t1.(routes := routes1);
        match end1
        case NoMemory => (t2, Err(OutOfMemory))
        case Refused => (t2, Err(RouteRefused(CatalogFull)))
        case Done => (t2, Ok(Summary(|realms1| - |t.realms|, |routes1| - |t.routes|)))
  }

  /** How many new realms get in before room or memory runs out, and then how many new routes. */
  function RealmsTaken(t: Tables, memory: nat): int {
    Min(Room(t.realms, t.open, t.realmRoom), memory)
  }

  function RoutesTaken(t: Tables, realms: Realms, memory: nat): int {
    Min(Room(t.routes, true, t.routeRoom), memory - New(t.realms, realms))
  }

  /** What the two commits of a checked reload do. */
  lemma ReloadGoesThisFar(t: Tables, realms: Realms, routes: Routes, memory: nat)
    requires Sane(t)
    ensures var (after, r) := Reload(t, realms, routes, memory);
            && t.realms <= after.realms <= Merge(t.realms, realms) && t.routes <= after.routes <= Merge(t.routes, routes)
            && after.open == t.open && after.realmRoom == t.realmRoom && after.routeRoom == t.routeRoom
            && 0 <= New(t.realms, realms) && 0 <= New(t.routes, routes)
            && if Checked(t, realms, routes).Some? then after == t && r == Err(Checked(t, realms, routes).value)
               else if New(t.realms, realms) > RealmsTaken(t, memory) then
                 r.Err? && |after.realms| == |t.realms| + RealmsTaken(t, memory) && after.routes == t.routes
               else
                 && after.realms == Merge(t.realms, realms)
                 && |after.routes| == |t.routes| + Min(New(t.routes, routes), RoutesTaken(t, realms, memory))
                 && (r.Ok? <==> New(t.routes, routes) <= RoutesTaken(t, realms, memory))
                 && (r.Ok? ==> after.routes == Merge(t.routes, routes) && r.value == Summary(New(t.realms, realms), New(t.routes, routes)))
  {
    hide Checked, Merge;
    MergeGrows(t.realms, realms);
    MergeGrows(t.routes, routes);
    CommitIsMergeOrPrefix(t.realms, realms, t.open, t.realmRoom, memory);
    var (_, end, left) := Commit(t.realms, realms, t.open, t.realmRoom, memory);
    if end.Done? {
      CommitIsMergeOrPrefix(t.routes, routes, true, t.routeRoom, left);
    }
    hide Commit;
  }

  /** A reload succeeds exactly when nothing it has would change or vanish and everything new fits, in the
      tables and in memory. */
  lemma ReloadSucceedsExactly(t: Tables, realms: Realms, routes: Routes, memory: nat)
    requires Sane(t) && Validated(realms, routes)
    ensures Reload(t, realms, routes, memory).1.Ok? <==>
              && Submap(t.realms, realms) && Submap(t.routes, routes)
              && New(t.realms, realms) <= Room(t.realms, t.open, t.realmRoom) && New(t.routes, routes) <= Room(t.routes, true, t.routeRoom)
              && New(t.realms, realms) + New(t.routes, routes) <= memory
  {
    CheckIsSubmap(t.realms, realms);
    CheckIsSubmap(t.routes, routes);
    ReloadGoesThisFar(t, realms, routes, memory);
    hide Reload, Check, Submap, New;
  }

  /** Why a reload fails: an entry that changed or vanished, in realms before routes; a table that is closed
      or full; or memory. */
  lemma ReloadFailsFor(t: Tables, realms: Realms, routes: Routes, memory: nat)
    requires Sane(t) && Reload(t, realms, routes, memory).1.Err?
    ensures match Reload(t, realms, routes, memory).1.error
            case RealmChanged => Clash(t.realms, realms)
            case RealmRemoved => Lacks(t.realms, realms) && !Clash(t.realms, realms)
            case RouteChanged => Clash(t.routes, routes) && !Clash(t.realms, realms) && !Lacks(t.realms, realms)
            case RouteRemoved => Lacks(t.routes, routes) && !Clash(t.routes, routes) && !Clash(t.realms, realms) && !Lacks(t.realms, realms)
            case RealmRefused(e) =>
              && New(t.realms, realms) > (if t.open then t.realmRoom - |t.realms| else 0)
              && e == if t.open then TableFull else SingleRealmDeployment
            case RouteRefused(e) => New(t.routes, routes) > t.routeRoom - |t.routes| && e == CatalogFull
            case OutOfMemory => New(t.realms, realms) + New(t.routes, routes) > memory
  {
    CheckSaysWhy(t.realms, realms);
    CheckSaysWhy(t.routes, routes);
    CommitIsMergeOrPrefix(t.realms, realms, t.open, t.realmRoom, memory);
    var (realms1, end, left) := Commit(t.realms, realms, t.open, t.realmRoom, memory);
    CommitIsMergeOrPrefix(t.routes, routes, true, t.routeRoom, left);
    hide Commit, Check, Clash, Lacks, New;
  }

  /** After a successful reload both tables, as maps, are the file; every earlier slot is where and what
      it was; and reloading the same file succeeds again, needs no memory and adds nothing. */
  lemma ReloadMakesTablesTheFile(t: Tables, realms: Realms, routes: Routes, memory: nat)
    requires Sane(t) && Validated(realms, routes) && Reload(t, realms, routes, memory).1.Ok?
    ensures var (after, r) := Reload(t, realms, routes, memory);
            && Sane(after)
            && AsMap(after.realms) == AsMap(realms) && AsMap(after.routes) == AsMap(routes)
            && t.realms <= after.realms && t.routes <= after.routes
            && r.value == Summary(|after.realms| - |t.realms|, |after.routes| - |t.routes|)
            && Reload(after, realms, routes, 0) == (after, Ok(Summary(0, 0)))
  {
    hide Reload, Check, Checked, Merge, AsMap, Unique;
    ReloadGoesThisFar(t, realms, routes, memory);
    var after := Reload(t, realms, routes, memory).0;
    CheckedMerge(t, realms, routes);
    ReloadGoesThisFar(after, realms, routes, 0);
    assert Reload(after, realms, routes, 0).0 == after;
  }

  /** Merging a file that passes the checks makes tables that are the file and pass them again. */
  lemma CheckedMerge(t: Tables, realms: Realms, routes: Routes)
    requires Sane(t) && Validated(realms, routes) && Checked(t, realms, routes).None?
    ensures var merged := t.(realms := Merge(t.realms, realms), routes := Merge(t.routes, routes));
            && Unique(merged.realms) && Unique(merged.routes)
            && AsMap(merged.realms) == AsMap(realms) && AsMap(merged.routes) == AsMap(routes)
            && Checked(merged, realms, routes).None?
            && Merge(merged.realms, realms) == merged.realms && Merge(merged.routes, routes) == merged.routes
  {
    hide Check, Merge, AsMap, Unique;
    MergedTableIsTheFile(t.realms, realms);
    MergedTableIsTheFile(t.routes, routes);
  }

  /** Whatever happens, the tables only grow, stay sane and never say anything the file does not. */
  lemma ReloadOnlyAppends(t: Tables, realms: Realms, routes: Routes, memory: nat)
    requires Sane(t)
    ensures var (after, r) := Reload(t, realms, routes, memory);
            && t.realms <= after.realms <= Merge(t.realms, realms)
            && t.routes <= after.routes <= Merge(t.routes, routes)
            && after.open == t.open && after.realmRoom == t.realmRoom && after.routeRoom == t.routeRoom
            && (Checked(t, realms, routes).Some? ==> after == t && r == Err(Checked(t, realms, routes).value))
  {
    ReloadGoesThisFar(t, realms, routes, memory);
    hide Reload, Checked, Merge, New;
  }

  /** The reload is meant to be all or nothing, and the checks are; running out of room or memory is not.
      A failing reload leaves something behind exactly when it passes the checks and either some but
      not all new realms get in, or all do, not all new routes do, and something new came first. */
  lemma FailureLeavesTracesExactly(t: Tables, realms: Realms, routes: Routes, memory: nat)
    requires Sane(t)
    ensures var (after, r) := Reload(t, realms, routes, memory);
            (r.Err? && after != t) <==>
              && Checked(t, realms, routes).None?
              && if New(t.realms, realms) > RealmsTaken(t, memory) then RealmsTaken(t, memory) > 0
                 else
                   && New(t.routes, routes) > RoutesTaken(t, realms, memory)
                   && (New(t.realms, realms) > 0 || RoutesTaken(t, realms, memory) > 0)
  {
    ReloadGoesThisFar(t, realms, routes, memory);
    MergeGrows(t.realms, realms);
    hide Reload, Checked, Merge;
  }

  /** One such file: two new names for a table with room for one. */
  lemma HalfAppliedFile()
    ensures var t := Tables([], true, 1, [], 0);
            var file: Realms := [([97], 1), ([98], 2)];
            && Sane(t) && Validated(file, [])
            && Reload(t, file, [], 2) == (t.(realms := [([97], 1)]), Err(RealmRefused(TableFull)))
            && Reload(t.(realmRoom := 2), file, [], 1) == (t.(realmRoom := 2, realms := [([97], 1)]), Err(OutOfMemory))
  {
    var t := Tables([], true, 1, [], 0);
    var file: Realms := [([97], 1), ([98], 2)];
    var first, second := file[..1], file[1..];
    assert first[0] == file[0] && second[0] == file[1] && t.realms + [file[0]] == first;
    assert file[0].0[0] != file[1].0[0];
    assert Find(first, second[0].0).None?;
    assert Commit(first, second, true, 1, 1) == (first, Refused, 0);
    assert Commit(first, second, true, 2, 0) == (first, NoMemory, 0);
    assert forall i :: 0 <= i < |file| ==> !Contradicts(t.realms, file[i]);
    assert first == [([97], 1)];
  }

  method SameEndpoints(current: seq<Endpoint>, incoming: seq<Endpoint>) returns (same: bool)
    ensures same <==> current == incoming
  {
    if |current| != |incoming| {
      return false;
    }
    for i := 0 to |current|
      invariant forall j :: 0 <= j < i ==> current[j] == incoming[j]
    {
      if current[i].port != incoming[i].port {
        return false;
      }
      if current[i].host != incoming[i].host {
        return false;
      }
    }
    return true;
  }

  class Reloader {
    const realms: Table
    const routes: RouteCatalog

    ghost predicate Valid()
      reads realms, realms.slots, routes, routes.slots
    {
      realms.Valid() && routes.Valid()
    }

    ghost function State(): (t: Tables)
      requires Valid()
      reads realms, realms.slots, routes, routes.slots
      ensures Sane(t)
    {
      Tables(realms.Map(), realms.fallback.None?, realms.slots.Length, routes.Map(), routes.slots.Length)
    }

    constructor (realms: Table, routes: RouteCatalog)
      requires realms.Valid() && routes.Valid()
      ensures Valid() && this.realms == realms && this.routes == routes
    {
      this.realms, this.routes := realms, routes;
    }

    method NameInFile(name: Name, file: seq<RealmEntry>) returns (found: bool)
      ensures found <==> Find(ByName(file), Lower(name)).Some?
    {
      ghost var t, k := ByName(file), Lower(name);
      AbsentMeansNoEntry(t, k);
      for i := 0 to |file|
        invariant forall j :: 0 <= j < i ==> t[j].0 != k
      {
        var same := EqlIgnoreCase(name, file[i].sni);
        if same {
          return true;
        }
      }
      return false;
    }

    method CheckRealms(file: seq<RealmEntry>) returns (r: Option<ReloadError>)
      requires Valid()
      ensures r == match Check(realms.Map(), ByName(file))
                   case Changed => Some(RealmChanged)
                   case Removed => Some(RealmRemoved)
                   case Unchanged => None
    {
      ghost var t, f := realms.Map(), ByName(file);
      for i := 0 to |file|
        invariant forall j :: 0 <= j < i ==> !Contradicts(t, f[j])
      {
        var existing := realms.Lookup(file[i].sni);
        if existing.Some? && existing.value != file[i].realm {
          assert Contradicts(t, f[i]);
          return Some(RealmChanged);
        }
      }
      for i := 0 to realms.len
        invariant forall j :: 0 <= j < i ==> Find(f, t[j].0).Some?
      {
        var found := NameInFile(realms.slots[i].sni, file);
        if !found {
          assert Find(f, t[i].0).None?;
          return Some(RealmRemoved);
        }
      }
      return None;
    }

    method RouteInFile(route: ScopedRoute, file: seq<RouteEntry>) returns (found: bool)
      ensures found <==> Find(ByRoute(file), route).Some?
    {
      ghost var t := ByRoute(file);
      AbsentMeansNoEntry(t, route);
      for i := 0 to |file|
        invariant forall j :: 0 <= j < i ==> t[j].0 != route
      {
        BitsTellRoutesApart(route, file[i].route);
        if route.Bits() == file[i].route.Bits() {
          return true;
        }
      }
      return false;
    }

    method CheckRoutes(file: seq<RouteEntry>) returns (r: Option<ReloadError>)
      requires Valid()
      ensures r == match Check(routes.Map(), ByRoute(file))
                   case Changed => Some(RouteChanged)
                   case Removed => Some(RouteRemoved)
                   case Unchanged => None
    {
      ghost var t, f := routes.Map(), ByRoute(file);
      for i := 0 to |file|
        invariant forall j :: 0 <= j < i ==> !Contradicts(t, f[j])
      {
        var existing := routes.Lookup(file[i].route);
        if existing.Some? {
          var same := SameEndpoints(existing.value.endpoints, file[i].endpoints);
          if !same {
            assert Contradicts(t, f[i]);
            return Some(RouteChanged);
          }
        }
      }
      for i := 0 to routes.len
        invariant forall j :: 0 <= j < i ==> Find(f, t[j].0).Some?
      {
        var found := RouteInFile(routes.slots[i].route, file);
        if !found {
          assert Find(f, t[i].0).None?;
          return Some(RouteRemoved);
        }
      }
      return None;
    }

    /** `memory` is how many new names the allocator takes before it fails. */
    method CommitRealms(file: seq<RealmEntry>, memory: nat) returns (r: Result<nat, ReloadError>, left: nat)
      requires Valid()
      modifies realms, realms.slots
      ensures Valid() && routes.Map() == old(routes.Map())
      ensures old(realms.Entries()) <= realms.Entries()
      ensures var (t, end, rest) := Commit(old(realms.Map()), ByName(file), realms.fallback.None?, realms.slots.Length, memory);
              && realms.Map() == t && left == rest
              && r == match end
                      case Done => Ok(|t| - |old(realms.Map())|)
                      case NoMemory => Err(OutOfMemory)
                      case Refused => Err(RealmRefused(if realms.fallback.None? then TableFull else SingleRealmDeployment))
    {
      hide Find, Unique, Commit, HasName, Lower, ByName, ByRoute;
      ghost var t, f, open, room := realms.Map(), ByName(file), realms.fallback.None?, realms.slots.Length;
      var added := 0;
      left := memory;
      CommitEnds(t, f, open, room, memory);
      for i := 0 to |file|
        invariant Valid() && routes.Map() == old(routes.Map())
        invariant old(realms.Entries()) <= realms.Entries() && |realms.Map()| == |t| + added
        invariant Commit(realms.Map(), f[i..], open, room, left) == Commit(t, f, open, room, memory)
      {
        CommitStep(realms.Map(), f, i, open, room, left);
        var existing := realms.Lookup(file[i].sni);
        if existing.Some? {
          continue;
        }
        if left == 0 {
          return Err(OutOfMemory), 0;
        }
        left := left - 1;
        var registered := realms.Register(file[i].sni, file[i].realm);
        if registered.Err? {
          return Err(RealmRefused(registered.error)), left;
        }
        added := added + 1;
      }
      CommitEnds(realms.Map(), f, open, room, left);
      return Ok(added), left;
    }

    method CommitRoutes(file: seq<RouteEntry>, memory: nat) returns (r: Result<nat, ReloadError>)
      requires Valid()
      modifies routes, routes.slots
      ensures Valid() && realms.Map() == old(realms.Map()) && realms.Entries() == old(realms.Entries())
      ensures old(routes.Entries()) <= routes.Entries()
      ensures var (t, end, _) := Commit(old(routes.Map()), ByRoute(file), true, routes.slots.Length, memory);
              && routes.Map() == t
              && r == match end
                      case Done => Ok(|t| - |old(routes.Map())|)
                      case NoMemory => Err(OutOfMemory)
                      case Refused => Err(RouteRefused(CatalogFull))
    {
      hide Find, Unique, Commit, ByName, ByRoute;
      ghost var t, f, room := routes.Map(), ByRoute(file), routes.slots.Length;
      var added := 0;
      var left := memory;
      CommitEnds(t, f, true, room, memory);
      for i := 0 to |file|
        invariant Valid() && realms.Map() == old(realms.Map()) && realms.Entries() == old(realms.Entries())
        invariant old(routes.Entries()) <= routes.Entries() && |routes.Map()| == |t| + added
        invariant Commit(routes.Map(), f[i..], true, room, left) == Commit(t, f, true, room, memory)
      {
        CommitStep(routes.Map(), f, i, true, room, left);
        var existing := routes.Lookup(file[i].route);
        if existing.Some? {
          continue;
        }
        if left == 0 {
          return Err(OutOfMemory);
        }
        left := left - 1;
        var registered := routes.Register(file[i]);
        if registered.Err? {
          return Err(RouteRefused(registered.error));
        }
        added := added + 1;
      }
      CommitEnds(routes.Map(), f, true, room, left);
      return Ok(added);
    }

    /** Checks first, then both commits. */
    method Apply(config: Config, memory: nat) returns (r: Result<Summary, ReloadError>)
      requires Valid()
      modifies realms, realms.slots, routes, routes.slots
      ensures Valid()
      ensures (State(), r) == Reload(old(State()), ByName(config.realms), ByRoute(config.routes), memory)
      ensures old(realms.Entries()) <= realms.Entries() && old(routes.Entries()) <= routes.Entries()
    {
      hide Check, Commit;
      var refused := CheckRealms(config.realms);
      if refused.Some? {
        return Err(refused.value);
      }
      refused := CheckRoutes(config.routes);
      if refused.Some? {
        return Err(refused.value);
      }
      var realmsAdded, left := CommitRealms(config.realms, memory);
      if realmsAdded.Err? {
        return Err(realmsAdded.error);
      }
      var routesAdded := CommitRoutes(config.routes, left);
      if routesAdded.Err? {
        return Err(routesAdded.error);
      }
      return Ok(Summary(realmsAdded.value, routesAdded.value));
    }
  }
}
