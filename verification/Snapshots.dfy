/**
  Mirroring the snapshots of a restic repository into Snapshot objects
  (restic/kubernetes/snapshots.go): missing ones are created first, then stale ones are deleted, and
  the first failing API call ends the sync.
 */
module Snapshots {
  import opened Wrappers

  /** A snapshot as restic reports it; restic ids are 64 hexadecimal digits. */
  datatype ResticSnapshot = ResticSnapshot(id: string, hostname: string, time: int, paths: seq<string>)

  /** A Snapshot object of one namespace. */
  datatype Snapshot = Snapshot(name: string, id: string, time: int, paths: seq<string>, repository: string)

  /** The objects of the namespace by name. */
  type Store = map<string, Snapshot>

  predicate ValidStore(s: Store) {
    forall n :: n in s ==> s[n].name == n
  }

  /** The ids of the namespace's snapshots are long enough to be cut; others are not looked at. */
  predicate LongIds(list: seq<ResticSnapshot>, namespace: string) {
    forall r :: r in list && r.hostname == namespace ==> |r.id| >= 8
  }

  function Convert(r: ResticSnapshot, repository: string): Snapshot
    requires |r.id| >= 8
  {
    Snapshot(r.id[..8], r.id, r.time, r.paths, repository)
  }

  /** The restic snapshots of the namespace, as objects, in order. */
  function Wanted(list: seq<ResticSnapshot>, namespace: string, repository: string): (r: seq<Snapshot>)
    requires LongIds(list, namespace)
    ensures forall s :: s in r ==> s.repository == repository && |s.id| >= 8 && s.name == s.id[..8]
  {
    if list == [] then []
    else
      var n := |list| - 1;
      assert list == list[..n] + [list[n]];
      Wanted(list[..n], namespace, repository) +
      if list[n].hostname == namespace then [Convert(list[n], repository)] else []
  }

  method FilterAndConvert(list: seq<ResticSnapshot>, namespace: string, repository: string) returns (items: seq<Snapshot>)
    requires LongIds(list, namespace)
    ensures items == Wanted(list, namespace, repository)
  {
    items := [];
    for i := 0 to |list|
      invariant items == Wanted(list[..i], namespace, repository)
    {
      assert list[..i + 1][..i] == list[..i];
      if list[i].hostname != namespace {
        continue;
      }
      items := items + [Convert(list[i], repository)];
    }
    assert list[..|list|] == list;
  }

  function OfRepo(list: seq<Snapshot>, repository: string): (r: seq<Snapshot>)
    ensures forall s :: s in r <==> s in list && s.repository == repository
  {
    if list == [] then []
    else
      var n := |list| - 1;
      assert list == list[..n] + [list[n]];
      OfRepo(list[..n], repository) + if list[n].repository == repository then [list[n]] else []
  }

  method FilterByRepo(list: seq<Snapshot>, repository: string) returns (items: seq<Snapshot>)
    ensures items == OfRepo(list, repository)
  {
    items := [];
    for i := 0 to |list|
      invariant items == OfRepo(list[..i], repository)
    {
      assert list[..i + 1][..i] == list[..i];
      if list[i].repository == repository {
        items := items + [list[i]];
      }
    }
    assert list[..|list|] == list;
  }

  function Ids(list: seq<Snapshot>): set<string> {
    set s | s in list :: s.id
  }

  method ListToMap(list: seq<Snapshot>) returns (ids: set<string>)
    ensures ids == Ids(list)
  {
    ids := {};
    for i := 0 to |list|
      invariant ids == Ids(list[..i])
    {
      ids := ids + {list[i].id};
      assert list[..i + 1] == list[..i] + [list[i]];
    }
    assert list[..|list|] == list;
  }

  // ---- Store updates ----

  /** The elements of `a` whose id does not occur in `b`, in order. */
  function Missing(a: seq<Snapshot>, b: set<string>): (r: seq<Snapshot>)
    ensures forall s :: s in r <==> s in a && s.id !in b
  {
    if a == [] then []
    else
      assert a == [a[0]] + a[1..];
      (if a[0].id !in b then [a[0]] else []) + Missing(a[1..], b)
  }

  datatype Verb = Creating | Deleting

  /** One API call; `fails` names the calls that fail for reasons of their own. */
  predicate CallOk(store: Store, s: Snapshot, verb: Verb, fails: set<string>) {
    s.name !in fails && (verb == Creating ==> s.name !in store) && (verb == Deleting ==> s.name in store)
  }

  function Call(store: Store, s: Snapshot, verb: Verb): Store {
    if verb == Creating then store[s.name := s] else store - {s.name}
  }

  /** The store and verdict after issuing the calls in turn, up to the first failing one. */
  function Issue(store: Store, todo: seq<Snapshot>, verb: Verb, fails: set<string>): (Store, bool)
    decreases todo
  {
    if todo == [] then (store, true)
    else if !CallOk(store, todo[0], verb, fails) then (store, false)
    else Issue(Call(store, todo[0], verb), todo[1..], verb, fails)
  }

  /** SyncSnapshotList on the store of one namespace. */
  function Sync(store: Store, present: seq<Snapshot>, wanted: seq<Snapshot>, failCreate: set<string>, failDelete: set<string>): (Store, bool) {
    var (created, ok) := Issue(store, Missing(wanted, Ids(present)), Creating, failCreate);
    if !ok then (created, false) else Issue(created, Missing(present, Ids(wanted)), Deleting, failDelete)
  }

  class SnapshotApi {
    var store: Store

    constructor (store: Store)
      ensures this.store == store
    {
      this.store := store;
    }

    /** diff: one call for each element of `a` whose id is not in `b`. */
    method Diff(a: seq<Snapshot>, b: seq<Snapshot>, verb: Verb, fails: set<string>) returns (ok: bool)
      modifies this
      ensures (store, ok) == Issue(old(store), Missing(a, Ids(b)), verb, fails)
    {
      var ids := ListToMap(b);
      for i := 0 to |a|
        invariant Issue(old(store), Missing(a, ids), verb, fails) == Issue(store, Missing(a[i..], ids), verb, fails)
      {
        assert a[i..][0] == a[i] && a[i..][1..] == a[i + 1..];
        ghost var todo := Missing(a[i..], ids);
        if a[i].id !in ids {
          assert todo[0] == a[i] && todo[1..] == Missing(a[i + 1..], ids);
          if a[i].name in fails || (verb == Creating && a[i].name in store) || (verb == Deleting && a[i].name !in store) {
            return false;
          }
          store := if verb == Creating then store[a[i].name := a[i]] else store - {a[i].name};
        } else {
          assert todo == Missing(a[i + 1..], ids);
        }
      }
      return true;
    }

    /**
      `answer` is the API server's list of the namespace's objects, in any order, or nothing when
      there is no client or the listing fails.
     */
    method SyncSnapshotList(list: seq<ResticSnapshot>, answer: Option<seq<Snapshot>>, namespace: string, repository: string,
                            failCreate: set<string>, failDelete: set<string>) returns (ok: bool)
      requires LongIds(list, namespace)
      modifies this
      ensures answer.None? ==> !ok && store == old(store)
      ensures answer.Some? ==>
                (store, ok) == Sync(old(store), OfRepo(answer.value, repository), Wanted(list, namespace, repository), failCreate, failDelete)
      ensures answer.Some? && Lists(answer.value, old(store)) ==>
                && (ok ==> RepoIds(store, repository) == ResticIds(list, namespace))
                && KeepsCurrent(old(store), store, repository, ResticIds(list, namespace))
    {
      if answer.None? {
        return false;
      }
      var listed := answer.value;
      ghost var before := store;
      var newList := FilterAndConvert(list, namespace, repository);
      var oldList := FilterByRepo(listed, repository);
      ok := Diff(newList, oldList, Creating, failCreate);
      if ok {
        ok := Diff(oldList, newList, Deleting, failDelete);
      }
      if Lists(listed, before) {
        SyncOfListing(before, listed, list, namespace, repository, failCreate, failDelete);
      }
    }
  }

  // ---- What a sync achieves ----

  /** The object a restic snapshot becomes: same id, time and paths, named by the first eight characters of the id. */
  predicate Mirrors(s: Snapshot, r: ResticSnapshot, repository: string) {
    && s.id == r.id && s.time == r.time && s.paths == r.paths && s.repository == repository
    && |r.id| >= 8 && s.name == r.id[..8]
  }

  lemma {:induction false} WantedMirror(list: seq<ResticSnapshot>, namespace: string, repository: string)
    requires LongIds(list, namespace)
    ensures forall s :: s in Wanted(list, namespace, repository) ==>
              exists r :: r in list && r.hostname == namespace && Mirrors(s, r, repository)
  {
    if list != [] {
      var n := |list| - 1;
      WantedMirror(list[..n], namespace, repository);
      assert list == list[..n] + [list[n]];
      var before := Wanted(list[..n], namespace, repository);
      forall s | s in Wanted(list, namespace, repository)
        ensures exists r :: r in list && r.hostname == namespace && Mirrors(s, r, repository)
      {
        if s in before {
          var r :| r in list[..n] && r.hostname == namespace && Mirrors(s, r, repository);
        } else {
          assert Mirrors(s, list[n], repository);
        }
      }
    }
  }

  /** Wherever a sync stops, every object it has added mirrors a snapshot restic has for the namespace. */
  lemma AddedMirror(store: Store, present: seq<Snapshot>, list: seq<ResticSnapshot>, namespace: string, repository: string,
                    failCreate: set<string>, failDelete: set<string>, n: string)
    requires LongIds(list, namespace) && Inputs(store, present, Wanted(list, namespace, repository), repository)
    requires n in Sync(store, present, Wanted(list, namespace, repository), failCreate, failDelete).0 && n !in store
    ensures var end := Sync(store, present, Wanted(list, namespace, repository), failCreate, failDelete).0;
            exists r :: r in list && r.hostname == namespace && Mirrors(end[n], r, repository)
  {
    var wanted := Wanted(list, namespace, repository);
    WantedMirror(list, namespace, repository);
    CreatingOnlyAdds(store, Missing(wanted, Ids(present)), failCreate);
    var mid := Issue(store, Missing(wanted, Ids(present)), Creating, failCreate).0;
    DeletingOnlyRemoves(mid, Missing(present, Ids(wanted)), failDelete);
  }

  /** The ids of the objects of a repository. */
  function RepoIds(store: Store, repository: string): set<string> {
    set n | n in store && store[n].repository == repository :: store[n].id
  }

  /** Creations only add: nothing is overwritten, and success means that all of them are there. */
  lemma {:induction false} CreatingOnlyAdds(store: Store, todo: seq<Snapshot>, fails: set<string>)
    requires ValidStore(store)
    ensures var (s', ok) := Issue(store, todo, Creating, fails);
            && ValidStore(s')
            && (forall n :: n in store ==> n in s' && s'[n] == store[n])
            && (forall n :: n in s' && n !in store ==> s'[n] in todo)
            && (ok ==> forall t :: t in todo ==> t.name in s' && s'[t.name] == t && t.name !in store)
    decreases todo
  {
    if todo != [] && CallOk(store, todo[0], Creating, fails) {
      CreatingOnlyAdds(Call(store, todo[0], Creating), todo[1..], fails);
      assert todo == [todo[0]] + todo[1..];
    }
  }

  /** Deletions only remove objects that were asked for, and on success all of them. */
  lemma {:induction false} DeletingOnlyRemoves(store: Store, todo: seq<Snapshot>, fails: set<string>)
    requires ValidStore(store)
    ensures var (s', ok) := Issue(store, todo, Deleting, fails);
            && ValidStore(s')
            && (forall n :: n in s' ==> n in store && s'[n] == store[n])
            && (forall n :: n in store && n !in s' ==> exists t :: t in todo && t.name == n)
            && (ok ==> forall t :: t in todo ==> t.name !in s')
    decreases todo
  {
    if todo != [] && CallOk(store, todo[0], Deleting, fails) {
      DeletingOnlyRemoves(Call(store, todo[0], Deleting), todo[1..], fails);
      assert todo == [todo[0]] + todo[1..];
    }
  }

  /** The objects of the repository as the sync sees them, and what restic has for the namespace. */
  ghost predicate Inputs(store: Store, present: seq<Snapshot>, wanted: seq<Snapshot>, repository: string) {
    && ValidStore(store)
    && (forall s :: s in present <==> s.name in store && store[s.name] == s && s.repository == repository)
    && (forall s :: s in wanted ==> s.repository == repository)
  }

  function ResticIds(list: seq<ResticSnapshot>, namespace: string): set<string> {
    set r | r in list && r.hostname == namespace :: r.id
  }

  lemma {:induction false} WantedIds(list: seq<ResticSnapshot>, namespace: string, repository: string)
    requires LongIds(list, namespace)
    ensures Ids(Wanted(list, namespace, repository)) == ResticIds(list, namespace)
  {
    if list != [] {
      var n := |list| - 1;
      WantedIds(list[..n], namespace, repository);
      assert list == list[..n] + [list[n]];
      assert ResticIds(list, namespace) ==
             ResticIds(list[..n], namespace) + if list[n].hostname == namespace then {list[n].id} else {};
      if list[n].hostname == namespace {
        IdsAppend(Wanted(list[..n], namespace, repository), Convert(list[n], repository));
      } else {
        assert Wanted(list, namespace, repository) == Wanted(list[..n], namespace, repository);
      }
    }
  }

  lemma IdsAppend(a: seq<Snapshot>, s: Snapshot)
    ensures Ids(a + [s]) == Ids(a) + {s.id}
  {
    assert forall x :: x in a + [s] <==> x in a || x == s;
  }

  /** The listing is that of the store. */
  ghost predicate Lists(listed: seq<Snapshot>, store: Store) {
    ValidStore(store) && forall s :: s in listed <==> s.name in store && store[s.name] == s
  }

  /**
    Nothing of another repository is touched, nothing with an id restic still has is deleted, and
    nothing is deleted unless every id restic has is represented.
   */
  ghost predicate KeepsCurrent(before: Store, after: Store, repository: string, ids: set<string>) {
    && (forall n :: n in after && after[n].repository != repository ==> n in before && after[n] == before[n])
    && forall n :: n in before ==>
         if n in after then after[n] == before[n]
         else before[n].repository == repository && before[n].id !in ids && ids <= RepoIds(after, repository)
  }

  /** SyncSnapshotList calls Sync with such inputs when the listing is that of the store. */
  lemma ListingGivesInputs(store: Store, listed: seq<Snapshot>, list: seq<ResticSnapshot>, namespace: string, repository: string)
    requires Lists(listed, store) && LongIds(list, namespace)
    ensures Inputs(store, OfRepo(listed, repository), Wanted(list, namespace, repository), repository)
    ensures Ids(Wanted(list, namespace, repository)) == ResticIds(list, namespace)
  {
    WantedIds(list, namespace, repository);
  }

  /** The state between the creations and the deletions, and at the end. */
  ghost predicate Stages(store: Store, present: seq<Snapshot>, wanted: seq<Snapshot>, mid: Store, end: Store) {
    && (forall n :: n in store ==> n in mid && mid[n] == store[n])
    && (forall n :: n in mid && n !in store ==> mid[n] in Missing(wanted, Ids(present)))
    && (forall t :: t in Missing(wanted, Ids(present)) ==> t.name in mid && mid[t.name] == t && t.name !in store)
    && (forall n :: n in end ==> n in mid && end[n] == mid[n])
    && (forall n :: n in mid && n !in end ==> exists t :: t in Missing(present, Ids(wanted)) && t.name == n)
  }

  lemma SyncStages(store: Store, present: seq<Snapshot>, wanted: seq<Snapshot>, failCreate: set<string>, failDelete: set<string>)
    returns (mid: Store)
    requires ValidStore(store)
    ensures var (end, ok) := Sync(store, present, wanted, failCreate, failDelete);
            if Issue(store, Missing(wanted, Ids(present)), Creating, failCreate).1 then
              && Stages(store, present, wanted, mid, end)
              && (ok ==> forall t :: t in Missing(present, Ids(wanted)) ==> t.name !in end)
            else forall n :: n in store ==> n in end && end[n] == store[n]
  {
    mid := Issue(store, Missing(wanted, Ids(present)), Creating, failCreate).0;
    CreatingOnlyAdds(store, Missing(wanted, Ids(present)), failCreate);
    DeletingOnlyRemoves(mid, Missing(present, Ids(wanted)), failDelete);
  }

  /** Once all creations succeeded, every wanted id stays represented, whatever is deleted. */
  lemma CurrentStays(store: Store, present: seq<Snapshot>, wanted: seq<Snapshot>, mid: Store, end: Store, repository: string, w: Snapshot)
    requires Inputs(store, present, wanted, repository) && Stages(store, present, wanted, mid, end) && w in wanted
    ensures w.id in RepoIds(end, repository)
  {
    if w.id in Ids(present) {
      var o :| o in present && o.id == w.id;
      assert o.name in mid && mid[o.name] == o;
      assert o.name in end;
    } else {
      assert w in Missing(wanted, Ids(present));
      assert w.name in end;
    }
  }

  /** A deleted object was one of the repository's, with an id restic does not have. */
  lemma DeletedWasStale(store: Store, present: seq<Snapshot>, wanted: seq<Snapshot>, mid: Store, end: Store, repository: string, n: string)
    requires Inputs(store, present, wanted, repository) && Stages(store, present, wanted, mid, end)
    requires n in store && n !in end
    ensures store[n].repository == repository && store[n].id !in Ids(wanted)
  {
    var t :| t in Missing(present, Ids(wanted)) && t.name == n;
  }

  /**
    A successful sync leaves for the repository exactly the ids restic has for the namespace, and
    every other repository's objects as they were.
   */
  lemma SyncMirrors(store: Store, present: seq<Snapshot>, wanted: seq<Snapshot>, repository: string,
                    failCreate: set<string>, failDelete: set<string>)
    requires Inputs(store, present, wanted, repository)
    requires Sync(store, present, wanted, failCreate, failDelete).1
    ensures var end := Sync(store, present, wanted, failCreate, failDelete).0;
            && RepoIds(end, repository) == Ids(wanted)
            && (forall n :: n in store && store[n].repository != repository ==> n in end && end[n] == store[n])
            && (forall n :: n in end && end[n].repository != repository ==> n in store && end[n] == store[n])
  {
    var mid := SyncStages(store, present, wanted, failCreate, failDelete);
    var end := Sync(store, present, wanted, failCreate, failDelete).0;
    forall id | id in Ids(wanted)
      ensures id in RepoIds(end, repository)
    {
      var w :| w in wanted && w.id == id;
      CurrentStays(store, present, wanted, mid, end, repository, w);
    }
    forall id | id in RepoIds(end, repository)
      ensures id in Ids(wanted)
    {
      var n :| n in end && end[n].repository == repository && end[n].id == id;
      if n in store {
        assert end[n] in present;
      }
    }
    forall n | n in store && store[n].repository != repository
      ensures n in end
    {
      if n !in end {
        DeletedWasStale(store, present, wanted, mid, end, repository, n);
      }
    }
  }

  /**
    At whatever call a sync stops: an object whose id restic still has is never deleted, and no
    object is deleted at all unless every wanted id has an object.
   */
  lemma SyncNeverLosesCurrent(store: Store, present: seq<Snapshot>, wanted: seq<Snapshot>, repository: string,
                              failCreate: set<string>, failDelete: set<string>, n: string)
    requires Inputs(store, present, wanted, repository) && n in store
    ensures var end := Sync(store, present, wanted, failCreate, failDelete).0;
            if n in end then end[n] == store[n]
            else store[n].repository == repository && store[n].id !in Ids(wanted) && Ids(wanted) <= RepoIds(end, repository)
  {
    var mid := SyncStages(store, present, wanted, failCreate, failDelete);
    var end := Sync(store, present, wanted, failCreate, failDelete).0;
    if n !in end {
      DeletedWasStale(store, present, wanted, mid, end, repository, n);
      forall id | id in Ids(wanted)
        ensures id in RepoIds(end, repository)
      {
        var w :| w in wanted && w.id == id;
        CurrentStays(store, present, wanted, mid, end, repository, w);
      }
    }
  }

  /** Wherever it stops, a sync adds no object of another repository. */
  lemma OthersAreOld(store: Store, present: seq<Snapshot>, wanted: seq<Snapshot>, repository: string,
                     failCreate: set<string>, failDelete: set<string>, n: string)
    requires Inputs(store, present, wanted, repository)
    requires var end := Sync(store, present, wanted, failCreate, failDelete).0; n in end && end[n].repository != repository
    ensures n in store && Sync(store, present, wanted, failCreate, failDelete).0[n] == store[n]
  {
    CreatingOnlyAdds(store, Missing(wanted, Ids(present)), failCreate);
    var mid := Issue(store, Missing(wanted, Ids(present)), Creating, failCreate).0;
    DeletingOnlyRemoves(mid, Missing(present, Ids(wanted)), failDelete);
  }

  /** The whole sync on the listing of the store, in restic's terms. */
  lemma SyncOfListing(store: Store, listed: seq<Snapshot>, list: seq<ResticSnapshot>, namespace: string, repository: string,
                      failCreate: set<string>, failDelete: set<string>)
    requires Lists(listed, store) && LongIds(list, namespace)
    ensures var (end, ok) := Sync(store, OfRepo(listed, repository), Wanted(list, namespace, repository), failCreate, failDelete);
            && (ok ==> RepoIds(end, repository) == ResticIds(list, namespace))
            && KeepsCurrent(store, end, repository, ResticIds(list, namespace))
  {
    var present, wanted := OfRepo(listed, repository), Wanted(list, namespace, repository);
    ListingGivesInputs(store, listed, list, namespace, repository);
    var (end, ok) := Sync(store, present, wanted, failCreate, failDelete);
    if ok {
      SyncMirrors(store, present, wanted, repository, failCreate, failDelete);
    }
    forall n | n in store
      ensures if n in end then end[n] == store[n]
              else store[n].repository == repository && store[n].id !in Ids(wanted) && Ids(wanted) <= RepoIds(end, repository)
    {
      SyncNeverLosesCurrent(store, present, wanted, repository, failCreate, failDelete, n);
    }
    forall n | n in end && end[n].repository != repository
      ensures n in store && end[n] == store[n]
    {
      OthersAreOld(store, present, wanted, repository, failCreate, failDelete, n);
    }
  }

  lemma {:induction false} NothingMissing(a: seq<Snapshot>, ids: set<string>)
    requires forall s :: s in a ==> s.id in ids
    ensures Missing(a, ids) == []
  {
    if a != [] {
      assert a == [a[0]] + a[1..];
      NothingMissing(a[1..], ids);
    }
  }

  /** When the store already mirrors restic, as after a successful sync, no call is made. */
  lemma SecondSyncIsQuiet(store: Store, present: seq<Snapshot>, wanted: seq<Snapshot>, repository: string,
                          failCreate: set<string>, failDelete: set<string>)
    requires Inputs(store, present, wanted, repository) && RepoIds(store, repository) == Ids(wanted)
    ensures Missing(wanted, Ids(present)) == [] && Missing(present, Ids(wanted)) == []
    ensures Sync(store, present, wanted, failCreate, failDelete) == (store, true)
  {
    forall s | s in present
      ensures s.id in Ids(wanted)
    {
      assert s.id in RepoIds(store, repository);
    }
    forall s | s in wanted
      ensures s.id in Ids(present)
    {
      assert s.id in Ids(wanted);
      var n :| n in store && store[n].repository == repository && store[n].id == s.id;
      assert store[n] in present;
    }
    NothingMissing(wanted, Ids(present));
    NothingMissing(present, Ids(wanted));
  }

  // ---- When a sync succeeds ----

  predicate DistinctNames(list: seq<Snapshot>) {
    forall i, k :: 0 <= i < k < |list| ==> list[i].name != list[k].name
  }

  lemma TailNames(list: seq<Snapshot>)
    requires list != [] && DistinctNames(list)
    ensures DistinctNames(list[1..]) && forall t :: t in list[1..] ==> t in list && t.name != list[0].name
  {
    forall t | t in list[1..]
      ensures t in list && t.name != list[0].name
    {
      var i :| 0 <= i < |list| - 1 && list[1..][i] == t;
      assert list[i + 1] == t;
    }
  }

  /** Names that creations can take: different ones, and none in use. */
  predicate FreeNames(store: Store, todo: seq<Snapshot>) {
    DistinctNames(todo) && forall t :: t in todo ==> t.name !in store
  }

  lemma {:induction false} CreationsSucceed(store: Store, todo: seq<Snapshot>)
    ensures Issue(store, todo, Creating, {}).1 <==> FreeNames(store, todo)
    decreases todo
  {
    if todo != [] {
      assert todo[0] in todo;
      if todo[0].name !in store {
        CreationsSucceed(Call(store, todo[0], Creating), todo[1..]);
        FreeTail(store, todo);
      }
    }
  }

  lemma FreeTail(store: Store, todo: seq<Snapshot>)
    requires todo != [] && todo[0].name !in store
    ensures FreeNames(store, todo) <==> FreeNames(Call(store, todo[0], Creating), todo[1..])
  {
    if FreeNames(store, todo) {
      TailNames(todo);
    }
    if FreeNames(Call(store, todo[0], Creating), todo[1..]) {
      forall i, k | 0 <= i < k < |todo|
        ensures todo[i].name != todo[k].name
      {
        assert todo[k] == todo[1..][k - 1] && todo[k] in todo[1..];
        assert i > 0 ==> todo[i] == todo[1..][i - 1];
      }
      assert todo == [todo[0]] + todo[1..];
    }
  }

  lemma {:induction false} DeletionsSucceed(store: Store, todo: seq<Snapshot>)
    requires DistinctNames(todo) && forall t :: t in todo ==> t.name in store
    ensures Issue(store, todo, Deleting, {}).1
    decreases todo
  {
    if todo != [] {
      TailNames(todo);
      DeletionsSucceed(Call(store, todo[0], Deleting), todo[1..]);
    }
  }

  lemma {:induction false} MissingDistinct(a: seq<Snapshot>, ids: set<string>)
    requires DistinctNames(a)
    ensures DistinctNames(Missing(a, ids))
  {
    if a != [] {
      TailNames(a);
      MissingDistinct(a[1..], ids);
      var rest := Missing(a[1..], ids);
      assert forall k :: 0 <= k < |rest| ==> rest[k] in a[1..];
      if a[0].id in ids {
        assert Missing(a, ids) == rest;
      } else {
        assert Missing(a, ids) == [a[0]] + rest;
      }
    }
  }

  /**
    When no API call fails of itself, a sync succeeds if and only if the snapshots it has to create
    have different names and none of these names is taken.
   */
  lemma SyncSucceeds(store: Store, present: seq<Snapshot>, wanted: seq<Snapshot>, repository: string)
    requires Inputs(store, present, wanted, repository) && DistinctNames(present)
    ensures Sync(store, present, wanted, {}, {}).1 <==> FreeNames(store, Missing(wanted, Ids(present)))
  {
    var adds, removes := Missing(wanted, Ids(present)), Missing(present, Ids(wanted));
    CreationsSucceed(store, adds);
    if FreeNames(store, adds) {
      CreatingOnlyAdds(store, adds, {});
      MissingDistinct(present, Ids(wanted));
      DeletionsSucceed(Issue(store, adds, Creating, {}).0, removes);
    }
  }

  /**
    Ids with unique 8-character prefixes: wanted snapshots have different names, and an object that
    has the name of a wanted snapshot is that snapshot, of this repository.
   */
  predicate UniquePrefixes(store: Store, wanted: seq<Snapshot>, repository: string) {
    && DistinctNames(wanted)
    && (forall w :: w in wanted && w.name in store ==> store[w.name].id == w.id && store[w.name].repository == repository)
  }

  /** Unique prefixes are enough. */
  lemma UniquePrefixesSucceed(store: Store, present: seq<Snapshot>, wanted: seq<Snapshot>, repository: string)
    requires Inputs(store, present, wanted, repository) && DistinctNames(present)
    requires UniquePrefixes(store, wanted, repository)
    ensures Sync(store, present, wanted, {}, {}).1
  {
    assert forall n :: n in store && store[n].repository == repository ==> store[n] in present;
    MissingDistinct(wanted, Ids(present));
    SyncSucceeds(store, present, wanted, repository);
  }

  /** The repository's objects have the names a sync gives them. */
  predicate NamedByPrefix(store: Store, repository: string) {
    forall n :: n in store && store[n].repository == repository ==> |store[n].id| >= 8 && n == store[n].id[..8]
  }

  lemma SyncKeepsNames(store: Store, present: seq<Snapshot>, wanted: seq<Snapshot>, repository: string,
                       failCreate: set<string>, failDelete: set<string>)
    requires Inputs(store, present, wanted, repository) && NamedByPrefix(store, repository)
    requires forall s :: s in wanted ==> |s.id| >= 8 && s.name == s.id[..8]
    ensures NamedByPrefix(Sync(store, present, wanted, failCreate, failDelete).0, repository)
  {
    CreatingOnlyAdds(store, Missing(wanted, Ids(present)), failCreate);
    var mid := Issue(store, Missing(wanted, Ids(present)), Creating, failCreate).0;
    DeletingOnlyRemoves(mid, Missing(present, Ids(wanted)), failDelete);
  }

  lemma OneIdPerPrefix(store: Store, repository: string, x: string, y: string)
    requires NamedByPrefix(store, repository) && x in RepoIds(store, repository) && y in RepoIds(store, repository)
    ensures |x| >= 8 && |y| >= 8 && (x[..8] == y[..8] ==> x == y)
  {
  }

  /** Two snapshots of the namespace whose ids begin alike make every sync fail. */
  lemma EqualPrefixesFail(store: Store, present: seq<Snapshot>, list: seq<ResticSnapshot>, namespace: string, repository: string,
                          failCreate: set<string>, failDelete: set<string>, a: ResticSnapshot, b: ResticSnapshot)
    requires LongIds(list, namespace) && NamedByPrefix(store, repository)
    requires Inputs(store, present, Wanted(list, namespace, repository), repository)
    requires a in list && b in list && a.hostname == namespace == b.hostname && a.id != b.id && a.id[..8] == b.id[..8]
    ensures !Sync(store, present, Wanted(list, namespace, repository), failCreate, failDelete).1
  {
    var wanted := Wanted(list, namespace, repository);
    var (end, ok) := Sync(store, present, wanted, failCreate, failDelete);
    SyncKeepsNames(store, present, wanted, repository, failCreate, failDelete);
    if ok {
      SyncMirrors(store, present, wanted, repository, failCreate, failDelete);
      WantedIds(list, namespace, repository);
      OneIdPerPrefix(end, repository, a.id, b.id);
    }
  }

  /** For instance the first sync of such a repository. */
  lemma FirstSyncFails(time: int)
    ensures var list := [ResticSnapshot("0123456789", "ns", time, []), ResticSnapshot("01234567ab", "ns", time, [])];
            LongIds(list, "ns") && !Sync(map[], [], Wanted(list, "ns", "repo"), {}, {}).1
  {
    var a, b := ResticSnapshot("0123456789", "ns", time, []), ResticSnapshot("01234567ab", "ns", time, []);
    var list := [a, b];
    assert a.id[..8] == "01234567" == b.id[..8] && a.id[8] != b.id[8];
    EqualPrefixesFail(map[], [], list, "ns", "repo", {}, {}, list[0], list[1]);
  }
}
