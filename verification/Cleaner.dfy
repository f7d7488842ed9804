/**
  History cleanup (operator/executor/cleaner/cleaner.go, operator/executor/generic.go and the order
  of api/v1/job_object.go): among the objects with the same owner, the oldest finished ones go until
  the configured number of successful and of failed ones remain.
 */
module Cleaner {
  import opened Wrappers
  import opened Text
  import opened JobStatus

  datatype OwnerRef = OwnerRef(uid: string, controller: bool, kind: string, apiVersion: string)

  /** A job object of one kind and namespace; `created` is its creation time. */
  datatype JobObject = JobObject(name: string, created: int, status: Status, owners: seq<OwnerRef>)

  // ---- Limits ----

  datatype Config = Config(keepJobs: int, failedLimit: int, successfulLimit: int)

  /** History limits given on the object itself. */
  datatype OwnLimits = OwnLimits(successful: Option<int>, failed: Option<int>)

  /** A limit that is given wins, the number of jobs to keep stands in for a missing one, and both missing means none. */
  function GlobalLimit(keepJobs: int, limit: int): (r: int)
    ensures r >= 0
    ensures limit >= 0 ==> r == limit
    ensures limit < 0 && keepJobs >= 0 ==> r == keepJobs
    ensures limit < 0 && keepJobs < 0 ==> r == 0
  {
    if keepJobs < 0 then MaxInt(0, limit)
    else if limit < 0 then MaxInt(0, keepJobs)
    else MaxInt(0, limit)
  }

  function MaxInt(x: int, y: int): int {
    if x > y then x else y
  }

  function GetOrDefault(n: Option<int>, default: int): (r: int)
    requires default >= 0
    ensures r >= 0
  {
    if n.None? then default else if n.value < 0 then 0 else n.value
  }

  /** The number of successful and of failed objects to keep. */
  function HistoryLimits(c: Config, own: Option<OwnLimits>): (r: (nat, nat)) {
    var successful, failed := GlobalLimit(c.keepJobs, c.successfulLimit), GlobalLimit(c.keepJobs, c.failedLimit);
    if own.None? then (successful, failed)
    else (GetOrDefault(own.value.successful, successful), GetOrDefault(own.value.failed, failed))
  }

  /**
    Each class has its own limit: one given on the object wins, a negative one meaning none at all;
    otherwise the operator's limit for that class, or the number of jobs to keep.
   */
  lemma LimitsMean(c: Config, own: Option<OwnLimits>)
    ensures var (successful, failed) := HistoryLimits(c, own);
            && (own.Some? && own.value.successful.Some? ==> successful == MaxInt(0, own.value.successful.value))
            && (own.Some? && own.value.failed.Some? ==> failed == MaxInt(0, own.value.failed.value))
            && (own.None? || own.value.successful.None? ==>
                  successful == if c.successfulLimit >= 0 then c.successfulLimit else if c.keepJobs >= 0 then c.keepJobs else 0)
            && (own.None? || own.value.failed.None? ==>
                  failed == if c.failedLimit >= 0 then c.failedLimit else if c.keepJobs >= 0 then c.keepJobs else 0)
  {
  }

  // ---- Order ----

  predicate Less(a: JobObject, b: JobObject) {
    if a.created == b.created then StringLess(a.name, b.name) else a.created < b.created
  }

  lemma LessTotal(a: JobObject, b: JobObject)
    ensures !(Less(a, b) && Less(b, a))
    ensures a.name != b.name ==> Less(a, b) || Less(b, a)
  {
    StringLessTotal(a.name, b.name);
  }

  lemma LessTransitive(a: JobObject, b: JobObject, c: JobObject)
    requires Less(a, b) && Less(b, c)
    ensures Less(a, c)
  {
    if a.created == b.created == c.created {
      StringLessTransitive(a.name, b.name, c.name);
    }
  }

  predicate Distinct(s: seq<JobObject>) {
    forall i, k :: 0 <= i < k < |s| ==> s[i].name != s[k].name
  }

  predicate Sorted(s: seq<JobObject>) {
    forall i, k :: 0 <= i < k < |s| ==> Less(s[i], s[k])
  }

  function Insert(o: JobObject, s: seq<JobObject>): seq<JobObject> {
    if s == [] || Less(o, s[0]) then [o] + s else [s[0]] + Insert(o, s[1..])
  }

  /** `sort.Sort` on a list with distinct names; `SortIsUnique` shows that the result is the only one. */
  function SortByAge(s: seq<JobObject>): seq<JobObject> {
    if s == [] then [] else Insert(s[0], SortByAge(s[1..]))
  }

  lemma {:induction false} InsertPermutes(o: JobObject, s: seq<JobObject>)
    ensures multiset(Insert(o, s)) == multiset(s) + multiset{o}
  {
    if s != [] && !Less(o, s[0]) {
      assert s == [s[0]] + s[1..];
      InsertPermutes(o, s[1..]);
    }
  }

  lemma {:induction false} InsertSorts(o: JobObject, s: seq<JobObject>)
    requires Sorted(s) && forall p :: p in s ==> p.name != o.name
    ensures Sorted(Insert(o, s))
  {
    if s == [] {
    } else if Less(o, s[0]) {
      forall i | 0 <= i < |s|
        ensures Less(o, s[i])
      {
        if i > 0 {
          LessTransitive(o, s[0], s[i]);
        }
      }
    } else {
      LessTotal(o, s[0]);
      var rest := Insert(o, s[1..]);
      InsertSorts(o, s[1..]);
      InsertPermutes(o, s[1..]);
      forall k | 0 <= k < |rest|
        ensures Less(s[0], rest[k])
      {
        assert rest[k] in multiset(rest);
      }
    }
  }

  lemma {:induction false} SortPermutes(s: seq<JobObject>)
    ensures multiset(SortByAge(s)) == multiset(s)
  {
    if s != [] {
      SortPermutes(s[1..]);
      InsertPermutes(s[0], SortByAge(s[1..]));
      assert s == [s[0]] + s[1..];
    }
  }

  lemma SortLength(s: seq<JobObject>)
    ensures |SortByAge(s)| == |s|
  {
    SortPermutes(s);
    assert |multiset(SortByAge(s))| == |multiset(s)|;
  }

  lemma SortMembers(s: seq<JobObject>)
    ensures forall p :: p in SortByAge(s) <==> p in s
  {
    SortPermutes(s);
    forall p
      ensures p in SortByAge(s) <==> p in s
    {
      assert p in SortByAge(s) <==> p in multiset(SortByAge(s));
      assert p in s <==> p in multiset(s);
    }
  }

  lemma {:induction false} SortSorts(s: seq<JobObject>)
    requires Distinct(s)
    ensures Sorted(SortByAge(s))
  {
    if s != [] {
      SortSorts(s[1..]);
      SortMembers(s[1..]);
      InsertSorts(s[0], SortByAge(s[1..]));
    }
  }

  /** Whatever algorithm the sort library uses, it arrives at the same list. */
  lemma {:induction false} SortIsUnique(a: seq<JobObject>, b: seq<JobObject>)
    requires Sorted(a) && Sorted(b) && multiset(a) == multiset(b)
    ensures a == b
  {
    assert |multiset(a)| == |multiset(b)|;
    if a != [] {
      assert a[0] in multiset(b) && b[0] in multiset(a);
      SameOldest(a, b);
      WithoutFirst(a);
      WithoutFirst(b);
      SortIsUnique(a[1..], b[1..]);
      assert a == [a[0]] + a[1..] && b == [b[0]] + b[1..];
    }
  }

  lemma SameOldest(a: seq<JobObject>, b: seq<JobObject>)
    requires Sorted(a) && Sorted(b) && a != [] && b != [] && b[0] in a && a[0] in b
    ensures a[0] == b[0]
  {
    var i :| 0 <= i < |a| && a[i] == b[0];
    var k :| 0 <= k < |b| && b[k] == a[0];
    if i > 0 && k > 0 {
      assert Less(a[0], a[i]) && Less(b[0], b[k]);
      LessTotal(a[0], b[0]);
    }
  }

  lemma WithoutFirst(s: seq<JobObject>)
    requires s != []
    ensures multiset(s[1..]) == multiset(s) - multiset{s[0]}
  {
    assert s == [s[0]] + s[1..];
  }

  // ---- Ownership and verdicts ----

  function ControllerRef(owners: seq<OwnerRef>): Option<OwnerRef> {
    if owners == [] then None else if owners[0].controller then Some(owners[0]) else ControllerRef(owners[1..])
  }

  function ScheduleRef(owners: seq<OwnerRef>): Option<OwnerRef> {
    if owners == [] then None
    else if IsScheduleRef(owners[0]) then Some(owners[0])
    else ScheduleRef(owners[1..])
  }

  /** The controlling owner, or the owning Schedule of objects made before the controller flag was set. */
  function ControllerUID(o: JobObject): string {
    var c, s := ControllerRef(o.owners), ScheduleRef(o.owners);
    if c.Some? then c.value.uid else if s.Some? then s.value.uid else ""
  }

  predicate IsScheduleRef(r: OwnerRef) {
    r.kind == "Schedule" && HasPrefix(r.apiVersion, "k8up.io/")
  }

  lemma {:induction false} FirstOwners(owners: seq<OwnerRef>, i: nat)
    requires i < |owners|
    ensures owners[i].controller && (forall k :: 0 <= k < i ==> !owners[k].controller) ==>
              ControllerRef(owners) == Some(owners[i])
    ensures IsScheduleRef(owners[i]) && (forall k :: 0 <= k < i ==> !IsScheduleRef(owners[k])) ==>
              ScheduleRef(owners) == Some(owners[i])
    ensures (forall k :: 0 <= k < |owners| ==> !owners[k].controller) ==> ControllerRef(owners) == None
  {
    if i > 0 {
      FirstOwners(owners[1..], i - 1);
    } else if |owners| > 1 {
      FirstOwners(owners[1..], 0);
    }
  }

  /**
    Objects made before the controller flag was set group with the newer ones: for an object whose
    first Schedule reference is the only one that may carry the flag, the flag makes no difference.
   */
  lemma FlagMakesNoDifference(o: JobObject, i: nat, flag: bool)
    requires i < |o.owners| && IsScheduleRef(o.owners[i])
    requires forall k :: 0 <= k < i ==> !IsScheduleRef(o.owners[k])
    requires forall k :: 0 <= k < |o.owners| && k != i ==> !o.owners[k].controller
    ensures ControllerUID(o.(owners := o.owners[i := o.owners[i].(controller := flag)])) == o.owners[i].uid
  {
    FirstOwners(o.owners[i := o.owners[i].(controller := flag)], i);
  }

  /**
    The owner: the first controlling reference; without one the first reference to a Schedule of the
    k8up.io group; without either, none.
   */
  lemma OwnerMeans(o: JobObject)
    ensures forall i :: 0 <= i < |o.owners| && o.owners[i].controller && (forall k :: 0 <= k < i ==> !o.owners[k].controller) ==>
              ControllerUID(o) == o.owners[i].uid
    ensures (forall k :: 0 <= k < |o.owners| ==> !o.owners[k].controller) ==>
              forall i :: 0 <= i < |o.owners| && IsScheduleRef(o.owners[i]) && (forall k :: 0 <= k < i ==> !IsScheduleRef(o.owners[k])) ==>
                ControllerUID(o) == o.owners[i].uid
    ensures (forall k :: 0 <= k < |o.owners| ==> !o.owners[k].controller && !IsScheduleRef(o.owners[k])) ==> ControllerUID(o) == ""
  {
    forall i: nat | i < |o.owners|
      ensures o.owners[i].controller && (forall k :: 0 <= k < i ==> !o.owners[k].controller) ==>
                ControllerRef(o.owners) == Some(o.owners[i])
      ensures IsScheduleRef(o.owners[i]) && (forall k :: 0 <= k < i ==> !IsScheduleRef(o.owners[k])) ==>
                ScheduleRef(o.owners) == Some(o.owners[i])
    {
      FirstOwners(o.owners, i);
    }
    if o.owners != [] {
      FirstOwners(o.owners, 0);
    }
    NoSchedule(o.owners);
  }

  lemma {:induction false} NoSchedule(owners: seq<OwnerRef>)
    ensures (forall k :: 0 <= k < |owners| ==> !IsScheduleRef(owners[k])) ==> ScheduleRef(owners) == None
  {
    if owners != [] {
      NoSchedule(owners[1..]);
    }
  }

  lemma ScheduleRefMeans(r: OwnerRef)
    ensures IsScheduleRef(r) <==> r.kind == "Schedule" && exists rest :: r.apiVersion == "k8up.io/" + rest
  {
    var group := "k8up.io/";
    if |r.apiVersion| >= |group| {
      assert r.apiVersion == r.apiVersion[..|group|] + r.apiVersion[|group|..];
    }
    assert forall rest: string :: (group + rest)[..|group|] == group;
  }

  /** What objects are picked by. */
  datatype Test = OwnedBy(uid: string) | Successful | Unsuccessful | Unfinished | NotNamed(names: set<string>) {
    predicate Passes(o: JobObject) {
      match this
      case OwnedBy(uid) => ControllerUID(o) == uid
      case Successful => o.status.HasSucceeded()
      case Unsuccessful => !o.status.HasSucceeded() && o.status.HasFailed()
      case Unfinished => !o.status.HasFinished()
      case NotNamed(names) => o.name !in names
    }
  }

  /** Every object is in exactly one class, and which one is what its status reads as. */
  lemma ClassesMean(o: JobObject)
    ensures Successful.Passes(o) <==> o.status.HasSucceeded()
    ensures Unsuccessful.Passes(o) <==> o.status.HasFailed()
    ensures Unfinished.Passes(o) <==> !o.status.HasSucceeded() && !o.status.HasFailed()
  {
  }

  // ---- Lists of objects ----

  function Kept(o: JobObject, t: Test): seq<JobObject> {
    if t.Passes(o) then [o] else []
  }

  function Filter(s: seq<JobObject>, t: Test): seq<JobObject> {
    if s == [] then [] else Kept(s[0], t) + Filter(s[1..], t)
  }

  lemma {:induction false} FilterMembers(s: seq<JobObject>, t: Test)
    ensures forall o :: o in Filter(s, t) <==> o in s && t.Passes(o)
  {
    if s != [] {
      assert s == [s[0]] + s[1..];
      FilterMembers(s[1..], t);
    }
  }

  lemma {:induction false} FilterAppend(a: seq<JobObject>, b: seq<JobObject>, t: Test)
    ensures Filter(a + b, t) == Filter(a, t) + Filter(b, t)
  {
    if a == [] {
      assert a + b == b;
    } else {
      assert (a + b)[1..] == a[1..] + b;
      FilterAppend(a[1..], b, t);
    }
  }

  lemma FilterNext(s: seq<JobObject>, i: nat, t: Test)
    requires i < |s|
    ensures Filter(s[..i + 1], t) == Filter(s[..i], t) + Kept(s[i], t)
  {
    assert s[..i + 1] == s[..i] + [s[i]];
    FilterAppend(s[..i], [s[i]], t);
    assert Filter([s[i]], t) == Kept(s[i], t) + [];
  }

  lemma {:induction false} FilterDistinct(s: seq<JobObject>, t: Test)
    requires Distinct(s)
    ensures Distinct(Filter(s, t))
  {
    if s != [] {
      FilterDistinct(s[1..], t);
      FilterMembers(s[1..], t);
      HeadNameIsNew(s);
    }
  }

  lemma {:induction false} FilterSwap(s: seq<JobObject>, t: Test, u: Test)
    ensures Filter(Filter(s, t), u) == Filter(Filter(s, u), t)
  {
    if s != [] {
      FilterSwap(s[1..], t, u);
      FilterAppend(Kept(s[0], t), Filter(s[1..], t), u);
      FilterAppend(Kept(s[0], u), Filter(s[1..], u), t);
      assert Filter(Kept(s[0], t), u) == Filter(Kept(s[0], u), t);
    }
  }

  lemma {:induction false} FilterSame(s: seq<JobObject>, t: Test, u: Test)
    requires forall o :: o in s ==> t.Passes(o) == u.Passes(o)
    ensures Filter(s, t) == Filter(s, u)
  {
    if s != [] {
      assert s == [s[0]] + s[1..];
      FilterSame(s[1..], t, u);
    }
  }

  lemma {:induction false} FilterNotNamed(s: seq<JobObject>, a: set<string>, b: set<string>)
    ensures Filter(Filter(s, NotNamed(a)), NotNamed(b)) == Filter(s, NotNamed(a + b))
  {
    if s != [] {
      FilterNotNamed(s[1..], a, b);
      FilterAppend(Kept(s[0], NotNamed(a)), Filter(s[1..], NotNamed(a)), NotNamed(b));
      assert Filter(Kept(s[0], NotNamed(a)), NotNamed(b)) == Kept(s[0], NotNamed(a + b));
    }
  }

  lemma {:induction false} FilterNothing(s: seq<JobObject>)
    ensures Filter(s, NotNamed({})) == s
  {
    if s != [] {
      FilterNothing(s[1..]);
      assert s == [s[0]] + s[1..];
    }
  }

  function NameSet(s: seq<JobObject>): set<string> {
    set o | o in s :: o.name
  }

  lemma NameSetAppend(a: seq<JobObject>, b: seq<JobObject>)
    ensures NameSet(a + b) == NameSet(a) + NameSet(b)
  {
  }

  lemma HeadNameIsNew(s: seq<JobObject>)
    requires s != [] && Distinct(s)
    ensures forall o :: o in s[1..] ==> o.name != s[0].name
  {
    forall o | o in s[1..]
      ensures o.name != s[0].name
    {
      var i :| 0 <= i < |s| - 1 && s[1..][i] == o;
      assert s[i + 1] == o;
    }
  }

  lemma {:induction false} NameSetSize(s: seq<JobObject>)
    requires Distinct(s)
    ensures |NameSet(s)| == |s|
  {
    if s != [] {
      var rest := NameSet(s[1..]);
      NameSetSize(s[1..]);
      HeadNameIsNew(s);
      assert s[0].name !in rest;
      assert NameSet(s) == rest + {s[0].name};
    }
  }

  lemma SameObject(s: seq<JobObject>, a: JobObject, b: JobObject)
    requires Distinct(s) && a in s && b in s && a.name == b.name
    ensures a == b
  {
    var i :| 0 <= i < |s| && s[i] == a;
    var k :| 0 <= k < |s| && s[k] == b;
  }

  method FilterByController(jobs: seq<JobObject>, running: JobObject) returns (filtered: seq<JobObject>)
    ensures filtered == Filter(jobs, OwnedBy(ControllerUID(running)))
  {
    var uid := ControllerUID(running);
    filtered := [];
    for i := 0 to |jobs|
      invariant filtered == Filter(jobs[..i], OwnedBy(uid))
    {
      FilterNext(jobs, i, OwnedBy(uid));
      if ControllerUID(jobs[i]) == uid {
        filtered := filtered + [jobs[i]];
      }
    }
    assert jobs[..|jobs|] == jobs;
  }

  method GroupByStatus(jobs: seq<JobObject>)
    returns (running: seq<JobObject>, failed: seq<JobObject>, successful: seq<JobObject>)
    ensures running == Filter(jobs, Unfinished)
    ensures failed == Filter(jobs, Unsuccessful)
    ensures successful == Filter(jobs, Successful)
  {
    running, failed, successful := [], [], [];
    for i := 0 to |jobs|
      invariant running == Filter(jobs[..i], Unfinished)
      invariant failed == Filter(jobs[..i], Unsuccessful)
      invariant successful == Filter(jobs[..i], Successful)
    {
      FilterNext(jobs, i, Unfinished);
      FilterNext(jobs, i, Unsuccessful);
      FilterNext(jobs, i, Successful);
      if jobs[i].status.HasSucceeded() {
        successful := successful + [jobs[i]];
        continue;
      }
      if jobs[i].status.HasFailed() {
        failed := failed + [jobs[i]];
        continue;
      }
      running := running + [jobs[i]];
    }
    assert jobs[..|jobs|] == jobs;
  }

  // ---- Deleting ----

  /** The objects to delete, oldest first, so that `max` remain. */
  function Victims(jobs: seq<JobObject>, max: nat): seq<JobObject> {
    if |jobs| <= max then []
    else
      SortLength(jobs);
      SortByAge(jobs)[..|jobs| - max]
  }

  /** How many of the deletions happen before the first failing one. */
  function DeletedBefore(victims: seq<JobObject>, fails: set<string>): (n: nat)
    ensures n <= |victims|
  {
    if victims == [] || victims[0].name in fails then 0 else 1 + DeletedBefore(victims[1..], fails)
  }

  /** Up to there no deletion fails, and the next one does. */
  lemma {:induction false} DeletedBeforeIs(victims: seq<JobObject>, fails: set<string>, i: nat)
    requires i < |victims| && i <= DeletedBefore(victims, fails)
    ensures i == DeletedBefore(victims, fails) <==> victims[i].name in fails
  {
    if i > 0 {
      DeletedBeforeIs(victims[1..], fails, i - 1);
    }
  }

  /** The objects of one kind in one namespace, as the API server lists them. */
  class ObjectStore {
    var objects: seq<JobObject>

    constructor (objects: seq<JobObject>)
      ensures this.objects == objects
    {
      this.objects := objects;
    }

    /** A delete call; an object that is already gone counts as deleted. */
    method DeleteJob(o: JobObject, fails: set<string>) returns (ok: bool)
      modifies this
      ensures ok <==> o.name !in fails
      ensures objects == if ok then Filter(old(objects), NotNamed({o.name})) else old(objects)
    {
      if o.name in fails {
        return false;
      }
      objects := Filter(objects, NotNamed({o.name}));
      return true;
    }

    /** cleanOldObjects: deletes oldest first and stops at the first failing call. */
    method CleanClass(jobs: seq<JobObject>, max: nat, fails: set<string>) returns (deleted: nat, ok: bool)
      modifies this
      ensures deleted == DeletedBefore(Victims(jobs, max), fails)
      ensures ok <==> deleted == |Victims(jobs, max)|
      ensures objects == Without(old(objects), Victims(jobs, max)[..deleted])
    {
      var numToDelete := |jobs| - max;
      if numToDelete <= 0 {
        WithoutNone(objects, []);
        return 0, true;
      }
      SortLength(jobs);
      var sorted := SortByAge(jobs);
      deleted, ok := DeleteFirst(sorted, numToDelete, fails);
    }

    /** The delete loop over the first n objects of a list. */
    method DeleteFirst(sorted: seq<JobObject>, n: nat, fails: set<string>) returns (deleted: nat, ok: bool)
      requires n <= |sorted|
      modifies this
      ensures deleted == DeletedBefore(sorted[..n], fails)
      ensures ok <==> deleted == n
      ensures objects == Without(old(objects), sorted[..n][..deleted])
    {
      ghost var victims := sorted[..n];
      WithoutNone(objects, victims);
      for i := 0 to n
        invariant i <= DeletedBefore(victims, fails)
        invariant objects == Without(old(objects), victims[..i])
      {
        assert sorted[i] == victims[i];
        DeletedBeforeIs(victims, fails, i);
        var deletedOne := DeleteJob(sorted[i], fails);
        if !deletedOne {
          return i, false;
        }
        WithoutNext(old(objects), victims, i);
      }
      return n, true;
    }

    /** CleanOldObjects: the successful ones first; a failure there leaves the failed ones alone. */
    method CleanOldObjects(jobs: seq<JobObject>, maxSuccessful: nat, maxFailed: nat, fails: set<string>)
      returns (deleted: nat, ok: bool)
      modifies this
      ensures var gone := Deletions(jobs, maxSuccessful, maxFailed, fails);
              && deleted == |gone| && objects == Without(old(objects), gone)
              && (ok <==> gone == AllVictims(jobs, maxSuccessful, maxFailed))
    {
      var _, failed, successful := GroupByStatus(jobs);
      ghost var before := objects;
      ghost var sv, fv := Victims(successful, maxSuccessful), Victims(failed, maxFailed);
      var successDel, successOk := CleanClass(successful, maxSuccessful, fails);
      if !successOk {
        assert sv[..successDel] + [] == sv[..successDel];
        return successDel, false;
      }
      assert sv[..successDel] == sv;
      var failedDel, failedOk := CleanClass(failed, maxFailed, fails);
      WithoutTwice(before, sv, fv[..failedDel]);
      assert failedOk ==> fv[..failedDel] == fv;
      return successDel + failedDel, failedOk;
    }

    /**
      CleanupOldResources: lists the objects, keeps the siblings of the running one and cleans those.
      The result is the condition it writes to the running object.
     */
    method CleanupOldResources(running: JobObject, c: Config, own: Option<OwnLimits>, listOk: bool, fails: set<string>)
      returns (scrubbed: Condition)
      modifies this
      ensures !listOk ==> objects == old(objects) && scrubbed == Condition(Scrubbed, False, ReasonRetrievalFailed)
      ensures listOk ==>
                var siblings := Filter(old(objects), OwnedBy(ControllerUID(running)));
                var limits := HistoryLimits(c, own);
                var gone := Deletions(siblings, limits.0, limits.1, fails);
                && objects == Without(old(objects), gone)
                && scrubbed == if gone == AllVictims(siblings, limits.0, limits.1) then Condition(Scrubbed, True, ReasonSucceeded)
                               else Condition(Scrubbed, False, ReasonDeletionFailed)
    {
      if !listOk {
        return Condition(Scrubbed, False, ReasonRetrievalFailed);
      }
      var siblings := FilterByController(objects, running);
      var limits := HistoryLimits(c, own);
      var deleted, ok := CleanOldObjects(siblings, limits.0, limits.1, fails);
      if !ok {
        return Condition(Scrubbed, False, ReasonDeletionFailed);
      }
      return Condition(Scrubbed, True, ReasonSucceeded);
    }
  }

  function AllVictims(jobs: seq<JobObject>, maxSuccessful: nat, maxFailed: nat): seq<JobObject> {
    Victims(Filter(jobs, Successful), maxSuccessful) + Victims(Filter(jobs, Unsuccessful), maxFailed)
  }

  /** The objects that are deleted when the named delete calls fail: an initial part of the victims. */
  function Deletions(jobs: seq<JobObject>, maxSuccessful: nat, maxFailed: nat, fails: set<string>): seq<JobObject> {
    var successful := Victims(Filter(jobs, Successful), maxSuccessful);
    var failed := Victims(Filter(jobs, Unsuccessful), maxFailed);
    var n := DeletedBefore(successful, fails);
    successful[..n] + if n < |successful| then [] else failed[..DeletedBefore(failed, fails)]
  }

  /** The list without the objects of the given names. */
  function Without(s: seq<JobObject>, gone: seq<JobObject>): seq<JobObject> {
    Filter(s, NotNamed(NameSet(gone)))
  }

  lemma WithoutNone(s: seq<JobObject>, victims: seq<JobObject>)
    ensures Without(s, victims[..0]) == s
  {
    assert victims[..0] == [] && NameSet(victims[..0]) == {};
    FilterNothing(s);
  }

  lemma WithoutTwice(s: seq<JobObject>, a: seq<JobObject>, b: seq<JobObject>)
    ensures Without(Without(s, a), b) == Without(s, a + b)
  {
    NameSetAppend(a, b);
    FilterNotNamed(s, NameSet(a), NameSet(b));
  }

  lemma WithoutNext(s: seq<JobObject>, victims: seq<JobObject>, i: nat)
    requires i < |victims|
    ensures Filter(Without(s, victims[..i]), NotNamed({victims[i].name})) == Without(s, victims[..i + 1])
  {
    assert victims[..i + 1] == victims[..i] + [victims[i]];
    assert NameSet([victims[i]]) == {victims[i].name};
    WithoutTwice(s, victims[..i], [victims[i]]);
  }

  // ---- What remains ----

  /** Objects that are in the list and whose names are not among the victims'. */
  predicate Spared(o: JobObject, list: seq<JobObject>, victims: seq<JobObject>) {
    o in list && o.name !in NameSet(victims)
  }

  lemma SortedNamesDiffer(jobs: seq<JobObject>, s: seq<JobObject>)
    requires Distinct(jobs) && Sorted(s) && forall o :: o in s ==> o in jobs
    ensures Distinct(s)
  {
    forall i, k | 0 <= i < k < |s|
      ensures s[i].name != s[k].name
    {
      LessTotal(s[i], s[k]);
      if s[i].name == s[k].name {
        SameObject(jobs, s[i], s[k]);
      }
    }
  }

  /** In a sorted list, whatever is not named in an initial part is younger than that part. */
  lemma InitialPartIsOldest(sorted: seq<JobObject>, n: nat, v: JobObject, k: JobObject)
    requires Sorted(sorted) && n <= |sorted| && v in sorted[..n] && Spared(k, sorted, sorted[..n])
    ensures Less(v, k)
  {
    var i :| 0 <= i < n && sorted[i] == v;
    var m :| 0 <= m < |sorted| && sorted[m] == k;
    assert forall x :: 0 <= x < n ==> sorted[..n][x] == sorted[x] && sorted[x].name in NameSet(sorted[..n]);
  }

  /** The victims are the oldest of the list, as many as exceed the limit. */
  lemma VictimsAreOldest(jobs: seq<JobObject>, max: nat)
    requires Distinct(jobs)
    ensures var victims := Victims(jobs, max);
            && |victims| == |jobs| - Min(|jobs|, max)
            && Distinct(victims) && Sorted(victims)
            && (forall v :: v in victims ==> v in jobs)
            && (forall v, k :: v in victims && Spared(k, jobs, victims) ==>
                  v.created < k.created || (v.created == k.created && StringLess(v.name, k.name)))
  {
    SortSorts(jobs);
    SortLength(jobs);
    SortMembers(jobs);
    var sorted, victims := SortByAge(jobs), Victims(jobs, max);
    assert victims == sorted[..|victims|];
    assert forall v :: v in victims ==> v in sorted;
    SortedNamesDiffer(jobs, victims);
    forall v, k | v in victims && Spared(k, jobs, victims)
      ensures Less(v, k)
    {
      InitialPartIsOldest(sorted, |victims|, v, k);
    }
  }

  /** What is left of a list once its victims are gone has exactly the allowed size. */
  lemma SizeAfter(list: seq<JobObject>, max: nat)
    requires Distinct(list)
    ensures |Without(list, Victims(list, max))| == Min(|list|, max)
  {
    var victims := Victims(list, max);
    var rest := Without(list, victims);
    VictimsAreOldest(list, max);
    FilterDistinct(list, NotNamed(NameSet(victims)));
    FilterMembers(list, NotNamed(NameSet(victims)));
    NameSetSize(list);
    NameSetSize(victims);
    NameSetSize(rest);
    assert NameSet(victims) <= NameSet(list);
    assert NameSet(rest) == NameSet(list) - NameSet(victims);
  }

  lemma VictimsBelong(siblings: seq<JobObject>, s: nat, f: nat)
    requires Distinct(siblings)
    ensures forall v :: v in Victims(Filter(siblings, Successful), s) ==> v in siblings && Successful.Passes(v)
    ensures forall v :: v in Victims(Filter(siblings, Unsuccessful), f) ==> v in siblings && Unsuccessful.Passes(v)
  {
    FilterDistinct(siblings, Successful);
    FilterDistinct(siblings, Unsuccessful);
    FilterMembers(siblings, Successful);
    FilterMembers(siblings, Unsuccessful);
    VictimsAreOldest(Filter(siblings, Successful), s);
    VictimsAreOldest(Filter(siblings, Unsuccessful), f);
  }

  /** The verdict classes, with the victims each one has. */
  function ClassVictims(siblings: seq<JobObject>, t: Test, s: nat, f: nat): seq<JobObject> {
    Victims(Filter(siblings, t), if t.Successful? then s else f)
  }

  /** Deleting all victims leaves of one class what deleting that class's own victims leaves. */
  lemma ClassAfter(siblings: seq<JobObject>, s: nat, f: nat, t: Test)
    requires Distinct(siblings) && (t.Successful? || t.Unsuccessful?)
    ensures Filter(Without(siblings, AllVictims(siblings, s, f)), t) ==
            Without(Filter(siblings, t), ClassVictims(siblings, t, s, f))
  {
    var all, own, mine := AllVictims(siblings, s, f), ClassVictims(siblings, t, s, f), Filter(siblings, t);
    FilterSwap(siblings, NotNamed(NameSet(all)), t);
    VictimsBelong(siblings, s, f);
    FilterMembers(siblings, t);
    forall o | o in mine
      ensures o.name in NameSet(all) <==> o.name in NameSet(own)
    {
      if o.name in NameSet(all) {
        var v :| v in all && v.name == o.name;
        SameObject(siblings, o, v);
      }
    }
    FilterSame(mine, NotNamed(NameSet(all)), NotNamed(NameSet(own)));
  }

  lemma OthersStay(objects: seq<JobObject>, uid: string, s: nat, f: nat, o: JobObject)
    requires Distinct(objects) && o in objects
    requires ControllerUID(o) != uid || Unfinished.Passes(o)
    ensures o in Without(objects, AllVictims(Filter(objects, OwnedBy(uid)), s, f))
  {
    var siblings := Filter(objects, OwnedBy(uid));
    var gone := AllVictims(siblings, s, f);
    FilterMembers(objects, NotNamed(NameSet(gone)));
    if o.name in NameSet(gone) {
      var v :| v in gone && v.name == o.name;
      VictimIsFinishedSibling(objects, uid, s, f, v);
      SameObject(objects, o, v);
    }
  }

  lemma VictimIsFinishedSibling(objects: seq<JobObject>, uid: string, s: nat, f: nat, v: JobObject)
    requires Distinct(objects) && v in AllVictims(Filter(objects, OwnedBy(uid)), s, f)
    ensures v in objects && ControllerUID(v) == uid && !Unfinished.Passes(v)
  {
    FilterDistinct(objects, OwnedBy(uid));
    FilterMembers(objects, OwnedBy(uid));
    VictimsBelong(Filter(objects, OwnedBy(uid)), s, f);
  }

  /**
    If no delete fails: as many successful and failed siblings survive as the limits allow,
    everything else is untouched, and a second cleanup has nothing to delete.
   */
  lemma CleanupKeepsLimits(objects: seq<JobObject>, uid: string, s: nat, f: nat)
    requires Distinct(objects)
    ensures var siblings := Filter(objects, OwnedBy(uid));
            var after := Without(objects, AllVictims(siblings, s, f));
            var left := Filter(after, OwnedBy(uid));
            && |Filter(left, Successful)| == Min(|Filter(siblings, Successful)|, s)
            && |Filter(left, Unsuccessful)| == Min(|Filter(siblings, Unsuccessful)|, f)
            && (forall o :: o in objects && (ControllerUID(o) != uid || Unfinished.Passes(o)) ==> o in after)
            && AllVictims(left, s, f) == []
  {
    var siblings := Filter(objects, OwnedBy(uid));
    var gone := AllVictims(siblings, s, f);
    FilterDistinct(objects, OwnedBy(uid));
    FilterDistinct(siblings, Successful);
    FilterDistinct(siblings, Unsuccessful);
    FilterSwap(objects, NotNamed(NameSet(gone)), OwnedBy(uid));
    ClassAfter(siblings, s, f, Successful);
    ClassAfter(siblings, s, f, Unsuccessful);
    SizeAfter(Filter(siblings, Successful), s);
    SizeAfter(Filter(siblings, Unsuccessful), f);
    forall o | o in objects && (ControllerUID(o) != uid || Unfinished.Passes(o))
      ensures o in Without(objects, gone)
    {
      OthersStay(objects, uid, s, f, o);
    }
  }

  /** The deleted objects of a list are an oldest-first initial part of it, whatever call failed. */
  lemma PrefixIsOldest(list: seq<JobObject>, max: nat, n: nat, gone: JobObject, kept: JobObject)
    requires Distinct(list) && n <= |Victims(list, max)|
    requires gone in Victims(list, max)[..n] && Spared(kept, list, Victims(list, max)[..n])
    ensures gone.created < kept.created || (gone.created == kept.created && StringLess(gone.name, kept.name))
  {
    SortSorts(list);
    SortLength(list);
    SortMembers(list);
    assert Victims(list, max)[..n] == SortByAge(list)[..n];
    InitialPartIsOldest(SortByAge(list), n, gone, kept);
  }

  /** Survivors are younger than the deleted objects of their class, also when a delete failed. */
  lemma SurvivorsAreYounger(siblings: seq<JobObject>, s: nat, f: nat, fails: set<string>, t: Test,
                            gone: JobObject, kept: JobObject)
    requires Distinct(siblings) && (t.Successful? || t.Unsuccessful?)
    requires gone in Deletions(siblings, s, f, fails) && t.Passes(gone)
    requires Spared(kept, siblings, Deletions(siblings, s, f, fails)) && t.Passes(kept)
    ensures gone.created < kept.created || (gone.created == kept.created && StringLess(gone.name, kept.name))
  {
    var list, victims := Filter(siblings, t), ClassVictims(siblings, t, s, f);
    var sv, fv := ClassVictims(siblings, Successful, s, f), ClassVictims(siblings, Unsuccessful, s, f);
    var n := if t.Unsuccessful? && DeletedBefore(sv, fails) < |sv| then 0 else DeletedBefore(victims, fails);
    VictimsBelong(siblings, s, f);
    FilterDistinct(siblings, t);
    FilterMembers(siblings, t);
    assert gone in victims[..n];
    assert forall v :: v in victims[..n] ==> v in Deletions(siblings, s, f, fails);
    PrefixIsOldest(list, if t.Successful? then s else f, n, gone, kept);
  }
}
