/**
  The five controllers sharing a repository. A lock hold is three kinds of steps: `Admit` takes the
  mutex, lists the jobs and finds that the new job may start; `Create` makes one job; `Release`
  gives the mutex back. Jobs gain and lose pods, end, or are deleted at any moment in between, also
  while a lock is held, and holds of different repositories interleave freely.

  The locker recognises a running job by its active pods only. `Settled` is the assumption that
  makes this work: when a lock hold lists the jobs, each job of the repository that has not ended
  has an active pod. `GuardAloneIsNotEnough` shows what happens without it.
 */
module Protocol {
  import opened BatchJobs
  import opened Locker

  /** A held lock: the kind it was taken for, and how many jobs its runnable may still create. */
  datatype Hold = Hold(typ: JobType, left: nat)

  datatype State = State(jobs: seq<BatchJob>, locks: map<string, Hold>)

  const Init := State([], map[])

  datatype Step =
    | Admit(repository: string, typ: JobType, count: nat)
    | Create(repository: string, key: JobKey)
    | Release(repository: string)
    | Pods(index: nat, active: nat)
    | End(index: nat, conditions: JobConditions)
    | Delete(index: nat)

  predicate Live(j: BatchJob) {
    !JobEnded(j.conditions)
  }

  predicate Settled(jobs: seq<BatchJob>, repository: string) {
    forall j :: j in jobs && j.repository == repository && Live(j) ==> j.active > 0
  }

  predicate Enabled(s: State, e: Step, limits: Limits) {
    match e
    case Admit(r, t, n) =>
      && r !in s.locks
      && Settled(s.jobs, r)
      && MayStart(s.jobs, r, t, limits)
      && (t != Backup ==> n <= 1)
    case Create(r, key) =>
      && r in s.locks && s.locks[r].left > 0
      && forall j :: j in s.jobs ==> j.key != key
    case Release(r) => r in s.locks
    case Pods(i, _) => i < |s.jobs| && Live(s.jobs[i])
    case End(i, c) => i < |s.jobs| && Live(s.jobs[i]) && WellFormed(c) && JobEnded(c)
    case Delete(i) => i < |s.jobs|
  }

  function Apply(s: State, e: Step, limits: Limits): State
    requires Enabled(s, e, limits)
  {
    match e
    case Admit(r, t, n) => s.(locks := s.locks[r := Hold(t, n)])
    case Create(r, key) => Created(s, r, key)
    case Release(r) => s.(locks := s.locks - {r})
    case Pods(i, n) => s.(jobs := s.jobs[i := s.jobs[i].(active := n)])
    case End(i, c) => s.(jobs := s.jobs[i := s.jobs[i].(active := 0, conditions := c)])
    case Delete(i) => s.(jobs := s.jobs[..i] + s.jobs[i + 1..])
  }

  function Created(s: State, r: string, key: JobKey): State
    requires r in s.locks && s.locks[r].left > 0
  {
    var h := s.locks[r];
    State(s.jobs + [NewJob(key, h.typ, r)], s.locks[r := h.(left := h.left - 1)])
  }

  predicate Legal(s: State, run: seq<Step>, limits: Limits)
    decreases run
  {
    run == [] || (Enabled(s, run[0], limits) && Legal(Apply(s, run[0], limits), run[1..], limits))
  }

  function After(s: State, run: seq<Step>, limits: Limits): State
    requires Legal(s, run, limits)
    decreases run
  {
    if run == [] then s else After(Apply(s, run[0], limits), run[1..], limits)
  }

  lemma {:induction false} RunConcat(s: State, a: seq<Step>, b: seq<Step>, limits: Limits)
    requires Legal(s, a, limits) && Legal(After(s, a, limits), b, limits)
    ensures Legal(s, a + b, limits) && After(s, a + b, limits) == After(After(s, a, limits), b, limits)
    decreases a
  {
    if a == [] {
      assert a + b == b;
    } else {
      assert (a + b)[1..] == a[1..] + b;
      RunConcat(Apply(s, a[0], limits), a[1..], b, limits);
    }
  }

  // ---- Exclusivity ----

  /** Two unended jobs of one repository: neither runs alone, and at most one is exclusive. */
  predicate Compatible(a: BatchJob, b: BatchJob) {
    Live(a) && Live(b) && a.repository == b.repository ==>
      !RunsAlone(a.typ) && !RunsAlone(b.typ) && !(a.exclusive && b.exclusive)
  }

  predicate Apart(jobs: seq<BatchJob>) {
    forall i, k :: 0 <= i < k < |jobs| ==> Compatible(jobs[i], jobs[k])
  }

  predicate Plain(j: BatchJob) {
    (!Live(j) ==> j.active == 0) && j.exclusive == CarriesExclusiveLabel(j.typ)
  }

  /** What a holder that still has jobs to create knows about the repository. */
  predicate Clear(jobs: seq<BatchJob>, r: string, h: Hold) {
    h.left > 0 ==>
      && (h.typ != Backup ==> h.left == 1)
      && forall j :: j in jobs && j.repository == r && Live(j) ==> !RunsAlone(h.typ) && !j.exclusive
  }

  predicate Inv(s: State) {
    && (forall j :: j in s.jobs ==> Plain(j))
    && Apart(s.jobs)
    && (forall r :: r in s.locks ==> Clear(s.jobs, r, s.locks[r]))
  }

  lemma AdmitKeeps(s: State, e: Step, limits: Limits)
    requires Inv(s) && e.Admit? && Enabled(s, e, limits)
    ensures Inv(Apply(s, e, limits))
  {
    var running := Running(s.jobs, e.repository);
    forall j | j in s.jobs && j.repository == e.repository && Live(j)
      ensures !RunsAlone(e.typ) && !j.exclusive
    {
      assert j in running;
    }
  }

  lemma CreateKeeps(s: State, e: Step, limits: Limits)
    requires Inv(s) && e.Create? && Enabled(s, e, limits)
    ensures Inv(Apply(s, e, limits))
  {
    var s' := Apply(s, e, limits);
    var h, j := s.locks[e.repository], s'.jobs[|s.jobs|];
    assert Clear(s.jobs, e.repository, h);
    forall i | 0 <= i < |s.jobs|
      ensures Compatible(s.jobs[i], j)
    {
      assert s.jobs[i] in s.jobs;
    }
    forall r | r in s'.locks
      ensures Clear(s'.jobs, r, s'.locks[r])
    {
      assert Clear(s.jobs, r, s.locks[r]);
    }
  }

  lemma JobStepKeeps(s: State, e: Step, limits: Limits)
    requires Inv(s) && (e.Pods? || e.End?) && Enabled(s, e, limits)
    ensures Inv(Apply(s, e, limits))
  {
    var s' := Apply(s, e, limits);
    var i := e.index;
    assert s.jobs[i] in s.jobs;
    forall j | j in s'.jobs
      ensures Plain(j)
      ensures exists o :: o in s.jobs && o.repository == j.repository && o.exclusive == j.exclusive
                          && (Live(j) ==> Live(o))
    {
      var k :| 0 <= k < |s'.jobs| && s'.jobs[k] == j;
      assert s.jobs[k] in s.jobs;
    }
    forall a, b | 0 <= a < b < |s'.jobs|
      ensures Compatible(s'.jobs[a], s'.jobs[b])
    {
      assert Compatible(s.jobs[a], s.jobs[b]);
    }
  }

  lemma DeleteKeeps(s: State, e: Step, limits: Limits)
    requires Inv(s) && e.Delete? && Enabled(s, e, limits)
    ensures Inv(Apply(s, e, limits))
  {
    var s' := Apply(s, e, limits);
    var i := e.index;
    forall a, b | 0 <= a < b < |s'.jobs|
      ensures Compatible(s'.jobs[a], s'.jobs[b])
    {
      var a', b' := if a < i then a else a + 1, if b < i then b else b + 1;
      assert s'.jobs[a] == s.jobs[a'] && s'.jobs[b] == s.jobs[b'];
      assert Compatible(s.jobs[a'], s.jobs[b']);
    }
    assert forall j :: j in s'.jobs ==> j in s.jobs;
  }

  lemma StepKeeps(s: State, e: Step, limits: Limits)
    requires Inv(s) && Enabled(s, e, limits)
    ensures Inv(Apply(s, e, limits))
  {
    match e
    case Admit(_, _, _) => AdmitKeeps(s, e, limits);
    case Create(_, _) => CreateKeeps(s, e, limits);
    case Release(_) =>
    case Pods(_, _) => JobStepKeeps(s, e, limits);
    case End(_, _) => JobStepKeeps(s, e, limits);
    case Delete(_) => DeleteKeeps(s, e, limits);
  }

  lemma {:induction false} RunKeeps(s: State, run: seq<Step>, limits: Limits)
    requires Inv(s) && Legal(s, run, limits)
    ensures Inv(After(s, run, limits))
    decreases run
  {
    if run != [] {
      StepKeeps(s, run[0], limits);
      RunKeeps(Apply(s, run[0], limits), run[1..], limits);
    }
  }

  /**
    In every reachable state an active Check or Prune job is the only active job of its repository,
    and at most one active job of a repository carries the exclusive label.
   */
  lemma Exclusivity(run: seq<Step>, limits: Limits, a: nat, b: nat)
    requires Legal(Init, run, limits)
    requires a < |After(Init, run, limits).jobs| && b < |After(Init, run, limits).jobs|
    ensures var jobs := After(Init, run, limits).jobs;
            (jobs[a].active > 0 && jobs[b].active > 0 && jobs[a].repository == jobs[b].repository &&
             (jobs[a].typ == Check || jobs[a].typ == Prune || (jobs[a].exclusive && jobs[b].exclusive))) ==> a == b
  {
    RunKeeps(Init, run, limits);
    var jobs := After(Init, run, limits).jobs;
    assert Plain(jobs[a]) && Plain(jobs[b]);
    if a < b {
      assert Compatible(jobs[a], jobs[b]);
    } else if b < a {
      assert Compatible(jobs[b], jobs[a]);
    }
  }

  function LiveKeys(jobs: seq<BatchJob>, r: string): set<JobKey> {
    set j | j in jobs && j.repository == r && Live(j) :: j.key
  }

  function ActiveKeys(jobs: seq<BatchJob>, r: string): set<JobKey> {
    set j | j in jobs && j.repository == r && j.active > 0 :: j.key
  }

  predicate RestoreActive(s: State, r: string) {
    exists j :: j in s.jobs && j.repository == r && j.typ == Restore && j.active > 0
  }

  /** Nothing gets a pod back: a job without active pods stays without. */
  predicate NoReactivation(s: State, e: Step) {
    e.Pods? && e.index < |s.jobs| && e.active > 0 ==> s.jobs[e.index].active > 0
  }

  predicate RestoreActiveThroughout(s: State, run: seq<Step>, r: string, limits: Limits)
    requires Legal(s, run, limits)
    decreases run
  {
    RestoreActive(s, r) &&
    (run == [] || RestoreActiveThroughout(Apply(s, run[0], limits), run[1..], r, limits))
  }

  predicate Calm(s: State, run: seq<Step>, limits: Limits)
    requires Legal(s, run, limits)
    decreases run
  {
    run == [] || (NoReactivation(s, run[0]) && Calm(Apply(s, run[0], limits), run[1..], limits))
  }

  lemma RestoreStep(s: State, e: Step, r: string, limits: Limits)
    requires Inv(s) && Enabled(s, e, limits) && RestoreActive(s, r)
    ensures LiveKeys(Apply(s, e, limits).jobs, r) <= LiveKeys(s.jobs, r)
    ensures NoReactivation(s, e) ==> ActiveKeys(Apply(s, e, limits).jobs, r) <= ActiveKeys(s.jobs, r)
  {
    var s' := Apply(s, e, limits);
    forall j | j in s'.jobs && j.repository == r
      ensures exists o :: o in s.jobs && Earlier(o, j) && (NoReactivation(s, e) && j.active > 0 ==> o.active > 0)
    {
      var o := EarlierJob(s, e, r, limits, j);
    }
  }

  /** The same job, with less done. */
  predicate Earlier(o: BatchJob, j: BatchJob) {
    o.key == j.key && o.repository == j.repository && (Live(j) ==> Live(o))
  }

  /** While a restore is active, each job after a step was there before it. */
  lemma EarlierJob(s: State, e: Step, r: string, limits: Limits, j: BatchJob) returns (o: BatchJob)
    requires Inv(s) && Enabled(s, e, limits) && RestoreActive(s, r)
    requires j in Apply(s, e, limits).jobs && j.repository == r
    ensures o in s.jobs && Earlier(o, j) && (NoReactivation(s, e) && j.active > 0 ==> o.active > 0)
  {
    if e.Pods? || e.End? {
      var jobs := Apply(s, e, limits).jobs;
      var k :| 0 <= k < |jobs| && jobs[k] == j;
      o := s.jobs[k];
    } else {
      if e.Create? {
        NoCreationBesideRestore(s, e, r, limits);
      }
      o := j;
    }
  }

  lemma NoCreationBesideRestore(s: State, e: Step, r: string, limits: Limits)
    requires Inv(s) && Enabled(s, e, limits) && RestoreActive(s, r) && e.Create?
    ensures e.repository != r
  {
    var restore :| restore in s.jobs && restore.repository == r && restore.typ == Restore && restore.active > 0;
    assert Plain(restore) && Live(restore) && restore.exclusive;
    assert Clear(s.jobs, e.repository, s.locks[e.repository]);
  }

  /** From a reachable state on, the set of active jobs never grows while a restore stays active. */
  lemma {:induction false} RestoreFreezesFrom(s: State, run: seq<Step>, r: string, limits: Limits)
    requires Inv(s) && Legal(s, run, limits) && RestoreActiveThroughout(s, run, r, limits)
    ensures LiveKeys(After(s, run, limits).jobs, r) <= LiveKeys(s.jobs, r)
    ensures Calm(s, run, limits) ==> ActiveKeys(After(s, run, limits).jobs, r) <= ActiveKeys(s.jobs, r)
    decreases run
  {
    if run != [] {
      RestoreStep(s, run[0], r, limits);
      StepKeeps(s, run[0], limits);
      RestoreFreezesFrom(Apply(s, run[0], limits), run[1..], r, limits);
    }
  }

  /**
    While a restore is active no job joins the unended jobs of its repository, and, as long as no
    job regains pods it had lost, no job joins the active ones.
   */
  lemma RestoreFreezes(run: seq<Step>, later: seq<Step>, r: string, limits: Limits)
    requires Legal(Init, run, limits)
    requires Legal(After(Init, run, limits), later, limits)
    requires RestoreActiveThroughout(After(Init, run, limits), later, r, limits)
    ensures var s := After(Init, run, limits);
            var s' := After(s, later, limits);
            && LiveKeys(s'.jobs, r) <= LiveKeys(s.jobs, r)
            && (Calm(s, later, limits) ==> ActiveKeys(s'.jobs, r) <= ActiveKeys(s.jobs, r))
  {
    RunKeeps(Init, run, limits);
    RestoreFreezesFrom(After(Init, run, limits), later, r, limits);
  }

  /**
    The assumption is exactly what is needed: when a Check or Prune passes the locker's test, the
    job it then creates respects the others if and only if the repository was settled.
   */
  lemma GuardAloneIsNotEnough(s: State, r: string, t: JobType, key: JobKey, limits: Limits)
    requires Inv(s) && RunsAlone(t) && MayStart(s.jobs, r, t, limits)
    ensures Apart(s.jobs + [NewJob(key, t, r)]) <==> Settled(s.jobs, r)
  {
    var jobs := s.jobs + [NewJob(key, t, r)];
    var n := |s.jobs|;
    if Settled(s.jobs, r) {
      forall i | 0 <= i < n
        ensures Compatible(jobs[i], jobs[n])
      {
        assert jobs[i] !in Running(s.jobs, r);
        assert jobs[i] in s.jobs;
      }
      assert Apart(s.jobs);
    } else {
      var j :| j in s.jobs && j.repository == r && Live(j) && j.active == 0;
      var i :| 0 <= i < n && s.jobs[i] == j;
      assert !Compatible(jobs[i], jobs[n]);
    }
  }

  // ---- Concurrency ----

  /** Unended jobs of one type in a repository. */
  function LiveCount(jobs: seq<BatchJob>, r: string, t: JobType): nat {
    if jobs == [] then 0
    else (if jobs[0].repository == r && jobs[0].typ == t && Live(jobs[0]) then 1 else 0) + LiveCount(jobs[1..], r, t)
  }

  lemma {:induction false} LiveCountSplit(a: seq<BatchJob>, b: seq<BatchJob>, r: string, t: JobType)
    ensures LiveCount(a + b, r, t) == LiveCount(a, r, t) + LiveCount(b, r, t)
  {
    if a == [] {
      assert a + b == b;
    } else {
      assert (a + b)[1..] == a[1..] + b;
      LiveCountSplit(a[1..], b, r, t);
    }
  }

  lemma LiveCountAt(jobs: seq<BatchJob>, i: nat, r: string, t: JobType)
    requires i < |jobs|
    ensures LiveCount(jobs, r, t) ==
            LiveCount(jobs[..i], r, t) + LiveCount([jobs[i]], r, t) + LiveCount(jobs[i + 1..], r, t)
  {
    assert jobs == jobs[..i] + [jobs[i]] + jobs[i + 1..];
    LiveCountSplit(jobs[..i] + [jobs[i]], jobs[i + 1..], r, t);
    LiveCountSplit(jobs[..i], [jobs[i]], r, t);
  }

  /** In a settled repository every unended job shows at least one active pod to the locker. */
  lemma {:induction false} SettledCount(jobs: seq<BatchJob>, r: string, t: JobType)
    requires Settled(jobs, r)
    ensures LiveCount(jobs, r, t) <= ActivePods(Running(jobs, r), t)
  {
    if jobs != [] {
      SettledCount(jobs[1..], r, t);
      var rest := Running(jobs[1..], r);
      assert Running(jobs, r) == [jobs[0]] + rest ==> Running(jobs, r)[1..] == rest;
    }
  }

  function ToCreate(s: State, r: string, t: JobType): nat {
    if r in s.locks && s.locks[r].typ == t then s.locks[r].left else 0
  }

  predicate Bounded(s: State, r: string, t: JobType, bound: int) {
    LiveCount(s.jobs, r, t) + ToCreate(s, r, t) <= bound
  }

  /** No lock hold in the run was taken to create more than `most` jobs of type t. */
  predicate AdmitsAtMost(run: seq<Step>, t: JobType, most: nat) {
    forall e :: e in run && e.Admit? && e.typ == t ==> e.count <= most
  }

  lemma BoundedStep(s: State, e: Step, limits: Limits, r: string, t: JobType, most: nat)
    requires Enabled(s, e, limits) && limits.Of(t) > 0 && !RunsAlone(t)
    requires Bounded(s, r, t, limits.Of(t) - 1 + most)
    requires e.Admit? && e.typ == t ==> e.count <= most
    ensures Bounded(Apply(s, e, limits), r, t, limits.Of(t) - 1 + most)
  {
    match e
    case Admit(r', t', n) =>
      if r' == r && t' == t {
        SettledCount(s.jobs, r, t);
      }
    case Create(r', key) => CreateCounts(s, r', key, r, t);
    case Release(_) =>
    case Pods(i, n) => LiveCountUpdate(s.jobs, i, s.jobs[i].(active := n), r, t);
    case End(i, c) => LiveCountUpdate(s.jobs, i, s.jobs[i].(active := 0, conditions := c), r, t);
    case Delete(i) =>
      LiveCountAt(s.jobs, i, r, t);
      LiveCountSplit(s.jobs[..i], s.jobs[i + 1..], r, t);
  }

  /** A creation moves one job from "to create" to "unended". */
  lemma CreateCounts(s: State, r': string, key: JobKey, r: string, t: JobType)
    requires r' in s.locks && s.locks[r'].left > 0
    ensures var s' := Created(s, r', key);
            LiveCount(s'.jobs, r, t) + ToCreate(s', r, t) == LiveCount(s.jobs, r, t) + ToCreate(s, r, t)
  {
    var j := NewJob(key, s.locks[r'].typ, r');
    LiveCountSplit(s.jobs, [j], r, t);
    assert FindJobCondition([], JobComplete).None? && FindJobCondition([], JobFailed).None?;
    assert LiveCount([j], r, t) == if r' == r && j.typ == t then 1 else 0;
  }

  /** A job that stays what it is, or ends, does not add to the count. */
  lemma LiveCountUpdate(jobs: seq<BatchJob>, i: nat, j: BatchJob, r: string, t: JobType)
    requires i < |jobs| && j.repository == jobs[i].repository && j.typ == jobs[i].typ && (Live(j) ==> Live(jobs[i]))
    ensures LiveCount(jobs[i := j], r, t) <= LiveCount(jobs, r, t)
  {
    var after := jobs[i := j];
    LiveCountAt(jobs, i, r, t);
    LiveCountAt(after, i, r, t);
    assert after[..i] == jobs[..i] && after[i + 1..] == jobs[i + 1..];
  }

  lemma {:induction false} BoundedRun(s: State, run: seq<Step>, limits: Limits, r: string, t: JobType, most: nat)
    requires Legal(s, run, limits) && limits.Of(t) > 0 && !RunsAlone(t)
    requires AdmitsAtMost(run, t, most) && Bounded(s, r, t, limits.Of(t) - 1 + most)
    ensures Bounded(After(s, run, limits), r, t, limits.Of(t) - 1 + most)
    decreases run
  {
    if run != [] {
      BoundedStep(s, run[0], limits, r, t, most);
      BoundedRun(Apply(s, run[0], limits), run[1..], limits, r, t, most);
    }
  }

  /** With at most one pod per job, active pods are no more than unended jobs. */
  lemma {:induction false} PodsWithinLive(jobs: seq<BatchJob>, r: string, t: JobType)
    requires forall j :: j in jobs ==> Plain(j) && j.active <= 1
    ensures ActivePods(Running(jobs, r), t) <= LiveCount(jobs, r, t)
  {
    if jobs != [] {
      PodsWithinLive(jobs[1..], r, t);
      assert Plain(jobs[0]) && jobs[0].active <= 1;
      var rest := Running(jobs[1..], r);
      assert Running(jobs, r) == [jobs[0]] + rest ==> Running(jobs, r)[1..] == rest;
    }
  }

  /**
    For a positive limit, the unended jobs of a type in a repository never exceed the limit minus
    one plus the jobs one lock hold creates; for Archive and Restore that is the limit itself. With
    one pod per job the same bound holds for active pods.
   */
  lemma ConcurrencyBound(run: seq<Step>, limits: Limits, r: string, t: JobType, most: nat)
    requires Legal(Init, run, limits) && t in {Archive, Backup, Restore}
    requires if t == Backup then AdmitsAtMost(run, t, most) else most == 1
    ensures var jobs := After(Init, run, limits).jobs;
            var limit := if t == Archive then limits.archive else if t == Backup then limits.backup else limits.restore;
            limit > 0 ==>
              && LiveCount(jobs, r, t) <= limit - 1 + most
              && ((forall j :: j in jobs ==> j.active <= 1) ==> ActivePods(Running(jobs, r), t) <= limit - 1 + most)
  {
    if t != Backup {
      SingleAdmissions(Init, run, limits, t);
    }
    if limits.Of(t) > 0 {
      BoundedRun(Init, run, limits, r, t, most);
    }
    RunKeeps(Init, run, limits);
    var jobs := After(Init, run, limits).jobs;
    if forall j :: j in jobs ==> j.active <= 1 {
      PodsWithinLive(jobs, r, t);
    }
  }

  lemma {:induction false} SingleAdmissions(s: State, run: seq<Step>, limits: Limits, t: JobType)
    requires Legal(s, run, limits) && t != Backup
    ensures AdmitsAtMost(run, t, 1)
    decreases run
  {
    if run != [] {
      SingleAdmissions(Apply(s, run[0], limits), run[1..], limits, t);
      assert run == [run[0]] + run[1..];
    }
  }

  // ---- The locker's methods as protocol runs ----

  function Creations(r: string, keys: seq<JobKey>): (steps: seq<Step>)
    ensures |steps| == |keys| && forall i :: 0 <= i < |keys| ==> steps[i] == Create(r, keys[i])
  {
    seq(|keys|, i requires 0 <= i < |keys| => Create(r, keys[i]))
  }

  /** Job keys that are pairwise distinct and not in use. */
  predicate NewKeys(jobs: seq<BatchJob>, keys: seq<JobKey>) {
    && (forall j :: j in jobs ==> j.key !in keys)
    && (forall i, k :: 0 <= i < k < |keys| ==> keys[i] != keys[k])
  }

  lemma NewKeysTail(jobs: seq<BatchJob>, keys: seq<JobKey>, j: BatchJob)
    requires keys != [] && NewKeys(jobs, keys) && j.key == keys[0]
    ensures NewKeys(jobs + [j], keys[1..])
  {
    assert forall k :: k in keys[1..] ==> k in keys;
    assert keys[0] !in keys[1..];
  }

  lemma {:induction false} CreationsRun(s: State, r: string, keys: seq<JobKey>, limits: Limits)
    requires r in s.locks && s.locks[r].left == |keys|
    requires NewKeys(s.jobs, keys)
    ensures Legal(s, Creations(r, keys), limits)
    ensures var s' := After(s, Creations(r, keys), limits);
            && s'.jobs == s.jobs + NewJobs(keys, s.locks[r].typ, r)
            && s'.locks == s.locks[r := Hold(s.locks[r].typ, 0)]
    decreases keys
  {
    var t, steps := s.locks[r].typ, Creations(r, keys);
    if keys == [] {
      assert s.locks[r] == Hold(t, 0);
    } else {
      var s1 := Created(s, r, keys[0]);
      assert Enabled(s, steps[0], limits) && Apply(s, steps[0], limits) == s1 by {
        assert keys[0] in keys;
      }
      NewKeysTail(s.jobs, keys, NewJob(keys[0], t, r));
      CreationsRun(s1, r, keys[1..], limits);
      assert steps[1..] == Creations(r, keys[1..]);
      CreationsJoin(s.jobs, r, t, keys);
    }
  }

  lemma CreationsJoin(jobs: seq<BatchJob>, r: string, t: JobType, keys: seq<JobKey>)
    requires keys != []
    ensures jobs + NewJobs(keys, t, r) == (jobs + [NewJob(keys[0], t, r)]) + NewJobs(keys[1..], t, r)
  {
    assert NewJobs(keys, t, r) == [NewJob(keys[0], t, r)] + NewJobs(keys[1..], t, r);
  }

  /**
    An uninterrupted call of TryRun or TryRunExclusively that runs its runnable is a run of this
    protocol, from a free lock to a free lock, with exactly the jobs the method leaves behind.
   */
  lemma HoldIsRun(s: State, r: string, t: JobType, keys: seq<JobKey>, limits: Limits)
    requires r !in s.locks && Settled(s.jobs, r) && MayStart(s.jobs, r, t, limits)
    requires t != Backup ==> |keys| <= 1
    requires NewKeys(s.jobs, keys)
    ensures var run := [Admit(r, t, |keys|)] + Creations(r, keys) + [Release(r)];
            && Legal(s, run, limits)
            && After(s, run, limits) == State(s.jobs + NewJobs(keys, t, r), s.locks)
  {
    var first, last := [Admit(r, t, |keys|)], [Release(r)];
    var s1 := Apply(s, first[0], limits);
    assert first[1..] == [] && Legal(s1, first[1..], limits) && Legal(s, first, limits);
    assert After(s, first, limits) == After(s1, first[1..], limits) == s1;
    CreationsRun(s1, r, keys, limits);
    RunConcat(s, first, Creations(r, keys), limits);
    var s2 := After(s1, Creations(r, keys), limits);
    assert last[1..] == [] && Legal(s2, last, limits);
    RunConcat(s, first + Creations(r, keys), last, limits);
    assert s2.locks - {r} == s.locks;
  }

  // ---- What the locker does not promise ----

  /** A lock hold that creates one job, which then gets a pod. */
  lemma HoldThenPod(s: State, r: string, t: JobType, key: JobKey, limits: Limits) returns (run: seq<Step>)
    requires r !in s.locks && Settled(s.jobs, r) && MayStart(s.jobs, r, t, limits) && NewKeys(s.jobs, [key])
    ensures Legal(s, run, limits)
    ensures After(s, run, limits) == State(s.jobs + [NewJob(key, t, r).(active := 1)], s.locks)
  {
    var hold := [Admit(r, t, 1)] + Creations(r, [key]) + [Release(r)];
    HoldIsRun(s, r, t, [key], limits);
    var held := After(s, hold, limits);
    assert NewJobs([key], t, r) == [NewJob(key, t, r)];
    var pod := [Pods(|s.jobs|, 1)];
    assert FindJobCondition([], JobComplete).None? && FindJobCondition([], JobFailed).None?;
    assert pod[1..] == [] && Legal(held, pod, limits);
    RunConcat(s, hold, pod, limits);
    run := hold + pod;
  }

  /** Whatever the limits, a Restore can start beside an active Backup, and is then an exclusive job that is not alone. */
  lemma RestoreIsNotAlone(r: string, first: JobKey, second: JobKey, limits: Limits) returns (run: seq<Step>)
    requires first != second
    ensures Legal(Init, run, limits)
    ensures var jobs := After(Init, run, limits).jobs;
            && |jobs| == 2 && jobs[0].typ == Backup && !jobs[0].exclusive && jobs[1].typ == Restore && jobs[1].exclusive
            && jobs[0].repository == r == jobs[1].repository && jobs[0].active > 0 && jobs[1].active > 0
  {
    var backup := HoldThenPod(Init, r, Backup, first, limits);
    var s := After(Init, backup, limits);
    assert s.jobs == [NewJob(first, Backup, r).(active := 1)];
    OneRunning(s.jobs, r);
    assert s.jobs[1..] == [] && ActivePods(s.jobs, Restore) == 0;
    var restore := HoldThenPod(s, r, Restore, second, limits);
    RunConcat(Init, backup, restore, limits);
    run := backup + restore;
  }

  lemma OneRunning(jobs: seq<BatchJob>, r: string)
    requires |jobs| == 1
    ensures Running(jobs, r) == if jobs[0].repository == r && jobs[0].active > 0 then jobs else []
  {
    assert jobs[1..] == [] && jobs == [jobs[0]] + [];
  }

  /** The limit is one per repository: with a limit of one, two archives are active at once in two repositories. */
  lemma LimitIsPerRepository(r: string, other: string, first: JobKey, second: JobKey, limits: Limits) returns (run: seq<Step>)
    requires first != second && r != other && limits.archive == 1
    ensures Legal(Init, run, limits)
    ensures ActivePods(After(Init, run, limits).jobs, Archive) == 2 > limits.archive
  {
    var one := HoldThenPod(Init, r, Archive, first, limits);
    var s := After(Init, one, limits);
    assert s.jobs == [NewJob(first, Archive, r).(active := 1)];
    OneRunning(s.jobs, other);
    var two := HoldThenPod(s, other, Archive, second, limits);
    RunConcat(Init, one, two, limits);
    run := one + two;
    var last := [NewJob(second, Archive, other).(active := 1)];
    ActivePodsSplit(s.jobs, last, Archive);
    assert s.jobs[1..] == [] && last[1..] == [];
  }
}
