/**
  The per-repository locker (operator/locker/locker.go): which jobs of a repository are running, and
  whether another one may start. A job carries the repository itself instead of its hash label.
 */
module Locker {
  import opened BatchJobs

  datatype JobKey = JobKey(namespace: string, name: string)

  datatype BatchJob = BatchJob(
    key: JobKey,
    typ: JobType,
    exclusive: bool,
    repository: string,
    active: nat,
    conditions: JobConditions)

  /** Concurrency limits of the kinds that are admitted by TryRun; 0 means unlimited. */
  datatype Limits = Limits(archive: int, backup: int, restore: int) {
    function Of(t: JobType): int {
      match t
      case Archive => archive
      case Backup => backup
      case Restore => restore
      case Check | Prune => 0
    }
  }

  /** The kinds whose jobs carry the label k8upjob/exclusive. */
  predicate CarriesExclusiveLabel(t: JobType) {
    t == Check || t == Prune || t == Restore
  }

  /** The kinds admitted by TryRunExclusively. */
  predicate RunsAlone(t: JobType) {
    t == Check || t == Prune
  }

  /** The listed jobs of a repository that have active pods, in list order. */
  function Running(jobs: seq<BatchJob>, repository: string): (r: seq<BatchJob>)
    ensures forall j :: j in r <==> j in jobs && j.repository == repository && j.active > 0
  {
    if jobs == [] then []
    else
      var j, rest := jobs[0], Running(jobs[1..], repository);
      assert jobs == [j] + jobs[1..];
      if j.repository == repository && j.active > 0 then [j] + rest else rest
  }

  lemma RunningNext(list: seq<BatchJob>, i: nat, repository: string)
    requires i < |list|
    ensures Running(list[i..], repository) ==
            (if list[i].repository == repository && list[i].active > 0 then [list[i]] else []) + Running(list[i + 1..], repository)
  {
    assert list[i..][1..] == list[i + 1..];
  }

  /** Active pods over all jobs of one type. */
  function ActivePods(jobs: seq<BatchJob>, typ: JobType): nat {
    if jobs == [] then 0
    else (if jobs[0].typ == typ then jobs[0].active else 0) + ActivePods(jobs[1..], typ)
  }

  lemma {:induction false} ActivePodsSplit(a: seq<BatchJob>, b: seq<BatchJob>, typ: JobType)
    ensures ActivePods(a + b, typ) == ActivePods(a, typ) + ActivePods(b, typ)
  {
    if a == [] {
      assert a + b == b;
    } else {
      assert (a + b)[1..] == a[1..] + b;
      ActivePodsSplit(a[1..], b, typ);
    }
  }

  /** It is a sum of pods, not a count of jobs. */
  lemma {:induction false} ActivePodsAt(jobs: seq<BatchJob>, i: nat, typ: JobType)
    requires i < |jobs|
    ensures ActivePods(jobs, typ) ==
            ActivePods(jobs[..i], typ) + (if jobs[i].typ == typ then jobs[i].active else 0) + ActivePods(jobs[i + 1..], typ)
  {
    assert jobs == jobs[..i] + ([jobs[i]] + jobs[i + 1..]);
    ActivePodsSplit(jobs[..i], [jobs[i]] + jobs[i + 1..], typ);
    assert ([jobs[i]] + jobs[i + 1..])[1..] == jobs[i + 1..];
  }

  predicate ExclusiveRunning(jobs: seq<BatchJob>) {
    exists j :: j in jobs && j.active > 0 && j.exclusive
  }

  predicate LimitReached(jobs: seq<BatchJob>, typ: JobType, limit: int) {
    if limit > 0 then ActivePods(jobs, typ) >= limit
    else limit < 0 && exists j :: j in jobs && j.typ == typ
  }

  /** Whether the locker lets a job of the given type start. */
  predicate MayStart(jobs: seq<BatchJob>, repository: string, typ: JobType, limits: Limits) {
    var running := Running(jobs, repository);
    if RunsAlone(typ) then running == []
    else !ExclusiveRunning(running) && !LimitReached(running, typ, limits.Of(typ))
  }

  /**
    In fields: a Check or a Prune may start if and only if no job of the repository has an active
    pod; any other kind if and only if no job of the repository with an active pod carries the
    exclusive label and, for a positive limit, the active pods of its kind are below the kind's own
    limit. A limit of zero never stops a job.
   */
  lemma AdmissionMeans(jobs: seq<BatchJob>, repository: string, typ: JobType, limits: Limits)
    ensures typ == Check || typ == Prune ==>
              (MayStart(jobs, repository, typ, limits) <==> forall j :: j in jobs && j.repository == repository ==> j.active == 0)
    ensures typ != Check && typ != Prune ==>
              var limit := if typ == Archive then limits.archive else if typ == Backup then limits.backup else limits.restore;
              limit >= 0 ==>
                (MayStart(jobs, repository, typ, limits) <==>
                 && (forall j :: j in jobs && j.repository == repository && j.active > 0 ==> !j.exclusive)
                 && (limit == 0 || ActivePods(Running(jobs, repository), typ) < limit))
  {
    var running := Running(jobs, repository);
    if running != [] {
      assert running[0] in running;
    }
  }

  method FetchRunningJobs(list: seq<BatchJob>, repository: string) returns (filtered: seq<BatchJob>)
    ensures filtered == Running(list, repository)
  {
    filtered := [];
    for i := 0 to |list|
      invariant filtered + Running(list[i..], repository) == Running(list, repository)
    {
      RunningNext(list, i, repository);
      if list[i].repository == repository && list[i].active > 0 {
        filtered := filtered + [list[i]];
      }
    }
  }

  method IsExclusiveJobRunning(jobs: seq<BatchJob>) returns (b: bool)
    ensures b <==> ExclusiveRunning(jobs)
  {
    for i := 0 to |jobs|
      invariant forall k :: 0 <= k < i ==> !(jobs[k].active > 0 && jobs[k].exclusive)
    {
      if jobs[i].active > 0 && jobs[i].exclusive {
        return true;
      }
    }
    return false;
  }

  /** The early exit does not change the answer: it is the full sum that is compared. */
  method IsConcurrencyLimitReached(jobs: seq<BatchJob>, typ: JobType, limit: int) returns (b: bool)
    ensures b <==> LimitReached(jobs, typ, limit)
  {
    if limit == 0 {
      return false;
    }
    var count := 0;
    for i := 0 to |jobs|
      invariant count == ActivePods(jobs[..i], typ)
      invariant limit > 0 ==> count < limit
      invariant limit < 0 ==> forall k :: 0 <= k < i ==> jobs[k].typ != typ
    {
      assert jobs[..i + 1] == jobs[..i] + [jobs[i]];
      ActivePodsSplit(jobs[..i], [jobs[i]], typ);
      if jobs[i].typ != typ {
        continue;
      }
      count := count + jobs[i].active;
      if count >= limit {
        assert jobs == jobs[..i + 1] + jobs[i + 1..];
        ActivePodsSplit(jobs[..i + 1], jobs[i + 1..], typ);
        return true;
      }
    }
    assert jobs[..|jobs|] == jobs;
    return false;
  }

  function NewJob(key: JobKey, typ: JobType, repository: string): BatchJob {
    BatchJob(key, typ, CarriesExclusiveLabel(typ), repository, 0, [])
  }

  /** In fields: a new job has no pod and no verdict, and the exclusive label if and only if it is a Check, a Prune or a Restore. */
  lemma NewJobMeans(key: JobKey, typ: JobType, repository: string)
    ensures var j := NewJob(key, typ, repository);
            && j.key == key && j.typ == typ && j.repository == repository && j.active == 0
            && !JobSucceeded(j.conditions) && !JobHasFailed(j.conditions)
            && (j.exclusive <==> typ == Check || typ == Prune || typ == Restore)
  {
  }

  function NewJobs(keys: seq<JobKey>, typ: JobType, repository: string): (r: seq<BatchJob>)
    ensures |r| == |keys| && forall i :: 0 <= i < |r| ==> r[i] == NewJob(keys[i], typ, repository)
  {
    seq(|keys|, i requires 0 <= i < |keys| => NewJob(keys[i], typ, repository))
  }

  /** The batch jobs of the cluster, as one lock holder sees and changes them. */
  class JobCluster {
    var jobs: seq<BatchJob>

    constructor (jobs: seq<BatchJob>)
      ensures this.jobs == jobs
    {
      this.jobs := jobs;
    }

    /** The runnable: creates the given jobs in turn and stops at the first failing call. */
    method CreateJobs(keys: seq<JobKey>, typ: JobType, repository: string, creatable: nat) returns (ok: bool)
      modifies this
      ensures ok <==> creatable >= |keys|
      ensures jobs == old(jobs) + NewJobs(if ok then keys else keys[..creatable], typ, repository)
    {
      for i := 0 to |keys|
        invariant i <= creatable
        invariant jobs == old(jobs) + NewJobs(keys[..i], typ, repository)
      {
        if i == creatable {
          return false;
        }
        jobs := jobs + [NewJob(keys[i], typ, repository)];
        assert NewJobs(keys[..i + 1], typ, repository) ==
               NewJobs(keys[..i], typ, repository) + [NewJob(keys[i], typ, repository)];
      }
      assert keys[..|keys|] == keys;
      return true;
    }

    /**
      TryRun for the shared kinds. `listOk` is the answer of the job listing; `creatable` is how many
      of the runnable's creations succeed.
     */
    method TryRun(repository: string, typ: JobType, limits: Limits, listOk: bool,
                  keys: seq<JobKey>, creatable: nat) returns (ran: bool, ok: bool)
      requires !RunsAlone(typ)
      modifies this
      ensures ran <==> listOk && MayStart(old(jobs), repository, typ, limits)
      ensures ok <==> listOk && (ran ==> creatable >= |keys|)
      ensures jobs == if !ran then old(jobs)
                      else old(jobs) + NewJobs(if ok then keys else keys[..creatable], typ, repository)
    {
      if !listOk {
        return false, false;
      }
      var running := FetchRunningJobs(jobs, repository);
      var reached := IsConcurrencyLimitReached(running, typ, limits.Of(typ));
      var exclusive := IsExclusiveJobRunning(running);
      if !exclusive && !reached {
        ok := CreateJobs(keys, typ, repository, creatable);
        return true, ok;
      }
      return false, true;
    }

    /** TryRunExclusively, for Check and Prune. */
    method TryRunExclusively(repository: string, typ: JobType, ghost limits: Limits, listOk: bool,
                             key: JobKey, creatable: nat) returns (ran: bool, ok: bool)
      requires RunsAlone(typ)
      modifies this
      ensures ran <==> listOk && MayStart(old(jobs), repository, typ, limits)
      ensures ok <==> listOk && (ran ==> creatable >= 1)
      ensures jobs == if !ran then old(jobs)
                      else old(jobs) + NewJobs(if ok then [key] else [], typ, repository)
    {
      if !listOk {
        return false, false;
      }
      var running := FetchRunningJobs(jobs, repository);
      if |running| == 0 {
        ok := CreateJobs([key], typ, repository, creatable);
        return true, ok;
      }
      return false, true;
    }
  }
}
