/**
  Batch jobs and what they say about the object that owns them (operator/job/job.go), and the job
  counters (operator/monitoring/prometheus.go).
 */
module BatchJobs {
  import opened Wrappers
  import opened JobStatus

  datatype JobType = Backup | Check | Archive | Restore | Prune

  /** The text of a job type, as used in labels, job names and schedule keys. */
  function TypeName(t: JobType): string {
    match t
    case Backup => "backup"
    case Check => "check"
    case Archive => "archive"
    case Restore => "restore"
    case Prune => "prune"
  }

  datatype JobConditionType = JobComplete | JobFailed | OtherJobCondition(text: string)

  datatype JobCondition = JobCondition(typ: JobConditionType, status: ConditionStatus)

  type JobConditions = seq<JobCondition>

  function FindJobCondition(conditions: JobConditions, typ: JobConditionType): (c: Option<JobCondition>)
    ensures c.Some? ==> c.value.typ == typ && c.value in conditions
    ensures c.None? ==> forall d :: d in conditions ==> d.typ != typ
  {
    if conditions == [] then None
    else if conditions[0].typ == typ then Some(conditions[0])
    else FindJobCondition(conditions[1..], typ)
  }

  predicate JobSucceeded(conditions: JobConditions) {
    var c := FindJobCondition(conditions, JobComplete);
    c.Some? && c.value.status == True
  }

  predicate JobHasFailed(conditions: JobConditions) {
    var c := FindJobCondition(conditions, JobFailed);
    c.Some? && c.value.status == True
  }

  predicate JobStarted(conditions: JobConditions) {
    FindJobCondition(conditions, JobComplete).None? && FindJobCondition(conditions, JobFailed).None?
  }

  /** Kubernetes sets at most one of Complete and Failed, and sets it to True. */
  predicate WellFormed(conditions: JobConditions) {
    && (forall c :: c in conditions && (c.typ == JobComplete || c.typ == JobFailed) ==> c.status == True)
    && (FindJobCondition(conditions, JobComplete).None? || FindJobCondition(conditions, JobFailed).None?)
  }

  predicate JobEnded(conditions: JobConditions) {
    JobSucceeded(conditions) || JobHasFailed(conditions)
  }

  /** A finished job keeps its verdict; an unfinished one may go anywhere. */
  predicate KeepsVerdict(before: JobConditions, after: JobConditions) {
    && (JobSucceeded(before) ==> JobSucceeded(after))
    && (JobHasFailed(before) ==> JobHasFailed(after))
  }

  /** The counters k8up_jobs_successful_counter, k8up_jobs_failed_counter and k8up_jobs_total. */
  datatype Metrics = Metrics(successful: nat, failed: nat, total: nat) {
    function IncSuccess(): Metrics {
      Metrics(successful + 1, failed, total + 1)
    }

    function IncFailure(): Metrics {
      Metrics(successful, failed + 1, total + 1)
    }

    predicate Balanced() {
      total == successful + failed
    }
  }

  /** A status together with the counters its verdicts feed. */
  datatype Tally = Tally(status: Status, metrics: Metrics) {

    /** job.SetSucceeded: the counter moves only when the success is news to the status. */
    function RecordSuccess(): (r: Tally)
      ensures r.status == status.Succeeded().Finished()
    {
      Tally(status.Succeeded().Finished(), if status.HasSucceeded() then metrics else metrics.IncSuccess())
    }

    function RecordFailure(): (r: Tally)
      ensures r.status == status.Failed().Finished()
    {
      Tally(status.Failed().Finished(), if status.HasFailed() then metrics else metrics.IncFailure())
    }

    /** job.UpdateStatus. The three tests are independent: a malformed job can pass several. */
    function Observe(conditions: JobConditions): Tally {
      var t1 := if JobSucceeded(conditions) then RecordSuccess() else this;
      var t2 := if JobHasFailed(conditions) then t1.RecordFailure() else t1;
      if JobStarted(conditions) then t2.(status := t2.status.Started()) else t2
    }
  }

  /**
    What observing a well-formed job does: exactly one verdict is written, it is the job's own, and
    that verdict's counter, with the total, moves exactly when the status did not have it yet.
   */
  lemma ObserveWellFormed(t: Tally, conditions: JobConditions)
    requires WellFormed(conditions)
    ensures JobSucceeded(conditions) || JobHasFailed(conditions) || JobStarted(conditions)
    ensures !(JobSucceeded(conditions) && JobHasFailed(conditions))
    ensures var s := t.Observe(conditions).status;
            && (s.HasStarted() <==> JobStarted(conditions))
            && (JobSucceeded(conditions) ==> (s.HasSucceeded() <==> !t.status.HasFailedPreBackup()))
            && (JobHasFailed(conditions) ==> s.HasFailed())
            && (JobStarted(conditions) ==> (s.HasFinished() <==> t.status.HasFinished()))
            && (s.HasFailedPreBackup() <==> t.status.HasFailedPreBackup())
    ensures t.Observe(conditions).metrics.total == t.metrics.total +
              (if JobSucceeded(conditions) && !t.status.HasSucceeded() then 1
               else if JobHasFailed(conditions) && !t.status.HasFailed() then 1 else 0)
    ensures t.Observe(conditions).metrics.successful == t.metrics.successful +
              (if JobSucceeded(conditions) && !t.status.HasSucceeded() then 1 else 0)
    ensures t.Observe(conditions).metrics.failed == t.metrics.failed +
              (if JobHasFailed(conditions) && !t.status.HasFailed() then 1 else 0)
    ensures t.metrics.Balanced() ==> t.Observe(conditions).metrics.Balanced()
  {
    var complete := FindJobCondition(conditions, JobComplete);
    var failed := FindJobCondition(conditions, JobFailed);
    if complete.Some? {
      assert complete.value.status == True;
      assert t.status.Succeeded().Get(PreBackupPodReady) == t.status.Get(PreBackupPodReady);
    } else if failed.Some? {
      assert failed.value.status == True;
      assert t.status.Failed().Get(PreBackupPodReady) == t.status.Get(PreBackupPodReady);
    } else {
      assert t.status.Started().Get(PreBackupPodReady) == t.status.Get(PreBackupPodReady);
    }
  }

  /** The object status and the process-wide counters, changed in place by a reconcile. */
  class StatusRecorder {
    const cell: StatusCell
    var metrics: Metrics

    constructor (cell: StatusCell, metrics: Metrics)
      ensures this.cell == cell && this.metrics == metrics
    {
      this.cell := cell;
      this.metrics := metrics;
    }

    ghost function Value(): Tally
      reads this, cell
    {
      Tally(cell.value, metrics)
    }

    method SetSucceeded()
      modifies this, cell
      ensures Value() == old(Value()).RecordSuccess()
    {
      if !cell.value.HasSucceeded() {
        metrics := metrics.IncSuccess();
      }
      cell.SetSucceeded();
      cell.SetFinished();
    }

    method SetFailed()
      modifies this, cell
      ensures Value() == old(Value()).RecordFailure()
    {
      if !cell.value.HasFailed() {
        metrics := metrics.IncFailure();
      }
      cell.SetFailed();
      cell.SetFinished();
    }

    method UpdateStatus(conditions: JobConditions)
      modifies this, cell
      ensures Value() == old(Value()).Observe(conditions)
    {
      if JobSucceeded(conditions) {
        SetSucceeded();
      }
      if JobHasFailed(conditions) {
        SetFailed();
      }
      if JobStarted(conditions) {
        cell.SetStarted();
      }
    }
  }
}
