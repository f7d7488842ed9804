/**
  The verdict of a backup over all of its batch jobs (`ReconcileJobStatus` in
  operator/backupcontroller/controller.go).
 */
module BackupVerdict {
  import opened JobStatus
  import opened BatchJobs

  datatype Verdict = NoJobs | AllSucceeded | SomeFailed | SomeStarted | NoneOfThese

  function One(b: bool): nat {
    if b then 1 else 0
  }

  function NumSucceeded(jobs: seq<JobConditions>): nat {
    if jobs == [] then 0 else NumSucceeded(jobs[..|jobs| - 1]) + One(JobSucceeded(jobs[|jobs| - 1]))
  }

  function NumFailed(jobs: seq<JobConditions>): nat {
    if jobs == [] then 0 else NumFailed(jobs[..|jobs| - 1]) + One(JobHasFailed(jobs[|jobs| - 1]))
  }

  function NumStarted(jobs: seq<JobConditions>): nat {
    if jobs == [] then 0 else NumStarted(jobs[..|jobs| - 1]) + One(JobStarted(jobs[|jobs| - 1]))
  }

  /** The branch the reconcile takes. */
  function VerdictOf(jobs: seq<JobConditions>): Verdict {
    if jobs == [] then NoJobs
    else if |jobs| == NumSucceeded(jobs) then AllSucceeded
    else if NumFailed(jobs) > 0 then SomeFailed
    else if NumStarted(jobs) > 0 then SomeStarted
    else NoneOfThese
  }

  /** The status and the counters after the branch was taken. */
  function Record(t: Tally, v: Verdict): Tally {
    match v
    case AllSucceeded => t.RecordSuccess()
    case SomeFailed => t.RecordFailure()
    case SomeStarted => t.(status := t.status.Started())
    case NoJobs | NoneOfThese => t
  }

  /** The counting loop and the branches, on the recorder of one reconcile. */
  method ReconcileVerdict(recorder: StatusRecorder, jobs: seq<JobConditions>)
    modifies recorder, recorder.cell
    ensures recorder.Value() == Record(old(recorder.Value()), VerdictOf(jobs))
  {
    var numJobs := |jobs|;
    if numJobs == 0 {
      return;
    }
    var numSucceeded, numFailed, numStarted := 0, 0, 0;
    for i := 0 to |jobs|
      invariant recorder.Value() == old(recorder.Value())
      invariant numSucceeded == NumSucceeded(jobs[..i])
      invariant numFailed == NumFailed(jobs[..i])
      invariant numStarted == NumStarted(jobs[..i])
    {
      assert jobs[..i + 1][..i] == jobs[..i];
      if JobSucceeded(jobs[i]) {
        numSucceeded := numSucceeded + 1;
      }
      if JobHasFailed(jobs[i]) {
        numFailed := numFailed + 1;
      }
      if JobStarted(jobs[i]) {
        numStarted := numStarted + 1;
      }
    }
    assert jobs[..|jobs|] == jobs;
    if numJobs == numSucceeded {
      recorder.SetSucceeded();
    } else if numFailed > 0 {
      recorder.SetFailed();
    } else if numStarted > 0 {
      recorder.cell.SetStarted();
    }
  }

  predicate AllWellFormed(jobs: seq<JobConditions>) {
    forall c :: c in jobs ==> WellFormed(c)
  }

  lemma {:induction false} CountsMean(jobs: seq<JobConditions>)
    requires AllWellFormed(jobs)
    ensures NumSucceeded(jobs) + NumFailed(jobs) + NumStarted(jobs) == |jobs|
    ensures NumSucceeded(jobs) == |jobs| <==> forall c :: c in jobs ==> JobSucceeded(c)
    ensures NumFailed(jobs) > 0 <==> exists c :: c in jobs && JobHasFailed(c)
    ensures NumStarted(jobs) > 0 <==> exists c :: c in jobs && JobStarted(c)
  {
    if jobs != [] {
      var rest, last := jobs[..|jobs| - 1], jobs[|jobs| - 1];
      assert forall c :: c in jobs <==> c in rest || c == last;
      CountsMean(rest);
      OnlyOne(last);
    }
  }

  lemma OnlyOne(c: JobConditions)
    requires WellFormed(c)
    ensures One(JobSucceeded(c)) + One(JobHasFailed(c)) + One(JobStarted(c)) == 1
  {
    var complete, failed := FindJobCondition(c, JobComplete), FindJobCondition(c, JobFailed);
    if complete.Some? {
      assert complete.value.status == True;
    }
    if failed.Some? {
      assert failed.value.status == True;
    }
  }

  /**
    For a non-empty list of well-formed jobs the three counts add up, exactly one branch fires, the
    backup failed exactly when some job failed, and succeeded exactly when all did.
   */
  lemma VerdictMeans(jobs: seq<JobConditions>)
    requires AllWellFormed(jobs) && jobs != []
    ensures NumSucceeded(jobs) + NumFailed(jobs) + NumStarted(jobs) == |jobs|
    ensures VerdictOf(jobs) in {AllSucceeded, SomeFailed, SomeStarted}
    ensures VerdictOf(jobs) == SomeFailed <==> exists c :: c in jobs && JobHasFailed(c)
    ensures VerdictOf(jobs) == AllSucceeded <==> forall c :: c in jobs ==> JobSucceeded(c)
  {
    CountsMean(jobs);
    if c :| c in jobs && JobHasFailed(c) {
      OnlyOne(c);
    }
  }

  /** The same jobs later: each has kept a verdict it had. */
  predicate JobsKeep(before: seq<JobConditions>, after: seq<JobConditions>) {
    |before| == |after| && forall i :: 0 <= i < |before| ==> KeepsVerdict(before[i], after[i])
  }

  /** A final verdict survives as long as all jobs are there and keep their conditions. */
  lemma VerdictSurvives(before: seq<JobConditions>, after: seq<JobConditions>)
    requires AllWellFormed(before) && AllWellFormed(after) && JobsKeep(before, after)
    requires VerdictOf(before) in {AllSucceeded, SomeFailed}
    ensures VerdictOf(after) == VerdictOf(before)
  {
    VerdictMeans(before);
    VerdictMeans(after);
    if VerdictOf(before) == SomeFailed {
      var c :| c in before && JobHasFailed(c);
      var i :| 0 <= i < |before| && before[i] == c;
      assert after[i] in after;
    } else {
      forall c | c in after
        ensures JobSucceeded(c)
      {
        var i :| 0 <= i < |after| && after[i] == c;
        assert before[i] in before;
      }
    }
  }
}
