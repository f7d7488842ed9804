/**
  How often a Backup is counted (operator/backupcontroller/controller.go, operator/job/job.go and
  operator/monitoring/prometheus.go).
 */
module BackupCounts {
  import opened JobStatus
  import opened BatchJobs
  import opened BackupVerdict
  import opened PreBackup
  import opened BackupRun
  import opened BackupLife

  /** Whether the verdict of the backup's jobs has been persisted. "Nothing to backup" is none of theirs. */
  function Recorded(w: World): nat {
    if OnRecord(w).Some? && (w.jobs != [] || w.gone != []) then 1 else 0
  }

  /** A reconcile that counts the first verdict of the jobs and then fails to write it. */
  predicate Unwritten(w: World, s: Step) {
    s.Reconcile? && s.answers.listOk && !s.answers.statusWriteOk && FinishedByJobs(w) && Recorded(w) == 0
  }

  /**
    A reconcile that counts a success again: one is on record but does not read as one because of the
    pre-backup, or a failure is on record whose failed jobs have disappeared.
   */
  predicate Recount(w: World, s: Step) {
    && s.Reconcile? && s.answers.listOk && Recorded(w) == 1 && w.jobs != [] && AllPresentSucceeded(w)
    && (w.scene.status.HasFailedPreBackup() || OnRecord(w) == CompletedFailed)
  }

  function Excess(w: World, s: Step): nat {
    if Unwritten(w, s) || Recount(w, s) then 1 else 0
  }

  /** What the look at the jobs counts. */
  lemma LookCounts(w: World)
    requires Inv(w) && w.jobs != []
    ensures var t, v, s := ObservedTally(w), VerdictOf(Conditions(w.jobs)), w.scene.status;
            && t.metrics.total == w.metrics.total +
                 (if (v == AllSucceeded && !s.HasSucceeded()) || (v == SomeFailed && !s.HasFailed()) then 1 else 0)
            && t.metrics.successful == w.metrics.successful + One(v == AllSucceeded && !s.HasSucceeded())
            && t.metrics.failed == w.metrics.failed + One(v == SomeFailed && !s.HasFailed())
            && (w.metrics.Balanced() ==> t.metrics.Balanced())
  {
    VerdictMeans(Conditions(w.jobs));
  }

  /** When the status does not have the verdict yet. */
  lemma NewsOfVerdict(w: World)
    requires Inv(w) && w.jobs != []
    ensures var v, s := VerdictOf(Conditions(w.jobs)), w.scene.status;
            && (v == AllSucceeded ==> (!s.HasSucceeded() <==> OnRecord(w).None? || s.HasFailedPreBackup() || OnRecord(w) == CompletedFailed))
            && (v == SomeFailed ==> (!s.HasFailed() <==> OnRecord(w).None?))
  {
    ObservedMeans(w);
  }

  lemma DecideCounts(w: World, a: Answers)
    requires Inv(w) && Planned(a)
    requires w.jobs != [] ==> w.scene.status.HasStarted() || OnRecord(w).Some?
    ensures var w' := Decide(w, a).0;
            w'.metrics == w.metrics && w'.failedWrites == w.failedWrites && Recorded(w') == Recorded(w)
  {
    var s := w.scene.status;
    if s.HasStarted() {
    } else if s.HasFinished() || PrebackupFailed(s) {
      ClosingMeans(w, a);
      DecideCloses(w, a);
    } else if a.admitted {
      ExecuteCounts(w, a);
    }
  }

  /** A start creates jobs or a verdict, never both. */
  lemma ExecuteCounts(w: World, a: Answers)
    requires Planned(a) && w.jobs == [] && OnRecord(w).None?
    ensures var w' := ExecuteStep(w, a);
            w'.metrics == w.metrics && w'.failedWrites == w.failedWrites && Recorded(w') == 0
  {
    StartMeans(w.scene, a.templates, a.calls);
    var w' := ExecuteStep(w, a);
    if w'.jobs != [] {
      assert OnRecord(w') == Start(w.scene, a.templates, a.calls).scene.status.Get(Completed);
    }
  }

  /** The exact account of one step. */
  lemma StepCounts(w: World, s: Step)
    requires Inv(w) && Enabled(w, s)
    ensures var w' := Apply(w, s);
            && w'.metrics.total + Recorded(w) == w.metrics.total + Recorded(w') + Excess(w, s)
            && (w.metrics.Balanced() ==> w'.metrics.Balanced())
            && w'.failedWrites >= w.failedWrites + (if Unwritten(w, s) then 1 else 0)
  {
    match s
    case Reconcile(a) => ReconcileCounts(w, a);
    case JobsProgress(_) =>
    case JobDisappears(_) =>
    case DeploymentsChange(_) =>
  }

  lemma ReconcileCounts(w: World, a: Answers)
    requires Inv(w) && Planned(a)
    ensures var w' := ProvisionStep(w, a).0;
            && w'.metrics.total + Recorded(w) == w.metrics.total + Recorded(w') + Excess(w, Reconcile(a))
            && (w.metrics.Balanced() ==> w'.metrics.Balanced())
            && w'.failedWrites == w.failedWrites + (if a.listOk && w.jobs != [] && !a.statusWriteOk then 1 else 0)
  {
    if a.listOk && w.jobs == [] {
      DecideCounts(w, a);
    } else if a.listOk {
      LookCounts(w);
      NewsOfVerdict(w);
      ObservedMeans(w);
      if a.statusWriteOk {
        ObservedKeeps(w);
        DecideCounts(Observed(w), a);
      }
    }
  }

  function UnwrittenVerdicts(w: World, run: seq<Step>): nat
    requires Legal(w, run)
    decreases run
  {
    if run == [] then 0 else (if Unwritten(w, run[0]) then 1 else 0) + UnwrittenVerdicts(Apply(w, run[0]), run[1..])
  }

  function Recounts(w: World, run: seq<Step>): nat
    requires Legal(w, run)
    decreases run
  {
    if run == [] then 0 else (if Recount(w, run[0]) then 1 else 0) + Recounts(Apply(w, run[0]), run[1..])
  }

  lemma {:induction false} RunCounts(w: World, run: seq<Step>)
    requires Inv(w) && Legal(w, run) && w.metrics.Balanced()
    ensures var end := After(w, run);
            && end.metrics.Balanced()
            && end.metrics.total + Recorded(w) == w.metrics.total + Recorded(end) + UnwrittenVerdicts(w, run) + Recounts(w, run)
            && w.failedWrites + UnwrittenVerdicts(w, run) <= end.failedWrites
    decreases run
  {
    if run != [] {
      StepCounts(w, run[0]);
      StepKeeps(w, run[0]);
      RunCounts(Apply(w, run[0]), run[1..]);
    }
  }

  /**
    Over every run of a new Backup the total counter equals successes plus failures, and the backup
    adds exactly: one once its jobs' verdict is persisted, one for each reconcile that counted the
    verdict and failed to write it, and one for each recount.
   */
  lemma BackupCountedExactly(w: World, run: seq<Step>)
    requires Initial(w) && Legal(w, run)
    ensures var end := After(w, run);
            && end.metrics.total == end.metrics.successful + end.metrics.failed
            && end.metrics.total == w.metrics.total + Recorded(end) + UnwrittenVerdicts(w, run) + Recounts(w, run)
            && UnwrittenVerdicts(w, run) <= end.failedWrites
  {
    RunCounts(w, run);
  }

  // ---- The two counters apart ----

  /** A reconcile lists jobs that have all succeeded, and the status does not read as succeeded. */
  predicate CountsSuccess(w: World, s: Step) {
    s.Reconcile? && s.answers.listOk && w.jobs != [] && AllPresentSucceeded(w) && !w.scene.status.HasSucceeded()
  }

  /** A reconcile lists a failed job, and no verdict is on record. */
  predicate CountsFailure(w: World, s: Step) {
    s.Reconcile? && s.answers.listOk && w.jobs != [] && FailureStands(w) && OnRecord(w).None?
  }

  /** The exact account of one step, counter by counter. */
  lemma StepCountsEach(w: World, s: Step)
    requires Inv(w) && Enabled(w, s)
    ensures Apply(w, s).metrics.successful == w.metrics.successful + One(CountsSuccess(w, s))
    ensures Apply(w, s).metrics.failed == w.metrics.failed + One(CountsFailure(w, s))
  {
    match s
    case Reconcile(a) => ReconcileCountsEach(w, a);
    case JobsProgress(_) =>
    case JobDisappears(_) =>
    case DeploymentsChange(_) =>
  }

  lemma ReconcileCountsEach(w: World, a: Answers)
    requires Inv(w) && Planned(a)
    ensures ProvisionStep(w, a).0.metrics.successful == w.metrics.successful + One(CountsSuccess(w, Reconcile(a)))
    ensures ProvisionStep(w, a).0.metrics.failed == w.metrics.failed + One(CountsFailure(w, Reconcile(a)))
  {
    if a.listOk && w.jobs == [] {
      DecideCounts(w, a);
    } else if a.listOk {
      LookCounts(w);
      NewsOfVerdict(w);
      ObservedMeans(w);
      FailedExactly(w);
      if a.statusWriteOk {
        ObservedKeeps(w);
        DecideCounts(Observed(w), a);
      }
    }
  }

  lemma FailedExactly(w: World)
    requires AllWellFormed(Conditions(w.jobs)) && w.jobs != []
    ensures VerdictOf(Conditions(w.jobs)) == SomeFailed <==> FailureStands(w)
  {
    VerdictMeans(Conditions(w.jobs));
    if FailureStands(w) {
      FailedJobFails(w);
    }
    if c :| c in Conditions(w.jobs) && JobHasFailed(c) {
      var k :| 0 <= k < |w.jobs| && w.jobs[k].conditions == c;
      assert w.jobs[k] in w.jobs;
    }
  }

  function Successes(w: World, run: seq<Step>): nat
    requires Legal(w, run)
    decreases run
  {
    if run == [] then 0 else One(CountsSuccess(w, run[0])) + Successes(Apply(w, run[0]), run[1..])
  }

  function Failures(w: World, run: seq<Step>): nat
    requires Legal(w, run)
    decreases run
  {
    if run == [] then 0 else One(CountsFailure(w, run[0])) + Failures(Apply(w, run[0]), run[1..])
  }

  /** Over every run each counter moves exactly with the reconciles that find its verdict to be news. */
  lemma {:induction false} BackupCountedEach(w: World, run: seq<Step>)
    requires Inv(w) && Legal(w, run)
    ensures After(w, run).metrics.successful == w.metrics.successful + Successes(w, run)
    ensures After(w, run).metrics.failed == w.metrics.failed + Failures(w, run)
    decreases run
  {
    if run != [] {
      StepCountsEach(w, run[0]);
      StepKeeps(w, run[0]);
      BackupCountedEach(Apply(w, run[0]), run[1..]);
    }
  }

  /** No verdict is ever disputed: no pre-backup failure while one is on record, and a failure keeps a failed job. */
  predicate Undisputed(w: World, run: seq<Step>)
    requires Legal(w, run)
    decreases run
  {
    && (Recorded(w) == 1 && AllPresentSucceeded(w) ==> !w.scene.status.HasFailedPreBackup())
    && (OnRecord(w) == CompletedFailed ==> FailureStands(w))
    && (run == [] || Undisputed(Apply(w, run[0]), run[1..]))
  }

  lemma UndisputedStep(w: World, s: Step)
    requires Inv(w)
    requires Recorded(w) == 1 && AllPresentSucceeded(w) ==> !w.scene.status.HasFailedPreBackup()
    requires OnRecord(w) == CompletedFailed ==> FailureStands(w)
    ensures !Recount(w, s)
  {
    if w.jobs != [] && FailureStands(w) {
      FailedJobFails(w);
      ObservedMeans(w);
    }
  }

  lemma {:induction false} UndisputedIsNotRecounted(w: World, run: seq<Step>)
    requires Inv(w) && Legal(w, run) && Undisputed(w, run)
    ensures Recounts(w, run) == 0
    decreases run
  {
    if run != [] {
      UndisputedStep(w, run[0]);
      StepKeeps(w, run[0]);
      UndisputedIsNotRecounted(Apply(w, run[0]), run[1..]);
    }
  }

  /** What the counters owe to the verdict on record. */
  predicate OwnVerdictOnly(w: World, base: Metrics) {
    && w.metrics.successful == base.successful + One(Recorded(w) == 1 && OnRecord(w) == CompletedSucceeded)
    && w.metrics.failed == base.failed + One(Recorded(w) == 1 && OnRecord(w) == CompletedFailed)
  }

  lemma OwnVerdictStep(w: World, s: Step, base: Metrics)
    requires Inv(w) && Enabled(w, s) && OwnVerdictOnly(w, base) && Apply(w, s).failedWrites == w.failedWrites
    requires !Recount(w, s)
    ensures OwnVerdictOnly(Apply(w, s), base)
  {
    StepCountsEach(w, s);
    StepCounts(w, s);
    match s
    case Reconcile(a) =>
      RecordAfter(w, a);
      if w.jobs != [] {
        ObservedMeans(w);
        NewsOfVerdict(w);
        FailedExactly(w);
      }
    case JobsProgress(_) =>
    case JobDisappears(_) =>
    case DeploymentsChange(_) =>
  }

  /** The verdict of the jobs, once recorded, and whether one is, after a reconcile. */
  lemma RecordAfter(w: World, a: Answers)
    requires Inv(w) && Planned(a)
    ensures var w' := ProvisionStep(w, a).0;
            && (Recorded(w') == 1 ==> OnRecord(w') == VerdictAfterLook(w, a))
            && (Recorded(w') == 1 <==> VerdictAfterLook(w, a).Some? && (w.jobs != [] || w.gone != []))
  {
    if a.listOk && w.jobs == [] {
      DecideCounts(w, a);
      if OnRecord(w).Some? {
        RecordStays(w, a);
      }
    } else if a.listOk && a.statusWriteOk {
      ObservedMeans(w);
      ObservedKeeps(w);
      DecideCounts(Observed(w), a);
      if OnRecord(Observed(w)).Some? {
        RecordStays(Observed(w), a);
      }
    }
  }

  lemma {:induction false} OwnVerdictRun(w: World, run: seq<Step>, base: Metrics)
    requires Inv(w) && Legal(w, run) && OwnVerdictOnly(w, base) && Undisputed(w, run)
    requires After(w, run).failedWrites == w.failedWrites
    ensures OwnVerdictOnly(After(w, run), base)
    decreases run
  {
    if run != [] {
      StepCounts(w, run[0]);
      StepKeeps(w, run[0]);
      WritesGrow(Apply(w, run[0]), run[1..]);
      UndisputedStep(w, run[0]);
      OwnVerdictStep(w, run[0], base);
      OwnVerdictRun(Apply(w, run[0]), run[1..], base);
    }
  }

  lemma {:induction false} WritesGrow(w: World, run: seq<Step>)
    requires Inv(w) && Legal(w, run)
    ensures w.failedWrites <= After(w, run).failedWrites
    decreases run
  {
    if run != [] {
      StepCounts(w, run[0]);
      StepKeeps(w, run[0]);
      WritesGrow(Apply(w, run[0]), run[1..]);
    }
  }

  /**
    Then it adds one increment once its jobs' verdict is persisted and none before, and at most one
    more for each failed status write; without failed writes exactly one, to the counter of that
    verdict.
   */
  lemma BackupCountedOnce(w: World, run: seq<Step>)
    requires Initial(w) && Legal(w, run) && Undisputed(w, run)
    ensures var end := After(w, run);
            && Recorded(end) <= end.metrics.total - w.metrics.total <= Recorded(end) + end.failedWrites
            && (end.failedWrites == 0 ==>
                  && end.metrics.successful == w.metrics.successful + One(Recorded(end) == 1 && OnRecord(end) == CompletedSucceeded)
                  && end.metrics.failed == w.metrics.failed + One(Recorded(end) == 1 && OnRecord(end) == CompletedFailed))
  {
    BackupCountedExactly(w, run);
    UndisputedIsNotRecounted(w, run);
    if After(w, run).failedWrites == 0 {
      OwnVerdictRun(w, run, w.metrics);
    }
  }
}
