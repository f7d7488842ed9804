/**
  What becomes of the verdict of a Backup over its later reconciles, and when the operator leaves a
  finished Backup alone (operator/backupcontroller/controller.go).
 */
module BackupLife {
  import opened Wrappers
  import opened JobStatus
  import opened BatchJobs
  import opened BackupVerdict
  import opened PreBackup
  import opened BackupRun

  // ---- The recorded verdict ----

  /** The Completed condition once a reconcile has looked at the jobs. */
  function VerdictAfterLook(w: World, a: Answers): Option<Condition> {
    if !a.listOk || !a.statusWriteOk || w.jobs == [] then OnRecord(w)
    else
      match VerdictOf(Conditions(w.jobs))
      case AllSucceeded => CompletedSucceeded
      case SomeFailed => CompletedFailed
      case _ => OnRecord(w)
  }

  /** A reconcile changes a recorded verdict only by what the jobs say. */
  lemma ReconcileVerdictIs(w: World, a: Answers)
    requires Inv(w) && Planned(a) && OnRecord(w).Some?
    ensures OnRecord(ProvisionStep(w, a).0) == VerdictAfterLook(w, a)
  {
    if a.listOk && w.jobs != [] && a.statusWriteOk {
      ObservedMeans(w);
      ObservedKeeps(w);
      RecordStays(Observed(w), a);
    } else if a.listOk && w.jobs == [] {
      RecordStays(w, a);
    }
  }

  lemma RecordStays(w: World, a: Answers)
    requires Inv(w) && Planned(a) && OnRecord(w).Some?
    ensures OnRecord(Decide(w, a).0) == OnRecord(w)
  {
    if !w.scene.status.HasStarted() {
      RecordedDecides(w, a);
    }
  }

  lemma SuccessStep(w: World, s: Step)
    requires Inv(w) && Enabled(w, s) && OnRecord(w) == CompletedSucceeded
    ensures OnRecord(Apply(w, s)) == CompletedSucceeded
  {
    if s.Reconcile? {
      ReconcileVerdictIs(w, s.answers);
      if w.jobs != [] {
        ObservedMeans(w);
      }
    }
  }

  /** There is no job that could contradict a recorded failure, or there is a failed one. */
  predicate FailureStands(w: World) {
    w.jobs == [] || exists j :: j in w.jobs && JobHasFailed(j.conditions)
  }

  lemma FailureStep(w: World, s: Step)
    requires Inv(w) && Enabled(w, s) && OnRecord(w) == CompletedFailed && FailureStands(w)
    ensures OnRecord(Apply(w, s)) == CompletedFailed
    ensures !s.JobDisappears? ==> FailureStands(Apply(w, s))
  {
    match s
    case Reconcile(a) =>
      ReconcileVerdictIs(w, a);
      CreatesOnlyWhenReady(w, a);
      if w.jobs != [] {
        FailedJobFails(w);
      }
    case JobsProgress(cs) =>
      var w' := Apply(w, s);
      if w.jobs != [] {
        var j :| j in w.jobs && JobHasFailed(j.conditions);
        var i :| 0 <= i < |w.jobs| && w.jobs[i] == j;
        assert KeepsVerdict(Conditions(w.jobs)[i], cs[i]);
        assert w'.jobs[i] in w'.jobs;
      }
    case JobDisappears(_) =>
    case DeploymentsChange(_) =>
  }

  lemma FailedJobFails(w: World)
    requires AllWellFormed(Conditions(w.jobs)) && w.jobs != [] && FailureStands(w)
    ensures VerdictOf(Conditions(w.jobs)) == SomeFailed
  {
    var j :| j in w.jobs && JobHasFailed(j.conditions);
    var i :| 0 <= i < |w.jobs| && w.jobs[i] == j;
    assert Conditions(w.jobs)[i] in Conditions(w.jobs);
    VerdictMeans(Conditions(w.jobs));
  }

  /** A reconcile that writes a success over what is on record. */
  predicate Overrules(w: World, s: Step) {
    s.Reconcile? && s.answers.listOk && s.answers.statusWriteOk && w.jobs != [] && AllPresentSucceeded(w)
  }

  predicate NeverOverruled(w: World, run: seq<Step>)
    requires Legal(w, run)
    decreases run
  {
    run == [] || (!Overrules(w, run[0]) && NeverOverruled(Apply(w, run[0]), run[1..]))
  }

  /** What one step makes of a recorded failure. */
  lemma FailedStepIs(w: World, s: Step)
    requires Inv(w) && Enabled(w, s) && OnRecord(w) == CompletedFailed
    ensures OnRecord(Apply(w, s)) == if Overrules(w, s) then CompletedSucceeded else CompletedFailed
  {
    if s.Reconcile? {
      ReconcileVerdictIs(w, s.answers);
      if w.jobs != [] {
        ObservedMeans(w);
      }
    }
  }

  lemma {:induction false} SuccessKept(w: World, run: seq<Step>)
    requires Inv(w) && Legal(w, run) && OnRecord(w) == CompletedSucceeded
    ensures OnRecord(After(w, run)) == CompletedSucceeded
    decreases run
  {
    if run != [] {
      StepKeeps(w, run[0]);
      SuccessStep(w, run[0]);
      SuccessKept(Apply(w, run[0]), run[1..]);
    }
  }

  lemma {:induction false} FailureKept(w: World, run: seq<Step>)
    requires Inv(w) && Legal(w, run) && OnRecord(w) == CompletedFailed
    ensures OnRecord(After(w, run)) == if NeverOverruled(w, run) then CompletedFailed else CompletedSucceeded
    decreases run
  {
    if run != [] {
      StepKeeps(w, run[0]);
      FailedStepIs(w, run[0]);
      if Overrules(w, run[0]) {
        SuccessKept(Apply(w, run[0]), run[1..]);
      } else {
        FailureKept(Apply(w, run[0]), run[1..]);
      }
    }
  }

  /**
    What becomes of a verdict in the status over every later run: a success stays, whatever jobs
    disappear; a failure, and the object reading as failed with it, stays if and only if no reconcile
    of the run lists jobs that have all succeeded and writes the status. Otherwise it has become a
    success.
   */
  lemma VerdictKept(w: World, run: seq<Step>, later: seq<Step>)
    requires Initial(w) && Legal(w, run) && Legal(After(w, run), later)
    ensures var now, end := After(w, run), After(After(w, run), later);
            && (OnRecord(now).Some? ==> OnRecord(end).Some? && end.scene.status.HasFinished())
            && (OnRecord(now) == CompletedSucceeded ==> OnRecord(end) == CompletedSucceeded)
            && (OnRecord(now) == CompletedFailed ==>
                  && (OnRecord(end) == CompletedFailed <==> NeverOverruled(now, later))
                  && (NeverOverruled(now, later) ==> end.scene.status.HasFailed()))
  {
    RunKeeps(w, run);
    RunKeeps(After(w, run), later);
    var now := After(w, run);
    if OnRecord(now) == CompletedSucceeded {
      SuccessKept(now, later);
    } else if OnRecord(now) == CompletedFailed {
      FailureKept(now, later);
    }
  }

  /** Without disappearing jobs, a failure that stands on its jobs, or has none, is never overruled. */
  lemma {:induction false} StandingIsNeverOverruled(w: World, run: seq<Step>)
    requires Inv(w) && Legal(w, run) && OnRecord(w) == CompletedFailed && FailureStands(w)
    requires forall s :: s in run ==> !s.JobDisappears?
    ensures NeverOverruled(w, run)
    decreases run
  {
    if run != [] {
      if w.jobs != [] {
        FailedJobFails(w);
        ObservedMeans(w);
      }
      FailureStep(w, run[0]);
      StepKeeps(w, run[0]);
      StandingIsNeverOverruled(Apply(w, run[0]), run[1..]);
    }
  }

  const Complete: JobConditions := [JobCondition(JobComplete, True)]

  lemma CompleteSucceeded()
    ensures WellFormed(Complete) && JobSucceeded(Complete) && !JobHasFailed(Complete)
  {
    assert Complete[0].typ == JobComplete && Complete[1..] == [];
  }

  function Completions(n: nat): (cs: seq<JobConditions>)
    ensures |cs| == n && forall i :: 0 <= i < n ==> cs[i] == Complete
  {
    seq(n, _ => Complete)
  }

  /** A failure whose failed jobs are all gone while others are left: those complete, and it is overruled. */
  lemma UnfoundedIsOverruled(w: World, a: Answers) returns (run: seq<Step>)
    requires Inv(w) && OnRecord(w) == CompletedFailed && !FailureStands(w)
    requires Planned(a) && a.listOk && a.statusWriteOk
    ensures Legal(w, run) && (forall s :: s in run ==> !s.JobDisappears?) && !NeverOverruled(w, run)
  {
    var cs := Completions(|w.jobs|);
    CompleteSucceeded();
    forall i | 0 <= i < |w.jobs|
      ensures KeepsVerdict(Conditions(w.jobs)[i], cs[i])
    {
      assert w.jobs[i] in w.jobs;
    }
    run := [JobsProgress(cs), Reconcile(a)];
    var w1 := Apply(w, run[0]);
    assert AllPresentSucceeded(w1) && Overrules(w1, Reconcile(a));
    assert run[1..] == [Reconcile(a)] && run[1..][1..] == [];
  }

  /** A recorded failure survives every run in which no job disappears. */
  ghost predicate FailureIsSafe(w: World) {
    forall run: seq<Step> :: Legal(w, run) && (forall s :: s in run ==> !s.JobDisappears?) ==> OnRecord(After(w, run)) == CompletedFailed
  }

  /** It does so if and only if there is a failed job or no job at all. */
  lemma SafeMeansStanding(w: World, a: Answers)
    requires Inv(w) && OnRecord(w) == CompletedFailed && Planned(a) && a.listOk && a.statusWriteOk
    ensures FailureIsSafe(w) <==> FailureStands(w)
  {
    if FailureStands(w) {
      forall run: seq<Step> | Legal(w, run) && forall s :: s in run ==> !s.JobDisappears?
        ensures OnRecord(After(w, run)) == CompletedFailed
      {
        StandingIsNeverOverruled(w, run);
        FailureKept(w, run);
      }
    } else {
      var run := UnfoundedIsOverruled(w, a);
      FailureKept(w, run);
    }
  }

  /**
    When a job disappears, a recorded failure survives the next look at the rest if and only if no
    job is left or one of them has not succeeded; and it survives every later run without further
    disappearances if and only if no job is left or one of them has failed.
   */
  lemma DeletionKeepsFailure(w: World, i: nat, a: Answers)
    requires Inv(w) && Planned(a) && a.listOk && a.statusWriteOk
    requires OnRecord(w) == CompletedFailed && i < |w.jobs|
    ensures var rest := Remaining(w.jobs, i);
            OnRecord(ProvisionStep(Apply(w, JobDisappears(i)), a).0) == CompletedFailed <==>
            rest == [] || exists j :: j in rest && !JobSucceeded(j.conditions)
    ensures var rest := Remaining(w.jobs, i);
            FailureIsSafe(Apply(w, JobDisappears(i))) <==>
            rest == [] || exists j :: j in rest && JobHasFailed(j.conditions)
  {
    var w1 := Apply(w, JobDisappears(i));
    StepKeeps(w, JobDisappears(i));
    FailedStepIs(w1, Reconcile(a));
    SafeMeansStanding(w1, a);
  }

  // ---- What the object reads as ----

  /** In every reachable state, a recorded success reads as one unless a listing of templates failed since. */
  lemma SuccessReads(w: World)
    requires Inv(w) && OnRecord(w) == CompletedSucceeded
    ensures w.scene.status.HasSucceeded() <==> w.scene.status.Get(PreBackupPodReady) != Some(Condition(PreBackupPodReady, False, ReasonRetrievalFailed))
    ensures w.scene.status.HasFailed() <==> !w.scene.status.HasSucceeded()
  {
  }

  /** The reconcile finds a success: its jobs all succeeded, or there is none left and one is on record. */
  predicate SeesSuccess(w: World, a: Answers) {
    a.listOk && if w.jobs == [] then OnRecord(w) == CompletedSucceeded else AllPresentSucceeded(w) && a.statusWriteOk
  }

  /**
    After such a reconcile the backup reads as succeeded if and only if its pre-backup deployments had
    been stopped before, or their templates could be listed; otherwise it reads as failed.
   */
  lemma SuccessReadsAfter(w: World, a: Answers)
    requires Inv(w) && Planned(a) && SeesSuccess(w, a)
    ensures var s := ProvisionStep(w, a).0.scene.status;
            && (s.HasSucceeded() <==> StopIsDone(w.scene.status) || a.calls.templatesOk)
            && (s.HasFailed() <==> !(StopIsDone(w.scene.status) || a.calls.templatesOk))
  {
    if w.jobs == [] {
      SuccessDecides(w, a);
    } else {
      ObservedMeans(w);
      ObservedKeeps(w);
      SuccessDecides(Observed(w), a);
    }
  }

  lemma SuccessDecides(w: World, a: Answers)
    requires Inv(w) && Planned(a) && OnRecord(w) == CompletedSucceeded
    ensures var s := Decide(w, a).0.scene.status;
            && (s.HasSucceeded() <==> StopIsDone(w.scene.status) || a.calls.templatesOk)
            && (s.HasFailed() <==> !(StopIsDone(w.scene.status) || a.calls.templatesOk))
  {
    DecideKeeps(w, a);
    RecordedDecides(w, a);
    SuccessReads(Decide(w, a).0);
    ClosedPreBackup(w, a);
  }

  lemma ClosedPreBackup(w: World, a: Answers)
    requires SettledPreBackup(w.scene.status)
    ensures Closing(w, a).status.Get(PreBackupPodReady) == Some(Condition(PreBackupPodReady, False, ReasonRetrievalFailed)) <==>
            !(StopIsDone(w.scene.status) || a.calls.templatesOk)
  {
    ClosingMeans(w, a);
  }

  // ---- A finished backup is left alone ----

  predicate FinishedByJobs(w: World) {
    w.jobs != [] && VerdictOf(Conditions(w.jobs)) in {AllSucceeded, SomeFailed}
  }

  /** Finished by the jobs it has, or, without jobs, by the verdict on record. */
  predicate Closed(w: World) {
    if w.jobs == [] then OnRecord(w).Some? && !w.scene.status.HasStarted() else FinishedByJobs(w)
  }

  predicate ClosedThroughout(w: World, run: seq<Step>)
    requires Legal(w, run)
    decreases run
  {
    Closed(w) && (run == [] || ClosedThroughout(Apply(w, run[0]), run[1..]))
  }

  function Open(w: World): nat {
    if StopIsDone(w.scene.status) then 0 else 1
  }

  /** Reconciles after which the object is looked at again, be it for a requeue or an error. */
  function Retries(w: World, run: seq<Step>): nat
    requires Legal(w, run)
    decreases run
  {
    if run == [] then 0
    else
      (if run[0].Reconcile? && ProvisionStep(w, run[0].answers).1 != Done then 1 else 0) +
      Retries(Apply(w, run[0]), run[1..])
  }

  /** A reconcile that could not list the jobs, write the status or list the PreBackupPod templates. */
  predicate Disturbed(s: Step) {
    s.Reconcile? && !(s.answers.listOk && s.answers.statusWriteOk && s.answers.calls.templatesOk)
  }

  function Disturbances(run: seq<Step>): nat {
    if run == [] then 0 else (if Disturbed(run[0]) then 1 else 0) + Disturbances(run[1..])
  }

  /** The decision about a finished backup. */
  lemma ClosedDecides(w: World, a: Answers)
    requires Inv(w) && Planned(a) && OnRecord(w).Some? && !w.scene.status.HasStarted()
    ensures var (w', outcome) := Decide(w, a);
            && w'.jobs == w.jobs && OnRecord(w') == OnRecord(w) && !w'.scene.status.HasStarted()
            && (outcome == Done <==> Open(w) == 0)
            && (outcome == Done ==> Open(w') == 0)
            && (outcome != Done ==> Open(w') == (if a.calls.templatesOk then 0 else 1))
  {
    RecordedDecides(w, a);
    ClosingMeans(w, a);
  }

  /** One reconcile of a closed backup. */
  lemma ClosedReconcile(w: World, a: Answers)
    requires Inv(w) && Closed(w) && Planned(a)
    ensures var (w', outcome) := ProvisionStep(w, a);
            && Closed(w')
            && (outcome == Done ==> Open(w) == 0 && Open(w') == 0)
            && (outcome != Done ==> Open(w') <= Open(w) && (Disturbed(Reconcile(a)) || (Open(w) == 1 && Open(w') == 0)))
  {
    if a.listOk && w.jobs == [] {
      ClosedDecides(w, a);
    } else if a.listOk && a.statusWriteOk {
      ObservedMeans(w);
      ObservedKeeps(w);
      assert Open(Observed(w)) == Open(w);
      ClosedDecides(Observed(w), a);
    }
  }

  /** Apart from a disappearing job nothing reopens a closed backup. */
  lemma ClosedStep(w: World, s: Step)
    requires Inv(w) && Closed(w) && Enabled(w, s)
    ensures !s.JobDisappears? ==> Closed(Apply(w, s))
    ensures Retries(w, [s]) <= Open(w) - Open(Apply(w, s)) + Disturbances([s])
  {
    assert [s][1..] == [];
    match s
    case Reconcile(a) => ClosedReconcile(w, a);
    case JobsProgress(cs) =>
      ProgressKeeps(w, cs);
      if w.jobs != [] {
        VerdictSurvives(Conditions(w.jobs), cs);
      }
    case JobDisappears(_) =>
    case DeploymentsChange(_) =>
  }

  lemma {:induction false} RetriesBoundedFrom(w: World, run: seq<Step>)
    requires Inv(w) && Legal(w, run) && ClosedThroughout(w, run)
    ensures Retries(w, run) <= Open(w) + Disturbances(run)
    decreases run
  {
    if run != [] {
      assert [run[0]][1..] == [];
      StepKeeps(w, run[0]);
      ClosedStep(w, run[0]);
      RetriesBoundedFrom(Apply(w, run[0]), run[1..]);
    }
  }

  /**
    A disappearing job leaves a closed backup closed if and only if what is left is finished: some
    job of the rest failed or all of it succeeded, or nothing is left and the verdict was written.
   */
  lemma DeletionKeepsClosed(w: World, i: nat)
    requires Inv(w) && i < |w.jobs|
    ensures var rest := Remaining(w.jobs, i);
            Closed(Apply(w, JobDisappears(i))) <==>
            if rest == [] then OnRecord(w).Some? && !w.scene.status.HasStarted()
            else (exists j :: j in rest && JobHasFailed(j.conditions)) || forall j :: j in rest ==> JobSucceeded(j.conditions)
  {
    var w1 := Apply(w, JobDisappears(i));
    StepKeeps(w, JobDisappears(i));
    if w1.jobs != [] {
      FinishedMeans(w1);
    }
  }

  lemma FinishedMeans(w: World)
    requires AllWellFormed(Conditions(w.jobs)) && w.jobs != []
    ensures FinishedByJobs(w) <==> FailureStands(w) || AllPresentSucceeded(w)
  {
    PresentConditions(w);
    VerdictMeans(Conditions(w.jobs));
    if FailureStands(w) {
      FailedJobFails(w);
    }
    if c :| c in Conditions(w.jobs) && JobHasFailed(c) {
      var k :| 0 <= k < |w.jobs| && w.jobs[k].conditions == c;
      assert w.jobs[k] in w.jobs;
    }
  }

  /**
    A finished backup is looked at again at most once, plus once for each reconcile in which a call
    failed. When a reconcile lets it rest, either a stop had issued a delete for every deployment
    generated from the templates it then listed, or no template was found.
   */
  lemma FinishedBackupRests(w: World, run: seq<Step>, later: seq<Step>, a: Answers)
    requires Initial(w) && Legal(w, run) && Planned(a)
    requires Legal(After(w, run), later) && ClosedThroughout(After(w, run), later)
    ensures Retries(After(w, run), later) <= 1 + Disturbances(later)
    ensures var now := After(w, run);
            ProvisionStep(now, a).1 == Done ==>
              var c := now.scene.status.Get(PreBackupPodReady);
              && c.Some?
              && (c.value.reason == ReasonNoPreBackupPodsFound ||
                  (c.value.reason == ReasonFinished && now.scene.stopped != [] && (set n | n in now.scene.stopped) <= now.scene.issued))
  {
    RunKeeps(w, run);
    RetriesBoundedFrom(After(w, run), later);
    ClosedReconcile(After(w, run), a);
  }

  /** A started backup whose jobs have all disappeared is looked at for ever: no reconcile changes anything. */
  lemma {:induction false} OrphanNeverRests(w: World, run: seq<Step>)
    requires w.jobs == [] && w.scene.status.HasStarted() && Legal(w, run)
    requires forall s :: s in run ==> s.Reconcile?
    ensures After(w, run) == w && Retries(w, run) == |run|
    decreases run
  {
    if run != [] {
      assert run[0] in run && Apply(w, run[0]) == w;
      OrphanNeverRests(w, run[1..]);
    }
  }
}
