/**
  Runs from a new Backup in which it does not do what one would expect of it: a half-created backup
  that succeeds, a success that reads as a failure, a success counted over and over, a failure that
  turns into a success, and a backup that never comes to rest.
 */
module BackupExamples {
  import opened Wrappers
  import opened Text
  import opened JobStatus
  import opened BatchJobs
  import opened BackupVerdict
  import opened PreBackup
  import opened Planner
  import opened Volumes
  import opened BackupRun
  import opened BackupLife
  import opened BackupCoverage
  import opened BackupCounts

  /** Calls that a later reconcile of the backup depends on. */
  predicate Looks(a: Answers) {
    Planned(a) && a.listOk && a.statusWriteOk
  }

  /** A new backup and a reconcile that creates at least one job for it. */
  predicate Begins(w: World, a: Answers) {
    && Initial(w) && Looks(a) && a.admitted && a.accountsOk
    && a.podsOk && a.claimsOk && a.viableOk && a.candidatesOk
    && Start(w.scene, a.templates, a.calls).ready
    && a.creatable > 0 && |a.order| > 0
  }

  /** The world after the first reconcile. */
  function Begun(w: World, a: Answers): World
    requires Planned(a)
  {
    CreateAll(w.(scene := Start(w.scene, a.templates, a.calls).scene), a)
  }

  lemma BeginIs(w: World, a: Answers)
    requires Begins(w, a)
    ensures ProvisionStep(w, a).0 == Begun(w, a)
  {
    BeginExecutes(w, a);
    assert Fresh.Get(Completed) == None && Fresh.Get(Progressing) == None && Fresh.Get(PreBackupPodReady) == None;
    assert ProvisionStep(w, a) == Decide(w, a) && Decide(w, a).0 == ExecuteStep(w, a);
  }

  lemma BeginExecutes(w: World, a: Answers)
    requires Begins(w, a)
    ensures ExecuteStep(w, a) == Begun(w, a)
  {
    StartMeans(w.scene, a.templates, a.calls);
  }

  lemma BegunMeans(w: World, a: Answers)
    requires Begins(w, a)
    ensures Inv(Begun(w, a))
    ensures var w1 := Begun(w, a);
            && |w1.jobs| == Min(a.creatable, |a.order|) && w1.gone == [] && w1.creations == 1
            && (forall i :: 0 <= i < |w1.jobs| ==> w1.jobs[i].conditions == [])
            && OnRecord(w1) == None && !w1.scene.status.HasStarted()
            && w1.scene.status.Get(PreBackupPodReady) == Some(ReadyMark(a.templates))
            && w1.metrics == w.metrics
  {
    StartMeans(w.scene, a.templates, a.calls);
    StartAccounts(w.scene, a.templates, a.calls);
    var scene := Start(w.scene, a.templates, a.calls).scene;
    assert scene.status.Get(Completed) == Fresh.Get(Completed) && scene.status.Get(Progressing) == Fresh.Get(Progressing);
    CreateKeeps(w.(scene := scene), a);
  }

  const Failure: JobConditions := [JobCondition(JobFailed, True)]

  lemma Verdicts()
    ensures WellFormed(Complete) && JobSucceeded(Complete) && !JobHasFailed(Complete)
    ensures WellFormed(Failure) && JobHasFailed(Failure) && !JobSucceeded(Failure)
  {
    assert Complete[0].typ == JobComplete && Failure[0].typ == JobFailed && Failure[1..] == [] && Complete[1..] == [];
  }

  lemma NewJobsKeep(w: World, cs: seq<JobConditions>)
    requires |cs| == |w.jobs| && forall i :: 0 <= i < |w.jobs| ==> w.jobs[i].conditions == []
    ensures JobsKeep(Conditions(w.jobs), cs)
  {
    assert FindJobCondition([], JobComplete).None? && FindJobCondition([], JobFailed).None?;
  }

  /** All jobs of the first reconcile have completed. */
  function AllDone(w: World, a: Answers): World
    requires Begins(w, a)
  {
    var w1 := Begun(w, a);
    w1.(jobs := Progressed(w1.jobs, Completions(|w1.jobs|)))
  }

  lemma AllDoneMeans(w: World, a: Answers)
    requires Begins(w, a)
    ensures var w1 := Begun(w, a);
            var s := JobsProgress(Completions(|w1.jobs|));
            Enabled(w1, s) && Apply(w1, s) == AllDone(w, a)
    ensures var w2 := AllDone(w, a);
            && Inv(w2) && w2.jobs != [] && AllPresentSucceeded(w2) && FinishedByJobs(w2)
            && OnRecord(w2) == None && w2.scene.status.Get(PreBackupPodReady) == Some(ReadyMark(a.templates))
            && w2.metrics == w.metrics && w2.creations == 1
  {
    BegunMeans(w, a);
    Verdicts();
    var w1 := Begun(w, a);
    NewJobsKeep(w1, Completions(|w1.jobs|));
    StepKeeps(w1, JobsProgress(Completions(|w1.jobs|)));
    ObservedMeans(AllDone(w, a));
  }

  // ---- Putting runs together ----

  lemma Two(w: World, s1: Step, w1: World, s2: Step, w2: World)
    requires Enabled(w, s1) && w1 == Apply(w, s1) && Enabled(w1, s2) && w2 == Apply(w1, s2)
    ensures Legal(w, [s1, s2]) && After(w, [s1, s2]) == w2
  {
    Then(w, [], s1);
    Then(w, [s1], s2);
    assert [] + [s1] == [s1] && [s1] + [s2] == [s1, s2];
  }

  lemma Three(w: World, s1: Step, w1: World, s2: Step, w2: World, s3: Step, w3: World)
    requires Enabled(w, s1) && w1 == Apply(w, s1) && Enabled(w1, s2) && w2 == Apply(w1, s2)
    requires Enabled(w2, s3) && w3 == Apply(w2, s3)
    ensures Legal(w, [s1, s2, s3]) && After(w, [s1, s2, s3]) == w3
  {
    Two(w, s1, w1, s2, w2);
    Then(w, [s1, s2], s3);
    assert [s1, s2] + [s3] == [s1, s2, s3];
  }

  lemma Then(w: World, run: seq<Step>, s: Step)
    requires Legal(w, run) && Enabled(After(w, run), s)
    ensures Legal(w, run + [s]) && After(w, run + [s]) == Apply(After(w, run), s)
  {
    assert [s][1..] == [] && Legal(After(w, run), [s]);
    RunConcat(w, run, [s]);
  }

  lemma First(w: World, s: Step, run: seq<Step>)
    requires Enabled(w, s) && Legal(Apply(w, s), run)
    ensures Legal(w, [s] + run) && After(w, [s] + run) == After(Apply(w, s), run)
  {
    assert ([s] + run)[1..] == run;
  }

  /** The run up to the point where all created jobs have completed. */
  function Prelude(w: World, a: Answers): seq<Step>
    requires Planned(a)
  {
    [Reconcile(a), JobsProgress(Completions(|Begun(w, a).jobs|))]
  }

  lemma PreludeIs(w: World, a: Answers)
    requires Begins(w, a)
    ensures Legal(w, Prelude(w, a)) && After(w, Prelude(w, a)) == AllDone(w, a)
  {
    BeginIs(w, a);
    AllDoneMeans(w, a);
    Two(w, Reconcile(a), Begun(w, a), JobsProgress(Completions(|Begun(w, a).jobs|)), AllDone(w, a));
  }

  // ---- A half-created backup succeeds ----

  /**
    A creation loop that fails after some jobs, or whose keys collide: once the created jobs have
    completed, the backup reports success with a volume or a command that has no job at all.
   */
  lemma HalfCreatedBackupSucceeds(w: World, a: Answers, b: Answers)
    requires Begins(w, a) && !Whole(a) && Looks(b) && b.calls.templatesOk
    ensures var run := Prelude(w, a) + [Reconcile(b)];
            && Legal(w, run)
            && After(w, run).scene.status.HasSucceeded() && !Covered(After(w, run))
  {
    PreludeIs(w, a);
    Then(w, Prelude(w, a), Reconcile(b));
    AllDoneMeans(w, a);
    SuccessReadsAfter(AllDone(w, a), b);
    HalfDoneIsUncovered(w, a, b);
  }

  lemma HalfDoneIsUncovered(w: World, a: Answers, b: Answers)
    requires Begins(w, a) && !Whole(a) && Looks(b)
    ensures !Covered(ProvisionStep(AllDone(w, a), b).0)
  {
    var w1, w2 := Begun(w, a), AllDone(w, a);
    CoveredIffWhole(w.(scene := Start(w.scene, a.templates, a.calls).scene), a);
    AllDoneMeans(w, a);
    StepSameWork(w1, JobsProgress(Completions(|w1.jobs|)));
    CreatesOnlyWhenReady(w2, b);
    CreationsGrow(w2, Reconcile(b));
    StepSameWork(w2, Reconcile(b));
  }

  // ---- A success that reads as a failure, and is counted again and again ----

  /**
    When the templates cannot be listed by the reconcile that stops the pre-backup deployments of a
    backup whose jobs all succeeded, the success it has just written reads as a failure.
   */
  lemma SuccessTurnsIntoFailure(w: World, a: Answers, b: Answers)
    requires Begins(w, a) && a.templates != [] && Looks(b) && !b.calls.templatesOk
    ensures Legal(w, Prelude(w, a))
    ensures var now := After(w, Prelude(w, a));
            && ReconcileStep(now, b).0.scene.status.HasSucceeded()
            && ProvisionStep(now, b).0.scene.status.HasFailed()
            && OnRecord(ProvisionStep(now, b).0) == CompletedSucceeded
  {
    PreludeIs(w, a);
    AllDoneMeans(w, a);
    var now := AllDone(w, a);
    ObservedMeans(now);
    ObservedKeeps(now);
    SuccessReads(Observed(now));
    SuccessReadsAfter(now, b);
    RecordStays(Observed(now), b);
  }

  /** A success on record that the pre-backup makes read as a failure. */
  predicate Disputed(w: World) {
    Inv(w) && w.jobs != [] && AllPresentSucceeded(w) && OnRecord(w) == CompletedSucceeded && !w.scene.status.HasSucceeded()
  }

  lemma StaysDisputed(w: World, b: Answers)
    requires Inv(w) && w.jobs != [] && AllPresentSucceeded(w) && Looks(b) && !b.calls.templatesOk
    requires !StopIsDone(w.scene.status)
    ensures var w' := ProvisionStep(w, b).0;
            Disputed(w') && !StopIsDone(w'.scene.status) && w'.metrics.total == w.metrics.total + (if w.scene.status.HasSucceeded() then 0 else 1)
  {
    ObservedMeans(w);
    ObservedKeeps(w);
    LookCounts(w);
    RecordedDecides(Observed(w), b);
    ClosingMeans(Observed(w), b);
    StepKeeps(w, Reconcile(b));
    SuccessReadsAfter(w, b);
    DecideCounts(Observed(w), b);
  }

  function Repeat(b: Answers, n: nat): (run: seq<Step>)
    ensures |run| == n && forall i :: 0 <= i < n ==> run[i] == Reconcile(b)
  {
    seq(n, _ => Reconcile(b))
  }

  lemma {:induction false} EachLookCounts(w: World, b: Answers, n: nat)
    requires Disputed(w) && !StopIsDone(w.scene.status) && Looks(b) && !b.calls.templatesOk
    ensures Legal(w, Repeat(b, n)) && After(w, Repeat(b, n)).metrics.total == w.metrics.total + n
    decreases n
  {
    if n > 0 {
      StaysDisputed(w, b);
      var w1 := ProvisionStep(w, b).0;
      EachLookCounts(w1, b, n - 1);
      First(w, Reconcile(b), Repeat(b, n - 1));
      assert Repeat(b, n) == [Reconcile(b)] + Repeat(b, n - 1);
    }
  }

  /** As long as the templates cannot be listed, every reconcile counts the same success once more. */
  lemma SuccessCountedOverAndOver(w: World, a: Answers, b: Answers, n: nat)
    requires Begins(w, a) && a.templates != [] && Looks(b) && !b.calls.templatesOk
    ensures var run := Prelude(w, a) + [Reconcile(b)] + Repeat(b, n);
            Legal(w, run) && After(w, run).metrics.total == w.metrics.total + 1 + n
  {
    CountedOnceFirst(w, a, b);
    CountedFurther(w, Prelude(w, a) + [Reconcile(b)], b, n);
  }

  lemma CountedOnceFirst(w: World, a: Answers, b: Answers)
    requires Begins(w, a) && a.templates != [] && Looks(b) && !b.calls.templatesOk
    ensures var run := Prelude(w, a) + [Reconcile(b)];
            && Legal(w, run) && Disputed(After(w, run)) && !StopIsDone(After(w, run).scene.status)
            && After(w, run).metrics.total == w.metrics.total + 1
  {
    PreludeIs(w, a);
    DisputedAtOnce(w, a, b);
    Then(w, Prelude(w, a), Reconcile(b));
  }

  lemma DisputedAtOnce(w: World, a: Answers, b: Answers)
    requires Begins(w, a) && a.templates != [] && Looks(b) && !b.calls.templatesOk
    ensures var w' := ProvisionStep(AllDone(w, a), b).0;
            Disputed(w') && !StopIsDone(w'.scene.status) && w'.metrics.total == w.metrics.total + 1
  {
    AllDoneMeans(w, a);
    var now := AllDone(w, a);
    assert now.scene.status.Get(PreBackupPodReady) == Some(Condition(PreBackupPodReady, True, ReasonReady));
    assert !StopIsDone(now.scene.status) && !now.scene.status.HasSucceeded();
    StaysDisputed(now, b);
  }

  lemma CountedFurther(w: World, run: seq<Step>, b: Answers, n: nat)
    requires Legal(w, run) && Looks(b) && !b.calls.templatesOk
    requires Disputed(After(w, run)) && !StopIsDone(After(w, run).scene.status)
    ensures Legal(w, run + Repeat(b, n)) && After(w, run + Repeat(b, n)).metrics.total == After(w, run).metrics.total + n
  {
    EachLookCounts(After(w, run), b, n);
    RunConcat(w, run, Repeat(b, n));
  }

  // ---- A failure that turns into a success ----

  /** All but the first job completed. */
  function FirstFailed(n: nat): (cs: seq<JobConditions>)
    requires n > 0
    ensures |cs| == n && cs[0] == Failure && forall i :: 0 < i < n ==> cs[i] == Complete
  {
    [Failure] + Completions(n - 1)
  }

  /** The first of the jobs failed and the others have completed. */
  function FirstHasFailed(w: World, a: Answers): World
    requires Begins(w, a)
  {
    var w1 := Begun(w, a);
    w1.(jobs := Progressed(w1.jobs, if w1.jobs == [] then [] else FirstFailed(|w1.jobs|)))
  }

  lemma FirstHasFailedMeans(w: World, a: Answers)
    requires Begins(w, a) && a.creatable > 1 && |a.order| > 1
    ensures var w1 := Begun(w, a);
            |w1.jobs| > 1 &&
            var s := JobsProgress(FirstFailed(|w1.jobs|));
            Enabled(w1, s) && Apply(w1, s) == FirstHasFailed(w, a)
    ensures var w2 := FirstHasFailed(w, a);
            && Inv(w2) && |w2.jobs| > 1 && JobHasFailed(w2.jobs[0].conditions)
            && forall i :: 0 < i < |w2.jobs| ==> JobSucceeded(w2.jobs[i].conditions)
  {
    BegunMeans(w, a);
    Verdicts();
    var w1 := Begun(w, a);
    NewJobsKeep(w1, FirstFailed(|w1.jobs|));
    StepKeeps(w1, JobsProgress(FirstFailed(|w1.jobs|)));
  }

  /** When the only failed job of several disappears, the failed backup becomes a succeeded one. */
  lemma FailureTurnsIntoSuccess(w: World, a: Answers, b: Answers) returns (run: seq<Step>)
    requires Begins(w, a) && a.creatable > 1 && |a.order| > 1 && Looks(b) && b.calls.templatesOk
    ensures Legal(w, run) && After(w, run).scene.status.HasFailed() && OnRecord(After(w, run)) == CompletedFailed
    ensures Legal(w, run + [JobDisappears(0)] + [Reconcile(b)])
    ensures After(w, run + [JobDisappears(0)] + [Reconcile(b)]).scene.status.HasSucceeded()
  {
    BeginIs(w, a);
    FirstHasFailedMeans(w, a);
    var w1, w2 := Begun(w, a), FirstHasFailed(w, a);
    var s2 := JobsProgress(FirstFailed(|w1.jobs|));
    var w3 := ProvisionStep(w2, b).0;
    FailedLook(w2, b);
    RestSucceeds(w3, b);
    run := [Reconcile(a), s2, Reconcile(b)];
    Three(w, Reconcile(a), w1, s2, w2, Reconcile(b), w3);
    Then(w, run, JobDisappears(0));
    Then(w, run + [JobDisappears(0)], Reconcile(b));
  }

  lemma FailedLook(w: World, b: Answers)
    requires Inv(w) && |w.jobs| > 1 && JobHasFailed(w.jobs[0].conditions) && Looks(b)
    ensures var w' := ProvisionStep(w, b).0;
            Inv(w') && w'.jobs == w.jobs && OnRecord(w') == CompletedFailed && w'.scene.status.HasFailed()
  {
    assert w.jobs[0] in w.jobs;
    FailedJobFails(w);
    ObservedMeans(w);
    ObservedKeeps(w);
    RecordedDecides(Observed(w), b);
    StepKeeps(w, Reconcile(b));
  }

  lemma RestSucceeds(w: World, b: Answers)
    requires Inv(w) && |w.jobs| > 1 && Looks(b) && b.calls.templatesOk
    requires forall i :: 0 < i < |w.jobs| ==> JobSucceeded(w.jobs[i].conditions)
    ensures ProvisionStep(Apply(w, JobDisappears(0)), b).0.scene.status.HasSucceeded()
  {
    var w1 := Apply(w, JobDisappears(0));
    StepKeeps(w, JobDisappears(0));
    assert w1.jobs == w.jobs[1..];
    SuccessReadsAfter(w1, b);
  }

  // ---- A backup that never rests ----

  /** When the only job disappears after it was seen to have started, the backup is looked at for ever. */
  lemma OrphanedBackupNeverRests(w: World, a: Answers, b: Answers, n: nat)
    requires Begins(w, a) && a.creatable == 1 && Looks(b)
    ensures var run := [Reconcile(a), Reconcile(b), JobDisappears(0)];
            && Legal(w, run) && Legal(After(w, run), Repeat(b, n))
            && Retries(After(w, run), Repeat(b, n)) == n
  {
    BeginIs(w, a);
    BegunMeans(w, a);
    var w1 := Begun(w, a);
    var w2 := ProvisionStep(w1, b).0;
    StartedLook(w1, b);
    var w3 := Apply(w2, JobDisappears(0));
    Three(w, Reconcile(a), w1, Reconcile(b), w2, JobDisappears(0), w3);
    OrphanLegal(w3, b, n);
    OrphanNeverRests(w3, Repeat(b, n));
  }

  lemma StartedLook(w: World, b: Answers)
    requires Inv(w) && |w.jobs| == 1 && w.jobs[0].conditions == [] && Looks(b)
    ensures var w' := ProvisionStep(w, b).0;
            w'.jobs == w.jobs && w'.scene.status.HasStarted()
  {
    NewJobIsStarted(w);
    ObservedMeans(w);
  }

  lemma NewJobIsStarted(w: World)
    requires AllWellFormed(Conditions(w.jobs)) && |w.jobs| == 1 && w.jobs[0].conditions == []
    ensures VerdictOf(Conditions(w.jobs)) == SomeStarted
  {
    var cs := Conditions(w.jobs);
    VerdictMeans(cs);
    assert FindJobCondition([], JobComplete).None? && FindJobCondition([], JobFailed).None?;
    assert cs == [[]] && cs[0] in cs;
  }

  lemma {:induction false} OrphanLegal(w: World, b: Answers, n: nat)
    requires w.jobs == [] && w.scene.status.HasStarted() && Looks(b)
    ensures Legal(w, Repeat(b, n))
    decreases n
  {
    if n > 0 {
      OrphanLegal(w, b, n - 1);
      First(w, Reconcile(b), Repeat(b, n - 1));
      assert Repeat(b, n) == [Reconcile(b)] + Repeat(b, n - 1);
    }
  }

  // ---- Such backups exist ----

  lemma {:induction false} Enumerate(keys: set<string>) returns (order: seq<string>)
    ensures forall key :: key in order <==> key in keys
    ensures forall i, k :: 0 <= i < k < |order| ==> order[i] != order[k]
    decreases keys
  {
    if keys == {} {
      order := [];
    } else {
      var key :| key in keys;
      var rest := Enumerate(keys - {key});
      order := [key] + rest;
      assert forall i :: 0 <= i < |rest| ==> rest[i] in rest;
    }
  }

  const Deployments: map<string, Deployment> := map["dump" := Deployment([], 1)]

  /** A pre-backup deployment that is available makes the start ready. */
  lemma StartIsReady(scene: Scene, c: Calls)
    requires scene.deployments == Deployments && c == Calls(true, {}, {}, {})
    ensures Start(scene, ["dump"], c).ready
  {
    var names := ["dump"];
    assert names[0] in scene.deployments && names[1..] == [];
    assert EnsureAll(scene, names, c) == (scene, true);
    assert Usable(scene, names);
    CheckAllMeans(scene, names, c);
  }

  /**
    Whatever there is to back up, there is a new backup and a reconcile that begins with it; `b` is a
    later reconcile that cannot list the templates.
   */
  lemma NewBackupBegins(p: Planning, creatable: nat) returns (w: World, a: Answers, b: Answers)
    requires Sensible(p) && PlanFor(p) != map[] && creatable > 0
    ensures Begins(w, a) && a.planning == p && a.creatable == creatable && a.templates != [] && a.calls.templatesOk
    ensures Looks(b) && !b.calls.templatesOk
  {
    var order := Enumerate(PlanFor(p).Keys);
    var key :| key in PlanFor(p).Keys;
    assert key in order;
    var c := Calls(true, {}, {}, {});
    w := World(Scene(Fresh, Deployments, {}, []), [], [], Metrics(0, 0, 0), {}, {}, 0, 0);
    a := Answers(true, true, true, true, true, true, ["dump"], c, true, true, true, true, p, order, creatable);
    b := a.(calls := c.(templatesOk := false));
    StartIsReady(w.scene, c);
  }

  /** Whatever plan has two jobs: with one of them created, the backup reports success all the same. */
  lemma HalfABackup(p: Planning, one: string, other: string) returns (w: World, run: seq<Step>)
    requires Sensible(p) && one in PlanFor(p) && other in PlanFor(p) && one != other
    ensures Initial(w) && Legal(w, run) && After(w, run).scene.status.HasSucceeded() && !Covered(After(w, run))
  {
    var w0, a, b := NewBackupBegins(p, 1);
    assert one in a.order && other in a.order;
    w, run := w0, Prelude(w0, a) + [Reconcile(a)];
    HalfCreatedBackupSucceeds(w, a, a);
  }

  /** Whatever plan loses an item to a key: with all jobs created, the backup reports success all the same. */
  lemma LostClaimBackup(p: Planning) returns (w: World, a: Answers, run: seq<Step>)
    requires Sensible(p) && !KeysKeep(p)
    ensures Planned(a) && a.planning == p && a.creatable >= |a.order| && Reconcile(a) in run
    ensures Initial(w) && Legal(w, run) && After(w, run).scene.status.HasSucceeded() && !Covered(After(w, run))
  {
    var key := WorkIsPlanned(p);
    var w0, a0, b := NewBackupBegins(p, 1);
    a := a0.(creatable := |a0.order|);
    w, run := w0, Prelude(w0, a) + [Reconcile(a)];
    assert run[0] == Reconcile(a);
    HalfCreatedBackupSucceeds(w, a, a);
  }

  /** Eleven claims, of which the second asks for the argument "0", with relaxed scheduling and no pods. */
  function ElevenClaims(): Planning {
    Planning("b", Env([], map[], "k8up.io/backup", "k8up.io/args", false, true),
             seq(11, k requires 0 <= k < 11 => ClaimAt(k)), _ => Some(["0"]), [], "k8up.io/backupcommand")
  }

  function ClaimAt(k: nat): Claim {
    Claim("v" + Itoa(k), map[], if k == 1 then map["k8up.io/args" := "0"] else map[], true, [ReadWriteMany], "")
  }

  lemma ItemAt(p: Planning, k: nat)
    requires p == ElevenClaims()
    ensures Selected(p.env, ClaimAt(k), p.parse)
    ensures ItemOf(p.env, ClaimAt(k), p.parse) == BackupItem("v" + Itoa(k), "", [], "", if k == 1 then ["0"] else [])
  {
    var c := ClaimAt(k);
    assert ReadWriteMany in c.accessModes && ReadWriteOnce !in c.accessModes;
    assert "k8up.io/args" in c.annotations <==> k == 1;
    assert "k8up.io/args"[8] != "k8up.io/backup"[8] && HostnameAnnotation[8] != "k8up.io/args"[8];
  }

  lemma {:induction false} FirstItems(p: Planning, n: nat)
    requires p == ElevenClaims() && n <= 11
    ensures Items(p.env, p.claims[..n], p.parse) == Named(11, 1, ["0"])[..n]
  {
    if n > 0 {
      FirstItems(p, n - 1);
      ItemAt(p, n - 1);
      assert p.claims[..n][..n - 1] == p.claims[..n - 1] && p.claims[..n][n - 1] == ClaimAt(n - 1);
      assert Named(11, 1, ["0"])[..n] == Named(11, 1, ["0"])[..n - 1] + [Named(11, 1, ["0"])[n - 1]];
    }
  }

  lemma ElevenAreSensible(p: Planning)
    requires p == ElevenClaims()
    ensures Sensible(p)
  {
    var items := Named(11, 1, ["0"]);
    NamedAreDistinct(11, 1, ["0"]);
    assert forall k :: 0 <= k < 11 ==> p.claims[k].name == items[k].volume;
  }

  lemma ElevenItems(p: Planning)
    requires p == ElevenClaims()
    ensures ItemsFor(p) == Named(11, 1, ["0"]) && p.env.relaxed
  {
    FirstItems(p, 11);
    assert p.claims[..11] == p.claims && Named(11, 1, ["0"])[..11] == Named(11, 1, ["0"]);
  }

  lemma RelaxedKeyIsPlanned(p: Planning, i: nat)
    requires p.env.relaxed && i < |ItemsFor(p)|
    ensures ItemKey(true, ItemsFor(p), i) in PlanFor(p)
  {
    RelaxedGroupsOf(p.backup, ItemsFor(p), |ItemsFor(p)|);
    assert LastOf(ItemsFor(p), |ItemsFor(p)|, ItemKey(true, ItemsFor(p), i)).Some?;
  }

  lemma KeysDiffer(items: seq<BackupItem>)
    requires |items| > 2 && items[0].args == [] && items[2].args == []
    ensures ItemKey(true, items, 0) != ItemKey(true, items, 2)
  {
    assert ItemKey(true, items, 0)[0] == Digit(0) && ItemKey(true, items, 2)[0] == Digit(2);
  }

  /** Such claims: their plan loses the second, and has two jobs. */
  lemma ElevenClaimsCollide() returns (p: Planning, one: string, other: string)
    ensures Sensible(p) && !KeysKeep(p)
    ensures one in PlanFor(p) && other in PlanFor(p) && one != other
  {
    p := ElevenClaims();
    ElevenAreSensible(p);
    ElevenItems(p);
    RelaxedKeysCanCollide(p.backup, TargetsFor(p));
    KeysDiffer(ItemsFor(p));
    RelaxedKeyIsPlanned(p, 0);
    RelaxedKeyIsPlanned(p, 2);
    one, other := ItemKey(true, ItemsFor(p), 0), ItemKey(true, ItemsFor(p), 2);
  }
}
