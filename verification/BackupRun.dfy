/**
  The life of one Backup object: its reconciles (`Provision` in
  operator/backupcontroller/controller.go and `startBackup` in executor.go), interleaved with its
  batch jobs making progress or disappearing and its pre-backup deployments changing.

  Reads are fresh and one reconcile runs at a time. A batch job keeps a verdict once it has one.
 */
module BackupRun {
  import opened Wrappers
  import opened JobStatus
  import opened BatchJobs
  import opened BackupVerdict
  import opened PreBackup
  import opened Planner
  import opened Volumes
  import opened PodTargets

  /** A batch job of the backup: `sleep` is the delay its container is told to wait, in seconds. */
  datatype CreatedJob = CreatedJob(plan: PlannedJob, sleep: Option<nat>, conditions: JobConditions)

  /**
    The cluster and the counters. `gone` are the jobs of the last creation loop that have disappeared;
    `selected` and `targeted` are the volumes and the pods that loop set out to back up, and
    `creations` is the number of such loops.
   */
  datatype World = World(
    scene: Scene,
    jobs: seq<CreatedJob>,
    gone: seq<CreatedJob>,
    metrics: Metrics,
    selected: set<string>,
    targeted: set<string>,
    creations: nat,
    failedWrites: nat)

  /** What the items and the plan of a reconcile are made from. */
  datatype Planning = Planning(
    backup: string,
    env: Env,
    claims: seq<Claim>,
    parse: string -> Option<seq<string>>,
    candidates: seq<Pod>,
    command: string)

  /** The API server keeps claim and pod names unique, and the candidates are pods of the namespace. */
  predicate Sensible(p: Planning) {
    DistinctClaims(p.claims) && Candidates(p.env.pods, p.candidates)
  }

  function ItemsFor(p: Planning): seq<BackupItem> {
    Items(p.env, p.claims, p.parse)
  }

  function TargetsFor(p: Planning): seq<string> {
    Names(Keep(p.candidates, ViableNames(p.env.pods, p.command)))
  }

  function PlanFor(p: Planning): Plan {
    PlanOf(p.backup, p.env.relaxed, ItemsFor(p), TargetsFor(p))
  }

  /**
    What one reconcile meets: how its calls are answered, the matching PreBackupPod templates, what
    it plans from, and the order in which it walks the plan.
   */
  datatype Answers = Answers(
    listOk: bool,
    statusWriteOk: bool,
    admitted: bool,
    accountsOk: bool,
    cleanupListOk: bool,
    cleanupDeleteOk: bool,
    templates: seq<string>,
    calls: Calls,
    podsOk: bool,
    claimsOk: bool,
    viableOk: bool,
    candidatesOk: bool,
    planning: Planning,
    order: seq<string>,
    creatable: nat)

  predicate Walks(order: seq<string>, plan: Plan) {
    && (forall key :: key in plan ==> key in order)
    && (forall key :: key in order ==> key in plan)
    && (forall i, k :: 0 <= i < k < |order| ==> order[i] != order[k])
  }

  predicate Planned(a: Answers) {
    Sensible(a.planning) && Walks(a.order, PlanFor(a.planning))
  }

  function Conditions(jobs: seq<CreatedJob>): (r: seq<JobConditions>)
    ensures |r| == |jobs| && forall i :: 0 <= i < |jobs| ==> r[i] == jobs[i].conditions
  {
    seq(|jobs|, i requires 0 <= i < |jobs| => jobs[i].conditions)
  }

  function VolumeNames(items: seq<BackupItem>): set<string> {
    set b | b in items :: b.volume
  }

  /** The k-th job of the creation loop: every job starts ten seconds after the one before it. */
  function JobAt(plan: Plan, order: seq<string>, k: nat): CreatedJob
    requires k < |order| && order[k] in plan
  {
    CreatedJob(plan[order[k]], if order[k] == PreBackupKey || k != 0 then Some(10 * k) else None, [])
  }

  function JobsUpTo(plan: Plan, order: seq<string>, n: nat): (r: seq<CreatedJob>)
    requires n <= |order| && forall key :: key in order ==> key in plan
    ensures |r| == n && forall k :: 0 <= k < n ==> r[k] == JobAt(plan, order, k)
  {
    seq(n, k requires 0 <= k < n => JobAt(plan, order, k))
  }

  /** The delay after which a created job starts its work. */
  function Delay(j: CreatedJob): nat {
    if j.sleep.Some? then j.sleep.value else 0
  }

  /** startBackup, once there is a plan; the creation loop stops at the first failing call. */
  function CreateFrom(w: World, plan: Plan, order: seq<string>, creatable: nat, items: seq<BackupItem>, targets: seq<string>): World
    requires Walks(order, plan)
  {
    var w := w.(
      jobs := w.jobs + JobsUpTo(plan, order, Min(creatable, |order|)),
      gone := [],
      selected := VolumeNames(items),
      targeted := (set t | t in targets),
      creations := w.creations + 1);
    if |order| == 0 then w.(scene := w.scene.(status := w.scene.status.Succeeded())) else w
  }

  function CreateAll(w: World, a: Answers): World
    requires Planned(a)
  {
    CreateFrom(w, PlanFor(a.planning), a.order, a.creatable, ItemsFor(a.planning), TargetsFor(a.planning))
  }

  function ExecuteStep(w: World, a: Answers): World
    requires Planned(a)
  {
    if !a.accountsOk then w
    else
      var r := Start(w.scene, a.templates, a.calls);
      var w := w.(scene := r.scene);
      if !r.ok || !r.ready || r.scene.status.IsWaitingForPreBackup() then w
      else if !(a.podsOk && a.claimsOk) then
        w.(scene := r.scene.(status := r.scene.status.With(Ready, False, ReasonRetrievalFailed)))
      else if !(a.viableOk && a.candidatesOk) then w
      else CreateAll(w, a)
  }

  /** Whether Execute returns without an error. */
  predicate ExecuteOk(w: World, a: Answers) {
    a.accountsOk &&
    var r := Start(w.scene, a.templates, a.calls);
    r.ok && (r.ready && !r.scene.status.IsWaitingForPreBackup() ==> StartOk(a))
  }

  /** Whether the part of startBackup after the pre-backup does. */
  predicate StartOk(a: Answers) {
    a.podsOk && a.claimsOk && a.viableOk && a.candidatesOk && a.creatable >= |a.order|
  }

  /** Cleanup of old backups, as far as this object's status goes; skipped once it has succeeded. */
  function Scrub(s: Status, a: Answers): Status {
    var c := s.Get(Scrubbed);
    if c.Some? && c.value.reason == ReasonSucceeded then s
    else if !a.cleanupListOk then s.With(Scrubbed, False, ReasonRetrievalFailed)
    else if !a.cleanupDeleteOk then s.With(Scrubbed, False, ReasonDeletionFailed)
    else s.With(Scrubbed, True, ReasonSucceeded)
  }

  predicate PrebackupFailed(s: Status) {
    var c := s.Get(PreBackupPodReady);
    c.Some? && (c.value.reason == ReasonFailed || c.value.reason == ReasonRetrievalFailed)
  }

  /** Whether the object is looked at again: an error is retried like a requeue. */
  datatype Outcome = Done | Requeue | Error

  function ObservedTally(w: World): Tally {
    Record(Tally(w.scene.status, w.metrics), VerdictOf(Conditions(w.jobs)))
  }

  /** The part of Provision after the job status was reconciled. */
  function Decide(w: World, a: Answers): (World, Outcome)
    requires Planned(a)
  {
    var s := w.scene.status;
    if s.HasStarted() then (w, Requeue)
    else if s.HasFinished() || PrebackupFailed(s) then
      var scene := w.scene.(status := Scrub(s, a));
      if StopIsDone(scene.status) then (w.(scene := scene), Done)
      else (w.(scene := Stop(scene, a.templates, a.calls)), Requeue)
    else if !a.admitted then (w, Requeue)
    else (ExecuteStep(w, a), if ExecuteOk(w, a) then Requeue else Error)
  }

  /** The world once the verdict of the jobs is written. */
  function Observed(w: World): World {
    var t := ObservedTally(w);
    w.(scene := w.scene.(status := t.status), metrics := t.metrics)
  }

  /** Looking at the jobs and writing the status; false stands for the error return. */
  function ReconcileStep(w: World, a: Answers): (World, bool) {
    if !a.listOk then (w, false)
    else if w.jobs == [] then (w, true)
    else if !a.statusWriteOk then (w.(metrics := ObservedTally(w).metrics, failedWrites := w.failedWrites + 1), false)
    else (Observed(w), true)
  }

  function ProvisionStep(w: World, a: Answers): (World, Outcome)
    requires Planned(a)
  {
    var (w', ok) := ReconcileStep(w, a);
    if ok then Decide(w', a) else (w', Error)
  }

  // ---- Runs ----

  datatype Step =
    | Reconcile(answers: Answers)
    | JobsProgress(conditions: seq<JobConditions>)
    | JobDisappears(index: nat)
    | DeploymentsChange(deployments: map<string, Deployment>)

  predicate Enabled(w: World, s: Step) {
    match s
    case Reconcile(a) => Planned(a)
    case JobsProgress(cs) => AllWellFormed(cs) && JobsKeep(Conditions(w.jobs), cs)
    case JobDisappears(i) => i < |w.jobs|
    case DeploymentsChange(_) => true
  }

  function Remaining(jobs: seq<CreatedJob>, i: nat): seq<CreatedJob>
    requires i < |jobs|
  {
    jobs[..i] + jobs[i + 1..]
  }

  function Progressed(jobs: seq<CreatedJob>, cs: seq<JobConditions>): (r: seq<CreatedJob>)
    requires |jobs| == |cs|
    ensures |r| == |jobs| && forall i :: 0 <= i < |r| ==> r[i] == jobs[i].(conditions := cs[i])
  {
    seq(|jobs|, i requires 0 <= i < |jobs| => jobs[i].(conditions := cs[i]))
  }

  function Apply(w: World, s: Step): World
    requires Enabled(w, s)
  {
    match s
    case Reconcile(a) => ProvisionStep(w, a).0
    case JobsProgress(cs) => w.(jobs := Progressed(w.jobs, cs))
    case JobDisappears(i) => w.(jobs := Remaining(w.jobs, i), gone := w.gone + [w.jobs[i]])
    case DeploymentsChange(ds) => w.(scene := w.scene.(deployments := ds))
  }

  predicate Legal(w: World, run: seq<Step>)
    decreases run
  {
    run == [] || (Enabled(w, run[0]) && Legal(Apply(w, run[0]), run[1..]))
  }

  function After(w: World, run: seq<Step>): World
    requires Legal(w, run)
    decreases run
  {
    if run == [] then w else After(Apply(w, run[0]), run[1..])
  }

  lemma {:induction false} RunConcat(w: World, a: seq<Step>, b: seq<Step>)
    requires Legal(w, a) && Legal(After(w, a), b)
    ensures Legal(w, a + b) && After(w, a + b) == After(After(w, a), b)
    decreases a
  {
    if a == [] {
      assert a + b == b;
    } else {
      assert (a + b)[1..] == a[1..] + b;
      RunConcat(Apply(w, a[0]), a[1..], b);
    }
  }

  predicate Initial(w: World) {
    && w.scene.status == Fresh && w.scene.stopped == []
    && w.jobs == [] && w.gone == [] && w.selected == {} && w.targeted == {}
    && w.creations == 0 && w.failedWrites == 0
    && w.metrics.Balanced()
  }

  // ---- What every state satisfies ----

  const CompletedSucceeded := Some(Condition(Completed, True, ReasonSucceeded))
  const CompletedFailed := Some(Condition(Completed, True, ReasonFailed))

  function OnRecord(w: World): Option<Condition> {
    w.scene.status.Get(Completed)
  }

  predicate AllPresentSucceeded(w: World) {
    forall j :: j in w.jobs ==> JobSucceeded(j.conditions)
  }

  /** The pre-backup condition of a backup that has jobs or a verdict. */
  predicate SettledPreBackup(s: Status) {
    s.Get(PreBackupPodReady) in {
      Some(Condition(PreBackupPodReady, True, ReasonReady)),
      Some(Condition(PreBackupPodReady, True, ReasonNoPreBackupPodsFound)),
      Some(Condition(PreBackupPodReady, True, ReasonFinished)),
      Some(Condition(PreBackupPodReady, False, ReasonRetrievalFailed))}
  }

  /** "Finished" was written by a stop that issued a delete for each deployment it listed. */
  predicate StopAccounted(s: Scene) {
    var c := s.status.Get(PreBackupPodReady);
    c.Some? && c.value.reason == ReasonFinished ==> s.stopped != [] && (set n | n in s.stopped) <= s.issued
  }

  /** A recorded success is that of all jobs still there, or there was nothing to back up. */
  predicate VerdictRecorded(w: World) {
    var v := OnRecord(w);
    && (v == None || v == CompletedSucceeded || v == CompletedFailed)
    && (v == CompletedSucceeded ==> AllPresentSucceeded(w) && !w.scene.status.HasStarted())
    && (v.Some? && w.jobs == [] && w.gone == [] ==> v == CompletedSucceeded && w.selected == {} && w.targeted == {})
  }

  predicate Inv(w: World) {
    && AllWellFormed(Conditions(w.jobs))
    && (w.jobs != [] || OnRecord(w).Some? ==> SettledPreBackup(w.scene.status))
    && (w.jobs != [] && w.scene.status.HasFailedPreBackup() ==> OnRecord(w).Some?)
    && VerdictRecorded(w)
    && StopAccounted(w.scene)
  }

  lemma NewJobsAreStarted(plan: Plan, order: seq<string>, n: nat)
    requires n <= |order| && forall key :: key in order ==> key in plan
    ensures AllWellFormed(Conditions(JobsUpTo(plan, order, n)))
  {
    forall c | c in Conditions(JobsUpTo(plan, order, n))
      ensures WellFormed(c)
    {
      assert c == [];
    }
  }

  lemma WorkIsPlanned(p: Planning) returns (key: string)
    requires ItemsFor(p) != [] || TargetsFor(p) != []
    ensures key in PlanFor(p)
  {
    if TargetsFor(p) != [] {
      key := PreBackupKey;
    } else {
      GroupsOfMean(p.backup, p.env.relaxed, ItemsFor(p));
      key := ItemKey(p.env.relaxed, ItemsFor(p), 0);
    }
  }

  /** When the planner's walk is empty there was nothing to plan. */
  lemma EmptyPlan(a: Answers)
    requires Planned(a) && |a.order| == 0
    ensures ItemsFor(a.planning) == [] && TargetsFor(a.planning) == []
  {
    if ItemsFor(a.planning) != [] || TargetsFor(a.planning) != [] {
      var key := WorkIsPlanned(a.planning);
    }
  }

  lemma CreateKeeps(w: World, a: Answers)
    requires Inv(w) && Planned(a) && w.jobs == [] && OnRecord(w).None? && !w.scene.status.HasStarted()
    requires w.scene.status.Get(PreBackupPodReady) == Some(ReadyMark(a.templates))
    ensures Inv(CreateAll(w, a))
  {
    var plan, n := PlanFor(a.planning), Min(a.creatable, |a.order|);
    NewJobsAreStarted(plan, a.order, n);
    assert [] + JobsUpTo(plan, a.order, n) == CreateAll(w, a).jobs;
    if |a.order| == 0 {
      EmptyPlan(a);
      assert w.scene.status.Succeeded().Get(PreBackupPodReady) == w.scene.status.Get(PreBackupPodReady);
    }
  }

  /** Jobs are created only for a backup without jobs and without a verdict. */
  lemma ExecuteKeeps(w: World, a: Answers)
    requires Inv(w) && Planned(a) && w.jobs == [] && OnRecord(w).None? && !w.scene.status.HasStarted()
    ensures Inv(ExecuteStep(w, a))
  {
    StartMeans(w.scene, a.templates, a.calls);
    StartAccounts(w.scene, a.templates, a.calls);
    var r := Start(w.scene, a.templates, a.calls);
    var w1 := w.(scene := r.scene);
    assert r.scene.status.Get(Completed) == w.scene.status.Get(Completed);
    assert r.scene.status.Get(Progressing) == w.scene.status.Get(Progressing);
    if r.ready {
      CreateKeeps(w1, a);
    }
  }

  /** A start never writes "finished". */
  lemma StartAccounts(s: Scene, templates: seq<string>, c: Calls)
    requires StopAccounted(s)
    ensures StopAccounted(Start(s, templates, c).scene)
  {
    StartMeans(s, templates, c);
    EnsureAllCovers(s, templates, c);
    EnsureAllMarks(s, templates, c);
    if c.templatesOk && templates != [] && EnsureAll(s, templates, c).1 {
      CheckAllMeans(EnsureAll(s, templates, c).0, templates, c);
    }
  }

  lemma {:induction false} EnsureAllMarks(s: Scene, names: seq<string>, c: Calls)
    ensures var p := EnsureAll(s, names, c).0.status.Get(PreBackupPodReady);
            p == s.status.Get(PreBackupPodReady) || (p.Some? && p.value.reason in {ReasonRetrievalFailed, ReasonCreationFailed})
    decreases names
  {
    if names != [] && names[0] !in c.getFails {
      if names[0] in s.deployments {
        EnsureAllMarks(s, names[1..], c);
      } else if names[0] !in c.createFails {
        EnsureAllMarks(s.(deployments := s.deployments[names[0] := Deployment([], 0)]), names[1..], c);
      }
    }
  }

  /** The scene once a finished backup was cleaned up, and stopped unless that was done before. */
  function Closing(w: World, a: Answers): Scene {
    var scene := w.scene.(status := Scrub(w.scene.status, a));
    if StopIsDone(scene.status) then scene else Stop(scene, a.templates, a.calls)
  }

  /** What cleaning up and stopping leaves of the status. */
  lemma ClosingMeans(w: World, a: Answers)
    ensures var before, after := w.scene.status, Closing(w, a).status;
            && after.Get(Completed) == before.Get(Completed) && after.Get(Progressing) == before.Get(Progressing)
            && after.Get(PreBackupPodReady) ==
               (if StopIsDone(before) then before.Get(PreBackupPodReady)
                else if !a.calls.templatesOk then Some(Condition(PreBackupPodReady, False, ReasonRetrievalFailed))
                else Some(Condition(PreBackupPodReady, True, if a.templates == [] then ReasonNoPreBackupPodsFound else ReasonFinished)))
            && (StopAccounted(w.scene) ==> StopAccounted(Closing(w, a)))
  {
    var scene := w.scene.(status := Scrub(w.scene.status, a));
    assert forall t :: t != Scrubbed ==> scene.status.Get(t) == w.scene.status.Get(t);
    StopMeans(scene, a.templates, a.calls);
    var c := scene.status.Get(PreBackupPodReady);
    assert c == w.scene.status.Get(PreBackupPodReady);
  }

  /** The decision about a backup that is finished or whose pre-backup failed. */
  lemma DecideCloses(w: World, a: Answers)
    requires Planned(a) && !w.scene.status.HasStarted() && (w.scene.status.HasFinished() || PrebackupFailed(w.scene.status))
    ensures Decide(w, a) == (w.(scene := Closing(w, a)), if StopIsDone(w.scene.status) then Done else Requeue)
  {
    assert forall t :: t != Scrubbed ==> Scrub(w.scene.status, a).Get(t) == w.scene.status.Get(t);
  }

  lemma DecideKeeps(w: World, a: Answers)
    requires Inv(w) && Planned(a)
    requires w.jobs != [] ==> w.scene.status.HasStarted() || OnRecord(w).Some?
    ensures Inv(Decide(w, a).0)
  {
    var s := w.scene.status;
    if s.HasStarted() {
    } else if s.HasFinished() || PrebackupFailed(s) {
      ClosingMeans(w, a);
      DecideCloses(w, a);
    } else if a.admitted {
      ExecuteKeeps(w, a);
    }
  }

  /** The decision about a backup with a verdict on record that is not started. */
  lemma RecordedDecides(w: World, a: Answers)
    requires Inv(w) && Planned(a) && OnRecord(w).Some? && !w.scene.status.HasStarted()
    ensures var (w', outcome) := Decide(w, a);
            && w'.jobs == w.jobs && OnRecord(w') == OnRecord(w) && !w'.scene.status.HasStarted()
            && w'.scene.status.Get(PreBackupPodReady) == Closing(w, a).status.Get(PreBackupPodReady)
            && (outcome == Done <==> StopIsDone(w.scene.status))
  {
    ClosingMeans(w, a);
    DecideCloses(w, a);
  }

  /** What a look at the jobs writes. */
  lemma ObservedMeans(w: World)
    requires Inv(w) && w.jobs != []
    ensures var s, v := Observed(w).scene.status, VerdictOf(Conditions(w.jobs));
            && v in {AllSucceeded, SomeFailed, SomeStarted}
            && (v == AllSucceeded <==> AllPresentSucceeded(w))
            && s.Get(PreBackupPodReady) == w.scene.status.Get(PreBackupPodReady)
            && (s.HasStarted() <==> v == SomeStarted)
            && s.Get(Completed) == (if v == AllSucceeded then CompletedSucceeded
                                    else if v == SomeFailed then CompletedFailed
                                    else OnRecord(w))
  {
    VerdictMeans(Conditions(w.jobs));
    PresentConditions(w);
    RecordMeans(Tally(w.scene.status, w.metrics), VerdictOf(Conditions(w.jobs)));
  }

  lemma PresentConditions(w: World)
    ensures AllPresentSucceeded(w) <==> forall c :: c in Conditions(w.jobs) ==> JobSucceeded(c)
  {
    var cs := Conditions(w.jobs);
    if forall c :: c in cs ==> JobSucceeded(c) {
      forall j | j in w.jobs
        ensures JobSucceeded(j.conditions)
      {
        var i :| 0 <= i < |w.jobs| && w.jobs[i] == j;
        assert cs[i] in cs;
      }
    }
  }

  lemma RecordMeans(t: Tally, v: Verdict)
    requires v in {AllSucceeded, SomeFailed, SomeStarted}
    ensures var s := Record(t, v).status;
            && s.Get(PreBackupPodReady) == t.status.Get(PreBackupPodReady)
            && (s.HasStarted() <==> v == SomeStarted)
            && s.Get(Completed) == (if v == AllSucceeded then CompletedSucceeded
                                    else if v == SomeFailed then CompletedFailed
                                    else t.status.Get(Completed))
  {
    var s := t.status;
    match v
    case AllSucceeded =>
      assert s.Succeeded().Finished().Get(PreBackupPodReady) == s.Get(PreBackupPodReady);
      assert s.Succeeded().Finished().Get(Completed) == CompletedSucceeded;
    case SomeFailed =>
      assert s.Failed().Finished().Get(PreBackupPodReady) == s.Get(PreBackupPodReady);
      assert s.Failed().Finished().Get(Completed) == CompletedFailed;
    case SomeStarted =>
      assert s.Started().Get(Completed) == s.Get(Completed);
  }

  /** After the jobs were looked at, a backup that has jobs is started or has a verdict. */
  lemma ObservedKeeps(w: World)
    requires Inv(w) && w.jobs != []
    ensures Inv(Observed(w))
    ensures Observed(w).scene.status.HasStarted() || OnRecord(Observed(w)).Some?
  {
    ObservedMeans(w);
  }

  lemma ProgressKeeps(w: World, cs: seq<JobConditions>)
    requires Inv(w) && Enabled(w, JobsProgress(cs))
    ensures Inv(Apply(w, JobsProgress(cs)))
    ensures Conditions(Apply(w, JobsProgress(cs)).jobs) == cs
  {
    var w' := Apply(w, JobsProgress(cs));
    assert Conditions(w'.jobs) == cs;
    if AllPresentSucceeded(w) {
      forall j | j in w'.jobs
        ensures JobSucceeded(j.conditions)
      {
        var i :| 0 <= i < |w'.jobs| && w'.jobs[i] == j;
        assert w.jobs[i] in w.jobs && KeepsVerdict(Conditions(w.jobs)[i], cs[i]);
      }
    }
  }

  lemma RemainingJobs(jobs: seq<CreatedJob>, i: nat)
    requires i < |jobs|
    ensures forall j :: j in Remaining(jobs, i) ==> j in jobs
    ensures forall c :: c in Conditions(Remaining(jobs, i)) ==> c in Conditions(jobs)
  {
    var rest := Remaining(jobs, i);
    forall c | c in Conditions(rest)
      ensures c in Conditions(jobs)
    {
      var k :| 0 <= k < |rest| && rest[k].conditions == c;
      assert Conditions(jobs)[if k < i then k else k + 1] == c;
    }
  }

  lemma StepKeeps(w: World, s: Step)
    requires Inv(w) && Enabled(w, s)
    ensures Inv(Apply(w, s))
  {
    match s
    case Reconcile(a) =>
      if a.listOk && w.jobs == [] {
        DecideKeeps(w, a);
      } else if a.listOk {
        ObservedKeeps(w);
        if a.statusWriteOk {
          DecideKeeps(Observed(w), a);
        }
      }
    case JobsProgress(cs) => ProgressKeeps(w, cs);
    case JobDisappears(i) => RemainingJobs(w.jobs, i);
    case DeploymentsChange(_) =>
  }

  lemma {:induction false} RunKeeps(w: World, run: seq<Step>)
    requires Inv(w) && Legal(w, run)
    ensures Inv(After(w, run))
    decreases run
  {
    if run != [] {
      StepKeeps(w, run[0]);
      RunKeeps(Apply(w, run[0]), run[1..]);
    }
  }

  // ---- Jobs are created only when the pre-backup is ready ----

  /** What is true of a reconcile that creates a job, or finds that there is none to create. */
  predicate MayCreate(w: World, w': World, a: Answers) {
    && w.jobs == [] && !w.scene.status.HasStarted() && !w.scene.status.HasFinished()
    && a.listOk && a.admitted && a.calls.templatesOk
    && (a.templates == [] || Usable(w'.scene, a.templates))
  }

  lemma DecideCreates(w: World, a: Answers)
    requires Planned(a)
    ensures var w' := Decide(w, a).0;
            && (w'.jobs != w.jobs ==> w'.creations > w.creations)
            && (w'.creations > w.creations ==>
                  a.admitted && a.calls.templatesOk && (a.templates == [] || Usable(w'.scene, a.templates))
                  && !w.scene.status.HasStarted() && !w.scene.status.HasFinished())
  {
    StartMeans(w.scene, a.templates, a.calls);
  }

  lemma CreatesOnlyWhenReady(w: World, a: Answers)
    requires Inv(w) && Planned(a)
    ensures var w' := ProvisionStep(w, a).0;
            && (w'.jobs != w.jobs ==> w'.creations > w.creations)
            && (w'.creations > w.creations ==> MayCreate(w, w', a))
  {
    if w.jobs != [] {
      ObservedKeeps(w);
      DecideCreates(Observed(w), a);
    } else {
      DecideCreates(w, a);
    }
  }

  /**
    In every reachable state: a reconcile creates jobs only for a backup that has none and is neither
    started nor finished, and only when no PreBackupPod template matched or every deployment
    generated from the templates was available and none past its deadline.
   */
  lemma JobsOnlyWhenReady(w: World, run: seq<Step>, a: Answers)
    requires Initial(w) && Legal(w, run) && Planned(a)
    ensures var now := After(w, run);
            var next := ProvisionStep(now, a).0;
            next.jobs != now.jobs ==> MayCreate(now, next, a)
  {
    RunKeeps(w, run);
    CreatesOnlyWhenReady(After(w, run), a);
  }

  /** The reconcile finds a backup that is still to be started: no jobs, neither started nor finished. */
  predicate Unstarted(w: World) {
    w.jobs == [] && !w.scene.status.HasStarted() && !w.scene.status.HasFinished() && !PrebackupFailed(w.scene.status)
  }

  /** A pre-backup that is ready: the templates can be listed, and there is none or every deployment is had and usable. */
  predicate GetsReady(s: Scene, a: Answers) {
    a.calls.templatesOk &&
    (a.templates == [] || (EnsureAll(s, a.templates, a.calls).1 && Usable(Start(s, a.templates, a.calls).scene, a.templates)))
  }

  /**
    Exactly when a reconcile comes to creating jobs: for a backup still to be started, when the
    locker admits it, its pre-backup gets ready, and no listing on the way fails.
   */
  lemma CreatesExactly(w: World, a: Answers)
    requires Inv(w) && Planned(a)
    ensures ProvisionStep(w, a).0.creations > w.creations <==>
            && Unstarted(w) && a.listOk && a.admitted && a.accountsOk && GetsReady(w.scene, a)
            && a.podsOk && a.claimsOk && a.viableOk && a.candidatesOk
    ensures ProvisionStep(w, a).0.creations > w.creations ==> |ProvisionStep(w, a).0.jobs| == Min(a.creatable, |a.order|)
  {
    StartMeans(w.scene, a.templates, a.calls);
    if w.jobs != [] {
      CreatesOnlyWhenReady(w, a);
    } else if Unstarted(w) && a.listOk && a.admitted {
      ExecutesExactly(w, a);
    }
  }

  lemma ExecutesExactly(w: World, a: Answers)
    requires Planned(a) && w.jobs == []
    ensures ExecuteStep(w, a).creations > w.creations <==>
            a.accountsOk && GetsReady(w.scene, a) && a.podsOk && a.claimsOk && a.viableOk && a.candidatesOk
    ensures ExecuteStep(w, a).creations > w.creations ==> |ExecuteStep(w, a).jobs| == Min(a.creatable, |a.order|)
    ensures a.accountsOk && GetsReady(w.scene, a) && !(a.podsOk && a.claimsOk) ==>
            ExecuteStep(w, a).scene.status.Get(Ready) == Some(Condition(Ready, False, ReasonRetrievalFailed))
  {
    StartMeans(w.scene, a.templates, a.calls);
  }

  /**
    Starting a backup returns an error if and only if the accounts, the templates or a deployment
    cannot be had, or, once the pre-backup is ready, a listing or a creation call fails.
   */
  lemma ExecuteErrs(w: World, a: Answers)
    requires Planned(a)
    ensures !ExecuteOk(w, a) <==>
            || !a.accountsOk || !a.calls.templatesOk
            || (a.templates != [] && !EnsureAll(w.scene, a.templates, a.calls).1)
            || (GetsReady(w.scene, a) && !(a.podsOk && a.claimsOk && a.viableOk && a.candidatesOk && a.creatable >= |a.order|))
  {
    StartMeans(w.scene, a.templates, a.calls);
    if !Start(w.scene, a.templates, a.calls).ready {
      StartFallsShort(w.scene, a.templates, a.calls);
    }
  }

  /**
    What a reconcile asks for: an error if and only if listing the jobs, writing their verdict or
    starting the backup failed; nothing more if and only if the backup is finished, or its pre-backup
    failed, and the pre-backup deployments were stopped before; a requeue otherwise.
   */
  lemma OutcomeMeans(w: World, a: Answers)
    requires Planned(a)
    ensures var (seen, ok) := ReconcileStep(w, a);
            var s, outcome := seen.scene.status, ProvisionStep(w, a).1;
            var over := s.HasFinished() || PrebackupFailed(s);
            && (ok <==> a.listOk && (w.jobs == [] || a.statusWriteOk))
            && (outcome == Error <==> !ok || (!s.HasStarted() && !over && a.admitted && !ExecuteOk(seen, a)))
            && (outcome == Done <==> ok && !s.HasStarted() && over && StopIsDone(s))
  {
    var seen := ReconcileStep(w, a).0;
    assert forall t :: t != Scrubbed ==> Scrub(seen.scene.status, a).Get(t) == seen.scene.status.Get(t);
  }

  /** In fields: the reasons that end a backup's reconciles, and those that mark its pre-backup as failed. */
  lemma ReasonsMean(s: Status)
    ensures StopIsDone(s) <==> exists st, r :: s.Get(PreBackupPodReady) == Some(Condition(PreBackupPodReady, st, r))
                                               && (r == ReasonFinished || r == ReasonFailed || r == ReasonNoPreBackupPodsFound)
    ensures PrebackupFailed(s) <==> exists st, r :: s.Get(PreBackupPodReady) == Some(Condition(PreBackupPodReady, st, r))
                                                    && (r == ReasonFailed || r == ReasonRetrievalFailed)
  {
    var c := s.Get(PreBackupPodReady);
    if c.Some? {
      assert c == Some(Condition(PreBackupPodReady, c.value.status, c.value.reason));
    }
  }

  /** Cleanup ends in Scrubbed: true once listing and deletions succeeded, and then not tried again. */
  lemma ScrubMeans(s: Status, a: Answers)
    ensures var c, c' := s.Get(Scrubbed), Scrub(s, a).Get(Scrubbed);
            && (c.Some? && c.value.reason == ReasonSucceeded ==> c' == c)
            && (!(c.Some? && c.value.reason == ReasonSucceeded) ==>
                  c' == Some(Condition(Scrubbed, if a.cleanupListOk && a.cleanupDeleteOk then True else False,
                                       if !a.cleanupListOk then ReasonRetrievalFailed
                                       else if !a.cleanupDeleteOk then ReasonDeletionFailed else ReasonSucceeded)))
    ensures forall t :: t != Scrubbed ==> Scrub(s, a).Get(t) == s.Get(t)
  {
  }

  /** The jobs of one creation loop start one after the other, ten seconds apart, the first at once. */
  lemma StaggeredStarts(plan: Plan, order: seq<string>, n: nat, i: nat, k: nat)
    requires Walks(order, plan) && n <= |order| && i < k < n
    ensures Delay(JobsUpTo(plan, order, n)[k]) - Delay(JobsUpTo(plan, order, n)[i]) == 10 * (k - i)
    ensures Delay(JobsUpTo(plan, order, n)[0]) == 0
  {
    var jobs := JobsUpTo(plan, order, n);
    assert jobs[i] == JobAt(plan, order, i) && jobs[k] == JobAt(plan, order, k) && jobs[0] == JobAt(plan, order, 0);
  }
}
