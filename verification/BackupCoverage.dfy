/**
  What a successful Backup has backed up: the volumes and the pods its creation loop set out for
  (`startBackup` in operator/backupcontroller/executor.go), followed through every later run.
 */
module BackupCoverage {
  import opened Wrappers
  import opened BatchJobs
  import opened PreBackup
  import opened Planner
  import opened Volumes
  import opened PodTargets
  import opened BackupRun

  /** The job runs the backup command of the pod. */
  predicate RunsCommand(j: PlannedJob, pod: string) {
    !j.skipPreBackup && pod in j.targetPods
  }

  /** The jobs of the last creation loop, there or gone. */
  function Plans(w: World): set<PlannedJob> {
    set j | j in w.jobs + w.gone :: j.plan
  }

  /** Every volume and every pod the creation loop set out for has a job. */
  predicate Covered(w: World) {
    && (forall v :: v in w.selected ==> exists j :: j in Plans(w) && v in j.volumes)
    && (forall t :: t in w.targeted ==> exists j :: j in Plans(w) && RunsCommand(j, t))
  }

  // ---- Nothing but a creation loop changes what is covered ----

  predicate SameWork(w: World, w': World) {
    Plans(w') == Plans(w) && w'.selected == w.selected && w'.targeted == w.targeted
  }

  lemma DecideSameWork(w: World, a: Answers)
    requires Planned(a) && Decide(w, a).0.creations == w.creations
    ensures var w' := Decide(w, a).0;
            w'.jobs == w.jobs && w'.gone == w.gone && w'.selected == w.selected && w'.targeted == w.targeted
  {
  }

  lemma StepSameWork(w: World, s: Step)
    requires Enabled(w, s) && Apply(w, s).creations == w.creations
    ensures SameWork(w, Apply(w, s))
  {
    match s
    case Reconcile(a) =>
      var (w1, ok) := ReconcileStep(w, a);
      if ok {
        DecideSameWork(w1, a);
      }
    case JobsProgress(cs) => ProgressSameWork(w, cs);
    case JobDisappears(i) => DeletionSameWork(w, i);
    case DeploymentsChange(_) =>
  }

  lemma ProgressSameWork(w: World, cs: seq<JobConditions>)
    requires Enabled(w, JobsProgress(cs))
    ensures Plans(Apply(w, JobsProgress(cs))) == Plans(w)
  {
    var w' := Apply(w, JobsProgress(cs));
    var all, all' := w.jobs + w.gone, w'.jobs + w'.gone;
    assert |all| == |all'| && forall i :: 0 <= i < |all| ==> all'[i].plan == all[i].plan;
    forall p | p in Plans(w)
      ensures p in Plans(w')
    {
      var j :| j in all && j.plan == p;
      var i :| 0 <= i < |all| && all[i] == j;
      assert all'[i] in all';
    }
    forall p | p in Plans(w')
      ensures p in Plans(w)
    {
      var j :| j in all' && j.plan == p;
      var i :| 0 <= i < |all'| && all'[i] == j;
      assert all[i] in all;
    }
  }

  lemma DeletionSameWork(w: World, i: nat)
    requires i < |w.jobs|
    ensures Plans(Apply(w, JobDisappears(i))) == Plans(w)
  {
    var w' := Apply(w, JobDisappears(i));
    assert w.jobs == w.jobs[..i] + [w.jobs[i]] + w.jobs[i + 1..];
    assert forall j :: j in w.jobs + w.gone <==> j in w'.jobs + w'.gone;
  }

  lemma CreationsGrow(w: World, s: Step)
    requires Enabled(w, s)
    ensures w.creations <= Apply(w, s).creations <= w.creations + 1
  {
  }

  lemma {:induction false} CreationsGrowOver(w: World, run: seq<Step>)
    requires Legal(w, run)
    ensures w.creations <= After(w, run).creations
    decreases run
  {
    if run != [] {
      CreationsGrow(w, run[0]);
      CreationsGrowOver(Apply(w, run[0]), run[1..]);
    }
  }

  /** Until the next creation loop the work and its jobs stay what they are. */
  lemma {:induction false} FrozenRun(w: World, run: seq<Step>)
    requires Legal(w, run) && After(w, run).creations == w.creations
    ensures SameWork(w, After(w, run))
    decreases run
  {
    if run != [] {
      CreationsGrow(w, run[0]);
      CreationsGrowOver(Apply(w, run[0]), run[1..]);
      StepSameWork(w, run[0]);
      FrozenRun(Apply(w, run[0]), run[1..]);
    }
  }

  // ---- What a creation loop covers ----

  predicate KeysKeep(p: Planning) {
    KeysKeepItems(p.env.relaxed, ItemsFor(p), TargetsFor(p))
  }

  /** The keys keep the items apart, and no creation call fails. */
  predicate Whole(a: Answers) {
    KeysKeep(a.planning) && a.creatable >= |a.order|
  }

  predicate Creates(w: World, a: Answers)
    requires Planned(a)
  {
    ProvisionStep(w, a).0.creations > w.creations
  }

  /** The world of a reconcile that creates. */
  lemma CreatesIs(w: World, a: Answers)
    requires Inv(w) && Planned(a) && Creates(w, a)
    ensures w.jobs == []
    ensures exists scene :: ProvisionStep(w, a).0 == CreateAll(w.(scene := scene), a)
  {
    CreatesOnlyWhenReady(w, a);
    var scene := Start(w.scene, a.templates, a.calls).scene;
    assert ProvisionStep(w, a).0 == CreateAll(w.(scene := scene), a);
  }

  lemma PlansUpTo(plan: Plan, order: seq<string>, n: nat, j: PlannedJob)
    requires n <= |order| && forall key :: key in order ==> key in plan
    ensures (exists c :: c in JobsUpTo(plan, order, n) && c.plan == j) <==> exists k :: 0 <= k < n && plan[order[k]] == j
  {
    var jobs := JobsUpTo(plan, order, n);
    if c :| c in jobs && c.plan == j {
      var k :| 0 <= k < n && jobs[k] == c;
      assert plan[order[k]] == j;
    }
    if k :| 0 <= k < n && plan[order[k]] == j {
      assert jobs[k] in jobs;
    }
  }

  /** The planned jobs that were created. */
  lemma CreatedPlans(w: World, a: Answers)
    requires Planned(a) && w.jobs == []
    ensures forall j :: j in Plans(CreateAll(w, a)) <==>
              exists k :: 0 <= k < Min(a.creatable, |a.order|) && PlanFor(a.planning)[a.order[k]] == j
  {
    var plan, n := PlanFor(a.planning), Min(a.creatable, |a.order|);
    var w' := CreateAll(w, a);
    assert w'.jobs + w'.gone == JobsUpTo(plan, a.order, n);
    forall j
      ensures j in Plans(w') <==> exists k :: 0 <= k < n && plan[a.order[k]] == j
    {
      PlansUpTo(plan, a.order, n, j);
    }
  }

  lemma ItemIsPlanned(p: Planning, v: string) returns (key: string)
    requires Sensible(p) && KeysKeep(p) && v in VolumeNames(ItemsFor(p))
    ensures Holds(PlanFor(p), key, v)
  {
    var items, targets := ItemsFor(p), TargetsFor(p);
    ItemsMatchClaims(p.env, p.claims, p.parse);
    PlanOfIsPlan(p.backup, p.env.relaxed, items, targets);
    var i :| 0 <= i < |items| && items[i].volume == v;
    key := ItemKey(p.env.relaxed, items, i);
    var groups :| IsPlanOf(p.backup, p.env.relaxed, items, targets, groups, PlanFor(p));
    ItemInOwnJob(p.backup, p.env.relaxed, items, targets, groups, PlanFor(p), i);
  }

  /** The volumes of planned jobs are those of the items, and each has one job only. */
  lemma HoldersAgree(p: Planning, key: string, other: string, v: string)
    requires Sensible(p) && Holds(PlanFor(p), key, v)
    ensures v in VolumeNames(ItemsFor(p))
    ensures Holds(PlanFor(p), other, v) ==> other == key
  {
    var items, targets, plan := ItemsFor(p), TargetsFor(p), PlanFor(p);
    ItemsMatchClaims(p.env, p.claims, p.parse);
    PlanOfIsPlan(p.backup, p.env.relaxed, items, targets);
    var groups :| IsPlanOf(p.backup, p.env.relaxed, items, targets, groups, plan);
    var i := ItemOfVolume(p.backup, p.env.relaxed, items, targets, groups, plan, key, v);
    HolderIsOwn(p.backup, p.env.relaxed, items, targets, groups, plan, i, key);
    if Holds(plan, other, v) {
      HolderIsOwn(p.backup, p.env.relaxed, items, targets, groups, plan, i, other);
    }
  }

  lemma ItemOfVolume(backup: string, relaxed: bool, items: seq<BackupItem>, targets: seq<string>, groups: Plan, plan: Plan,
                     key: string, v: string) returns (i: nat)
    requires IsPlanOf(backup, relaxed, items, targets, groups, plan) && Holds(plan, key, v)
    ensures i < |items| && items[i].volume == v
  {
    assert key in groups && plan[key] == groups[key];
    if relaxed {
      i := LastOf(items, |items|, key).value;
    } else {
      assert groups[key] == GroupJob(backup, items, |items|, key);
      i :| 0 <= i < |items| && ItemKey(false, items, i) == key && items[i].volume == v;
    }
  }

  /** Only the job for backup commands runs any, and it runs those of all targets. */
  lemma CommandJob(p: Planning, key: string, t: string)
    requires key in PlanFor(p)
    ensures RunsCommand(PlanFor(p)[key], t) <==> key == PreBackupKey && t in TargetsFor(p)
  {
    var items, targets := ItemsFor(p), TargetsFor(p);
    var groups := GroupsOf(p.backup, p.env.relaxed, items, |items|);
    GroupsOfMean(p.backup, p.env.relaxed, items);
    if targets == [] || key != PreBackupKey {
      GroupsSkipPreBackup(p.backup, p.env.relaxed, items, groups, key);
    }
  }

  lemma CoversWhenWhole(w: World, a: Answers)
    requires Planned(a) && w.jobs == [] && Whole(a)
    ensures Covered(CreateAll(w, a))
  {
    var p, plan, w' := a.planning, PlanFor(a.planning), CreateAll(w, a);
    CreatedPlans(w, a);
    forall v | v in w'.selected
      ensures exists j :: j in Plans(w') && v in j.volumes
    {
      var key := ItemIsPlanned(p, v);
      var k :| 0 <= k < |a.order| && a.order[k] == key;
      assert plan[a.order[k]] in Plans(w');
    }
    forall t | t in w'.targeted
      ensures exists j :: j in Plans(w') && RunsCommand(j, t)
    {
      assert PreBackupKey in plan;
      CommandJob(p, PreBackupKey, t);
      var k :| 0 <= k < |a.order| && a.order[k] == PreBackupKey;
      assert plan[a.order[k]] in Plans(w');
    }
  }

  /** Every planned job has a volume to back up or a command to run. */
  lemma PlannedJobHasWork(p: Planning, key: string)
    requires Sensible(p) && key in PlanFor(p)
    ensures var j := PlanFor(p)[key];
            j.volumes != [] || (!j.skipPreBackup && j.targetPods != [])
  {
    var items, targets := ItemsFor(p), TargetsFor(p);
    if key != PreBackupKey || targets == [] {
      ItemsMatchClaims(p.env, p.claims, p.parse);
      GroupsOfMean(p.backup, p.env.relaxed, items);
      if !p.env.relaxed {
        assert items[FirstWith(items, |items|, key).value].volume in VolumesWith(items, |items|, key);
      }
    }
  }

  /** A volume or command of a job that was not created has no other job. */
  lemma LeftOutIsUncovered(w: World, a: Answers, k: nat)
    requires Planned(a) && w.jobs == [] && a.creatable <= k < |a.order|
    ensures !Covered(CreateAll(w, a))
  {
    var p, plan, w' := a.planning, PlanFor(a.planning), CreateAll(w, a);
    var key, job := a.order[k], plan[a.order[k]];
    PlannedJobHasWork(p, key);
    CreatedPlans(w, a);
    if job.volumes != [] {
      var v := job.volumes[0];
      HoldersAgree(p, key, key, v);
      forall j | j in Plans(w')
        ensures v !in j.volumes
      {
        var m :| 0 <= m < Min(a.creatable, |a.order|) && plan[a.order[m]] == j;
        HoldersAgree(p, key, a.order[m], v);
      }
      assert v in w'.selected;
    } else {
      var t := job.targetPods[0];
      CommandJob(p, key, t);
      forall j | j in Plans(w')
        ensures !RunsCommand(j, t)
      {
        var m :| 0 <= m < Min(a.creatable, |a.order|) && plan[a.order[m]] == j;
        CommandJob(p, a.order[m], t);
      }
      assert t in w'.targeted;
    }
  }

  /** When keys collide, the volume of some item is in no planned job. */
  lemma LostIsUncovered(w: World, a: Answers)
    requires Planned(a) && w.jobs == [] && !KeysKeep(a.planning)
    ensures !Covered(CreateAll(w, a))
  {
    var p, w' := a.planning, CreateAll(w, a);
    var v := LostVolume(p);
    CreatedPlans(w, a);
    forall j | j in Plans(w')
      ensures v !in j.volumes
    {
      var m :| 0 <= m < Min(a.creatable, |a.order|) && PlanFor(p)[a.order[m]] == j;
      assert !Holds(PlanFor(p), a.order[m], v);
    }
    assert v in w'.selected;
  }

  lemma LostVolume(p: Planning) returns (v: string)
    requires Sensible(p) && !KeysKeep(p)
    ensures v in VolumeNames(ItemsFor(p)) && forall key :: !Holds(PlanFor(p), key, v)
  {
    var items, targets, plan := ItemsFor(p), TargetsFor(p), PlanFor(p);
    ItemsMatchClaims(p.env, p.claims, p.parse);
    PlanOfIsPlan(p.backup, p.env.relaxed, items, targets);
    var groups :| IsPlanOf(p.backup, p.env.relaxed, items, targets, groups, plan);
    var i := SomeItemLost(p.env.relaxed, items, targets);
    v := items[i].volume;
    forall key
      ensures !Holds(plan, key, v)
    {
      LostIsNowhere(p.backup, p.env.relaxed, items, targets, groups, plan, i, key);
    }
  }

  lemma CoveredIffWhole(w: World, a: Answers)
    requires Planned(a) && w.jobs == []
    ensures Covered(CreateAll(w, a)) <==> Whole(a)
  {
    if !KeysKeep(a.planning) {
      LostIsUncovered(w, a);
    } else if Whole(a) {
      CoversWhenWhole(w, a);
    } else {
      LeftOutIsUncovered(w, a, a.creatable);
    }
  }

  /**
    Exactly when the work of a creation loop is covered, then and at every later point up to the next
    loop, whatever becomes of its jobs: when the keys keep the items apart and no creation call fails.
   */
  lemma CreationDecides(w: World, a: Answers, later: seq<Step>)
    requires Inv(w) && Planned(a) && Creates(w, a)
    requires Legal(ProvisionStep(w, a).0, later)
    requires After(ProvisionStep(w, a).0, later).creations == ProvisionStep(w, a).0.creations
    ensures Covered(After(ProvisionStep(w, a).0, later)) <==> Whole(a)
  {
    CreatesIs(w, a);
    var scene :| ProvisionStep(w, a).0 == CreateAll(w.(scene := scene), a);
    var w1 := w.(scene := scene);
    FrozenRun(CreateAll(w1, a), later);
    CoveredIffWhole(w1, a);
  }

  // ---- Success means backed up ----

  /** Every creation loop of the run has keys that keep its items apart and no failing call. */
  predicate CreatesWhole(w: World, run: seq<Step>)
    requires Legal(w, run)
    decreases run
  {
    run == [] ||
    (&& (run[0].Reconcile? && Creates(w, run[0].answers) ==> Whole(run[0].answers))
     && CreatesWhole(Apply(w, run[0]), run[1..]))
  }

  lemma CoveredStep(w: World, s: Step)
    requires Inv(w) && Covered(w) && Enabled(w, s)
    requires s.Reconcile? && Creates(w, s.answers) ==> Whole(s.answers)
    ensures Covered(Apply(w, s))
  {
    if s.Reconcile? && Creates(w, s.answers) {
      CreationDecides(w, s.answers, []);
    } else {
      CreationsGrow(w, s);
      StepSameWork(w, s);
    }
  }

  lemma {:induction false} CoveredRun(w: World, run: seq<Step>)
    requires Inv(w) && Covered(w) && Legal(w, run) && CreatesWhole(w, run)
    ensures Covered(After(w, run))
    decreases run
  {
    if run != [] {
      StepKeeps(w, run[0]);
      CoveredStep(w, run[0]);
      CoveredRun(Apply(w, run[0]), run[1..]);
    }
  }

  /** The job did its work, as far as can be seen: it succeeded, or is no longer there. */
  predicate DoneOrGone(w: World, j: CreatedJob) {
    (j in w.jobs && JobSucceeded(j.conditions)) || j in w.gone
  }

  /**
    A Backup that reports success has every volume it selected, and the command of every pod it
    targeted, in a job that completed or has disappeared; all jobs that are there completed. With
    nothing to back up, nothing was selected or targeted.
   */
  lemma SucceededMeansBackedUp(w: World, run: seq<Step>)
    requires Initial(w) && Legal(w, run) && CreatesWhole(w, run)
    ensures var end := After(w, run);
            end.scene.status.HasSucceeded() ==>
              && (forall j :: j in end.jobs ==> JobSucceeded(j.conditions))
              && (forall v :: v in end.selected ==> exists j :: DoneOrGone(end, j) && v in j.plan.volumes)
              && (forall t :: t in end.targeted ==> exists j :: DoneOrGone(end, j) && RunsCommand(j.plan, t))
  {
    RunKeeps(w, run);
    CoveredRun(w, run);
    var end := After(w, run);
    if end.scene.status.HasSucceeded() {
      assert AllPresentSucceeded(end);
      forall v | v in end.selected
        ensures exists j :: DoneOrGone(end, j) && v in j.plan.volumes
      {
        var p :| p in Plans(end) && v in p.volumes;
        var j := JobOfPlan(end, p);
      }
      forall t | t in end.targeted
        ensures exists j :: DoneOrGone(end, j) && RunsCommand(j.plan, t)
      {
        var p :| p in Plans(end) && RunsCommand(p, t);
        var j := JobOfPlan(end, p);
      }
    }
  }

  lemma JobOfPlan(w: World, p: PlannedJob) returns (j: CreatedJob)
    requires AllPresentSucceeded(w) && p in Plans(w)
    ensures DoneOrGone(w, j) && j.plan == p
  {
    j :| j in w.jobs + w.gone && j.plan == p;
  }

  /** The volumes a reconcile sets out to back up are the selected claims. */
  lemma VolumesAreSelectedClaims(p: Planning)
    requires Sensible(p)
    ensures VolumeNames(ItemsFor(p)) == set c | c in p.claims && Selected(p.env, c, p.parse) :: c.name
  {
    ItemsMatchClaims(p.env, p.claims, p.parse);
    forall c | c in p.claims && Selected(p.env, c, p.parse)
      ensures c.name in VolumeNames(ItemsFor(p))
    {
      assert ItemOf(p.env, c, p.parse) in ItemsFor(p);
    }
  }

  /**
    The pods it targets are the candidates that are listed, and a planned job whose target is the pod
    does run its command when it lists the pods again.
   */
  lemma TargetsAreCommandsRun(p: Planning, key: string, pod: Pod)
    requires Sensible(p) && key in PlanFor(p) && pod in p.env.pods
    ensures pod in CommandsRun(PlanFor(p)[key], p.env.pods, p.command) <==> RunsCommand(PlanFor(p)[key], pod.name)
    ensures pod.name in TargetsFor(p) <==> pod in p.candidates && pod in Listed(p.env.pods, |p.env.pods|, p.command, {})
  {
    var pods, items, targets := p.env.pods, ItemsFor(p), TargetsFor(p);
    PlanOfIsPlan(p.backup, p.env.relaxed, items, targets);
    CommandRunOnce(p.backup, p.env.relaxed, items, PlanFor(p), pods, p.candidates, p.command, targets, pod);
    CommandJob(p, key, pod.name);
    KeptNames(pods, p.candidates, p.command, pod.name);
    if q :| q in p.candidates && q in Listed(pods, |pods|, p.command, {}) && q.name == pod.name {
      SameName(pods, pod, q);
    }
  }
}
