/**
  The Backup controller and its executor working in place (operator/backupcontroller/controller.go
  and executor.go). Each method is the step of the same name in the run model.
 */
module BackupReconciler {
  import opened Wrappers
  import opened JobStatus
  import opened BatchJobs
  import opened BackupVerdict
  import opened PreBackup
  import opened Planner
  import opened Volumes
  import opened PodTargets
  import opened BackupRun

  lemma ViableSet(pods: seq<Pod>, command: string, found: seq<BackupPod>, names: seq<string>)
    requires found == DescribeAll(Listed(pods, |pods|, command, {}), Annotations(command, "", ""))
    requires |names| == |found| && forall i :: 0 <= i < |found| ==> names[i] == found[i].podName
    ensures (set v | v in names) == ViableNames(pods, command)
  {
    var listed := Listed(pods, |pods|, command, {});
    assert forall i :: 0 <= i < |names| ==> names[i] == listed[i].name;
    forall v | v in ViableNames(pods, command)
      ensures v in names
    {
      var p :| p in listed && p.name == v;
      var i :| 0 <= i < |listed| && listed[i] == p;
      assert names[i] == v;
    }
  }

  class BackupController {
    const executor: PreBackupExecutor
    var jobs: seq<CreatedJob>
    var metrics: Metrics
    var failedWrites: nat
    ghost var gone: seq<CreatedJob>
    ghost var selected: set<string>
    ghost var targeted: set<string>
    ghost var creations: nat

    constructor (w: World)
      ensures fresh(executor) && Value() == w
    {
      executor := new PreBackupExecutor(w.scene);
      jobs, metrics, failedWrites := w.jobs, w.metrics, w.failedWrites;
      gone, selected, targeted, creations := w.gone, w.selected, w.targeted, w.creations;
    }

    ghost function Value(): World
      reads this, executor
    {
      World(executor.scene, jobs, gone, metrics, selected, targeted, creations, failedWrites)
    }

    method ReconcileJobStatus(a: Answers) returns (ok: bool)
      modifies this, executor
      ensures (Value(), ok) == ReconcileStep(old(Value()), a)
    {
      if !a.listOk {
        return false;
      }
      if |jobs| == 0 {
        return true;
      }
      var cell := new StatusCell(executor.scene.status);
      var recorder := new StatusRecorder(cell, metrics);
      ReconcileVerdict(recorder, Conditions(jobs));
      metrics := recorder.metrics;
      if !a.statusWriteOk {
        failedWrites := failedWrites + 1;
        return false;
      }
      executor.scene := executor.scene.(status := cell.value);
      return true;
    }

    /** The targets: the viable pods among the candidates, or nothing when a listing fails. */
    method FindTargets(a: Answers) returns (r: Option<seq<string>>)
      ensures r == if a.viableOk && a.candidatesOk then Some(TargetsFor(a.planning)) else None
    {
      var p := a.planning;
      var answer := if a.viableOk then Some(p.env.pods) else None;
      var found := ListPods(answer, Annotations(p.command, "", ""), [], false);
      if found.None? {
        return None;
      }
      var names := [];
      for i := 0 to |found.value|
        invariant |names| == i && forall k :: 0 <= k < i ==> names[k] == found.value[k].podName
      {
        names := names + [found.value[i].podName];
      }
      if !a.candidatesOk {
        return None;
      }
      assert (set t: string | t in []) == {};
      ViableSet(p.env.pods, p.command, found.value, names);
      var targets := TargetPods(p.candidates, names);
      return Some(targets);
    }

    /** The creation loop: stops at the first failing call. */
    method CreateJobs(plan: Plan, order: seq<string>, creatable: nat) returns (ok: bool)
      requires Walks(order, plan)
      modifies this`jobs
      ensures ok <==> creatable >= |order|
      ensures jobs == old(jobs) + JobsUpTo(plan, order, Min(creatable, |order|))
    {
      var index := 0;
      assert JobsUpTo(plan, order, 0) == [];
      while index < |order|
        invariant index <= |order| && index <= creatable
        invariant jobs == old(jobs) + JobsUpTo(plan, order, index)
      {
        if index == creatable {
          return false;
        }
        var key := order[index];
        var sleep: Option<nat> := None;
        if key == PreBackupKey || index != 0 {
          sleep := Some(index * 10);
        }
        jobs := jobs + [CreatedJob(plan[key], sleep, [])];
        assert JobsUpTo(plan, order, index + 1) == JobsUpTo(plan, order, index) + [JobAt(plan, order, index)];
        index := index + 1;
      }
      return true;
    }

    /** startBackup from the point where the pre-backup is ready. */
    method StartJobs(a: Answers) returns (ok: bool)
      requires Planned(a)
      modifies this, executor
      ensures ok <==> StartOk(a)
      ensures Value() == if !(a.podsOk && a.claimsOk) then
                           var s := old(executor.scene);
                           old(Value()).(scene := s.(status := s.status.With(Ready, False, ReasonRetrievalFailed)))
                         else if !(a.viableOk && a.candidatesOk) then old(Value())
                         else CreateAll(old(Value()), a)
    {
      var p := a.planning;
      var items := ListAndFilterPVCs(p.env, p.claims, p.parse, a.podsOk, a.claimsOk);
      if items.None? {
        executor.scene := executor.scene.(status := executor.scene.status.With(Ready, False, ReasonRetrievalFailed));
        return false;
      }
      var targets := FindTargets(a);
      if targets.None? {
        return false;
      }
      var plan := PlanJobs(p.backup, p.env.relaxed, items.value, targets.value);
      ok := StartPlan(plan, a.order, a.creatable, items.value, targets.value);
    }

    /** The creation loop and "nothing to backup". */
    method StartPlan(plan: Plan, order: seq<string>, creatable: nat, ghost items: seq<BackupItem>, ghost targets: seq<string>)
      returns (ok: bool)
      requires Walks(order, plan)
      modifies this, executor
      ensures ok <==> creatable >= |order|
      ensures Value() == CreateFrom(old(Value()), plan, order, creatable, items, targets)
    {
      gone, creations := [], creations + 1;
      selected, targeted := VolumeNames(items), set t | t in targets;
      ok := CreateJobs(plan, order, creatable);
      if ok && |order| == 0 {
        executor.scene := executor.scene.(status := executor.scene.status.Succeeded());
      }
    }

    method Execute(a: Answers) returns (ok: bool)
      requires Planned(a)
      modifies this, executor
      ensures ok <==> ExecuteOk(old(Value()), a)
      ensures Value() == ExecuteStep(old(Value()), a)
    {
      if !a.accountsOk {
        return false;
      }
      var ready, started := executor.StartPreBackup(a.templates, a.calls);
      if !started {
        return false;
      }
      if !ready || executor.scene.status.IsWaitingForPreBackup() {
        return true;
      }
      ok := StartJobs(a);
    }

    method Provision(a: Answers) returns (outcome: Outcome)
      requires Planned(a)
      modifies this, executor
      ensures (Value(), outcome) == ProvisionStep(old(Value()), a)
    {
      var ok := ReconcileJobStatus(a);
      if !ok {
        return Error;
      }
      outcome := Continue(a);
    }

    /** The part of Provision after the job status was reconciled. */
    method Continue(a: Answers) returns (outcome: Outcome)
      requires Planned(a)
      modifies this, executor
      ensures (Value(), outcome) == Decide(old(Value()), a)
    {
      var status := executor.scene.status;
      if status.HasStarted() {
        return Requeue;
      }
      if status.HasFinished() || PrebackupFailed(status) {
        executor.scene := executor.scene.(status := Scrub(status, a));
        if StopIsDone(executor.scene.status) {
          return Done;
        }
        executor.StopPreBackupDeployments(a.templates, a.calls);
        return Requeue;
      }
      if !a.admitted {
        return Requeue;
      }
      var ok := Execute(a);
      return if ok then Requeue else Error;
    }
  }
}
