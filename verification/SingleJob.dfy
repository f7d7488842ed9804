/**
  The reconcile of an object that owns one batch job: Check, Prune, Restore and Archive share this
  `Provision` (operator/checkcontroller/controller.go and its siblings). A run interleaves
  reconciles, whose API calls may fail, with the job making progress or disappearing.
 */
module SingleJob {
  import opened Wrappers
  import opened JobStatus
  import opened BatchJobs

  /** What the cluster stores about one object, and what the operator has counted and done for it. */
  datatype World = World(
    status: Status,
    job: Option<JobConditions>,
    metrics: Metrics,
    executions: nat,
    failedWrites: nat)

  /** How the API calls and the locker answer during one reconcile. */
  datatype Answers = Answers(
    getOk: bool,
    statusWriteOk: bool,
    cleanupListOk: bool,
    cleanupDeleteOk: bool,
    admitted: bool,
    createOk: bool,
    conditionWriteOk: bool)

  /** A condition written with patchConditions: a failed write is only logged. */
  function WriteCondition(w: World, a: Answers, typ: ConditionType, status: ConditionStatus, reason: Reason): World {
    if a.conditionWriteOk then w.(status := w.status.With(typ, status, reason))
    else w.(failedWrites := w.failedWrites + 1)
  }

  /** CleanupOldResources as far as this object's own status goes. */
  function Cleanup(w: World, a: Answers): World {
    if !a.cleanupListOk then WriteCondition(w, a, Scrubbed, False, ReasonRetrievalFailed)
    else if !a.cleanupDeleteOk then WriteCondition(w, a, Scrubbed, False, ReasonDeletionFailed)
    else WriteCondition(w, a, Scrubbed, True, ReasonSucceeded)
  }

  /**
    Execute. CreateOrUpdate leaves an existing job's conditions alone. The SetStarted patch that
    follows a creation is computed against a copy taken after the change, so it persists nothing.
   */
  function Execute(w: World, a: Answers): World {
    var w := w.(executions := w.executions + 1);
    if !a.createOk then WriteCondition(w, a, Ready, False, ReasonCreationFailed)
    else if w.job.None? then w.(job := Some([]))
    else w
  }

  /** The part of Provision that follows a successful ReconcileJobStatus. */
  function Decide(w: World, a: Answers): World {
    if w.status.HasStarted() then w
    else if w.status.HasFinished() then Cleanup(w, a)
    else if !a.admitted then w
    else Execute(w, a)
  }

  function ProvisionStep(w: World, a: Answers): World {
    if !a.getOk then w
    else if w.job.None? then Decide(w, a)
    else
      var t := Tally(w.status, w.metrics).Observe(w.job.value);
      if !a.statusWriteOk then w.(metrics := t.metrics, failedWrites := w.failedWrites + 1)
      else Decide(w.(status := t.status, metrics := t.metrics), a)
  }

  datatype Step =
    | Reconcile(answers: Answers)
    | JobProgresses(conditions: JobConditions)
    | JobDisappears

  predicate Enabled(w: World, s: Step) {
    match s
    case Reconcile(_) => true
    case JobProgresses(c) => w.job.Some? && WellFormed(c) && KeepsVerdict(w.job.value, c)
    case JobDisappears => w.job.Some?
  }

  function Apply(w: World, s: Step): World {
    match s
    case Reconcile(a) => ProvisionStep(w, a)
    case JobProgresses(c) => w.(job := Some(c))
    case JobDisappears => w.(job := None)
  }

  predicate Legal(w: World, run: seq<Step>)
    decreases run
  {
    run == [] || (Enabled(w, run[0]) && Legal(Apply(w, run[0]), run[1..]))
  }

  function After(w: World, run: seq<Step>): World
    decreases run
  {
    if run == [] then w else After(Apply(w, run[0]), run[1..])
  }

  /** A new object: nothing written yet; a job of that name may be left over from an earlier object. */
  predicate Initial(w: World) {
    && w.status == Fresh
    && (w.job.Some? ==> WellFormed(w.job.value))
    && w.metrics.Balanced()
    && w.executions == 0 && w.failedWrites == 0
  }

  predicate Observed(s: Status) {
    s.HasStarted() || s.HasFinished()
  }

  function One(b: bool): nat {
    if b then 1 else 0
  }

  /** A reconcile that counts the verdict of an ended job and then fails to write it. */
  predicate Unwritten(w: World, s: Step) {
    s.Reconcile? && s.answers.getOk && !s.answers.statusWriteOk && w.job.Some? && JobEnded(w.job.value) && !w.status.HasFinished()
  }

  predicate UnwrittenSuccess(w: World, s: Step) {
    Unwritten(w, s) && JobSucceeded(w.job.value)
  }

  predicate UnwrittenFailure(w: World, s: Step) {
    Unwritten(w, s) && JobHasFailed(w.job.value)
  }

  function UnwrittenSuccesses(w: World, run: seq<Step>): nat
    decreases run
  {
    if run == [] then 0 else One(UnwrittenSuccess(w, run[0])) + UnwrittenSuccesses(Apply(w, run[0]), run[1..])
  }

  function UnwrittenFailures(w: World, run: seq<Step>): nat
    decreases run
  {
    if run == [] then 0 else One(UnwrittenFailure(w, run[0])) + UnwrittenFailures(Apply(w, run[0]), run[1..])
  }

  /** The counters before an object's own verdict is added. */
  datatype Base = Base(successful: nat, failed: nat) {
    function Add(s: bool, f: bool): Base {
      Base(successful + One(s), failed + One(f))
    }
  }

  /** What every reachable state satisfies; `base` is what was counted apart from the verdict in the status. */
  predicate Inv(w: World, base: Base) {
    && w.status.Get(PreBackupPodReady) == None
    && (w.job.Some? ==>
          && WellFormed(w.job.value)
          && (w.status.HasSucceeded() ==> JobSucceeded(w.job.value))
          && (w.status.HasFailed() ==> JobHasFailed(w.job.value)))
    && w.metrics.Balanced()
    && w.metrics.successful == base.successful + One(w.status.HasSucceeded())
    && w.metrics.failed == base.failed + One(w.status.HasFailed())
  }

  /** What one step may do to a state. */
  predicate Progress(w: World, w': World) {
    && w'.executions <= w.executions + 1
    && (w'.executions > w.executions ==> w.job.None? && !Observed(w.status))
    && (Observed(w.status) ==> Observed(w'.status))
    && (w.status.HasSucceeded() ==> w'.status.HasSucceeded())
    && (w.status.HasFailed() ==> w'.status.HasFailed())
  }

  lemma DecideKeeps(w: World, a: Answers, base: Base)
    requires Inv(w, base)
    requires w.job.Some? ==> Observed(w.status)
    ensures Inv(Decide(w, a), base) && Progress(w, Decide(w, a))
  {
    var w' := Decide(w, a);
    assert w'.status.Get(Completed) == w.status.Get(Completed);
    assert w'.status.Get(Progressing) == w.status.Get(Progressing);
    assert w'.status.Get(PreBackupPodReady) == w.status.Get(PreBackupPodReady);
  }

  lemma StepKeeps(w: World, s: Step, base: Base)
    requires Inv(w, base) && Enabled(w, s)
    ensures Inv(Apply(w, s), base.Add(UnwrittenSuccess(w, s), UnwrittenFailure(w, s))) && Progress(w, Apply(w, s))
    ensures Unwritten(w, s) ==> Apply(w, s).failedWrites == w.failedWrites + 1
  {
    match s
    case Reconcile(a) =>
      if a.getOk && w.job.None? {
        DecideKeeps(w, a, base);
      } else if a.getOk && a.statusWriteOk {
        LookKeeps(w, base);
        DecideKeeps(Looked(w), a, base);
      } else if a.getOk {
        LostLookKeeps(w, base);
      }
    case JobProgresses(c) =>
    case JobDisappears =>
  }

  /** The object once what its job says is written. */
  function Looked(w: World): World
    requires w.job.Some?
  {
    var t := Tally(w.status, w.metrics).Observe(w.job.value);
    w.(status := t.status, metrics := t.metrics)
  }

  lemma LookKeeps(w: World, base: Base)
    requires Inv(w, base) && w.job.Some?
    ensures Inv(Looked(w), base) && Progress(w, Looked(w)) && Observed(Looked(w).status)
  {
    ObserveWellFormed(Tally(w.status, w.metrics), w.job.value);
    RecordedPreBackup(Tally(w.status, w.metrics), w.job.value);
  }

  lemma RecordedPreBackup(t: Tally, conditions: JobConditions)
    requires WellFormed(conditions)
    ensures t.Observe(conditions).status.Get(PreBackupPodReady) == t.status.Get(PreBackupPodReady)
  {
    ObserveWellFormed(t, conditions);
    var s := t.status;
    if JobSucceeded(conditions) {
      assert s.Succeeded().Finished().Get(PreBackupPodReady) == s.Get(PreBackupPodReady);
    } else if JobHasFailed(conditions) {
      assert s.Failed().Finished().Get(PreBackupPodReady) == s.Get(PreBackupPodReady);
    }
  }

  lemma LostLookKeeps(w: World, base: Base)
    requires Inv(w, base) && w.job.Some?
    ensures var news := !w.status.HasFinished();
            Inv(w.(metrics := Looked(w).metrics, failedWrites := w.failedWrites + 1),
                base.Add(news && JobSucceeded(w.job.value), news && JobHasFailed(w.job.value)))
  {
    ObserveWellFormed(Tally(w.status, w.metrics), w.job.value);
  }

  /** Whatever happens after a reachable state, the invariant and the verdict survive. */
  lemma {:induction false} RunKeeps(w: World, run: seq<Step>, base: Base)
    requires Inv(w, base) && Legal(w, run)
    ensures Inv(After(w, run), Base(base.successful + UnwrittenSuccesses(w, run), base.failed + UnwrittenFailures(w, run)))
    ensures w.failedWrites + UnwrittenSuccesses(w, run) + UnwrittenFailures(w, run) <= After(w, run).failedWrites
    ensures Observed(w.status) ==> Observed(After(w, run).status) && After(w, run).executions == w.executions
    ensures w.status.HasSucceeded() ==> After(w, run).status.HasSucceeded()
    ensures w.status.HasFailed() ==> After(w, run).status.HasFailed()
    decreases run
  {
    if run != [] {
      StepKeeps(w, run[0], base);
      if w.job.Some? {
        ObserveWellFormed(Tally(w.status, w.metrics), w.job.value);
      }
      RunKeeps(Apply(w, run[0]), run[1..], base.Add(UnwrittenSuccess(w, run[0]), UnwrittenFailure(w, run[0])));
    }
  }

  /**
    Over every run of a new object, a reconcile executes if and only if the lookup of its job
    succeeds, finds none, the locker admits it, and no status observed from a job was persisted; it
    leaves a new job if and only if, besides, the creation call succeeds. Once such a status is
    persisted no job is created again, and a verdict is kept, even after the job is deleted.
   */
  lemma AtMostOneObservedJob(w: World, run: seq<Step>, a: Answers, later: seq<Step>)
    requires Initial(w) && Legal(w, run)
    requires Legal(After(w, run), later)
    ensures var now, end := After(w, run), After(After(w, run), later);
            && (ProvisionStep(now, a).executions > now.executions <==>
                  a.getOk && a.admitted && now.job.None? && !Observed(now.status))
            && (ProvisionStep(now, a).job != now.job <==>
                  a.getOk && a.admitted && a.createOk && now.job.None? && !Observed(now.status))
            && (Observed(now.status) ==> end.executions == now.executions && Observed(end.status))
            && (now.status.HasSucceeded() ==> end.status.HasSucceeded() && !end.status.HasFailed())
            && (now.status.HasFailed() ==> end.status.HasFailed() && !end.status.HasSucceeded())
  {
    var start := Base(w.metrics.successful, w.metrics.failed);
    RunKeeps(w, run, start);
    var base := Base(start.successful + UnwrittenSuccesses(w, run), start.failed + UnwrittenFailures(w, run));
    ExecutesExactly(After(w, run), a, base);
    RunKeeps(After(w, run), later, base);
  }

  lemma ExecutesExactly(w: World, a: Answers, base: Base)
    requires Inv(w, base)
    ensures ProvisionStep(w, a).executions > w.executions <==> a.getOk && a.admitted && w.job.None? && !Observed(w.status)
    ensures ProvisionStep(w, a).job != w.job <==> a.getOk && a.admitted && a.createOk && w.job.None? && !Observed(w.status)
    ensures ProvisionStep(w, a).job != w.job ==> ProvisionStep(w, a).job == Some([])
  {
    StepKeeps(w, Reconcile(a), base);
    if w.job.Some? {
      ObserveWellFormed(Tally(w.status, w.metrics), w.job.value);
    }
  }

  /**
    What a reconcile writes besides the job's verdict: a finished object's cleanup ends in
    Scrubbed, true exactly when the listing and the deletions succeeded; a failed creation makes it
    not Ready. A write that fails leaves the status as it was.
   */
  lemma DecideWrites(w: World, a: Answers)
    ensures var s, s' := w.status, Decide(w, a).status;
            && (s.HasStarted() || !a.conditionWriteOk ==> s' == s)
            && (!s.HasStarted() && s.HasFinished() && a.conditionWriteOk ==>
                  s'.Get(Scrubbed) == Some(Condition(Scrubbed, if a.cleanupListOk && a.cleanupDeleteOk then True else False,
                                                     if !a.cleanupListOk then ReasonRetrievalFailed
                                                     else if !a.cleanupDeleteOk then ReasonDeletionFailed else ReasonSucceeded)))
            && (!s.HasStarted() && !s.HasFinished() && a.conditionWriteOk ==>
                  s'.Get(Ready) == if a.admitted && !a.createOk then Some(Condition(Ready, False, ReasonCreationFailed)) else s.Get(Ready))
  {
  }

  /**
    Over every run of a new object the total counter equals successes plus failures. The object adds
    one success exactly once it reads as succeeded and one failure exactly once it reads as failed,
    plus, to the same counter, one for each reconcile that counted the verdict of its ended job and
    then failed to write it. These are failed writes, so without any the object is counted once.
   */
  lemma CountedOnce(w: World, run: seq<Step>)
    requires Initial(w) && Legal(w, run)
    ensures var end := After(w, run);
            && end.metrics.total == end.metrics.successful + end.metrics.failed
            && end.metrics.successful == w.metrics.successful + One(end.status.HasSucceeded()) + UnwrittenSuccesses(w, run)
            && end.metrics.failed == w.metrics.failed + One(end.status.HasFailed()) + UnwrittenFailures(w, run)
            && UnwrittenSuccesses(w, run) + UnwrittenFailures(w, run) <= end.failedWrites
  {
    RunKeeps(w, run, Base(w.metrics.successful, w.metrics.failed));
  }

  /** It does happen: a success whose first status write fails is counted twice. */
  lemma FailedWriteCountsAgain(w: World, a: Answers)
    requires Initial(w) && a.getOk && a.statusWriteOk && a.conditionWriteOk
    requires w.job.Some? && JobSucceeded(w.job.value)
    ensures var run := [Reconcile(a.(statusWriteOk := false)), Reconcile(a)];
            && Legal(w, run)
            && After(w, run).failedWrites == 1
            && After(w, run).metrics.successful == w.metrics.successful + 2
  {
    var run := [Reconcile(a.(statusWriteOk := false)), Reconcile(a)];
    var w1 := Apply(w, run[0]);
    assert run[1..] == [run[1]] && run[1..][1..] == [];
    assert After(w, run) == After(w1, [run[1]]) == Apply(w1, run[1]);
    var t := Tally(w.status, w.metrics);
    ObserveWellFormed(t, w.job.value);
    ObserveWellFormed(Tally(w1.status, w1.metrics), w.job.value);
  }

  /** The controller's view of one object. Each Provision call is one reconcile. */
  class JobController {
    var status: Status
    var job: Option<JobConditions>
    var metrics: Metrics
    var executions: nat
    var failedWrites: nat

    constructor (w: World)
      ensures Value() == w
    {
      status, job, metrics, executions, failedWrites := w.status, w.job, w.metrics, w.executions, w.failedWrites;
    }

    ghost function Value(): World
      reads this
    {
      World(status, job, metrics, executions, failedWrites)
    }

    method PatchCondition(a: Answers, typ: ConditionType, s: ConditionStatus, reason: Reason)
      modifies this
      ensures Value() == WriteCondition(old(Value()), a, typ, s, reason)
    {
      if a.conditionWriteOk {
        status := status.With(typ, s, reason);
      } else {
        failedWrites := failedWrites + 1;
      }
    }

    /** job.ReconcileJobStatus: false stands for the error return. */
    method ReconcileJobStatus(a: Answers) returns (ok: bool)
      modifies this
      ensures ok <==> a.getOk && (job.None? || a.statusWriteOk)
      ensures job == old(job) && executions == old(executions)
      ensures var seen := if a.getOk && job.Some? then old(Tally(status, metrics)).Observe(job.value)
                          else old(Tally(status, metrics));
              && metrics == seen.metrics
              && status == (if ok then seen.status else old(status))
              && failedWrites == old(failedWrites) + (if a.getOk && !ok then 1 else 0)
    {
      if !a.getOk {
        return false;
      }
      if job.None? {
        return true;
      }
      var cell := new StatusCell(status);
      var recorder := new StatusRecorder(cell, metrics);
      recorder.UpdateStatus(job.value);
      metrics := recorder.metrics;
      if !a.statusWriteOk {
        failedWrites := failedWrites + 1;
        return false;
      }
      status := cell.value;
      return true;
    }

    /** Returns whether a requeue is asked for; an error return asks for none and is retried by the caller. */
    method Provision(a: Answers) returns (requeue: bool)
      modifies this
      ensures Value() == ProvisionStep(old(Value()), a)
      ensures requeue <==> a.getOk && (old(job).None? || a.statusWriteOk) && (status.HasStarted() || !status.HasFinished())
    {
      var ok := ReconcileJobStatus(a);
      if !ok {
        return false;
      }
      if status.HasStarted() {
        return true;
      }
      if status.HasFinished() {
        ghost var before := status;
        if !a.cleanupListOk {
          PatchCondition(a, Scrubbed, False, ReasonRetrievalFailed);
        } else if !a.cleanupDeleteOk {
          PatchCondition(a, Scrubbed, False, ReasonDeletionFailed);
        } else {
          PatchCondition(a, Scrubbed, True, ReasonSucceeded);
        }
        assert status.Get(Completed) == before.Get(Completed);
        assert status.Get(PreBackupPodReady) == before.Get(PreBackupPodReady);
        return false;
      }
      if a.admitted {
        executions := executions + 1;
        if !a.createOk {
          PatchCondition(a, Ready, False, ReasonCreationFailed);
        } else if job.None? {
          job := Some([]);
        }
      }
      return true;
    }
  }
}
