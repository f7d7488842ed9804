/**
  Starting and stopping the deployments a backup needs before it runs
  (operator/backupcontroller/prebackup.go and prebackup_utils.go). Status writes succeed here; the
  other API calls may fail.
 */
module PreBackup {
  import opened Wrappers
  import opened JobStatus

  datatype DeploymentCondition = DeploymentCondition(progressing: bool, status: ConditionStatus, deadlineExceeded: bool)

  datatype Deployment = Deployment(conditions: seq<DeploymentCondition>, availableReplicas: nat)

  function ProgressingCondition(conditions: seq<DeploymentCondition>): Option<DeploymentCondition> {
    if conditions == [] then None
    else if conditions[0].progressing then Some(conditions[0])
    else ProgressingCondition(conditions[1..])
  }

  predicate PastDeadline(d: Deployment) {
    var c := ProgressingCondition(d.conditions);
    c.Some? && c.value.status == False && c.value.deadlineExceeded
  }

  predicate Available(d: Deployment) {
    d.availableReplicas > 0
  }

  /** How the API answers: whether templates can be listed, and for which deployments calls fail. */
  datatype Calls = Calls(templatesOk: bool, getFails: set<string>, createFails: set<string>, deleteFails: set<string>)

  /**
    The backup's status, the deployments of its namespace, the deployments a delete was ever issued
    for, and the templates the last stop went through.
   */
  datatype Scene = Scene(
    status: Status,
    deployments: map<string, Deployment>,
    issued: set<string>,
    stopped: seq<string>)

  function Mark(s: Scene, status: ConditionStatus, reason: Reason): Scene {
    s.(status := s.status.With(PreBackupPodReady, status, reason))
  }

  /** Fetches or creates the deployments in turn; false stands for the error return. */
  function EnsureAll(s: Scene, names: seq<string>, c: Calls): (Scene, bool)
    decreases names
  {
    if names == [] then (s, true)
    else if names[0] in c.getFails then (Mark(s, False, ReasonRetrievalFailed), false)
    else if names[0] in s.deployments then EnsureAll(s, names[1..], c)
    else if names[0] in c.createFails then (Mark(s, False, ReasonCreationFailed), false)
    else EnsureAll(s.(deployments := s.deployments[names[0] := Deployment([], 0)]), names[1..], c)
  }

  function Delete(s: Scene, name: string, c: Calls): Scene {
    var s := s.(issued := s.issued + {name});
    if name in c.deleteFails then Mark(s, False, ReasonDeletionFailed)
    else s.(deployments := s.deployments - {name})
  }

  datatype Readiness = AllReady | Waiting | Broken

  /** allDeploymentsAreReady: the first deployment that is past its deadline or not available decides. */
  function CheckAll(s: Scene, names: seq<string>, c: Calls): (Scene, Readiness)
    requires forall n :: n in names ==> n in s.deployments
    decreases names
  {
    if names == [] then (s, AllReady)
    else
      var d := s.deployments[names[0]];
      if PastDeadline(d) then
        (Delete(s.(status := s.status.With(PreBackupPodReady, False, ReasonFailed).With(Ready, True, ReasonFailed)), names[0], c), Broken)
      else if !Available(d) then (s, Waiting)
      else CheckAll(s, names[1..], c)
  }

  lemma {:induction false} EnsureAllCovers(s: Scene, names: seq<string>, c: Calls)
    ensures var (s', ok) := EnsureAll(s, names, c);
            && (forall n :: n in s.deployments ==> n in s'.deployments && s'.deployments[n] == s.deployments[n])
            && (ok ==> forall n :: n in names ==> n in s'.deployments)
            && (ok ==> s'.status == s.status)
            && (forall t :: t != PreBackupPodReady ==> s'.status.Get(t) == s.status.Get(t))
            && s'.issued == s.issued && s'.stopped == s.stopped
    decreases names
  {
    if names != [] && names[0] !in c.getFails {
      if names[0] in s.deployments {
        EnsureAllCovers(s, names[1..], c);
      } else if names[0] !in c.createFails {
        EnsureAllCovers(s.(deployments := s.deployments[names[0] := Deployment([], 0)]), names[1..], c);
      }
    }
  }

  datatype Started = Started(scene: Scene, ready: bool, ok: bool)

  /** StartPreBackup. A deployment past its deadline makes it return "not ready" without an error. */
  function Start(s: Scene, templates: seq<string>, c: Calls): Started {
    if !c.templatesOk then Started(Mark(s, False, ReasonRetrievalFailed), false, false)
    else if templates == [] then Started(Mark(s, True, ReasonNoPreBackupPodsFound), true, true)
    else
      EnsureAllCovers(s, templates, c);
      var (s1, ok) := EnsureAll(s, templates, c);
      if !ok then Started(s1, false, false)
      else
        var (s2, readiness) := CheckAll(s1, templates, c);
        match readiness
        case Broken => Started(s2, false, true)
        case Waiting => Started(Mark(s2, Unknown, ReasonWaiting), false, true)
        case AllReady => Started(Mark(s2, True, ReasonReady), true, true)
  }

  function DeleteAll(s: Scene, names: seq<string>, c: Calls): Scene
    decreases names
  {
    if names == [] then s else DeleteAll(Delete(s, names[0], c), names[1..], c)
  }

  /** StopPreBackupDeployments. */
  function Stop(s: Scene, templates: seq<string>, c: Calls): Scene {
    if !c.templatesOk then Mark(s, False, ReasonRetrievalFailed)
    else if templates == [] then Mark(s, True, ReasonNoPreBackupPodsFound)
    else Mark(DeleteAll(s, templates, c).(stopped := templates), True, ReasonFinished)
  }

  predicate Usable(s: Scene, names: seq<string>) {
    forall n :: n in names ==> n in s.deployments && Available(s.deployments[n]) && !PastDeadline(s.deployments[n])
  }

  lemma {:induction false} CheckAllMeans(s: Scene, names: seq<string>, c: Calls)
    requires forall n :: n in names ==> n in s.deployments
    ensures var (s', r) := CheckAll(s, names, c);
            && (r == AllReady <==> Usable(s, names))
            && (r != Broken ==> s' == s)
            && (forall t :: t != PreBackupPodReady && t != Ready ==> s'.status.Get(t) == s.status.Get(t))
            && (r == Broken ==> var p := s'.status.Get(PreBackupPodReady);
                                p.Some? && p.value.status == False && p.value.reason in {ReasonFailed, ReasonDeletionFailed})
            && s'.stopped == s.stopped && s.issued <= s'.issued
    decreases names
  {
    if names != [] {
      assert names == [names[0]] + names[1..];
      var d := s.deployments[names[0]];
      if !PastDeadline(d) && Available(d) {
        CheckAllMeans(s, names[1..], c);
      }
    }
  }

  /** In fields: the first Progressing condition is false because the deadline was exceeded. */
  predicate DeadlineExceededAt(d: Deployment, i: nat) {
    && i < |d.conditions|
    && (forall k :: 0 <= k < i ==> !d.conditions[k].progressing)
    && d.conditions[i].progressing && d.conditions[i].status == False && d.conditions[i].deadlineExceeded
  }

  lemma {:induction false} FirstProgressing(conditions: seq<DeploymentCondition>)
    ensures var c := ProgressingCondition(conditions);
            if c.None? then forall k :: 0 <= k < |conditions| ==> !conditions[k].progressing
            else exists i :: 0 <= i < |conditions| && conditions[i] == c.value && c.value.progressing
                             && forall k :: 0 <= k < i ==> !conditions[k].progressing
  {
    if conditions != [] {
      if conditions[0].progressing {
        assert conditions[0] == ProgressingCondition(conditions).value;
      } else {
        var rest := conditions[1..];
        FirstProgressing(rest);
        if ProgressingCondition(rest).Some? {
          var i :| 0 <= i < |rest| && rest[i] == ProgressingCondition(rest).value && rest[i].progressing
                   && forall k :: 0 <= k < i ==> !rest[k].progressing;
          assert forall k :: 0 <= k < i + 1 ==> k == 0 || conditions[k] == rest[k - 1];
          assert conditions[i + 1] == rest[i];
        } else {
          assert forall k :: 0 <= k < |conditions| ==> k == 0 || conditions[k] == rest[k - 1];
        }
      }
    }
  }

  lemma PastDeadlineMeans(d: Deployment)
    ensures PastDeadline(d) <==> exists i :: DeadlineExceededAt(d, i)
  {
    FirstProgressing(d.conditions);
    var c := ProgressingCondition(d.conditions);
    if c.Some? {
      var i :| 0 <= i < |d.conditions| && d.conditions[i] == c.value && c.value.progressing
               && forall k :: 0 <= k < i ==> !d.conditions[k].progressing;
      assert PastDeadline(d) ==> DeadlineExceededAt(d, i);
      assert forall k :: DeadlineExceededAt(d, k) ==> k == i;
    }
  }

  /** Usable deployments are there, have an available replica and are not past their deadline. */
  lemma UsableMeans(s: Scene, names: seq<string>)
    ensures Usable(s, names) <==>
            forall n :: n in names ==> n in s.deployments && s.deployments[n].availableReplicas > 0
                                       && forall i :: !DeadlineExceededAt(s.deployments[n], i)
  {
    forall n | n in names && n in s.deployments
      ensures PastDeadline(s.deployments[n]) <==> exists i :: DeadlineExceededAt(s.deployments[n], i)
    {
      PastDeadlineMeans(s.deployments[n]);
    }
  }

  /** The first deployment that is past its deadline or not available. */
  function FirstUnusable(s: Scene, names: seq<string>): (i: nat)
    requires forall n :: n in names ==> n in s.deployments
    ensures i <= |names|
    ensures forall k :: 0 <= k < i ==> s.deployments[names[k]].availableReplicas > 0 && !PastDeadline(s.deployments[names[k]])
    ensures i < |names| ==> s.deployments[names[i]].availableReplicas == 0 || PastDeadline(s.deployments[names[i]])
  {
    if names == [] then 0
    else
      var d := s.deployments[names[0]];
      if PastDeadline(d) || d.availableReplicas == 0 then 0 else 1 + FirstUnusable(s, names[1..])
  }

  /**
    The check waits if and only if the first deployment that is not usable is merely not available
    yet, and gives up if and only if that one is past its deadline; then a delete is issued for it.
   */
  lemma {:induction false} CheckAllDecides(s: Scene, names: seq<string>, c: Calls)
    requires forall n :: n in names ==> n in s.deployments
    ensures var (s', r) := CheckAll(s, names, c);
            var i := FirstUnusable(s, names);
            && (r == AllReady <==> i == |names|)
            && (r == Waiting <==> i < |names| && !PastDeadline(s.deployments[names[i]]))
            && (r == Broken <==> i < |names| && PastDeadline(s.deployments[names[i]]))
            && (r == Broken ==> names[i] in s'.issued && s'.status.Get(Ready) == Some(Condition(Ready, True, ReasonFailed)))
    decreases names
  {
    if names != [] {
      var d := s.deployments[names[0]];
      if !PastDeadline(d) && Available(d) {
        CheckAllDecides(s, names[1..], c);
      }
    }
  }

  /** The condition that goes with "ready". */
  function ReadyMark(templates: seq<string>): Condition {
    Condition(PreBackupPodReady, True, if templates == [] then ReasonNoPreBackupPodsFound else ReasonReady)
  }

  /**
    StartPreBackup reports "ready" exactly when the templates could be listed and either there are
    none, or every deployment could be fetched or created and is then available and within its
    deadline. Which of the two it was is what the status then says.
   */
  lemma StartMeans(s: Scene, templates: seq<string>, c: Calls)
    ensures var r := Start(s, templates, c);
            && (r.ready ==> r.ok)
            && (r.ready <==> c.templatesOk && (templates == [] || (EnsureAll(s, templates, c).1 && Usable(r.scene, templates))))
            && (r.ready ==> r.scene.status.Get(PreBackupPodReady) == Some(ReadyMark(templates)))
            && (forall t :: t != PreBackupPodReady && t != Ready ==> r.scene.status.Get(t) == s.status.Get(t))
            && r.scene.stopped == s.stopped && s.issued <= r.scene.issued
  {
    EnsureAllCovers(s, templates, c);
    if c.templatesOk && templates != [] && EnsureAll(s, templates, c).1 {
      var s1 := EnsureAll(s, templates, c).0;
      CheckAllMeans(s1, templates, c);
      BrokenIsUnusable(s1, templates, c);
    }
  }

  /** The call for a deployment fails: it cannot be fetched, or is missing and cannot be created. */
  predicate CallFails(s: Scene, name: string, c: Calls) {
    name in c.getFails || (name !in s.deployments && name in c.createFails)
  }

  /** The first deployment for which a call fails. */
  function FirstFailing(s: Scene, names: seq<string>, c: Calls): (i: nat)
    ensures i <= |names|
    ensures forall k :: 0 <= k < i ==> !CallFails(s, names[k], c)
    ensures i < |names| ==> CallFails(s, names[i], c)
  {
    if names == [] || CallFails(s, names[0], c) then 0 else 1 + FirstFailing(s, names[1..], c)
  }

  /** The fetching and creating fails if and only if some call does, and the status says of which kind the first one was. */
  lemma {:induction false} EnsureAllDecides(s: Scene, names: seq<string>, c: Calls)
    ensures var (s', ok) := EnsureAll(s, names, c);
            var i := FirstFailing(s, names, c);
            && (ok <==> i == |names|)
            && (!ok ==> s'.status.Get(PreBackupPodReady) ==
                        Some(Condition(PreBackupPodReady, False, if names[i] in c.getFails then ReasonRetrievalFailed else ReasonCreationFailed)))
    decreases names
  {
    if names != [] && !CallFails(s, names[0], c) {
      var s1 := if names[0] in s.deployments then s else s.(deployments := s.deployments[names[0] := Deployment([], 0)]);
      EnsureAllDecides(s1, names[1..], c);
      SameFailing(s, s1, names[1..], c);
    }
  }

  lemma {:induction false} SameFailing(s: Scene, s1: Scene, names: seq<string>, c: Calls)
    requires forall n :: CallFails(s, n, c) <==> CallFails(s1, n, c)
    ensures FirstFailing(s, names, c) == FirstFailing(s1, names, c)
  {
    if names != [] {
      SameFailing(s, s1, names[1..], c);
    }
  }

  /** How a start can end short of ready. */
  datatype Short = NoTemplates | NotEnsured | StillWaiting | GivenUp

  function ShortOf(s: Scene, templates: seq<string>, c: Calls): Short
    requires !Start(s, templates, c).ready
  {
    if !c.templatesOk then NoTemplates
    else if !EnsureAll(s, templates, c).1 then NotEnsured
    else
      EnsureAllCovers(s, templates, c);
      if CheckAll(EnsureAll(s, templates, c).0, templates, c).1 == Waiting then StillWaiting else GivenUp
  }

  /**
    A start that is not ready: a failed listing, fetch or creation is an error and the backup reads
    as failed; with a deployment past its deadline it reads as failed without an error; with one
    that is merely not available yet it reads as waiting, and not as failed.
   */
  lemma StartFallsShort(s: Scene, templates: seq<string>, c: Calls)
    requires !Start(s, templates, c).ready
    ensures var r, short := Start(s, templates, c), ShortOf(s, templates, c);
            var st := r.scene.status;
            && (r.ok <==> short == StillWaiting || short == GivenUp)
            && (st.IsWaitingForPreBackup() <==> short == StillWaiting)
            && (st.HasFailedPreBackup() <==> short != StillWaiting)
            && (short == StillWaiting && s.status.Get(Completed) == None ==> !st.HasFinished())
            && (short == NoTemplates ==> st.Get(PreBackupPodReady) == Some(Condition(PreBackupPodReady, False, ReasonRetrievalFailed)))
  {
    EnsureAllCovers(s, templates, c);
    if c.templatesOk && templates != [] {
      EnsureAllDecides(s, templates, c);
      if EnsureAll(s, templates, c).1 {
        CheckAllMeans(EnsureAll(s, templates, c).0, templates, c);
      }
    }
  }

  /** In particular: when all calls succeed and no deployment is past its deadline, the backup is ready or waits. */
  lemma StartWaits(s: Scene, templates: seq<string>, c: Calls)
    requires c.templatesOk && EnsureAll(s, templates, c).1 && s.status.Get(Completed) == None
    requires forall n :: n in templates && n in s.deployments ==> !PastDeadline(s.deployments[n])
    ensures var r := Start(s, templates, c);
            r.ok && (!r.ready ==> r.scene.status.IsWaitingForPreBackup() && !r.scene.status.HasFinished())
  {
    EnsureAllNew(s, templates, c);
    EnsureAllCovers(s, templates, c);
    var s1 := EnsureAll(s, templates, c).0;
    if templates != [] {
      CheckAllDecides(s1, templates, c);
      assert forall i :: 0 <= i < |templates| ==> templates[i] in templates;
    }
    if !Start(s, templates, c).ready {
      StartFallsShort(s, templates, c);
    }
  }

  /** A deployment that was just created is not available and not past its deadline. */
  lemma {:induction false} EnsureAllNew(s: Scene, names: seq<string>, c: Calls)
    ensures var s' := EnsureAll(s, names, c).0;
            forall n :: n in s'.deployments && n !in s.deployments ==> s'.deployments[n] == Deployment([], 0)
    decreases names
  {
    if names != [] && names[0] !in c.getFails {
      if names[0] in s.deployments {
        EnsureAllNew(s, names[1..], c);
      } else if names[0] !in c.createFails {
        var s1 := s.(deployments := s.deployments[names[0] := Deployment([], 0)]);
        EnsureAllNew(s1, names[1..], c);
        EnsureAllCovers(s1, names[1..], c);
      }
    }
  }

  /** When a deployment is past its deadline, deleting it does not make the rest look usable. */
  lemma {:induction false} BrokenIsUnusable(s: Scene, names: seq<string>, c: Calls)
    requires forall n :: n in names ==> n in s.deployments
    ensures CheckAll(s, names, c).1 == Broken ==> !Usable(CheckAll(s, names, c).0, names)
    decreases names
  {
    if names != [] {
      var d := s.deployments[names[0]];
      if PastDeadline(d) {
        assert names[0] in names;
      } else if Available(d) {
        BrokenIsUnusable(s, names[1..], c);
        assert forall n :: n in names[1..] ==> n in names;
      }
    }
  }

  lemma {:induction false} DeleteAllIssues(s: Scene, names: seq<string>, c: Calls)
    ensures var s' := DeleteAll(s, names, c);
            && s'.issued == s.issued + (set n | n in names)
            && (forall t :: t != PreBackupPodReady ==> s'.status.Get(t) == s.status.Get(t))
            && (forall n :: n in names && n !in c.deleteFails ==> n !in s'.deployments)
            && (forall n :: n in s'.deployments ==> n in s.deployments)
            && s'.stopped == s.stopped
    decreases names
  {
    if names != [] {
      var s1 := Delete(s, names[0], c);
      assert names == [names[0]] + names[1..];
      DeleteAllIssues(s1, names[1..], c);
    }
  }

  /** Reasons that tell a later reconcile that stopping is done. */
  predicate StopIsDone(status: Status) {
    var p := status.Get(PreBackupPodReady);
    p.Some? && p.value.reason in {ReasonFinished, ReasonFailed, ReasonNoPreBackupPodsFound}
  }

  /** What a stop leaves behind. */
  lemma StopMeans(s: Scene, templates: seq<string>, c: Calls)
    ensures var s' := Stop(s, templates, c);
            && (StopIsDone(s'.status) <==> c.templatesOk)
            && (c.templatesOk && templates != [] ==>
                  && s'.status.Get(PreBackupPodReady) == Some(Condition(PreBackupPodReady, True, ReasonFinished))
                  && s'.stopped == templates && (set n | n in templates) <= s'.issued)
            && (c.templatesOk && templates == [] ==>
                  s'.status.Get(PreBackupPodReady) == Some(Condition(PreBackupPodReady, True, ReasonNoPreBackupPodsFound)))
            && (!c.templatesOk ==>
                  s'.status.Get(PreBackupPodReady) == Some(Condition(PreBackupPodReady, False, ReasonRetrievalFailed)))
            && (!(c.templatesOk && templates != []) ==> s'.stopped == s.stopped)
            && (forall t :: t != PreBackupPodReady ==> s'.status.Get(t) == s.status.Get(t))
            && s.issued <= s'.issued
  {
    DeleteAllIssues(s, templates, c);
  }

  /** The executor's pre-backup part, working on the cluster in place. */
  class PreBackupExecutor {
    var scene: Scene

    constructor (s: Scene)
      ensures scene == s
    {
      scene := s;
    }

    method SetCondition(status: ConditionStatus, reason: Reason)
      modifies this
      ensures scene == Mark(old(scene), status, reason)
    {
      scene := scene.(status := scene.status.With(PreBackupPodReady, status, reason));
    }

    method DeletePreBackupDeployment(name: string, c: Calls)
      modifies this
      ensures scene == Delete(old(scene), name, c)
    {
      scene := scene.(issued := scene.issued + {name});
      if name in c.deleteFails {
        SetCondition(False, ReasonDeletionFailed);
      } else {
        scene := scene.(deployments := scene.deployments - {name});
      }
    }

    method EnsureDeployments(names: seq<string>, c: Calls) returns (ok: bool)
      modifies this
      ensures (scene, ok) == EnsureAll(old(scene), names, c)
    {
      for i := 0 to |names|
        invariant EnsureAll(old(scene), names, c) == EnsureAll(scene, names[i..], c)
      {
        assert names[i..][0] == names[i] && names[i..][1..] == names[i + 1..];
        if names[i] in c.getFails {
          SetCondition(False, ReasonRetrievalFailed);
          return false;
        }
        if names[i] !in scene.deployments {
          if names[i] in c.createFails {
            SetCondition(False, ReasonCreationFailed);
            return false;
          }
          scene := scene.(deployments := scene.deployments[names[i] := Deployment([], 0)]);
        }
      }
      return true;
    }

    method AllDeploymentsAreReady(names: seq<string>, c: Calls) returns (r: Readiness)
      requires forall n :: n in names ==> n in scene.deployments
      modifies this
      ensures (scene, r) == CheckAll(old(scene), names, c)
    {
      for i := 0 to |names|
        invariant scene == old(scene)
        invariant CheckAll(scene, names, c) == CheckAll(scene, names[i..], c)
      {
        assert names[i..][0] == names[i] && names[i..][1..] == names[i + 1..];
        var d := scene.deployments[names[i]];
        if PastDeadline(d) {
          SetCondition(False, ReasonFailed);
          scene := scene.(status := scene.status.With(Ready, True, ReasonFailed));
          DeletePreBackupDeployment(names[i], c);
          return Broken;
        }
        if !Available(d) {
          return Waiting;
        }
      }
      return AllReady;
    }

    method StartPreBackup(templates: seq<string>, c: Calls) returns (ready: bool, ok: bool)
      modifies this
      ensures Started(scene, ready, ok) == Start(old(scene), templates, c)
    {
      if !c.templatesOk {
        SetCondition(False, ReasonRetrievalFailed);
        return false, false;
      }
      if |templates| == 0 {
        SetCondition(True, ReasonNoPreBackupPodsFound);
        return true, true;
      }
      EnsureAllCovers(scene, templates, c);
      var ensured := EnsureDeployments(templates, c);
      if !ensured {
        return false, false;
      }
      var readiness := AllDeploymentsAreReady(templates, c);
      if readiness == Broken {
        return false, true;
      }
      if readiness == AllReady {
        SetCondition(True, ReasonReady);
      } else {
        SetCondition(Unknown, ReasonWaiting);
      }
      return readiness == AllReady, true;
    }

    method StopPreBackupDeployments(templates: seq<string>, c: Calls)
      modifies this
      ensures scene == Stop(old(scene), templates, c)
    {
      if !c.templatesOk {
        SetCondition(False, ReasonRetrievalFailed);
        return;
      }
      if |templates| == 0 {
        SetCondition(True, ReasonNoPreBackupPodsFound);
        return;
      }
      for i := 0 to |templates|
        invariant DeleteAll(old(scene), templates, c) == DeleteAll(scene, templates[i..], c)
      {
        assert templates[i..][0] == templates[i] && templates[i..][1..] == templates[i + 1..];
        DeletePreBackupDeployment(templates[i], c);
      }
      scene := scene.(stopped := templates);
      SetCondition(True, ReasonFinished);
    }
  }
}
