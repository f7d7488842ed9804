/**
  The status of a K8up job object (api/v1/status.go): a list of conditions, one per type, from
  which "started", "succeeded" and "failed" are read. Condition messages and timestamps are left
  out; reasons and types the operator itself never writes are kept as `Other`.
 */
module JobStatus {
  import opened Wrappers

  datatype ConditionType =
    | Completed | Ready | Scrubbed | Progressing | PreBackupPodReady | OtherType(text: string)

  datatype Reason =
    | ReasonReady | ReasonStarted | ReasonFinished | ReasonSucceeded | ReasonFailed
    | ReasonCreationFailed | ReasonUpdateFailed | ReasonDeletionFailed | ReasonRetrievalFailed
    | ReasonNoPreBackupPodsFound | ReasonWaiting | OtherReason(text: string)

  datatype ConditionStatus = True | False | Unknown

  datatype Condition = Condition(typ: ConditionType, status: ConditionStatus, reason: Reason)

  /** The first condition of the given type. */
  function Find(conditions: seq<Condition>, typ: ConditionType): (c: Option<Condition>)
    ensures c.Some? ==> c.value.typ == typ && c.value in conditions
    ensures c.None? ==> forall d :: d in conditions ==> d.typ != typ
  {
    if conditions == [] then None
    else if conditions[0].typ == typ then Some(conditions[0])
    else Find(conditions[1..], typ)
  }

  /** Overwrites the condition of the same type, or appends a new one. */
  function Put(conditions: seq<Condition>, c: Condition): (r: seq<Condition>)
    ensures forall t :: Find(r, t) == if t == c.typ then Some(c) else Find(conditions, t)
  {
    if conditions == [] then [c]
    else if conditions[0].typ == c.typ then
      var r := [c] + conditions[1..];
      assert r[1..] == conditions[1..];
      r
    else
      var r := [conditions[0]] + Put(conditions[1..], c);
      assert r[1..] == Put(conditions[1..], c);
      r
  }

  function Remove(conditions: seq<Condition>, typ: ConditionType): (r: seq<Condition>)
    ensures forall t :: Find(r, t) == if t == typ then None else Find(conditions, t)
  {
    if conditions == [] then []
    else if conditions[0].typ == typ then Remove(conditions[1..], typ)
    else
      var r := [conditions[0]] + Remove(conditions[1..], typ);
      assert r[1..] == Remove(conditions[1..], typ);
      r
  }

  datatype Status = Status(started: bool, finished: bool, conditions: seq<Condition>) {

    function Get(typ: ConditionType): Option<Condition> {
      Find(conditions, typ)
    }

    function With(typ: ConditionType, status: ConditionStatus, reason: Reason): (r: Status)
      ensures forall t :: r.Get(t) == if t == typ then Some(Condition(typ, status, reason)) else Get(t)
    {
      this.(conditions := Put(conditions, Condition(typ, status, reason)))
    }

    predicate HasFailedPreBackup() {
      var c := Get(PreBackupPodReady);
      c.Some? && IsPreBackupFailed(c.value) && c.value.status == False
    }

    predicate HasFailed() {
      HasFailedPreBackup() ||
      (var c := Get(Completed);
       c.Some? && c.value.reason != ReasonSucceeded && c.value.status == True)
    }

    predicate HasSucceeded() {
      !HasFailedPreBackup() &&
      (var c := Get(Completed);
       c.Some? && c.value.reason == ReasonSucceeded && c.value.status == True)
    }

    predicate HasFinished() {
      HasFailed() || HasSucceeded()
    }

    predicate HasStarted() {
      var c := Get(Progressing);
      c.Some? && c.value.reason == ReasonStarted && c.value.status == True
    }

    predicate IsWaitingForPreBackup() {
      var c := Get(PreBackupPodReady);
      c.Some? && c.value.reason == ReasonWaiting && c.value.status == Unknown
    }

    /** The status after SetStarted. */
    function Started(): (r: Status)
      ensures r.HasStarted() && (r.HasFailed() <==> HasFailed()) && (r.HasSucceeded() <==> HasSucceeded())
      ensures forall t :: t != Ready && t != Progressing ==> r.Get(t) == Get(t)
      ensures r.Get(Ready) == Some(Condition(Ready, True, ReasonReady))
      ensures r.started && r.finished == finished
    {
      this.(started := true).With(Ready, True, ReasonReady).With(Progressing, True, ReasonStarted)
    }

    /** The status after SetFinished. */
    function Finished(): (r: Status)
      ensures !r.HasStarted() && (r.HasFailed() <==> HasFailed()) && (r.HasSucceeded() <==> HasSucceeded())
      ensures forall t :: t != Ready && t != Progressing ==> r.Get(t) == Get(t)
      ensures r.Get(Ready) == None && r.Get(Progressing) == Some(Condition(Progressing, False, ReasonFinished))
      ensures r.finished && r.started == started
    {
      var s := this.(finished := true).With(Progressing, False, ReasonFinished);
      s.(conditions := Remove(s.conditions, Ready))
    }

    /** The status after SetFailed. */
    function Failed(): (r: Status)
      ensures r.HasFailed() && !r.HasSucceeded() && (r.HasStarted() <==> HasStarted())
      ensures forall t :: t != Completed ==> r.Get(t) == Get(t)
      ensures r.started == started && r.finished == finished
    {
      With(Completed, True, ReasonFailed)
    }

    /** The status after SetSucceeded: a failed pre-backup still counts as a failure. */
    function Succeeded(): (r: Status)
      ensures r.HasFailed() <==> HasFailedPreBackup()
      ensures r.HasSucceeded() <==> !HasFailedPreBackup()
      ensures r.HasStarted() <==> HasStarted()
      ensures forall t :: t != Completed ==> r.Get(t) == Get(t)
      ensures r.started == started && r.finished == finished
    {
      With(Completed, True, ReasonSucceeded)
    }
  }

  const Fresh := Status(false, false, [])

  predicate IsPreBackupFailed(c: Condition) {
    c.reason !in {ReasonSucceeded, ReasonWaiting, ReasonNoPreBackupPodsFound, ReasonReady}
  }

  /**
    In fields, what a status reads as. Succeeded and failed exclude each other, and a failed
    pre-backup is a failure whatever the job's own verdict.
   */
  lemma ReadingsMean(s: Status)
    ensures s.HasStarted() <==> s.Get(Progressing) == Some(Condition(Progressing, True, ReasonStarted))
    ensures s.IsWaitingForPreBackup() <==> s.Get(PreBackupPodReady) == Some(Condition(PreBackupPodReady, Unknown, ReasonWaiting))
    ensures s.HasFailedPreBackup() <==>
            exists r :: s.Get(PreBackupPodReady) == Some(Condition(PreBackupPodReady, False, r))
                        && r != ReasonSucceeded && r != ReasonWaiting && r != ReasonNoPreBackupPodsFound && r != ReasonReady
    ensures s.HasSucceeded() <==> !s.HasFailedPreBackup() && s.Get(Completed) == Some(Condition(Completed, True, ReasonSucceeded))
    ensures s.HasFailed() <==>
            s.HasFailedPreBackup() || exists r :: s.Get(Completed) == Some(Condition(Completed, True, r)) && r != ReasonSucceeded
    ensures s.HasFinished() <==> s.HasSucceeded() != s.HasFailed()
  {
    var p, c := s.Get(PreBackupPodReady), s.Get(Completed);
    if p.Some? {
      assert p == Some(Condition(PreBackupPodReady, p.value.status, p.value.reason));
    }
    if c.Some? {
      assert c == Some(Condition(Completed, c.value.status, c.value.reason));
    }
  }

  /** A status variable as the controllers hold it: each setter rewrites it in place. */
  class StatusCell {
    var value: Status

    constructor (s: Status)
      ensures value == s
    {
      value := s;
    }

    method SetStarted()
      modifies this
      ensures value == old(value).Started()
    {
      value := value.(started := true);
      value := value.With(Ready, True, ReasonReady);
      value := value.With(Progressing, True, ReasonStarted);
    }

    method SetFinished()
      modifies this
      ensures value == old(value).Finished()
    {
      value := value.(finished := true);
      value := value.With(Progressing, False, ReasonFinished);
      value := value.(conditions := Remove(value.conditions, Ready));
    }

    method SetFailed()
      modifies this
      ensures value == old(value).Failed()
    {
      value := value.With(Completed, True, ReasonFailed);
    }

    method SetSucceeded()
      modifies this
      ensures value == old(value).Succeeded()
    {
      value := value.With(Completed, True, ReasonSucceeded);
    }

    method SetCondition(typ: ConditionType, reason: Reason, status: ConditionStatus)
      modifies this
      ensures value == old(value).With(typ, status, reason)
    {
      value := value.With(typ, status, reason);
    }
  }
}
