# K8up operator: verified model

K8up is a Kubernetes operator that backs up volumes and application data with restic. This project
models the logic that decides when backup work may start, how it is split into batch jobs, and how
the outcome of those jobs becomes object status, metrics and cleanup, and proves what that logic
guarantees. The Kubernetes API becomes explicit state; calls that may fail become parameters that say
whether they do.

| file | what it models |
|---|---|
| `Locker.dfy`, `Protocol.dfy` | the per-repository lock, and the five controllers interleaving under it |
| `JobStatus.dfy`, `BatchJobs.dfy` | the condition list of a job object; what batch jobs say about it; the counters |
| `SingleJob.dfy` | whole lives of Check, Prune, Restore and Archive objects |
| `Volumes.dfy`, `Planner.dfy`, `PodTargets.dfy` | choosing claims and nodes, grouping them into jobs, targeting pods |
| `PreBackup.dfy`, `BackupVerdict.dfy` | pre-backup deployments, the verdict over several jobs |
| `BackupRun.dfy`, `BackupReconciler.dfy` | the runs of a Backup object, and the controller and executor in place |
| `BackupLife.dfy`, `BackupCoverage.dfy`, `BackupCounts.dfy` | over all those runs: what becomes of the verdict, what a success has backed up, how often it is counted |
| `BackupExamples.dfy` | runs from a new Backup in which the operator does not do what one would expect |
| `Randomizer.dfy`, `Scheduler.dfy`, `ScheduleHandler.dfy` | random schedules, the cron registry, and keeping a Schedule object in step with it |
| `Cleaner.dfy` | history limits |
| `Snapshots.dfy` | mirroring restic snapshots into Snapshot objects |
| `Text.dfy`, `Wrappers.dfy` | `strings.Join`, `strings.Split`, `strconv.Itoa` and their laws; `Option` and `Min` |

Code that works in place (the controllers, the executor, the scheduler, the cleaner, the snapshot
sync) is modelled by classes and loops. Each method is proved equal to a step function, and the
theorems are about all runs of those step functions. The words the theorems use (may start, succeeded,
selected, in use, past its deadline, older) have lemmas that say in the fields of the objects what
they mean: `Locker.AdmissionMeans`, `JobStatus.ReadingsMean`, `Volumes.SelectionMeans`,
`PreBackup.PastDeadlineMeans`, `Cleaner.LimitsMean` and their like.

## What the model assumes

- Reads are fresh and one reconcile runs per object at a time.
- The repository hash label is injective: a job carries the repository itself.
- A batch job has at most one of the Complete and Failed conditions, with status True, and keeps it.
- `Protocol.Settled`: when a lock hold lists the jobs of a repository, each job that has not ended
  has an active pod. The locker looks at active pods only (operator/locker/locker.go:143), so this is
  needed; `Protocol.GuardAloneIsNotEnough` proves that it is exactly what is needed.
- Names of Kubernetes objects are unique in a namespace and contain neither `/` nor `,`.
- Cron gives each entry an id it never used before, and accepts no definition that ends in `-random`.

## Where the code differs from its comments

- The concurrency limit counts jobs of one repository, not of the whole cluster
  (operator/locker/locker.go:101 against :132-136); `Protocol.LimitIsPerRepository` is a run that
  exceeds it in two repositories.
- A Restore job carries the exclusive label but is admitted like a shared one, so an exclusive job is
  alone only if it is a Check or a Prune; `Protocol.RestoreIsNotAlone` is a run that shows it.
- The patch in `SetStarted` is computed against a copy taken after the change
  (operator/job/status.go:66-71) and persists nothing; the next look at the job persists "started".
- `@annually-random` has an empty case and comes back unchanged
  (operator/schedulecontroller/randomizer.go:43), so such a schedule never registers.
- `Deprovision` of a Schedule removes keys without lowering the gauge
  (operator/schedulecontroller/controller.go:44-47); `ScheduleHandler.GaugeConserved` accounts for it,
  and `ScheduleHandler.RemovalLeavesGauge` is a run that leaves the gauge at one without a key.

## What does not hold

Each of these has its exact condition, and a run or an input that shows it.

- A creation loop that stops at a failing call is not resumed, and colliding grouping keys lose items:
  either way the backup reports success once the created jobs complete, with selected volumes in no
  job. The work is covered, then and up to the next loop, if and only if the keys keep the items apart
  and no creation call fails (`BackupCoverage.CreationDecides`). `BackupExamples.HalfABackup` and
  `BackupExamples.LostClaimBackup` are runs, for every plan with two jobs and for every plan with
  colliding keys; `BackupExamples.ElevenClaimsCollide` is a list of claims that has both.
- A success turns into a failure when the templates cannot be listed while the pre-backup deployments
  are being stopped (operator/backupcontroller/prebackup.go:91-95). After a reconcile that sees a
  success the object reads as succeeded if and only if the stop was done before or the templates could
  be listed (`BackupLife.SuccessReadsAfter`; `BackupExamples.SuccessTurnsIntoFailure`). While that
  lasts, every reconcile counts the same success again (`BackupExamples.SuccessCountedOverAndOver`);
  the exact count over every run is `BackupCounts.BackupCountedExactly`.
- A failure turns into a success when its failed jobs disappear. Over every run it survives if and
  only if no reconcile lists jobs that have all succeeded and writes the status
  (`BackupLife.VerdictKept`); after a disappearance it is safe from that, in runs without another one,
  if and only if no job is left or one has failed (`BackupLife.DeletionKeepsFailure`;
  `BackupExamples.FailureTurnsIntoSuccess`).
- A started backup whose jobs have all disappeared is requeued for ever
  (`BackupExamples.OrphanedBackupNeverRests`); exactly when a disappearance leaves a finished backup
  finished is `BackupLife.DeletionKeepsClosed`.
- Grouping keys are raw concatenations, so items can be lost or run on a wrong node: exactly when is
  `Planner.WorkConserved` and `Planner.ClassicPinning`; `Planner.RelaxedKeysCanCollide`,
  `Planner.ClassicKeyCanBeTaken` and `Planner.KeysCanMixNodes` are such inputs.
- A snapshot sync fails on colliding 8-character id prefixes: exactly when is `Snapshots.SyncSucceeds`;
  `Snapshots.EqualPrefixesFail` and `Snapshots.FirstSyncFails` show it.

## Model

| member | source | states |
|---|---|---|
| `Locker.FetchRunningJobs` | operator/locker/locker.go:132-148 | the loop yields exactly the listed jobs of the repository with active pods, in order |
| `Locker.AdmissionMeans` | operator/locker/locker.go:57-89 | in fields: a Check or Prune may start if and only if no job of the repository has an active pod; another kind if and only if none with an active pod is exclusive and the active pods of its kind are below that kind's own limit, zero being none |
| `Locker.ActivePodsAt` | operator/locker/locker.go:110-119 | what is compared with the limit is a sum of active pods of the type |
| `Locker.NewJobMeans` | operator/restorecontroller/executor.go:76 | in fields: a new job has no pod and no verdict, and the exclusive label if and only if it is a Check, a Prune or a Restore |
| `Locker.IsExclusiveJobRunning` | operator/locker/locker.go:92-99 | true if and only if some listed job is active and carries the exclusive label |
| `Locker.IsConcurrencyLimitReached` | operator/locker/locker.go:106-121 | the early-exit loop equals comparing the full sum of active pods of the type with the limit; 0 never, negative as soon as one job of the type runs |
| `Locker.JobCluster.TryRun` | operator/locker/locker.go:48-69 | runs if and only if the listing succeeded and no exclusive job is running and the limit is not reached; the jobs afterwards in every case, also when the runnable fails midway |
| `Locker.JobCluster.TryRunExclusively` | operator/locker/locker.go:71-89 | runs if and only if the listing succeeded and nothing is running; the jobs afterwards in every case |
| `Protocol.StepKeeps` | operator/locker/locker.go:48-99 | every step of any controller, and every change of a job, keeps the protocol invariant |
| `Protocol.Exclusivity` | operator/locker/locker.go:48-99 | in every reachable state an active Check or Prune is the only active job of its repository, and at most one active job carries the exclusive label |
| `Protocol.RestoreFreezes` | operator/restorecontroller/controller.go:29-63 | while a restore is active no job joins the unended jobs of its repository, nor, as long as no job regains pods, the active ones |
| `Protocol.GuardAloneIsNotEnough` | operator/locker/locker.go:80-88 | when a Check or Prune passes the locker's test, the created job respects the others if and only if the repository was settled |
| `Protocol.ConcurrencyBound` | operator/locker/locker.go:57-68 | over every run, unended jobs (and, with one pod per job, active pods) of a type never exceed the limit, for Backup the limit minus one plus the jobs of one hold |
| `Protocol.HoldIsRun` | operator/locker/locker.go:48-89 | an uninterrupted TryRun or TryRunExclusively is a run of the protocol with exactly the jobs the method leaves |
| `Protocol.RestoreIsNotAlone` | operator/restorecontroller/executor.go:76 | for all limits, a run in which an active Restore carries the exclusive label beside an active Backup |
| `Protocol.LimitIsPerRepository` | operator/locker/locker.go:101-121 | a run in which two repositories together exceed the limit |
| `JobStatus.Put` | api/v1/status.go:139-146 | set-or-append by type changes that type's condition and no other |
| `JobStatus.ReadingsMean` | api/v1/status.go:26-84 | in fields: when a status reads as started, waiting, failed, succeeded; the last two exclude each other |
| `JobStatus.Status.Started` | api/v1/status.go:89-103 | the object reads as started, keeps its verdict and all other conditions |
| `JobStatus.Status.Finished` | api/v1/status.go:107-116 | the object no longer reads as started, keeps its verdict and all other conditions |
| `JobStatus.Status.Failed` | api/v1/status.go:119-126 | the object reads as failed and not as succeeded, whatever it said before |
| `JobStatus.Status.Succeeded` | api/v1/status.go:129-136 | the object reads as succeeded if and only if no failed pre-backup is on record, and as failed otherwise |
| `BatchJobs.ObserveWellFormed` | operator/job/job.go:130-189 | a well-formed job puts its own verdict and no other into the status, and that verdict's counter, with the total, moves exactly when the verdict is news |
| `BatchJobs.StatusRecorder.UpdateStatus` | operator/job/job.go:130-152 | the in-place update is the observation `ObserveWellFormed` speaks about |
| `SingleJob.JobController.ReconcileJobStatus` | operator/job/job.go:106-127 | what is persisted and what is counted for each answer of the two API calls |
| `SingleJob.JobController.Provision` | operator/checkcontroller/controller.go:29-65 | one reconcile is one step of the run model; it asks for a requeue if and only if no call of the status part failed and the object is started or not finished |
| `SingleJob.StepKeeps` | operator/checkcontroller/controller.go:45-60 | every step keeps verdict, status and counters consistent and executes at most once, only without a job and without an observed status |
| `SingleJob.AtMostOneObservedJob` | operator/prunecontroller/controller.go:29-62 | over every run: Execute if and only if the job lookup finds none, the locker admits and no observed status is persisted, a new job if and only if the creation succeeds besides; never again once a status is persisted; a verdict is kept even after the job is deleted |
| `SingleJob.DecideWrites` | operator/executor/generic.go:53-73 | what a reconcile writes besides the verdict: Scrubbed after cleanup, not Ready after a failed creation, nothing when the write fails |
| `SingleJob.CountedOnce` | operator/job/job.go:168-189 | over every run: total is successes plus failures; one success exactly once it reads as succeeded, one failure exactly once it reads as failed, plus to the same counter one per reconcile that counted the verdict and failed to write it |
| `SingleJob.FailedWriteCountsAgain` | operator/job/job.go:120-125 | a run from a new object in which a success whose status write fails once is counted twice |
| `Volumes.MapClaimsToPods` | operator/backupcontroller/executor.go:68-85 | each claim is mapped to the last listed running non-K8up pod that uses it, and to none if there is none |
| `Volumes.LastPodCounts` | operator/backupcontroller/executor.go:74-85 | in fields: of several running non-K8up pods with the claim the last one listed counts |
| `Volumes.ListAndFilterPVCs` | operator/backupcontroller/executor.go:65-183 | the items of exactly the selected claims, in claim order, or an error if and only if a listing fails |
| `Volumes.SelectionMeans` | operator/backupcontroller/executor.go:95-163 | in fields: a claim has an item if and only if it is bound, its annotation is a text for true or, without one, such claims are not skipped and it is RWX or RWO, its arguments parse, and its volume is found where it has to tell the node |
| `Volumes.ItemsMatchClaims` | operator/backupcontroller/executor.go:95-180 | every selected claim has an item, every item belongs to a selected claim, no claim has two |
| `Volumes.MountedClaimFollowsPod` | operator/backupcontroller/executor.go:146-154 | a selected claim in use, RWO or scheduled classically, without hostname annotation, ends in a planned job that has its volume and is pinned to the node of a running non-K8up pod using it, with that pod's tolerations when relaxed |
| `Volumes.ClaimIsPlanned` | operator/backupcontroller/executor.go:65-266 | a selected claim ends in a planned job that has its volume, on the node chosen for it and with the arguments its annotation gives |
| `Volumes.FirstHostOfTerms` | operator/backupcontroller/executor.go:188-201 | the first hostname requirement over all terms, in order, decides |
| `Volumes.UnmountedClaimFollowsVolume` | operator/backupcontroller/executor.go:157-177 | with classic scheduling an unused RWO claim goes to the first host its volume's node affinity names |
| `Volumes.AnnotatedClaimFollowsAnnotation` | operator/backupcontroller/executor.go:174-177 | a hostname annotation decides the node, in use or not, in both modes |
| `Volumes.ClaimIsFree` | operator/backupcontroller/executor.go:150-172 | in all other cases the job is pinned nowhere, in both modes |
| `Planner.GroupItems` | operator/backupcontroller/executor.go:225-266 | relaxed: one job per key, of the last item with it; classic: one job per key with every item of the key, placed after the first |
| `Planner.GroupsOfMean` | operator/backupcontroller/executor.go:225-266 | placing item after item arrives at that grouping in both modes |
| `Planner.PlaceByNode` | operator/backupcontroller/executor.go:246-265 | the item joins the job of its key, or opens it with its own name, node and arguments |
| `Planner.PlanJobs` | operator/backupcontroller/executor.go:225-310 | the plan of the items and targets that the next lemma characterises |
| `Planner.PlanOfIsPlan` | operator/backupcontroller/executor.go:225-310 | that plan is a grouping as the mode asks for, with the job for backup commands put over it |
| `Planner.WorkConserved` | operator/backupcontroller/executor.go:225-310 | every item's volume lies in exactly one planned job if and only if the keys keep the items apart |
| `Planner.KeysKeepMeans` | operator/backupcontroller/executor.go:229-248 | in fields: the texts that must differ, per mode |
| `Planner.PlainArgsKeepItems` | operator/backupcontroller/executor.go:229 | relaxed keys are distinct when no joined argument text starts with a digit |
| `Planner.DistinctJobNames` | operator/backupcontroller/executor.go:403-405 | no two planned jobs have the same name, so none merge into one API object |
| `Planner.BackupsKeepApart` | operator/backupcontroller/executor.go:403-405 | two Backups of a namespace never plan jobs of the same name |
| `Planner.CommandJobIs` | operator/backupcontroller/executor.go:304-309 | the job for backup commands: its name, targets, no volume and no node |
| `Planner.PinnedToItemNode` | operator/backupcontroller/executor.go:385-397 | the job with an item's volume is pinned to that item's node, runs with its arguments, and has its tolerations or, when classic, those of the first item of the key |
| `Planner.ClassicPinning` | operator/backupcontroller/executor.go:246-265 | with classic scheduling every job with an item's volume is pinned to that item's node, with its arguments, if and only if keys that agree, and are not taken by the command job, come from the same node and arguments |
| `Planner.KeysCanMixNodes` | operator/backupcontroller/executor.go:248-264 | two items on nodes "n" and "n1" that share the key "n1", so that the second runs on the wrong node |
| `Planner.RelaxedKeysCanCollide` | operator/backupcontroller/executor.go:229-245 | eleven claims of which the second, with argument "0", shares the key "10" with the last and is in no job |
| `Planner.ClassicKeyCanBeTaken` | operator/backupcontroller/executor.go:248-309 | a claim with argument "prebackup" is in no job when there are backup commands to run |
| `PodTargets.ListPods` | restic/kubernetes/pod_list.go:57-122 | the first eligible pod of each first owner, described by its annotations; nothing when told to skip; an error if and only if the listing fails |
| `PodTargets.ListedMeans` | restic/kubernetes/pod_list.go:76-118 | in fields: a listed pod is running, annotated and passes the filter; of every such pod it or an earlier one of the same owner is listed |
| `PodTargets.DescribeMeans` | restic/kubernetes/pod_list.go:77-116 | in fields: what is handed on of a listed pod |
| `PodTargets.FetchCandidatePods` | operator/backupcontroller/backup_utils.go:61-110 | all pods without selectors, otherwise exactly those some selector matches or the backup owns, each once; an error if and only if a listing fails |
| `PodTargets.DropUnviable` | operator/backupcontroller/executor.go:290-295 | the backwards deletion keeps exactly the viable candidates, in order |
| `PodTargets.TargetPods` | operator/backupcontroller/executor.go:297-303 | the target list is the names of the viable candidates |
| `PodTargets.SplitAtComma` | cmd/clihelper.go:5-13 | the concatenation of the parts of each argument |
| `PodTargets.SplitsBack` | cmd/clihelper.go:5-13 | several joined lists read back as one list after the other |
| `PodTargets.ReadTargetsBack` | operator/backupcontroller/executor.go:325-330 | splitting what was joined gives the same names |
| `PodTargets.FilterAgrees` | restic/kubernetes/pod_list.go:88-118 | a filter made of listed pods changes no owner's first pod |
| `PodTargets.TargetsRoundTrip` | restic/kubernetes/pod_list.go:57-122 | listing again with the joined and split names finds exactly the targeted pods |
| `PodTargets.OnePerOwner` | restic/kubernetes/pod_list.go:99-108 | no two listed pods have the same first owner |
| `PodTargets.CommandRunOnce` | operator/backupcontroller/executor.go:272-336 | across all jobs of a backup each targeted pod's command is run by exactly one job, and no other pod's command is run |
| `PreBackup.StartMeans` | operator/backupcontroller/prebackup.go:18-57 | "ready" if and only if templates could be listed and there are none, or every deployment was fetched or created and is available within its deadline |
| `PreBackup.StartFallsShort` | operator/backupcontroller/prebackup.go:18-57 | a start that is not ready: which status and which error each of the four ways leaves; it reads as waiting if and only if a deployment is merely not available yet |
| `PreBackup.StartWaits` | operator/backupcontroller/prebackup.go:35-57 | when all calls succeed and no deployment is past its deadline the backup is ready or waits, and is not finished |
| `PreBackup.EnsureAllDecides` | operator/backupcontroller/prebackup_utils.go:116-136 | fetching and creating fails if and only if some call does, and the status says of which kind the first one was |
| `PreBackup.CheckAllMeans` | operator/backupcontroller/prebackup.go:63-85 | all ready if and only if every deployment is available and none past its deadline; only a broken one changes anything |
| `PreBackup.CheckAllDecides` | operator/backupcontroller/prebackup.go:63-85 | the first deployment that is not usable decides: waiting if and only if it is within its deadline, given up, with a delete issued for it, if and only if it is past it |
| `PreBackup.PastDeadlineMeans` | operator/backupcontroller/prebackup_utils.go:140-169 | in fields: the first Progressing condition is false because the deadline was exceeded |
| `PreBackup.UsableMeans` | operator/backupcontroller/prebackup_utils.go:140-160 | in fields: available replicas, and not past the deadline |
| `PreBackup.StopMeans` | operator/backupcontroller/prebackup.go:88-110 | stopping counts as done if and only if the templates could be listed; then a delete was issued for every listed deployment, or there was none |
| `PreBackup.DeleteAllIssues` | operator/backupcontroller/prebackup.go:103-126 | a delete is issued for each deployment, and those whose delete did not fail are gone |
| `PreBackup.EnsureAllCovers` | operator/backupcontroller/prebackup_utils.go:116-136 | without an error every deployment exists afterwards, and no existing one was replaced |
| `PreBackup.PreBackupExecutor.StartPreBackup` | operator/backupcontroller/prebackup.go:18-57 | the in-place steps are the start `StartMeans` speaks about |
| `PreBackup.PreBackupExecutor.StopPreBackupDeployments` | operator/backupcontroller/prebackup.go:88-111 | the in-place steps are the stop `StopMeans` speaks about |
| `BackupVerdict.ReconcileVerdict` | operator/backupcontroller/controller.go:86-113 | the counting loop and the branches record the verdict of the job list |
| `BackupVerdict.VerdictMeans` | operator/backupcontroller/controller.go:86-113 | for well-formed jobs the counts add up, one branch fires, failed if and only if some job failed, succeeded if and only if all did |
| `BackupVerdict.VerdictSurvives` | operator/backupcontroller/controller.go:104-113 | the branch taken on a list of jobs stays the same while the jobs keep their conditions |
| `BackupReconciler.BackupController.Provision` | operator/backupcontroller/controller.go:32-72 | one reconcile is one step of the run model |
| `BackupReconciler.BackupController.ReconcileJobStatus` | operator/backupcontroller/controller.go:76-122 | what is persisted and what is counted for each answer of the API calls |
| `BackupReconciler.BackupController.CreateJobs` | operator/backupcontroller/executor.go:312-373 | the planned jobs created up to the first failing call, with their start delays |
| `BackupReconciler.BackupController.FindTargets` | operator/backupcontroller/executor.go:272-303 | the viable pods among the candidates, or an error if and only if a listing fails |
| `BackupReconciler.BackupController.StartJobs` | operator/backupcontroller/executor.go:212-383 | selecting, targeting, planning and creating, including each early return and when an error is returned |
| `BackupReconciler.BackupController.Execute` | operator/backupcontroller/executor.go:46-53 | the accounts, the pre-backup and then the jobs, including each early return and when an error is returned |
| `BackupRun.StepKeeps` | operator/backupcontroller/controller.go:32-72 | every step, also a disappearing job, keeps: a recorded success is that of all jobs there are, a failed pre-backup of a backup with jobs comes after a verdict, and "finished" pre-backups were issued deletes |
| `BackupRun.JobsOnlyWhenReady` | operator/backupcontroller/executor.go:203-210 | in every reachable state jobs are created only for a backup without jobs, neither started nor finished, with no template or every deployment available and within its deadline |
| `BackupRun.CreatesExactly` | operator/backupcontroller/controller.go:46-72 | a reconcile comes to creating jobs if and only if the backup is unstarted, the locker admits it, its pre-backup gets ready and no listing on the way fails |
| `BackupRun.ExecuteErrs` | operator/backupcontroller/executor.go:46-53 | starting a backup returns an error if and only if the accounts, the templates or a deployment cannot be had or, once the pre-backup is ready, a listing or creation call fails |
| `BackupRun.OutcomeMeans` | operator/backupcontroller/controller.go:42-71 | exactly when a reconcile returns an error, nothing more, or a requeue |
| `BackupRun.ReasonsMean` | operator/backupcontroller/controller.go:57-59 | in fields: the reasons that end a backup's reconciles and those that mark its pre-backup as failed |
| `BackupRun.ScrubMeans` | operator/backupcontroller/controller.go:52-55 | cleanup ends in Scrubbed, true once it succeeded and then not tried again; no other condition changes |
| `BackupRun.StaggeredStarts` | operator/backupcontroller/executor.go:345-353 | jobs of one creation loop start ten seconds apart, one after the other, the first at once |
| `BackupLife.ReconcileVerdictIs` | operator/backupcontroller/controller.go:104-115 | a reconcile changes a recorded verdict to what the jobs say, and not otherwise |
| `BackupLife.VerdictKept` | operator/backupcontroller/controller.go:86-115 | over every run: a recorded success survives whatever jobs disappear; a recorded failure, with the object reading as failed, survives if and only if no reconcile lists jobs that all succeeded and writes the status; a finished object stays finished |
| `BackupLife.FailureKept` | operator/backupcontroller/controller.go:104-115 | that law from any state, with what the failure becomes otherwise |
| `BackupLife.SafeMeansStanding` | operator/backupcontroller/controller.go:104-115 | a recorded failure survives every run in which no job disappears if and only if there is a failed job or none at all |
| `BackupLife.DeletionKeepsFailure` | operator/backupcontroller/controller.go:81-115 | after a disappearance a recorded failure survives the next look if and only if no job is left or one has not succeeded, and every run without a further disappearance if and only if no job is left or one has failed |
| `BackupLife.SuccessReads` | api/v1/status.go:42-66 | a recorded success reads as one if and only if the pre-backup condition is not a failed listing |
| `BackupLife.SuccessReadsAfter` | operator/backupcontroller/prebackup.go:88-111 | after a reconcile that sees a success the object reads as succeeded if and only if stopping was done before or the templates could be listed, and as failed otherwise |
| `BackupLife.FinishedBackupRests` | operator/backupcontroller/controller.go:51-64 | a finished backup is retried, after a requeue or an error, at most once plus once per reconcile with a failed call, and rests only after a delete was issued for every listed deployment or none was found |
| `BackupLife.DeletionKeepsClosed` | operator/backupcontroller/controller.go:46-64 | a disappearance leaves a finished backup finished if and only if the rest has a failed job or all succeeded, or nothing is left and the verdict was written |
| `BackupLife.OrphanNeverRests` | operator/backupcontroller/controller.go:46-49 | a started backup without jobs is requeued by every reconcile, and nothing changes |
| `BackupCoverage.FrozenRun` | operator/backupcontroller/executor.go:203-383 | up to the next creation loop, what is to be backed up and the jobs for it stay the same over every run |
| `BackupCoverage.PlannedJobHasWork` | operator/backupcontroller/executor.go:225-310 | every planned job has a volume to back up or a command to run |
| `BackupCoverage.CreationDecides` | operator/backupcontroller/executor.go:225-373 | the work of a creation loop is covered, then and up to the next loop, if and only if the keys keep the items apart and no creation call fails |
| `BackupCoverage.SucceededMeansBackedUp` | operator/backupcontroller/executor.go:203-383 | over every run whose creation loops have keys that keep the items and no failing call, success means that every selected volume and every targeted pod's command is in a job that completed or has disappeared, and all jobs there are completed |
| `BackupCoverage.TargetsAreCommandsRun` | operator/backupcontroller/executor.go:272-336 | a planned job has the pod as its target if and only if it runs the pod's command when it lists the pods again; the targets are the listed candidates |
| `BackupCoverage.VolumesAreSelectedClaims` | operator/backupcontroller/executor.go:212-226 | the volumes a reconcile sets out to back up are exactly the selected claims |
| `BackupCounts.StepCounts` | operator/job/job.go:168-189 | the exact account of one step: which reconciles count without recording |
| `BackupCounts.BackupCountedExactly` | operator/backupcontroller/controller.go:104-110 | over every run the backup adds exactly one once its jobs' verdict is persisted, one per verdict counted and not written, and one per recount |
| `BackupCounts.BackupCountedEach` | operator/job/job.go:168-189 | over every run each counter moves exactly with the reconciles that find its verdict to be news |
| `BackupCounts.BackupCountedOnce` | operator/backupcontroller/controller.go:104-110 | while no recorded verdict is disputed: one increment once it is persisted, none before, at most one more per failed status write; without failed writes exactly one, to the counter of that verdict |
| `BackupExamples.HalfCreatedBackupSucceeds` | operator/backupcontroller/executor.go:225-373 | a run from a new backup: a creation call fails or keys collide, the created jobs complete, and the backup reports success with work in no job |
| `BackupExamples.HalfABackup` | operator/backupcontroller/executor.go:370-372 | such a run for every plan with two jobs, of which one is created |
| `BackupExamples.LostClaimBackup` | operator/backupcontroller/executor.go:226-266 | such a run for every plan with colliding keys, all of whose jobs are created |
| `BackupExamples.ElevenClaimsCollide` | operator/backupcontroller/executor.go:229-245 | claims whose plan has colliding keys and two jobs |
| `BackupExamples.SuccessTurnsIntoFailure` | operator/backupcontroller/prebackup.go:91-95 | a run from a new backup in which the success just written reads as a failure |
| `BackupExamples.SuccessCountedOverAndOver` | operator/job/job.go:171-176 | a run from a new backup in which every one of n further reconciles counts the same success again |
| `BackupExamples.FailureTurnsIntoSuccess` | operator/backupcontroller/controller.go:81-106 | a run from a new backup in which the failed job disappears and the backup becomes a succeeded one |
| `BackupExamples.OrphanedBackupNeverRests` | operator/backupcontroller/controller.go:46-49 | a run from a new backup after which it is requeued by every reconcile |
| `BackupExamples.NewBackupBegins` | operator/backupcontroller/executor.go:203-383 | whatever there is to back up, there is a new backup and a reconcile as these runs start with |
| `Scheduler.CronScheduler.SetSchedule` | operator/scheduler/scheduler.go:46-69 | the whole registry after a set, also when the definition does not parse |
| `Scheduler.CronScheduler.RemoveSchedule` | operator/scheduler/scheduler.go:71-80 | the whole registry after a removal, also of an unknown key |
| `Scheduler.SetKeeps` | operator/scheduler/scheduler.go:46-69 | the registry stays valid, the key is live if and only if the definition parsed, no other key's entry is touched |
| `Scheduler.RemoveKeeps` | operator/scheduler/scheduler.go:71-80 | the registry stays valid, the key is gone, no other key's entry is touched, however stale the reference |
| `Scheduler.RegistryMatchesCron` | operator/scheduler/scheduler.go:46-85 | after any calls a key has a live entry, exactly one and with that definition, if and only if its last call was a successful set |
| `Randomizer.RandomScheduleIsCrontab` | operator/schedulecontroller/randomizer.go:27-68 | for every seed five crontab fields in range (crontab utility of POSIX, INPUT FILES), day 1 to 27, and not random any more |
| `Randomizer.IsRandomMeans` | api/v1/schedule_types.go:207-219 | random definitions are those that begin with "@" and end in "-random" |
| `Randomizer.FieldsOfSchedule` | operator/schedulecontroller/randomizer.go:36-49 | which value lands in which field for each of the five schedules |
| `Randomizer.OtherSchedulesUnchanged` | operator/schedulecontroller/randomizer.go:43-53 | anything else comes back unchanged, as an error unless it is `@annually-random` |
| `ScheduleHandler.KeyInjective` | operator/schedulecontroller/handler.go:148-151 | names without a slash give different keys to different schedules and job types |
| `ScheduleHandler.KeyTexts` | operator/schedulecontroller/handler.go:148-151 | the keys of the five job types, spelled out |
| `ScheduleHandler.EntriesAfterPut` | operator/schedulecontroller/effectiveschedule.go:29-43 | afterwards the type has exactly the given entry, other types are as before |
| `ScheduleHandler.EntriesAfterClean` | operator/schedulecontroller/effectiveschedule.go:48-62 | entries of the type go if and only if the new definition is not random, other types are as before |
| `ScheduleHandler.Handler.CreateJobList` | operator/schedulecontroller/handler.go:66-146 | the loop over the job types, stopping at the first error, on scheduler, gauge and list |
| `ScheduleHandler.Handler.DeprovisionSchedule` | operator/schedulecontroller/controller.go:43-50 | the removal of the key of every job type, with the gauge untouched |
| `ScheduleHandler.DeprovisionRemoves` | operator/schedulecontroller/controller.go:43-47 | every visited job type is unregistered, other keys stay, and the gauge is untouched |
| `ScheduleHandler.HandledInStep` | operator/schedulecontroller/handler.go:119-146 | after an error-free pass in any order: registered if and only if specified, listed once if and only if random, and the listed definition is live in cron |
| `ScheduleHandler.HandledInStepAlways` | operator/schedulecontroller/handler.go:41-151 | the same, and a list without duplicates, after any history of handled and removed schedules, with or without errors and failed writes, from the list the object's status then holds |
| `ScheduleHandler.AnnuallyRandomNeverWorks` | operator/schedulecontroller/randomizer.go:43-53 | a schedule with `@annually-random` is never handled without error |
| `ScheduleHandler.GaugeConserved` | operator/schedulecontroller/handler.go:120-143 | over every run, per namespace, the gauge minus registered keys is failed first registrations plus registered keys removed by Deprovision |
| `ScheduleHandler.RemovalLeavesGauge` | operator/schedulecontroller/controller.go:43-50 | a schedule that is handled and removed leaves no key and the gauge at one |
| `Cleaner.SortIsUnique` | api/v1/job_object.go:36-41 | any sort of a list by age arrives at the same result |
| `Cleaner.OwnerMeans` | operator/executor/generic.go:90-103 | the owner is the first controlling reference, else the first Schedule reference, else none |
| `Cleaner.ScheduleRefMeans` | operator/executor/generic.go:97-101 | in fields: what a Schedule reference is |
| `Cleaner.ClassesMean` | operator/executor/cleaner/cleaner.go:104-120 | every object is in exactly one class, by what its status reads as |
| `Cleaner.LimitsMean` | operator/executor/cleaner/cleaner.go:83-101 | each class has its own limit: the object's wins, a negative one meaning none at all, then the operator's, then the number of jobs to keep |
| `Cleaner.FilterByController` | operator/executor/generic.go:79-88 | exactly the objects with the same owner, in order |
| `Cleaner.FlagMakesNoDifference` | operator/executor/generic.go:90-103 | objects made before the controller flag existed group with their Schedule's newer ones |
| `Cleaner.GroupByStatus` | operator/executor/cleaner/cleaner.go:104-120 | the three groups are the unfinished, the failed and the successful objects, in order |
| `Cleaner.GlobalLimit` | operator/cfg/config.go:136-167 | a limit that is given wins, the number of jobs to keep stands in for a missing one, and with both missing nothing is kept |
| `Cleaner.ObjectStore.CleanClass` | operator/executor/cleaner/cleaner.go:51-68 | the objects left and the count returned, at whichever delete it stops |
| `Cleaner.ObjectStore.CleanOldObjects` | operator/executor/cleaner/cleaner.go:37-47 | the returned count is the number of deleted objects, success if and only if all victims are gone |
| `Cleaner.ObjectStore.CleanupOldResources` | operator/executor/generic.go:53-73 | the siblings of the running object cleaned with the limits in force, nothing touched when the listing fails, and the Scrubbed condition that tells which it was |
| `Cleaner.VictimsAreOldest` | operator/executor/cleaner/cleaner.go:52-67 | the victims are as many as exceed the limit and were created before everything spared, ties going by name |
| `Cleaner.CleanupKeepsLimits` | operator/executor/cleaner/cleaner.go:37-68 | without failing deletes exactly min(count, limit) of each class survive, others are untouched, a rerun deletes nothing |
| `Cleaner.SurvivorsAreYounger` | operator/executor/cleaner/cleaner.go:51-68 | every survivor of a class was created after every deleted object of it, ties going by name, also when a delete failed |
| `Cleaner.PrefixIsOldest` | operator/executor/cleaner/cleaner.go:61-65 | at whichever delete it stops, the deleted objects were created before the others, ties going by name |
| `Cleaner.OthersStay` | operator/executor/generic.go:79-103 | unfinished objects and objects of other owners survive |
| `Snapshots.FilterAndConvert` | restic/kubernetes/snapshots.go:88-116 | the restic snapshots of the namespace as objects, in order |
| `Snapshots.FilterByRepo` | restic/kubernetes/snapshots.go:119-130 | exactly the listed objects of the repository, in order |
| `Snapshots.WantedIds` | restic/kubernetes/snapshots.go:88-116 | the ids are exactly those restic has for the namespace |
| `Snapshots.AddedMirror` | restic/kubernetes/snapshots.go:101-112 | wherever a sync stops, every object it added has the id, time and paths of a snapshot of the namespace and is named by the id's first eight characters |
| `Snapshots.SnapshotApi.Diff` | restic/kubernetes/snapshots.go:56-73 | one call per missing id, in order, up to the first failing one |
| `Snapshots.SnapshotApi.SyncSnapshotList` | restic/kubernetes/snapshots.go:15-38 | creations first, deletions only when all of them succeeded, nothing without a listing; on a listing of the store, success leaves exactly restic's ids and no failure loses a current one |
| `Snapshots.SyncOfListing` | restic/kubernetes/snapshots.go:15-38 | the whole sync on the listing of the store, in terms of the ids restic has |
| `Snapshots.SyncMirrors` | restic/kubernetes/snapshots.go:15-52 | a successful sync leaves exactly restic's ids for the repository and the other repositories' objects as they were |
| `Snapshots.SyncNeverLosesCurrent` | restic/kubernetes/snapshots.go:32-52 | wherever it stops, no object restic still has was deleted, and nothing was deleted before every wanted id had an object |
| `Snapshots.SecondSyncIsQuiet` | restic/kubernetes/snapshots.go:54-73 | when the store mirrors restic no call is made |
| `Snapshots.SyncSucceeds` | restic/kubernetes/snapshots.go:40-73 | when no call fails of itself a sync succeeds if and only if the snapshots to create have different names, none of them taken |
| `Snapshots.UniquePrefixesSucceed` | restic/kubernetes/snapshots.go:101-104 | unique 8-character id prefixes are enough |
| `Snapshots.EqualPrefixesFail` | restic/kubernetes/snapshots.go:101-104 | two snapshots of the namespace whose ids begin alike make every sync fail |
| `Snapshots.FirstSyncFails` | restic/kubernetes/snapshots.go:101-104 | for two given ids, on an empty namespace |
| `Text.SplitOfJoin` | cmd/clihelper.go:8-10 | splitting undoes joining when no part contains the separator |
| `Text.StringLessMeans` | api/v1/job_object.go:37-39 | where two names first differ, the smaller one ends or has the smaller character |

## Left out

- Restic itself, pod exec, S3 upload, tar and gzip writing, webhooks and the Prometheus push: foreign calls.
- Informer cache staleness and concurrent reconciles of one object: excluded by assumption.
- GetForRepository: that one mutex exists per repository is built into `Protocol`, whose locks are a map by repository.
- SHA-1 and SHA-256: the checksum of a seed is any natural number, and the repository label is the repository.
- The cron parser, the JSON parser of restic arguments and label selector matching: functions given from outside.
- `sort.Sort` is represented by its only possible result (`Cleaner.SortIsUnique`), not by its swaps.
- Job templates, environment variables, TLS arguments, volume mounts and pod configuration: short list building.
- Merging of schedule defaults: decided inside a library. Creation of objects when a cron entry fires: one API call.
- The gauge of the last job of a schedule, condition messages, timestamps and requeue delays.
- Log output, command line flags, operator start-up, charts and generated code.
- fetchPVCs, fetchPreBackupPodTemplates: the same union over selectors as `PodTargets.FetchCandidatePods`.
- BatchJobs.StatusRecorder.UpdateStatus: leaves out the gauge of the last job of a schedule, which nothing reads back.
- PreBackup.PreBackupExecutor.StartPreBackup: condition writes succeed; a failed one would be logged and leave the stored status behind the one in memory.
- PreBackup.PreBackupExecutor.StopPreBackupDeployments: condition writes succeed, as above.
- BackupReconciler.BackupController.Provision: the lock's answer is a parameter; condition writes and the "nothing to backup" write succeed, unlike the status write after looking at the jobs.
- BackupReconciler.BackupController.CreateJobs: a created job keeps what the planner decided, not the rest of its pod template.
- BackupCoverage.SucceededMeansBackedUp: of a job that has disappeared the cluster no longer tells whether it had completed.
- SingleJob.JobController.Provision: the lock's answer is a parameter, and cleanup is modelled by what it writes to the object's own status.
- Snapshots.FilterAndConvert: expects ids of the namespace's snapshots of at least eight characters; the source panics on shorter ones.
