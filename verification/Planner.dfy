/**
  Splitting the selected volumes of a backup into batch jobs (`startBackup`, `createJob` and
  `jobName` in operator/backupcontroller/executor.go). Planned jobs live in a map whose keys are
  raw concatenations of text, and the job that runs backup commands shares that map.
 */
module Planner {
  import opened Wrappers
  import opened Text

  datatype BackupItem = BackupItem(
    volume: string,
    node: string,
    tolerations: seq<string>,
    targetPod: string,
    args: seq<string>)

  datatype PlannedJob = PlannedJob(
    name: string,
    nodeSelector: Option<string>,
    tolerations: seq<string>,
    targetPods: seq<string>,
    volumes: seq<string>,
    args: seq<string>,
    skipPreBackup: bool)

  type Plan = map<string, PlannedJob>

  const PreBackupKey := "prebackup"

  function JobName(backup: string, suffix: string): string {
    "backup-" + backup + "-" + suffix
  }

  function Selector(node: string): Option<string> {
    if node == "" then None else Some(node)
  }

  /** The map key of the i-th item. */
  function ItemKey(relaxed: bool, items: seq<BackupItem>, i: nat): string
    requires i < |items|
  {
    (if relaxed then Itoa(i) else items[i].node) + Join(items[i].args, ',')
  }

  function TextSeq(s: string): seq<string> {
    if s == "" then [] else [s]
  }

  function FreshJob(backup: string, items: seq<BackupItem>, i: nat): PlannedJob
    requires i < |items|
  {
    PlannedJob(JobName(backup, Itoa(i)), Selector(items[i].node), items[i].tolerations, [], [], items[i].args, true)
  }

  function AddItem(j: PlannedJob, item: BackupItem): PlannedJob {
    j.(targetPods := j.targetPods + TextSeq(item.targetPod), volumes := j.volumes + [item.volume])
  }

  /** The job of one item alone, as relaxed scheduling makes it. */
  function OwnJob(backup: string, items: seq<BackupItem>, i: nat): PlannedJob
    requires i < |items|
  {
    FreshJob(backup, items, i).(targetPods := TextSeq(items[i].targetPod), volumes := TextSeq(items[i].volume))
  }

  function PreBackupJob(backup: string, pods: seq<string>): PlannedJob {
    PlannedJob(JobName(backup, PreBackupKey), None, [], pods, [], [], false)
  }

  // ---- What a grouping must look like ----

  /** The first of the first n items with the given classic key. */
  function FirstWith(items: seq<BackupItem>, n: nat, key: string): (r: Option<nat>)
    requires n <= |items|
    ensures r.Some? ==> r.value < n && ItemKey(false, items, r.value) == key
                        && forall k :: 0 <= k < r.value ==> ItemKey(false, items, k) != key
    ensures r.None? ==> forall k :: 0 <= k < n ==> ItemKey(false, items, k) != key
  {
    if n == 0 then None
    else
      var r := FirstWith(items, n - 1, key);
      if r.Some? then r else if ItemKey(false, items, n - 1) == key then Some(n - 1) else None
  }

  /** The volumes of the first n items that have the given classic key, in item order. */
  function VolumesWith(items: seq<BackupItem>, n: nat, key: string): (r: seq<string>)
    requires n <= |items|
    ensures forall v :: v in r <==> exists k :: 0 <= k < n && ItemKey(false, items, k) == key && items[k].volume == v
  {
    if n == 0 then []
    else VolumesWith(items, n - 1, key) + (if ItemKey(false, items, n - 1) == key then [items[n - 1].volume] else [])
  }

  function TargetsWith(items: seq<BackupItem>, n: nat, key: string): seq<string>
    requires n <= |items|
  {
    if n == 0 then []
    else TargetsWith(items, n - 1, key) +
         (if ItemKey(false, items, n - 1) == key then TextSeq(items[n - 1].targetPod) else [])
  }

  /** The job of all of the first n items with the given key, named and placed after the first. */
  function GroupJob(backup: string, items: seq<BackupItem>, n: nat, key: string): PlannedJob
    requires n <= |items| && FirstWith(items, n, key).Some?
  {
    FreshJob(backup, items, FirstWith(items, n, key).value)
      .(volumes := VolumesWith(items, n, key), targetPods := TargetsWith(items, n, key))
  }

  /** Classic: one job per key, led by the first item of the key, holding every item of the key. */
  ghost predicate ClassicGroups(backup: string, items: seq<BackupItem>, n: nat, plan: Plan)
    requires n <= |items|
  {
    && (forall key :: key in plan <==> FirstWith(items, n, key).Some?)
    && (forall key :: key in plan ==> plan[key] == GroupJob(backup, items, n, key))
  }

  /** Relaxed: one job per key, the last item of the key. */
  ghost predicate RelaxedGroups(backup: string, items: seq<BackupItem>, n: nat, plan: Plan)
    requires n <= |items|
  {
    && (forall key :: key in plan <==> LastOf(items, n, key).Some?)
    && (forall key :: key in plan ==> plan[key] == OwnJob(backup, items, LastOf(items, n, key).value))
  }

  ghost predicate LastWith(items: seq<BackupItem>, n: nat, key: string, k: nat)
    requires n <= |items|
  {
    && k < n && ItemKey(true, items, k) == key
    && forall m :: k < m < n ==> ItemKey(true, items, m) != key
  }

  /** The last of the first n items with the given relaxed key. */
  function LastOf(items: seq<BackupItem>, n: nat, key: string): (r: Option<nat>)
    requires n <= |items|
    ensures r.Some? ==> LastWith(items, n, key, r.value)
    ensures r.None? ==> forall k :: 0 <= k < n ==> ItemKey(true, items, k) != key
  {
    if n == 0 then None else if ItemKey(true, items, n - 1) == key then Some(n - 1) else LastOf(items, n - 1, key)
  }

  /** The plan once item n has been placed. */
  function Placed(backup: string, relaxed: bool, items: seq<BackupItem>, n: nat, plan: Plan): Plan
    requires n < |items|
  {
    var key := ItemKey(relaxed, items, n);
    if relaxed then plan[key := OwnJob(backup, items, n)]
    else plan[key := AddItem(if key in plan then plan[key] else FreshJob(backup, items, n), items[n])]
  }

  /** The grouping of the first n items, one item after the other. */
  function GroupsOf(backup: string, relaxed: bool, items: seq<BackupItem>, n: nat): Plan
    requires n <= |items|
  {
    if n == 0 then map[] else Placed(backup, relaxed, items, n - 1, GroupsOf(backup, relaxed, items, n - 1))
  }

  lemma {:induction false} RelaxedGroupsOf(backup: string, items: seq<BackupItem>, n: nat)
    requires n <= |items|
    ensures RelaxedGroups(backup, items, n, GroupsOf(backup, true, items, n))
  {
    if n > 0 {
      RelaxedGroupsOf(backup, items, n - 1);
      RelaxedExtends(backup, items, n - 1, GroupsOf(backup, true, items, n - 1));
    }
  }

  lemma {:induction false} ClassicGroupsOf(backup: string, items: seq<BackupItem>, n: nat)
    requires n <= |items|
    ensures ClassicGroups(backup, items, n, GroupsOf(backup, false, items, n))
  {
    if n > 0 {
      ClassicGroupsOf(backup, items, n - 1);
      ClassicExtends(backup, items, n - 1, GroupsOf(backup, false, items, n - 1));
    }
  }

  /** Placing item after item arrives at the grouping the mode asks for. */
  lemma GroupsOfMean(backup: string, relaxed: bool, items: seq<BackupItem>)
    ensures var plan := GroupsOf(backup, relaxed, items, |items|);
            if relaxed then RelaxedGroups(backup, items, |items|, plan) else ClassicGroups(backup, items, |items|, plan)
  {
    if relaxed {
      RelaxedGroupsOf(backup, items, |items|);
    } else {
      ClassicGroupsOf(backup, items, |items|);
    }
  }

  method GroupItems(backup: string, relaxed: bool, items: seq<BackupItem>) returns (plan: Plan)
    ensures plan == GroupsOf(backup, relaxed, items, |items|)
    ensures if relaxed then RelaxedGroups(backup, items, |items|, plan) else ClassicGroups(backup, items, |items|, plan)
  {
    plan := map[];
    for index := 0 to |items|
      invariant plan == GroupsOf(backup, relaxed, items, index)
    {
      if relaxed {
        plan := PlaceAlone(backup, items, index, plan);
      } else {
        plan := PlaceByNode(backup, items, index, plan);
      }
    }
    GroupsOfMean(backup, relaxed, items);
  }

  /** The loop body with relaxed scheduling. */
  method PlaceAlone(backup: string, items: seq<BackupItem>, index: nat, plan: Plan) returns (plan': Plan)
    requires index < |items|
    ensures plan' == plan[ItemKey(true, items, index) := OwnJob(backup, items, index)]
  {
    var item := items[index];
    var job := FreshJob(backup, items, index);
    if item.targetPod != "" {
      job := job.(targetPods := job.targetPods + [item.targetPod]);
    }
    if item.volume != "" {
      job := job.(volumes := job.volumes + [item.volume]);
    }
    assert job == OwnJob(backup, items, index);
    plan' := plan[ItemKey(true, items, index) := job];
  }

  /** The loop body with classic scheduling: the item joins the job of its node and arguments. */
  method PlaceByNode(backup: string, items: seq<BackupItem>, index: nat, plan: Plan) returns (plan': Plan)
    requires index < |items|
    ensures var key := ItemKey(false, items, index);
            plan' == plan[key := AddItem(if key in plan then plan[key] else FreshJob(backup, items, index), items[index])]
  {
    var item := items[index];
    var key := ItemKey(false, items, index);
    plan' := plan;
    if key !in plan' {
      plan' := plan'[key := FreshJob(backup, items, index)];
    }
    var job := plan'[key];
    if item.targetPod != "" {
      job := job.(targetPods := job.targetPods + [item.targetPod]);
    }
    job := job.(volumes := job.volumes + [item.volume]);
    assert job == AddItem(plan'[key], item);
    plan' := plan'[key := job];
  }

  lemma RelaxedExtends(backup: string, items: seq<BackupItem>, n: nat, plan: Plan)
    requires n < |items| && RelaxedGroups(backup, items, n, plan)
    ensures RelaxedGroups(backup, items, n + 1, Placed(backup, true, items, n, plan))
  {
  }

  lemma ClassicExtends(backup: string, items: seq<BackupItem>, n: nat, plan: Plan)
    requires n < |items| && ClassicGroups(backup, items, n, plan)
    ensures ClassicGroups(backup, items, n + 1, Placed(backup, false, items, n, plan))
  {
    var plan' := Placed(backup, false, items, n, plan);
    forall key
      ensures key in plan' <==> FirstWith(items, n + 1, key).Some?
      ensures key in plan' ==> plan'[key] == GroupJob(backup, items, n + 1, key)
    {
      ClassicKeyExtends(backup, items, n, plan, key);
    }
  }

  lemma ClassicKeyExtends(backup: string, items: seq<BackupItem>, n: nat, plan: Plan, key: string)
    requires n < |items| && ClassicGroups(backup, items, n, plan)
    ensures var plan' := Placed(backup, false, items, n, plan);
            && (key in plan' <==> FirstWith(items, n + 1, key).Some?)
            && (key in plan' ==> plan'[key] == GroupJob(backup, items, n + 1, key))
  {
    if key == ItemKey(false, items, n) {
      if key in plan {
        assert plan[key] == GroupJob(backup, items, n, key);
      } else {
        NothingWith(items, n, key);
        assert FirstWith(items, n + 1, key) == Some(n);
        assert [] + [items[n].volume] == [items[n].volume];
        assert [] + TextSeq(items[n].targetPod) == TextSeq(items[n].targetPod);
      }
    } else {
      assert FirstWith(items, n + 1, key) == FirstWith(items, n, key);
      assert VolumesWith(items, n + 1, key) == VolumesWith(items, n, key);
      assert TargetsWith(items, n + 1, key) == TargetsWith(items, n, key);
    }
  }

  lemma {:induction false} NothingWith(items: seq<BackupItem>, n: nat, key: string)
    requires n <= |items| && FirstWith(items, n, key).None?
    ensures VolumesWith(items, n, key) == [] && TargetsWith(items, n, key) == []
  {
    if n > 0 {
      NothingWith(items, n - 1, key);
    }
  }

  /** The job for backup commands goes under a fixed key, replacing whatever is there. */
  function WithPreBackup(plan: Plan, backup: string, targets: seq<string>): Plan {
    if targets == [] then plan else plan[PreBackupKey := PreBackupJob(backup, targets)]
  }

  /** The whole plan. */
  function PlanOf(backup: string, relaxed: bool, items: seq<BackupItem>, targets: seq<string>): Plan {
    WithPreBackup(GroupsOf(backup, relaxed, items, |items|), backup, targets)
  }

  /** It is a grouping as the mode asks for, with the job for backup commands put over it. */
  lemma PlanOfIsPlan(backup: string, relaxed: bool, items: seq<BackupItem>, targets: seq<string>)
    ensures IsPlan(backup, relaxed, items, targets, PlanOf(backup, relaxed, items, targets))
  {
    GroupsOfMean(backup, relaxed, items);
    var groups := GroupsOf(backup, relaxed, items, |items|);
    assert IsPlanOf(backup, relaxed, items, targets, groups, WithPreBackup(groups, backup, targets));
  }

  method PlanJobs(backup: string, relaxed: bool, items: seq<BackupItem>, targets: seq<string>) returns (plan: Plan)
    ensures plan == PlanOf(backup, relaxed, items, targets)
  {
    plan := GroupItems(backup, relaxed, items);
    if |targets| > 0 {
      plan := plan[PreBackupKey := PreBackupJob(backup, targets)];
    }
  }

  ghost predicate IsPlan(backup: string, relaxed: bool, items: seq<BackupItem>, targets: seq<string>, plan: Plan) {
    exists groups :: IsPlanOf(backup, relaxed, items, targets, groups, plan)
  }

  ghost predicate IsPlanOf(backup: string, relaxed: bool, items: seq<BackupItem>, targets: seq<string>, groups: Plan, plan: Plan) {
    && (if relaxed then RelaxedGroups(backup, items, |items|, groups) else ClassicGroups(backup, items, |items|, groups))
    && plan == WithPreBackup(groups, backup, targets)
  }

  // ---- Conservation ----

  /** Items stand for different, named volumes; claim names are unique in a namespace. */
  predicate DistinctVolumes(items: seq<BackupItem>) {
    && (forall i :: 0 <= i < |items| ==> items[i].volume != "")
    && (forall i, k :: 0 <= i < k < |items| ==> items[i].volume != items[k].volume)
  }

  predicate DistinctRelaxedKeys(items: seq<BackupItem>) {
    forall i, k :: 0 <= i < k < |items| ==> ItemKey(true, items, i) != ItemKey(true, items, k)
  }

  predicate Holds(plan: Plan, key: string, volume: string) {
    key in plan && volume in plan[key].volumes
  }

  /** Exactly one planned job has the volume. */
  ghost predicate InOneJob(plan: Plan, volume: string) {
    exists key :: Holds(plan, key, volume) && forall other :: Holds(plan, other, volume) ==> other == key
  }

  /** When the keys of the mode in use cannot swallow an item. */
  predicate KeysKeepItems(relaxed: bool, items: seq<BackupItem>, targets: seq<string>) {
    if relaxed then DistinctRelaxedKeys(items)
    else targets == [] || forall i :: 0 <= i < |items| ==> ItemKey(false, items, i) != PreBackupKey
  }

  /** In fields: the texts that make up the keys. */
  lemma KeysKeepMeans(relaxed: bool, items: seq<BackupItem>, targets: seq<string>)
    ensures KeysKeepItems(relaxed, items, targets) <==>
            if relaxed then forall i, k :: 0 <= i < k < |items| ==> Itoa(i) + Join(items[i].args, ',') != Itoa(k) + Join(items[k].args, ',')
            else targets == [] || forall i :: 0 <= i < |items| ==> items[i].node + Join(items[i].args, ',') != "prebackup"
  {
    forall i: nat | i < |items|
      ensures ItemKey(true, items, i) == Itoa(i) + Join(items[i].args, ',')
      ensures ItemKey(false, items, i) == items[i].node + Join(items[i].args, ',')
    {
    }
  }

  lemma ItemInOwnJob(backup: string, relaxed: bool, items: seq<BackupItem>, targets: seq<string>, groups: Plan, plan: Plan, i: nat)
    requires IsPlanOf(backup, relaxed, items, targets, groups, plan)
    requires DistinctVolumes(items) && i < |items| && !Lost(relaxed, items, targets, i)
    ensures Holds(plan, ItemKey(relaxed, items, i), items[i].volume)
    ensures relaxed ==> plan[ItemKey(relaxed, items, i)] == OwnJob(backup, items, i)
    ensures !relaxed ==> plan[ItemKey(relaxed, items, i)] == groups[ItemKey(relaxed, items, i)]
  {
    var key := ItemKey(relaxed, items, i);
    if relaxed {
      RelaxedKeyIsNotPreBackup(items, i);
      assert LastWith(items, |items|, key, LastOf(items, |items|, key).value);
    }
  }

  lemma RelaxedKeyIsNotPreBackup(items: seq<BackupItem>, i: nat)
    requires i < |items|
    ensures ItemKey(true, items, i) != PreBackupKey
  {
    assert ItemKey(true, items, i)[0] == Itoa(i)[0];
    assert Itoa(i)[0] in Itoa(i);
  }

  /** A planned job that has the volume of item i is the job under the key of item i. */
  lemma HolderIsOwn(backup: string, relaxed: bool, items: seq<BackupItem>, targets: seq<string>, groups: Plan, plan: Plan, i: nat, key: string)
    requires IsPlanOf(backup, relaxed, items, targets, groups, plan)
    requires DistinctVolumes(items) && i < |items| && Holds(plan, key, items[i].volume)
    ensures key == ItemKey(relaxed, items, i)
    ensures relaxed ==> LastWith(items, |items|, key, i)
    ensures !relaxed ==> targets == [] || key != PreBackupKey
  {
    assert key in groups && plan[key] == groups[key];
    if relaxed {
      var k := LastOf(items, |items|, key).value;
      assert items[i].volume == items[k].volume;
      assert k == i;
    } else {
      var k :| 0 <= k < |items| && ItemKey(false, items, k) == key && items[k].volume == items[i].volume;
      assert k == i;
    }
  }

  /** An item another key owner replaces. */
  predicate Lost(relaxed: bool, items: seq<BackupItem>, targets: seq<string>, i: nat)
    requires i < |items|
  {
    if relaxed then exists k :: i < k < |items| && ItemKey(true, items, i) == ItemKey(true, items, k)
    else targets != [] && ItemKey(false, items, i) == PreBackupKey
  }

  lemma SomeItemLost(relaxed: bool, items: seq<BackupItem>, targets: seq<string>) returns (i: nat)
    requires !KeysKeepItems(relaxed, items, targets)
    ensures i < |items| && Lost(relaxed, items, targets, i)
  {
    if relaxed {
      var a, k :| 0 <= a < k < |items| && ItemKey(true, items, a) == ItemKey(true, items, k);
      i := a;
    } else {
      i :| 0 <= i < |items| && ItemKey(false, items, i) == PreBackupKey;
    }
  }

  lemma LostIsNowhere(backup: string, relaxed: bool, items: seq<BackupItem>, targets: seq<string>, groups: Plan, plan: Plan, i: nat, key: string)
    requires IsPlanOf(backup, relaxed, items, targets, groups, plan) && DistinctVolumes(items)
    requires i < |items| && Lost(relaxed, items, targets, i)
    ensures !Holds(plan, key, items[i].volume)
  {
    if Holds(plan, key, items[i].volume) {
      HolderIsOwn(backup, relaxed, items, targets, groups, plan, i, key);
    }
  }

  lemma KeptIsInOneJob(backup: string, relaxed: bool, items: seq<BackupItem>, targets: seq<string>, groups: Plan, plan: Plan, i: nat)
    requires IsPlanOf(backup, relaxed, items, targets, groups, plan) && DistinctVolumes(items)
    requires i < |items| && KeysKeepItems(relaxed, items, targets)
    ensures InOneJob(plan, items[i].volume)
  {
    ItemInOwnJob(backup, relaxed, items, targets, groups, plan, i);
    forall other | Holds(plan, other, items[i].volume)
      ensures other == ItemKey(relaxed, items, i)
    {
      HolderIsOwn(backup, relaxed, items, targets, groups, plan, i, other);
    }
  }

  /**
    The planner conserves work: every item's volume lies in exactly one planned job if and only if
    the keys keep the items apart. In relaxed mode that means no two items have the same key; in
    classic mode, that no item key is "prebackup" when there are backup commands to run.
   */
  lemma WorkConserved(backup: string, relaxed: bool, items: seq<BackupItem>, targets: seq<string>, plan: Plan)
    requires IsPlan(backup, relaxed, items, targets, plan) && DistinctVolumes(items)
    ensures (forall i :: 0 <= i < |items| ==> InOneJob(plan, items[i].volume)) <==> KeysKeepItems(relaxed, items, targets)
  {
    var groups :| IsPlanOf(backup, relaxed, items, targets, groups, plan);
    if KeysKeepItems(relaxed, items, targets) {
      forall i | 0 <= i < |items|
        ensures InOneJob(plan, items[i].volume)
      {
        KeptIsInOneJob(backup, relaxed, items, targets, groups, plan, i);
      }
    } else {
      var i := SomeItemLost(relaxed, items, targets);
      forall key
        ensures !Holds(plan, key, items[i].volume)
      {
        LostIsNowhere(backup, relaxed, items, targets, groups, plan, i, key);
      }
    }
  }

  /** Relaxed keys are distinct when no item's joined restic arguments begin with a digit. */
  lemma PlainArgsKeepItems(items: seq<BackupItem>)
    requires forall i :: 0 <= i < |items| ==> StartsWithNonDigit(Join(items[i].args, ','))
    ensures DistinctRelaxedKeys(items)
  {
    forall i, k | 0 <= i < k < |items|
      ensures ItemKey(true, items, i) != ItemKey(true, items, k)
    {
      if ItemKey(true, items, i) == ItemKey(true, items, k) {
        ItoaPrefixUnique(i, Join(items[i].args, ','), k, Join(items[k].args, ','));
      }
    }
  }

  lemma JobNameInjective(backup: string, a: string, b: string)
    requires JobName(backup, a) == JobName(backup, b)
    ensures a == b
  {
    var p := "backup-" + backup + "-";
    assert JobName(backup, a) == p + a && JobName(backup, b) == p + b;
    assert (p + a)[|p|..] == a && (p + b)[|p|..] == b;
  }

  /** The suffix of a planned job's name. */
  lemma NameOf(backup: string, relaxed: bool, items: seq<BackupItem>, targets: seq<string>, groups: Plan, plan: Plan, key: string)
    returns (suffix: string, lead: nat)
    requires IsPlanOf(backup, relaxed, items, targets, groups, plan) && key in plan
    ensures plan[key].name == JobName(backup, suffix)
    ensures if key == PreBackupKey && targets != [] then suffix == PreBackupKey
            else lead < |items| && suffix == Itoa(lead) && ItemKey(relaxed, items, lead) == key
  {
    if key == PreBackupKey && targets != [] {
      suffix, lead := PreBackupKey, 0;
    } else if relaxed {
      var k := LastOf(items, |items|, key).value;
      suffix, lead := Itoa(k), k;
    } else {
      lead := FirstWith(items, |items|, key).value;
      suffix := Itoa(lead);
    }
  }

  /** No two planned jobs share a name, so no two of them merge into one API object. */
  lemma DistinctJobNames(backup: string, relaxed: bool, items: seq<BackupItem>, targets: seq<string>, plan: Plan, a: string, b: string)
    requires IsPlan(backup, relaxed, items, targets, plan)
    requires a in plan && b in plan && plan[a].name == plan[b].name
    ensures a == b
  {
    var groups :| IsPlanOf(backup, relaxed, items, targets, groups, plan);
    var sa, la := NameOf(backup, relaxed, items, targets, groups, plan, a);
    var sb, lb := NameOf(backup, relaxed, items, targets, groups, plan, b);
    JobNameInjective(backup, sa, sb);
    assert !IsDigit(PreBackupKey[0]) && PreBackupKey[0] in PreBackupKey;
    if sa != PreBackupKey {
      ItoaInjective(la, lb);
    }
  }

  /** Nothing a name can be split at in two ways: the last dash. */
  lemma LastDash(p: string, s: string, q: string, t: string)
    requires '-' !in s && '-' !in t && p + "-" + s == q + "-" + t
    ensures p == q && s == t
  {
    var x, y := p + "-" + s, q + "-" + t;
    assert forall i :: |p| < i < |x| ==> x[i] == s[i - |p| - 1] && x[i] in s;
    assert forall i :: |q| < i < |y| ==> y[i] == t[i - |q| - 1] && y[i] in t;
    assert x[|p|] == '-' && y[|q|] == '-';
    assert x[..|p|] == p && y[..|q|] == q && x[|p| + 1..] == s && y[|q| + 1..] == t;
  }

  /** Two Backups of a namespace never plan jobs of the same name, dashes in their own names or not. */
  lemma BackupsKeepApart(backup: string, relaxed: bool, items: seq<BackupItem>, targets: seq<string>, a: string,
                         other: string, relaxed': bool, items': seq<BackupItem>, targets': seq<string>, b: string)
    requires a in PlanOf(backup, relaxed, items, targets) && b in PlanOf(other, relaxed', items', targets')
    requires PlanOf(backup, relaxed, items, targets)[a].name == PlanOf(other, relaxed', items', targets')[b].name
    ensures backup == other
  {
    var s := PlannedSuffix(backup, relaxed, items, targets, a);
    var t := PlannedSuffix(other, relaxed', items', targets', b);
    LastDash("backup-" + backup, s, "backup-" + other, t);
    var p := "backup-";
    assert (p + backup)[|p|..] == backup && (p + other)[|p|..] == other;
  }

  lemma PlannedSuffix(backup: string, relaxed: bool, items: seq<BackupItem>, targets: seq<string>, key: string) returns (suffix: string)
    requires key in PlanOf(backup, relaxed, items, targets)
    ensures PlanOf(backup, relaxed, items, targets)[key].name == "backup-" + backup + "-" + suffix && '-' !in suffix
  {
    GroupsOfMean(backup, relaxed, items);
    var plan, groups := PlanOf(backup, relaxed, items, targets), GroupsOf(backup, relaxed, items, |items|);
    var lead: nat;
    suffix, lead := NameOf(backup, relaxed, items, targets, groups, plan, key);
    assert !IsDigit('-');
  }

  /** The job for backup commands is pinned to no node, has no volume, and is the only one that runs commands. */
  lemma CommandJobIs(backup: string, relaxed: bool, items: seq<BackupItem>, targets: seq<string>)
    requires targets != []
    ensures var plan := PlanOf(backup, relaxed, items, targets);
            && "prebackup" in plan
            && plan["prebackup"].nodeSelector == None && plan["prebackup"].volumes == [] && plan["prebackup"].args == []
            && plan["prebackup"].targetPods == targets && !plan["prebackup"].skipPreBackup
            && plan["prebackup"].name == "backup-" + backup + "-prebackup"
  {
    assert "-" + "prebackup" == "-prebackup";
    assert "backup-" + backup + "-" + "prebackup" == "backup-" + backup + "-prebackup";
  }

  // ---- Node pinning ----

  /** Items whose classic keys agree, and are not taken by the job for backup commands, also agree on node and arguments. */
  predicate KeysSeparate(items: seq<BackupItem>, targets: seq<string>) {
    forall i, k :: 0 <= i < |items| && 0 <= k < |items| && ItemKey(false, items, i) == ItemKey(false, items, k)
      ==> Lost(false, items, targets, i) || (items[i].node == items[k].node && items[i].args == items[k].args)
  }

  /** The first item with the same classic key. */
  function Lead(items: seq<BackupItem>, i: nat): (k: nat)
    requires i < |items|
    ensures k <= i && ItemKey(false, items, k) == ItemKey(false, items, i)
    ensures forall m :: 0 <= m < k ==> ItemKey(false, items, m) != ItemKey(false, items, i)
  {
    FirstWith(items, |items|, ItemKey(false, items, i)).value
  }

  /**
    The job that has an item's volume is pinned to the item's node, and runs with the item's
    arguments, in both scheduling modes; it has the tolerations of the item, or, with classic
    scheduling, of the first item it was made for.
   */
  lemma PinnedToItemNode(backup: string, relaxed: bool, items: seq<BackupItem>, targets: seq<string>, plan: Plan, i: nat, key: string)
    requires IsPlan(backup, relaxed, items, targets, plan)
    requires DistinctVolumes(items) && i < |items| && Holds(plan, key, items[i].volume)
    requires !relaxed ==> KeysSeparate(items, targets)
    ensures plan[key].nodeSelector == (if items[i].node == "" then None else Some(items[i].node))
    ensures plan[key].args == items[i].args && plan[key].skipPreBackup
    ensures plan[key].tolerations == items[if relaxed then i else Lead(items, i)].tolerations
  {
    var groups :| IsPlanOf(backup, relaxed, items, targets, groups, plan);
    HolderIsOwn(backup, relaxed, items, targets, groups, plan, i, key);
    assert plan[key] == groups[key];
    if relaxed {
      LastOwns(backup, items, groups, key, i);
    } else {
      FirstLeads(backup, items, groups, key);
      var first := FirstWith(items, |items|, key).value;
      assert ItemKey(false, items, first) == ItemKey(false, items, i);
    }
  }

  lemma LastOwns(backup: string, items: seq<BackupItem>, groups: Plan, key: string, i: nat)
    requires RelaxedGroups(backup, items, |items|, groups) && key in groups && LastWith(items, |items|, key, i)
    ensures groups[key] == OwnJob(backup, items, i)
  {
    var k := LastOf(items, |items|, key).value;
    assert k == i;
  }

  lemma FirstLeads(backup: string, items: seq<BackupItem>, groups: Plan, key: string)
    requires ClassicGroups(backup, items, |items|, groups) && key in groups
    ensures FirstWith(items, |items|, key).Some?
    ensures var lead := FreshJob(backup, items, FirstWith(items, |items|, key).value);
            && groups[key].nodeSelector == lead.nodeSelector && groups[key].args == lead.args && groups[key].skipPreBackup
            && groups[key].tolerations == lead.tolerations
  {
    assert groups[key] == GroupJob(backup, items, |items|, key);
  }

  /** The job that has the item's volume is pinned to the item's node and runs with its arguments. */
  ghost predicate Pinned(items: seq<BackupItem>, plan: Plan, i: nat)
    requires i < |items|
  {
    forall key :: Holds(plan, key, items[i].volume) ==>
      plan[key].nodeSelector == Selector(items[i].node) && plan[key].args == items[i].args
  }

  /**
    With classic scheduling, every job that has an item's volume is pinned to the item's node and
    runs with its arguments if and only if keys that agree come from the same node and arguments,
    keys taken by the job for backup commands aside: the items of those are in no job.
   */
  lemma ClassicPinning(backup: string, items: seq<BackupItem>, targets: seq<string>, plan: Plan)
    requires IsPlan(backup, false, items, targets, plan) && DistinctVolumes(items)
    ensures (forall i :: 0 <= i < |items| ==> Pinned(items, plan, i)) <==> KeysSeparate(items, targets)
  {
    if KeysSeparate(items, targets) {
      forall i, key | 0 <= i < |items| && Holds(plan, key, items[i].volume)
        ensures plan[key].nodeSelector == Selector(items[i].node) && plan[key].args == items[i].args
      {
        PinnedToItemNode(backup, false, items, targets, plan, i, key);
      }
    } else {
      var i, k :| 0 <= i < |items| && 0 <= k < |items| && ItemKey(false, items, i) == ItemKey(false, items, k)
                  && !Lost(false, items, targets, i) && !(items[i].node == items[k].node && items[i].args == items[k].args);
      var groups :| IsPlanOf(backup, false, items, targets, groups, plan);
      ItemInOwnJob(backup, false, items, targets, groups, plan, i);
      ItemInOwnJob(backup, false, items, targets, groups, plan, k);
      assert !Pinned(items, plan, i) || !Pinned(items, plan, k);
    }
  }

  // ---- Keys that do not keep their items ----

  /** Two nodes and an argument whose texts run together. */
  const MixedItems := [BackupItem("x", "n", [], "", ["1"]), BackupItem("y", "n1", [], "", [])]

  lemma MixedKeys()
    ensures ItemKey(false, MixedItems, 0) == "n1" == ItemKey(false, MixedItems, 1)
    ensures FirstWith(MixedItems, 2, "n1") == Some(0)
  {
    assert ItemKey(false, MixedItems, 0) == "n" + "1" && ItemKey(false, MixedItems, 1) == "n1" + "";
  }

  /** Both items share a job, and the second is not on its node. */
  lemma KeysCanMixNodes(backup: string)
    ensures var plan := PlanOf(backup, false, MixedItems, []);
            && DistinctVolumes(MixedItems) && KeysKeepItems(false, MixedItems, []) && !KeysSeparate(MixedItems, [])
            && Holds(plan, "n1", "y") && plan["n1"].nodeSelector == Some("n") && !Pinned(MixedItems, plan, 1)
  {
    MixedKeys();
    ClassicGroupsOf(backup, MixedItems, 2);
    var plan := PlanOf(backup, false, MixedItems, []);
    assert plan["n1"] == GroupJob(backup, MixedItems, 2, "n1");
    assert MixedItems[1].volume in VolumesWith(MixedItems, 2, "n1");
  }

  /** Claims without arguments or node, one after the other; the one at position i has the given arguments. */
  function Named(n: nat, i: nat, args: seq<string>): (items: seq<BackupItem>)
    ensures |items| == n
    ensures forall k :: 0 <= k < n ==> items[k] == BackupItem("v" + Itoa(k), "", [], "", if k == i then args else [])
  {
    seq(n, k requires 0 <= k < n => BackupItem("v" + Itoa(k), "", [], "", if k == i then args else []))
  }

  lemma NamedAreDistinct(n: nat, i: nat, args: seq<string>)
    ensures DistinctVolumes(Named(n, i, args))
  {
    var items := Named(n, i, args);
    forall a, b | 0 <= a < b < n
      ensures items[a].volume != items[b].volume
    {
      assert items[a].volume[1..] == Itoa(a) && items[b].volume[1..] == Itoa(b);
      if Itoa(a) == Itoa(b) {
        ItoaInjective(a, b);
      }
    }
  }

  /** Eleven claims, the second with the argument "0": with relaxed scheduling it shares a key with the eleventh, and is lost. */
  lemma RelaxedKeysCanCollide(backup: string, targets: seq<string>)
    ensures var items := Named(11, 1, ["0"]);
            && DistinctVolumes(items)
            && ItemKey(true, items, 1) == "10" == ItemKey(true, items, 10)
            && !KeysKeepItems(true, items, targets)
            && forall key :: !Holds(PlanOf(backup, true, items, targets), key, items[1].volume)
  {
    var items := Named(11, 1, ["0"]);
    NamedAreDistinct(11, 1, ["0"]);
    assert Itoa(1) == "1" && Itoa(10) == Itoa(1) + Itoa(0) == "10";
    assert ItemKey(true, items, 1) == "1" + "0" && ItemKey(true, items, 10) == "10" + "";
    PlanOfIsPlan(backup, true, items, targets);
    var plan := PlanOf(backup, true, items, targets);
    var groups :| IsPlanOf(backup, true, items, targets, groups, plan);
    forall key
      ensures !Holds(plan, key, items[1].volume)
    {
      LostIsNowhere(backup, true, items, targets, groups, plan, 1, key);
    }
  }

  /** With classic scheduling, a claim with the argument "prebackup" is lost whenever there are backup commands to run. */
  lemma ClassicKeyCanBeTaken(backup: string, targets: seq<string>)
    requires targets != []
    ensures var items := Named(1, 0, [PreBackupKey]);
            && DistinctVolumes(items) && !KeysKeepItems(false, items, targets)
            && forall key :: !Holds(PlanOf(backup, false, items, targets), key, items[0].volume)
  {
    var items := Named(1, 0, [PreBackupKey]);
    NamedAreDistinct(1, 0, [PreBackupKey]);
    assert ItemKey(false, items, 0) == "" + PreBackupKey;
    PlanOfIsPlan(backup, false, items, targets);
    var plan := PlanOf(backup, false, items, targets);
    var groups :| IsPlanOf(backup, false, items, targets, groups, plan);
    forall key
      ensures !Holds(plan, key, items[0].volume)
    {
      LostIsNowhere(backup, false, items, targets, groups, plan, 0, key);
    }
  }
}
