/**
  Which pods run backup commands, and in which job. The planner lists the annotated pods once, keeps
  those its backup may touch, and hands their names to one job as comma-separated text; the job
  splits the text and lists again (restic/kubernetes/pod_list.go, cmd/clihelper.go and the pod part
  of `startBackup`).
 */
module PodTargets {
  import opened Wrappers
  import opened Text
  import opened Planner
  import opened Volumes

  datatype BackupPod = BackupPod(command: string, podName: string, container: string, fileExtension: string)

  /** The annotation names a lister looks for. The planner passes "" for all but the first. */
  datatype Annotations = Annotations(command: string, container: string, fileExtension: string)

  /** A running pod with a backup command that the filter, if there is one, lets through. */
  predicate Eligible(p: Pod, command: string, targets: set<string>) {
    p.running && command in p.annotations && (targets == {} || p.name in targets)
  }

  function FirstOwner(p: Pod): string {
    if |p.owners| > 0 then p.owners[0] else p.uid
  }

  /** Pod i is the first eligible pod of its first owner. */
  predicate FirstOfOwner(pods: seq<Pod>, i: nat, command: string, targets: set<string>)
    requires i < |pods|
  {
    && Eligible(pods[i], command, targets)
    && forall k :: 0 <= k < i && Eligible(pods[k], command, targets) ==> FirstOwner(pods[k]) != FirstOwner(pods[i])
  }

  /** The pods among the first n to run commands in. */
  function Listed(pods: seq<Pod>, n: nat, command: string, targets: set<string>): seq<Pod>
    requires n <= |pods|
  {
    if n == 0 then [] else Listed(pods, n - 1, command, targets) + ListedAt(pods, n - 1, command, targets)
  }

  function ListedAt(pods: seq<Pod>, i: nat, command: string, targets: set<string>): seq<Pod>
    requires i < |pods|
  {
    if FirstOfOwner(pods, i, command, targets) then [pods[i]] else []
  }

  lemma {:induction false} ListedMembers(pods: seq<Pod>, n: nat, command: string, targets: set<string>, p: Pod)
    requires n <= |pods|
    ensures p in Listed(pods, n, command, targets) <==>
            exists i :: 0 <= i < n && pods[i] == p && FirstOfOwner(pods, i, command, targets)
  {
    if n > 0 {
      ListedMembers(pods, n - 1, command, targets, p);
    }
  }

  function Lookup(m: map<string, string>, key: string, default: string): string {
    if key in m then m[key] else default
  }

  function Describe(p: Pod, a: Annotations): BackupPod {
    BackupPod(Lookup(p.annotations, a.command, ""), p.name,
              Lookup(p.annotations, a.container, p.container), Lookup(p.annotations, a.fileExtension, ""))
  }

  function DescribeAll(pods: seq<Pod>, a: Annotations): (r: seq<BackupPod>)
    ensures |r| == |pods| && forall i :: 0 <= i < |pods| ==> r[i] == Describe(pods[i], a)
  {
    seq(|pods|, i requires 0 <= i < |pods| => Describe(pods[i], a))
  }

  /** PodLister.ListPods on the answer of the pod listing; no result stands for the error return. */
  method ListPods(answer: Option<seq<Pod>>, a: Annotations, targetPods: seq<string>, skipPreBackup: bool)
    returns (r: Option<seq<BackupPod>>)
    ensures skipPreBackup ==> r == Some([])
    ensures !skipPreBackup && answer.None? ==> r == None
    ensures !skipPreBackup && answer.Some? ==>
              var targets := set t | t in targetPods;
              r == Some(DescribeAll(Listed(answer.value, |answer.value|, a.command, targets), a))
  {
    var found := [];
    if skipPreBackup {
      return Some([]);
    }
    if answer.None? {
      return None;
    }
    var pods := answer.value;
    var targets := set t | t in targetPods;
    var sameOwner: set<string> := {};
    for i := 0 to |pods|
      invariant forall o :: o in sameOwner <==>
                  exists k :: 0 <= k < i && Eligible(pods[k], a.command, targets) && FirstOwner(pods[k]) == o
      invariant found == DescribeAll(Listed(pods, i, a.command, targets), a)
    {
      var pod := pods[i];
      var container := Lookup(pod.annotations, a.container, pod.container);
      if !pod.running {
        continue;
      }
      if |targets| > 0 && pod.name !in targets {
        continue;
      }
      if a.command in pod.annotations {
        var owner := FirstOwner(pod);
        if owner !in sameOwner {
          sameOwner := sameOwner + {owner};
          found := found + [BackupPod(pod.annotations[a.command], pod.name, container,
                                      Lookup(pod.annotations, a.fileExtension, ""))];
        }
      }
    }
    return Some(found);
  }

  function Names(pods: seq<Pod>): (r: seq<string>)
    ensures |r| == |pods| && forall i :: 0 <= i < |pods| ==> r[i] == pods[i].name
  {
    seq(|pods|, i requires 0 <= i < |pods| => pods[i].name)
  }

  /** The pods of a list whose names are in the given set, in list order. */
  function Keep(pods: seq<Pod>, names: set<string>): seq<Pod> {
    if pods == [] then [] else KeepOne(pods[0], names) + Keep(pods[1..], names)
  }

  function KeepOne(p: Pod, names: set<string>): seq<Pod> {
    if p.name in names then [p] else []
  }

  lemma {:induction false} KeepMembers(pods: seq<Pod>, names: set<string>, p: Pod)
    ensures p in Keep(pods, names) <==> p in pods && p.name in names
  {
    if pods != [] {
      KeepMembers(pods[1..], names, p);
      assert p in pods <==> p == pods[0] || p in pods[1..];
    }
  }

  lemma {:induction false} KeepAppend(a: seq<Pod>, b: seq<Pod>, names: set<string>)
    ensures Keep(a + b, names) == Keep(a, names) + Keep(b, names)
  {
    if a == [] {
      assert a + b == b;
    } else {
      assert (a + b)[1..] == a[1..] + b;
      KeepAppend(a[1..], b, names);
    }
  }

  /** The in-place removal of candidate pods that are not viable, from the back of the list. */
  method DropUnviable(candidates: seq<Pod>, viable: seq<string>) returns (items: seq<Pod>)
    ensures items == Keep(candidates, set v | v in viable)
  {
    ghost var names := set v | v in viable;
    items := candidates;
    var i := |items|;
    while i > 0
      invariant 0 <= i <= |items| && i <= |candidates| && items[..i] == candidates[..i]
      invariant items[i..] == Keep(candidates[i..], names)
    {
      i := i - 1;
      ghost var tail := items[i + 1..];
      assert candidates[i..][0] == candidates[i] == items[..i + 1][i] && candidates[i..][1..] == candidates[i + 1..];
      if items[i].name !in viable {
        items := items[..i] + items[i + 1..];
        assert items[i..] == tail;
      } else {
        assert items[i..] == [items[i]] + tail;
      }
    }
    assert candidates[0..] == candidates && items == items[0..];
  }

  /** The names the job for backup commands is given. */
  method TargetPods(candidates: seq<Pod>, viable: seq<string>) returns (targets: seq<string>)
    ensures targets == Names(Keep(candidates, set v | v in viable))
  {
    var items := DropUnviable(candidates, viable);
    forall p | p in items
      ensures p.name in viable
    {
      KeepMembers(candidates, (set v | v in viable), p);
    }
    targets := [];
    for k := 0 to |items|
      invariant targets == Names(items)[..k]
    {
      assert items[k] in items;
      if items[k].name in viable {
        targets := targets + [items[k].name];
      }
    }
  }

  function Flatten(parts: seq<seq<string>>): seq<string> {
    if parts == [] then [] else Flatten(parts[..|parts| - 1]) + parts[|parts| - 1]
  }

  function SplitEach(slice: seq<string>): (r: seq<seq<string>>)
    ensures |r| == |slice| && forall i :: 0 <= i < |r| ==> r[i] == Split(slice[i], ',')
  {
    seq(|slice|, i requires 0 <= i < |slice| => Split(slice[i], ','))
  }

  method SplitAtComma(slice: seq<string>) returns (result: seq<string>)
    ensures result == Flatten(SplitEach(slice))
  {
    result := [];
    for i := 0 to |slice|
      invariant result == Flatten(SplitEach(slice[..i]))
    {
      result := result + Split(slice[i], ',');
      assert SplitEach(slice[..i + 1])[..i] == SplitEach(slice[..i]);
    }
    assert slice[..|slice|] == slice;
  }

  // ---- The round trip ----

  predicate DistinctNames(pods: seq<Pod>) {
    forall i, k :: 0 <= i < k < |pods| ==> pods[i].name != pods[k].name
  }

  /** What a job started with these target pods reads back from its environment. */
  function ReadTargets(targets: seq<string>): seq<string> {
    if targets == [] then [] else Flatten(SplitEach([Join(targets, ',')]))
  }

  lemma ReadTargetsBack(targets: seq<string>)
    requires forall t :: t in targets ==> ',' !in t
    ensures ReadTargets(targets) == targets
  {
    if targets != [] {
      SplitOfJoin(targets, ',');
      var parts := SplitEach([Join(targets, ',')]);
      assert |parts| == 1 && parts[0] == targets && parts[..0] == [];
      assert Flatten(parts) == Flatten(parts[..0]) + targets == targets;
    }
  }

  function JoinEach(lists: seq<seq<string>>): (r: seq<string>)
    ensures |r| == |lists| && forall i :: 0 <= i < |r| ==> r[i] == Join(lists[i], ',')
  {
    seq(|lists|, i requires 0 <= i < |lists| => Join(lists[i], ','))
  }

  /** Several arguments, each a joined list, read back as one list after the other. */
  lemma {:induction false} SplitsBack(lists: seq<seq<string>>)
    requires forall l :: l in lists ==> l != [] && forall t :: t in l ==> ',' !in t
    ensures Flatten(SplitEach(JoinEach(lists))) == Flatten(lists)
  {
    if lists != [] {
      var n := |lists| - 1;
      assert lists[n] in lists;
      SplitOfJoin(lists[n], ',');
      assert forall l :: l in lists[..n] ==> l in lists;
      SplitsBack(lists[..n]);
      assert SplitEach(JoinEach(lists))[..n] == SplitEach(JoinEach(lists[..n]));
    }
  }

  lemma {:induction false} FlattenAppend(a: seq<seq<string>>, l: seq<string>, b: seq<seq<string>>)
    ensures Flatten(a + [l] + b) == Flatten(a) + l + Flatten(b)
  {
    if b == [] {
      assert a + [l] + b == a + [l] && (a + [l])[..|a|] == a;
    } else {
      var n := |b| - 1;
      assert (a + [l] + b)[..|a| + 1 + n] == a + [l] + b[..n];
      FlattenAppend(a, l, b[..n]);
    }
  }

  /** Every name in the filter is the name of a pod that is listed without a filter. */
  ghost predicate NamesListed(pods: seq<Pod>, command: string, names: set<string>) {
    && names != {}
    && forall m :: m in names ==> exists i :: 0 <= i < |pods| && pods[i].name == m && FirstOfOwner(pods, i, command, {})
  }

  /** Such a filter never lets a pod in that another pod of its owner should shadow. */
  lemma FilterAgrees(pods: seq<Pod>, i: nat, command: string, names: set<string>)
    requires i < |pods| && DistinctNames(pods) && NamesListed(pods, command, names)
    ensures FirstOfOwner(pods, i, command, names) <==> FirstOfOwner(pods, i, command, {}) && pods[i].name in names
  {
    if Eligible(pods[i], command, names) {
      var k :| 0 <= k < |pods| && pods[k].name == pods[i].name && FirstOfOwner(pods, k, command, {});
      assert k == i;
    }
  }

  /** Listing with a filter made of listed pods gives exactly those pods, in the same order. */
  lemma FilteredListing(pods: seq<Pod>, command: string, names: set<string>)
    requires DistinctNames(pods) && NamesListed(pods, command, names)
    ensures Listed(pods, |pods|, command, names) == Keep(Listed(pods, |pods|, command, {}), names)
  {
    forall i: nat | i < |pods|
      ensures FilteredAt(pods, i, command, names)
    {
      FilterAgreesAt(pods, i, command, names);
    }
    FilteredPart(pods, |pods|, command, names);
  }

  predicate FilteredAt(pods: seq<Pod>, i: nat, command: string, names: set<string>)
    requires i < |pods|
  {
    ListedAt(pods, i, command, names) == Keep(ListedAt(pods, i, command, {}), names)
  }

  lemma {:induction false} FilteredPart(pods: seq<Pod>, n: nat, command: string, names: set<string>)
    requires n <= |pods| && forall i: nat :: i < n ==> FilteredAt(pods, i, command, names)
    ensures Listed(pods, n, command, names) == Keep(Listed(pods, n, command, {}), names)
  {
    if n > 0 {
      FilteredPart(pods, n - 1, command, names);
      assert FilteredAt(pods, n - 1, command, names);
      KeepAppend(Listed(pods, n - 1, command, {}), ListedAt(pods, n - 1, command, {}), names);
    }
  }

  lemma FilterAgreesAt(pods: seq<Pod>, i: nat, command: string, names: set<string>)
    requires i < |pods| && DistinctNames(pods) && NamesListed(pods, command, names)
    ensures FilteredAt(pods, i, command, names)
  {
    FilterAgrees(pods, i, command, names);
    assert Keep([pods[i]], names) == KeepOne(pods[i], names) + Keep([], names);
  }

  /** The names of the pods listed without a filter. */
  function ViableNames(pods: seq<Pod>, command: string): set<string> {
    set p | p in Listed(pods, |pods|, command, {}) :: p.name
  }

  /** The planner's inputs: unique pod names, and candidates taken from the same pods. */
  predicate Candidates(pods: seq<Pod>, candidates: seq<Pod>) {
    DistinctNames(pods) && forall p :: p in candidates ==> p in pods && ',' !in p.name
  }

  lemma KeptNames(pods: seq<Pod>, candidates: seq<Pod>, command: string, t: string)
    requires Candidates(pods, candidates)
    ensures var targets := Names(Keep(candidates, ViableNames(pods, command)));
            t in targets <==> exists p :: p in candidates && p in Listed(pods, |pods|, command, {}) && p.name == t
  {
    var viable := ViableNames(pods, command);
    var kept := Keep(candidates, viable);
    var listed := Listed(pods, |pods|, command, {});
    if t in Names(kept) {
      var i :| 0 <= i < |kept| && kept[i].name == t;
      KeepMembers(candidates, viable, kept[i]);
      var q :| q in listed && q.name == t;
      ListedMembers(pods, |pods|, command, {}, q);
      SameName(pods, kept[i], q);
    }
    if p :| p in candidates && p in listed && p.name == t {
      KeepMembers(candidates, viable, p);
      var i :| 0 <= i < |kept| && kept[i] == p;
      assert Names(kept)[i] == t;
    }
  }

  /**
    On one pod list: the planner lists the annotated pods, keeps the candidates among them, joins
    their names, and the job that splits the text and lists again finds exactly those pods.
   */
  lemma TargetsRoundTrip(pods: seq<Pod>, candidates: seq<Pod>, command: string, targets: seq<string>)
    requires Candidates(pods, candidates) && targets != []
    requires targets == Names(Keep(candidates, ViableNames(pods, command)))
    ensures ReadTargets(targets) == targets
    ensures var read := set t | t in ReadTargets(targets);
            forall p :: p in Listed(pods, |pods|, command, read) <==>
                        p in candidates && p in Listed(pods, |pods|, command, {})
  {
    var listed := Listed(pods, |pods|, command, {});
    forall t | t in targets
      ensures ',' !in t
      ensures exists i :: 0 <= i < |pods| && pods[i].name == t && FirstOfOwner(pods, i, command, {})
    {
      KeptNames(pods, candidates, command, t);
      var p :| p in candidates && p in listed && p.name == t;
      ListedMembers(pods, |pods|, command, {}, p);
    }
    ReadTargetsBack(targets);
    var read := set t | t in targets;
    assert targets[0] in read;
    FilteredListing(pods, command, read);
    forall p
      ensures p in Listed(pods, |pods|, command, read) <==> p in candidates && p in listed
    {
      KeepMembers(listed, read, p);
      KeptNames(pods, candidates, command, p.name);
      if p in listed && p.name in read {
        var q :| q in candidates && q in listed && q.name == p.name;
        ListedMembers(pods, |pods|, command, {}, p);
        SameName(pods, p, q);
      }
    }
  }

  /** In fields: the pods have the same first owner reference, or are both without one and the same pod. */
  predicate SameOwner(p: Pod, q: Pod) {
    if p.owners != [] && q.owners != [] then p.owners[0] == q.owners[0]
    else if p.owners == [] && q.owners == [] then p.uid == q.uid
    else if p.owners == [] then p.uid == q.owners[0]
    else p.owners[0] == q.uid
  }

  /** No two listed pods have the same first owner. */
  lemma OnePerOwner(pods: seq<Pod>, command: string, targets: set<string>, i: nat, k: nat)
    requires DistinctNames(pods) && i < |pods| && k < |pods|
    requires pods[i] in Listed(pods, |pods|, command, targets) && pods[k] in Listed(pods, |pods|, command, targets)
    requires SameOwner(pods[i], pods[k])
    ensures i == k
  {
    ListedIndex(pods, command, targets, i);
    ListedIndex(pods, command, targets, k);
  }

  /**
    In fields: a listed pod is running, has the command annotation and passes the filter; and of every
    such pod, it or an earlier one with the same owner is listed.
   */
  lemma ListedMeans(pods: seq<Pod>, command: string, targets: set<string>)
    ensures forall p :: p in Listed(pods, |pods|, command, targets) ==>
              p in pods && p.running && command in p.annotations && (targets == {} || p.name in targets)
    ensures forall k :: 0 <= k < |pods| && pods[k].running && command in pods[k].annotations && (targets == {} || pods[k].name in targets) ==>
              exists i :: 0 <= i <= k && SameOwner(pods[i], pods[k]) && pods[i] in Listed(pods, |pods|, command, targets)
  {
    forall p | p in Listed(pods, |pods|, command, targets)
      ensures p in pods && p.running && command in p.annotations && (targets == {} || p.name in targets)
    {
      ListedMembers(pods, |pods|, command, targets, p);
    }
    forall k: nat | k < |pods| && Eligible(pods[k], command, targets)
      ensures exists i :: 0 <= i <= k && SameOwner(pods[i], pods[k]) && pods[i] in Listed(pods, |pods|, command, targets)
    {
      var i := FirstSibling(pods, command, targets, k);
      ListedMembers(pods, |pods|, command, targets, pods[i]);
    }
  }

  lemma {:induction false} FirstSibling(pods: seq<Pod>, command: string, targets: set<string>, k: nat) returns (i: nat)
    requires k < |pods| && Eligible(pods[k], command, targets)
    ensures i <= k && FirstOwner(pods[i]) == FirstOwner(pods[k]) && FirstOfOwner(pods, i, command, targets)
    decreases k
  {
    if FirstOfOwner(pods, k, command, targets) {
      i := k;
    } else {
      var m :| 0 <= m < k && Eligible(pods[m], command, targets) && FirstOwner(pods[m]) == FirstOwner(pods[k]);
      i := FirstSibling(pods, command, targets, m);
    }
  }

  /** In fields: what is handed on of a listed pod, with the first container and no extension unless annotated. */
  lemma DescribeMeans(p: Pod, a: Annotations)
    requires a.command in p.annotations
    ensures var b := Describe(p, a);
            && b.podName == p.name && b.command == p.annotations[a.command]
            && (a.container in p.annotations ==> b.container == p.annotations[a.container])
            && (a.container !in p.annotations ==> b.container == p.container)
            && (a.fileExtension in p.annotations ==> b.fileExtension == p.annotations[a.fileExtension])
            && (a.fileExtension !in p.annotations ==> b.fileExtension == "")
  {
  }

  lemma SameName(pods: seq<Pod>, p: Pod, q: Pod)
    requires DistinctNames(pods) && p in pods && q in pods && p.name == q.name
    ensures p == q
  {
    var i :| 0 <= i < |pods| && pods[i] == p;
    var k :| 0 <= k < |pods| && pods[k] == q;
  }

  lemma ListedIndex(pods: seq<Pod>, command: string, targets: set<string>, i: nat)
    requires DistinctNames(pods) && i < |pods| && pods[i] in Listed(pods, |pods|, command, targets)
    ensures FirstOfOwner(pods, i, command, targets)
  {
    ListedMembers(pods, |pods|, command, targets, pods[i]);
    var k :| 0 <= k < |pods| && pods[k] == pods[i] && FirstOfOwner(pods, k, command, targets);
    assert k == i;
  }

  // ---- Which job runs a pod's command ----

  /** The pods whose command a planned job runs. */
  function CommandsRun(j: PlannedJob, pods: seq<Pod>, command: string): seq<Pod> {
    if j.skipPreBackup then []
    else Listed(pods, |pods|, command, set t | t in ReadTargets(j.targetPods))
  }

  /**
    Across all jobs of a backup, the command of each targeted pod is run by exactly one job, the one
    planned for backup commands, and no other pod's command is run.
   */
  lemma CommandRunOnce(backup: string, relaxed: bool, items: seq<BackupItem>, plan: Plan,
                       pods: seq<Pod>, candidates: seq<Pod>, command: string, targets: seq<string>, p: Pod)
    requires Candidates(pods, candidates)
    requires targets == Names(Keep(candidates, ViableNames(pods, command)))
    requires IsPlan(backup, relaxed, items, targets, plan)
    ensures forall key :: key in plan ==>
              (p in CommandsRun(plan[key], pods, command) <==>
               key == PreBackupKey && p in candidates && p in Listed(pods, |pods|, command, {}))
    ensures p in candidates && p in Listed(pods, |pods|, command, {}) ==> PreBackupKey in plan
  {
    var groups :| IsPlanOf(backup, relaxed, items, targets, groups, plan);
    KeptNames(pods, candidates, command, p.name);
    if targets != [] {
      TargetsRoundTrip(pods, candidates, command, targets);
    }
    forall key | key in plan && (key != PreBackupKey || targets == [])
      ensures plan[key].skipPreBackup
    {
      GroupsSkipPreBackup(backup, relaxed, items, groups, key);
    }
  }

  lemma GroupsSkipPreBackup(backup: string, relaxed: bool, items: seq<BackupItem>, groups: Plan, key: string)
    requires if relaxed then RelaxedGroups(backup, items, |items|, groups) else ClassicGroups(backup, items, |items|, groups)
    requires key in groups
    ensures groups[key].skipPreBackup
  {
    if relaxed {
      assert groups[key] == OwnJob(backup, items, LastOf(items, |items|, key).value);
    }
  }

  // ---- Candidates: a union over label selectors ----

  /** A label selector, as the set of label maps it matches. */
  type LabelSelector = map<string, string> -> bool

  predicate MatchesAny(labels: map<string, string>, selectors: seq<LabelSelector>) {
    exists s :: 0 <= s < |selectors| && selectors[s](labels)
  }

  /**
    fetchCandidatePods: all pods without label selectors; with them one listing per selector and one
    for the pods the backup itself owns, collected in a map by name whose values come back in any
    order. `listable` listings succeed; no result stands for the error return.
   */
  method FetchCandidatePods(pods: seq<Pod>, labelSelectors: Option<seq<LabelSelector>>, owned: LabelSelector, listable: nat)
    returns (r: Option<seq<Pod>>)
    requires DistinctNames(pods)
    ensures r.Some? <==> listable >= if labelSelectors.None? then 1 else |labelSelectors.value| + 1
    ensures r.Some? && labelSelectors.None? ==> r.value == pods
    ensures r.Some? && labelSelectors.Some? ==>
              && (forall p :: p in r.value <==> p in pods && (MatchesAny(p.labels, labelSelectors.value) || owned(p.labels)))
              && DistinctNames(r.value)
  {
    if labelSelectors.None? {
      return if listable == 0 then None else Some(pods);
    }
    var selectors := labelSelectors.value + [owned];
    var unique: map<string, Pod> := map[];
    for s := 0 to |selectors|
      invariant s <= listable && CollectedFor(unique, pods, selectors[..s])
    {
      if s == listable {
        return None;
      }
      unique := CollectListing(pods, selectors, s, unique);
    }
    assert selectors[..|selectors|] == selectors;
    var found := Values(unique);
    forall p
      ensures p in found <==> p in pods && (MatchesAny(p.labels, labelSelectors.value) || owned(p.labels))
    {
      MatchesNext(p.labels, selectors, |selectors| - 1);
      assert selectors[..|selectors| - 1] == labelSelectors.value;
      if p in pods && MatchesAny(p.labels, selectors) {
        SameName(pods, p, unique[p.name]);
      }
    }
    return Some(found);
  }

  /** The map holds, under its name, every pod one of the selectors matches, and no other pod. */
  ghost predicate CollectedFor(unique: map<string, Pod>, pods: seq<Pod>, selectors: seq<LabelSelector>) {
    && (forall n :: n in unique ==> unique[n].name == n && unique[n] in pods && MatchesAny(unique[n].labels, selectors))
    && (forall p :: p in pods && MatchesAny(p.labels, selectors) ==> p.name in unique)
  }

  /** The listing for selector s goes into the map. */
  method CollectListing(pods: seq<Pod>, selectors: seq<LabelSelector>, s: nat, collected: map<string, Pod>)
    returns (unique: map<string, Pod>)
    requires s < |selectors| && CollectedFor(collected, pods, selectors[..s])
    ensures CollectedFor(unique, pods, selectors[..s + 1])
  {
    unique := collected;
    for i := 0 to |pods|
      invariant forall n :: n in collected ==> n in unique
      invariant forall n :: n in unique ==>
                  unique[n].name == n && unique[n] in pods
                  && (MatchesAny(unique[n].labels, selectors[..s]) || selectors[s](unique[n].labels))
      invariant forall k :: 0 <= k < i && selectors[s](pods[k].labels) ==> pods[k].name in unique
    {
      if selectors[s](pods[i].labels) {
        unique := unique[pods[i].name := pods[i]];
      }
    }
    forall p | p in pods
      ensures MatchesAny(p.labels, selectors[..s + 1]) <==> MatchesAny(p.labels, selectors[..s]) || selectors[s](p.labels)
    {
      MatchesNext(p.labels, selectors, s);
    }
  }

  lemma MatchesNext(labels: map<string, string>, selectors: seq<LabelSelector>, s: nat)
    requires s < |selectors|
    ensures MatchesAny(labels, selectors[..s + 1]) <==> MatchesAny(labels, selectors[..s]) || selectors[s](labels)
  {
    if MatchesAny(labels, selectors[..s]) {
      var t :| 0 <= t < s && selectors[..s][t](labels);
      assert selectors[..s + 1][t](labels);
    }
    if selectors[s](labels) {
      assert selectors[..s + 1][s](labels);
    }
    if MatchesAny(labels, selectors[..s + 1]) {
      var t :| 0 <= t < s + 1 && selectors[..s + 1][t](labels);
      assert t < s ==> selectors[..s][t](labels);
    }
  }

  /** The values of the map, in some order, each once. */
  method Values(unique: map<string, Pod>) returns (found: seq<Pod>)
    requires forall n :: n in unique ==> unique[n].name == n
    ensures forall p :: p in found <==> p.name in unique && p == unique[p.name]
    ensures DistinctNames(found)
  {
    found := [];
    var names := unique.Keys;
    while names != {}
      invariant names <= unique.Keys
      invariant forall p :: p in found <==> p.name in unique && p.name !in names && p == unique[p.name]
      invariant DistinctNames(found)
      decreases names
    {
      var n :| n in names;
      assert forall p :: p in found ==> p.name != n;
      names := names - {n};
      found := found + [unique[n]];
    }
  }
}
