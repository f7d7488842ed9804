/**
  Which claims a backup takes and where each is to be backed up (`listAndFilterPVCs` and `findNode`
  in operator/backupcontroller/executor.go).
 */
module Volumes {
  import opened Wrappers
  import opened Planner

  datatype AccessMode = ReadWriteOnce | ReadOnlyMany | ReadWriteMany | ReadWriteOncePod

  /** A pod: `claims` are the claim names of its volumes, `owners` the UIDs of its owner references. */
  datatype Pod = Pod(
    name: string,
    uid: string,
    labels: map<string, string>,
    annotations: map<string, string>,
    running: bool,
    node: string,
    tolerations: seq<string>,
    claims: seq<string>,
    owners: seq<string>,
    container: string)

  datatype Claim = Claim(
    name: string,
    labels: map<string, string>,
    annotations: map<string, string>,
    bound: bool,
    accessModes: seq<AccessMode>,
    volumeName: string)

  /** A node selector requirement; the API server admits `In` only with at least one value. */
  datatype NodeRequirement = NodeRequirement(key: string, isIn: bool, firstValue: string, moreValues: seq<string>)

  /** A persistent volume: the required terms of its node affinity, if any. */
  datatype PersistentVolume = PersistentVolume(affinity: Option<seq<seq<NodeRequirement>>>)

  /** The operator configuration and the cluster content that selection depends on. */
  datatype Env = Env(
    pods: seq<Pod>,
    volumes: map<string, PersistentVolume>,
    backupAnnotation: string,
    argsAnnotation: string,
    skipWithoutAnnotation: bool,
    relaxed: bool)

  const K8upLabel := "k8upjob"
  const HostnameLabel := "kubernetes.io/hostname"
  const HostnameAnnotation := "k8up.io/hostname"

  /** `strconv.ParseBool`, with everything it rejects read as false. */
  predicate ParseBool(s: string) {
    s in {"1", "t", "T", "TRUE", "true", "True"}
  }

  /** A pod that counts as a user of its claims. */
  predicate Uses(p: Pod, claim: string) {
    K8upLabel !in p.labels && p.running && claim in p.claims
  }

  /** The last listed pod that uses the claim. */
  function MountingPod(pods: seq<Pod>, claim: string): (r: Option<Pod>)
    ensures r.Some? <==> exists p :: p in pods && Uses(p, claim)
    ensures r.Some? ==> r.value in pods && Uses(r.value, claim)
  {
    if pods == [] then None
    else
      var last := pods[|pods| - 1];
      assert forall p :: p in pods <==> p == last || p in pods[..|pods| - 1];
      if Uses(last, claim) then Some(last) else MountingPod(pods[..|pods| - 1], claim)
  }

  /** The first `In` requirement on the hostname label over all terms, in order. */
  function HostnameIn(requirements: seq<NodeRequirement>): Option<string> {
    if requirements == [] then None
    else if NamesHost(requirements[0]) then Some(requirements[0].firstValue)
    else HostnameIn(requirements[1..])
  }

  function HostnameInTerms(terms: seq<seq<NodeRequirement>>): Option<string> {
    if terms == [] then None
    else
      var h := HostnameIn(terms[0]);
      if h.Some? then h else HostnameInTerms(terms[1..])
  }

  function FindNode(pv: PersistentVolume, c: Claim): string {
    var annotated := if HostnameAnnotation in c.annotations then c.annotations[HostnameAnnotation] else "";
    if pv.affinity.None? then annotated
    else
      var h := HostnameInTerms(pv.affinity.value);
      if h.Some? then h.value else annotated
  }

  /** The annotation and access-mode part of the selection. */
  predicate Wanted(e: Env, c: Claim) {
    var annotated := e.backupAnnotation in c.annotations;
    && c.bound
    && (ReadWriteMany in c.accessModes || ReadWriteOnce in c.accessModes || annotated)
    && (if annotated then ParseBool(c.annotations[e.backupAnnotation]) else !e.skipWithoutAnnotation)
  }

  /** Whether the persistent volume decides the node, which must then be retrievable. */
  predicate NeedsVolume(e: Env, c: Claim) {
    MountingPod(e.pods, c.name).None? && !e.relaxed && ReadWriteOnce in c.accessModes
  }

  /** A claim is backed up exactly when it is wanted, its arguments parse, and its volume is found if needed. */
  predicate Selected(e: Env, c: Claim, parse: string -> Option<seq<string>>) {
    && Wanted(e, c)
    && (e.argsAnnotation in c.annotations ==> parse(c.annotations[e.argsAnnotation]).Some?)
    && (NeedsVolume(e, c) ==> c.volumeName in e.volumes)
  }

  function NodeOf(e: Env, c: Claim): string
    requires NeedsVolume(e, c) ==> c.volumeName in e.volumes
  {
    var pod := MountingPod(e.pods, c.name);
    if HostnameAnnotation in c.annotations then c.annotations[HostnameAnnotation]
    else if pod.Some? then (if ReadWriteOnce in c.accessModes || !e.relaxed then pod.value.node else "")
    else if NeedsVolume(e, c) then FindNode(e.volumes[c.volumeName], c)
    else ""
  }

  function ItemOf(e: Env, c: Claim, parse: string -> Option<seq<string>>): BackupItem
    requires Selected(e, c, parse)
  {
    var pod := MountingPod(e.pods, c.name);
    BackupItem(c.name, NodeOf(e, c),
               if pod.Some? then pod.value.tolerations else [],
               if pod.Some? then pod.value.name else "",
               if e.argsAnnotation in c.annotations then parse(c.annotations[e.argsAnnotation]).value else [])
  }

  /** The items of the selected claims, in claim order. */
  function Items(e: Env, claims: seq<Claim>, parse: string -> Option<seq<string>>): seq<BackupItem> {
    if claims == [] then []
    else
      var last := claims[|claims| - 1];
      Items(e, claims[..|claims| - 1], parse) + if Selected(e, last, parse) then [ItemOf(e, last, parse)] else []
  }

  /** The claim-to-pod map: later pods of the list overwrite earlier ones. */
  method MapClaimsToPods(pods: seq<Pod>) returns (m: map<string, Pod>)
    ensures forall c :: (if c in m then Some(m[c]) else None) == MountingPod(pods, c)
  {
    m := map[];
    for i := 0 to |pods|
      invariant forall c :: (if c in m then Some(m[c]) else None) == MountingPod(pods[..i], c)
    {
      assert pods[..i + 1][..i] == pods[..i];
      var pod := pods[i];
      if K8upLabel in pod.labels || !pod.running {
        continue;
      }
      for k := 0 to |pod.claims|
        invariant forall c :: (if c in m then Some(m[c]) else None) ==
                              if c in pod.claims[..k] then Some(pod) else MountingPod(pods[..i], c)
      {
        m := m[pod.claims[k] := pod];
      }
      assert pod.claims[..|pod.claims|] == pod.claims;
    }
    assert pods[..|pods|] == pods;
  }

  /** The two answers say whether the pods and the claims could be listed; no result stands for the error return. */
  method ListAndFilterPVCs(e: Env, claims: seq<Claim>, parse: string -> Option<seq<string>>, podsOk: bool, claimsOk: bool)
    returns (r: Option<seq<BackupItem>>)
    ensures r == if podsOk && claimsOk then Some(Items(e, claims, parse)) else None
  {
    if !podsOk {
      return None;
    }
    var claimPods := MapClaimsToPods(e.pods);
    if !claimsOk {
      return None;
    }
    var items := [];
    for i := 0 to |claims|
      invariant items == Items(e, claims[..i], parse)
    {
      assert claims[..i + 1][..i] == claims[..i];
      var c := claims[i];
      var mounted := c.name in claimPods;
      assert (if mounted then Some(claimPods[c.name]) else None) == MountingPod(e.pods, c.name);
      if !c.bound {
        continue;
      }
      var annotated := e.backupAnnotation in c.annotations;
      var isRWO := ReadWriteOnce in c.accessModes;
      if !(ReadWriteMany in c.accessModes) && !isRWO && !annotated {
        continue;
      }
      if !annotated {
        if e.skipWithoutAnnotation {
          continue;
        }
      } else if !ParseBool(c.annotations[e.backupAnnotation]) {
        continue;
      }
      var item := BackupItem(c.name, "", [], "", []);
      if e.argsAnnotation in c.annotations {
        var args := parse(c.annotations[e.argsAnnotation]);
        if args.None? {
          continue;
        }
        item := item.(args := args.value);
      }
      if mounted {
        var pod := claimPods[c.name];
        item := item.(tolerations := pod.tolerations, targetPod := pod.name);
        if isRWO || !e.relaxed {
          item := item.(node := pod.node);
        }
      } else if !e.relaxed && isRWO {
        if c.volumeName !in e.volumes {
          continue;
        }
        item := item.(node := FindNode(e.volumes[c.volumeName], c));
      }
      if HostnameAnnotation in c.annotations {
        item := item.(node := c.annotations[HostnameAnnotation]);
      }
      items := items + [item];
    }
    assert claims[..|claims|] == claims;
    return Some(items);
  }

  predicate DistinctClaims(claims: seq<Claim>) {
    && (forall i :: 0 <= i < |claims| ==> claims[i].name != "")
    && (forall i, k :: 0 <= i < k < |claims| ==> claims[i].name != claims[k].name)
  }

  /** Every selected claim has an item, every item is a selected claim's, and no claim has two. */
  lemma {:induction false} ItemsMatchClaims(e: Env, claims: seq<Claim>, parse: string -> Option<seq<string>>)
    requires DistinctClaims(claims)
    ensures var items := Items(e, claims, parse);
            && (forall c :: c in claims && Selected(e, c, parse) ==> ItemOf(e, c, parse) in items)
            && (forall b :: b in items ==> exists c :: c in claims && Selected(e, c, parse) && b == ItemOf(e, c, parse))
            && DistinctVolumes(items)
  {
    if claims != [] {
      var n := |claims| - 1;
      var rest, last := claims[..n], claims[n];
      ItemsMatchClaims(e, rest, parse);
      assert forall c :: c in claims <==> c in rest || c == last;
      if Selected(e, last, parse) {
        var before := Items(e, rest, parse);
        forall b | b in before
          ensures b.volume != last.name
        {
          var c :| c in rest && Selected(e, c, parse) && b == ItemOf(e, c, parse);
          var k :| 0 <= k < n && rest[k] == c;
          assert claims[k] == c;
        }
        DistinctVolumesAppend(before, ItemOf(e, last, parse));
      }
    }
  }

  lemma DistinctVolumesAppend(items: seq<BackupItem>, b: BackupItem)
    requires DistinctVolumes(items) && b.volume != "" && forall a :: a in items ==> a.volume != b.volume
    ensures DistinctVolumes(items + [b])
  {
  }

  /** A requirement that names a host. */
  predicate NamesHost(q: NodeRequirement) {
    q.key == HostnameLabel && q.isIn
  }

  lemma {:induction false} FirstHost(requirements: seq<NodeRequirement>, k: nat)
    requires k < |requirements| && NamesHost(requirements[k])
    requires forall m :: 0 <= m < k ==> !NamesHost(requirements[m])
    ensures HostnameIn(requirements) == Some(requirements[k].firstValue)
  {
    if k > 0 {
      FirstHost(requirements[1..], k - 1);
    }
  }

  lemma {:induction false} NoHost(requirements: seq<NodeRequirement>)
    requires forall q :: q in requirements ==> !NamesHost(q)
    ensures HostnameIn(requirements) == None
  {
    if requirements != [] {
      assert requirements[0] in requirements;
      NoHost(requirements[1..]);
    }
  }

  lemma {:induction false} FirstHostOfTerms(terms: seq<seq<NodeRequirement>>, i: nat, k: nat)
    requires i < |terms| && k < |terms[i]| && NamesHost(terms[i][k])
    requires forall m :: 0 <= m < k ==> !NamesHost(terms[i][m])
    requires forall n, q :: 0 <= n < i && q in terms[n] ==> !NamesHost(q)
    ensures HostnameInTerms(terms) == Some(terms[i][k].firstValue)
  {
    if i == 0 {
      FirstHost(terms[0], k);
    } else {
      NoHost(terms[0]);
      FirstHostOfTerms(terms[1..], i - 1, k);
    }
  }

  /** The conditions under which the planner keeps the items of the claims apart. */
  ghost predicate PlansApart(e: Env, claims: seq<Claim>, parse: string -> Option<seq<string>>,
                             backup: string, targets: seq<string>, plan: Plan) {
    var items := Items(e, claims, parse);
    && DistinctClaims(claims)
    && IsPlan(backup, e.relaxed, items, targets, plan)
    && KeysKeepItems(e.relaxed, items, targets)
    && (!e.relaxed ==> KeysSeparate(items, targets))
  }

  /** In fields: a running pod, not one of the operator's own jobs, that mounts the claim. */
  predicate InUse(pods: seq<Pod>, claim: string) {
    exists p :: p in pods && p.running && "k8upjob" !in p.labels && claim in p.claims
  }

  lemma InUseMeans(pods: seq<Pod>, claim: string)
    ensures InUse(pods, claim) <==> MountingPod(pods, claim).Some?
  {
    if InUse(pods, claim) {
      var p :| p in pods && p.running && "k8upjob" !in p.labels && claim in p.claims;
      assert Uses(p, claim);
    }
  }

  /** Of several such pods it is the last one listed that counts. */
  lemma {:induction false} LastPodCounts(pods: seq<Pod>, claim: string, i: nat)
    requires i < |pods| && pods[i].running && "k8upjob" !in pods[i].labels && claim in pods[i].claims
    requires forall k :: i < k < |pods| ==> !(pods[k].running && "k8upjob" !in pods[k].labels && claim in pods[k].claims)
    ensures MountingPod(pods, claim) == Some(pods[i])
    decreases |pods|
  {
    var last := |pods| - 1;
    if i < last {
      LastPodCounts(pods[..last], claim, i);
    }
  }

  /**
    In fields, which claims are backed up: bound ones; if annotated, those whose annotation is one of
    the texts for true, and otherwise, unless such claims are skipped, those that can be written by
    one or many nodes; provided their arguments parse and, where the volume has to tell the node,
    the volume is found.
   */
  lemma SelectionMeans(e: Env, claims: seq<Claim>, parse: string -> Option<seq<string>>, c: Claim)
    requires DistinctClaims(claims) && c in claims
    ensures (exists b :: b in Items(e, claims, parse) && b.volume == c.name) <==>
            && c.bound
            && (if e.backupAnnotation in c.annotations then c.annotations[e.backupAnnotation] in {"1", "t", "T", "TRUE", "true", "True"}
                else !e.skipWithoutAnnotation && (ReadWriteMany in c.accessModes || ReadWriteOnce in c.accessModes))
            && (e.argsAnnotation in c.annotations ==> parse(c.annotations[e.argsAnnotation]).Some?)
            && (!e.relaxed && ReadWriteOnce in c.accessModes && !InUse(e.pods, c.name) ==> c.volumeName in e.volumes)
  {
    InUseMeans(e.pods, c.name);
    ItemsMatchClaims(e, claims, parse);
    var items := Items(e, claims, parse);
    if b :| b in items && b.volume == c.name {
      var d :| d in claims && Selected(e, d, parse) && b == ItemOf(e, d, parse);
      SameClaim(claims, c, d);
    }
    if Selected(e, c, parse) {
      assert ItemOf(e, c, parse) in items;
    }
  }

  lemma SameClaim(claims: seq<Claim>, c: Claim, d: Claim)
    requires DistinctClaims(claims) && c in claims && d in claims && c.name == d.name
    ensures c == d
  {
    var i :| 0 <= i < |claims| && claims[i] == c;
    var k :| 0 <= k < |claims| && claims[k] == d;
  }

  /** A selected claim ends in a planned job that has its volume, on the claim's node and with its arguments. */
  lemma ClaimIsPlanned(e: Env, claims: seq<Claim>, parse: string -> Option<seq<string>>,
                       backup: string, targets: seq<string>, plan: Plan, c: Claim)
    returns (key: string)
    requires PlansApart(e, claims, parse, backup, targets, plan) && c in claims && Selected(e, c, parse)
    ensures Holds(plan, key, c.name) && plan[key].nodeSelector == Selector(NodeOf(e, c))
    ensures plan[key].args == if e.argsAnnotation in c.annotations then parse(c.annotations[e.argsAnnotation]).value else []
    ensures e.relaxed ==> plan[key].tolerations == ItemOf(e, c, parse).tolerations
  {
    var items := Items(e, claims, parse);
    ItemsMatchClaims(e, claims, parse);
    var i :| 0 <= i < |items| && items[i] == ItemOf(e, c, parse);
    key := ItemKey(e.relaxed, items, i);
    assert Holds(plan, key, c.name) by {
      var groups :| IsPlanOf(backup, e.relaxed, items, targets, groups, plan);
      ItemInOwnJob(backup, e.relaxed, items, targets, groups, plan, i);
    }
    PinnedToItemNode(backup, e.relaxed, items, targets, plan, i, key);
  }

  /**
    A selected claim in use by a running pod, with no hostname annotation, that is read-write-once
    or scheduled classically, ends in a planned job that has its volume and whose node selector is
    the node of such a pod: with relaxed scheduling, where the job also has the pod's tolerations,
    when the item keys differ, and with classic scheduling when keys that agree come from the same
    node and arguments and none is taken by the job for backup commands.
   */
  lemma MountedClaimFollowsPod(e: Env, claims: seq<Claim>, parse: string -> Option<seq<string>>,
                               backup: string, targets: seq<string>, plan: Plan, c: Claim)
    returns (key: string, pod: Pod)
    requires PlansApart(e, claims, parse, backup, targets, plan) && c in claims && Selected(e, c, parse)
    requires (ReadWriteOnce in c.accessModes || !e.relaxed) && "k8up.io/hostname" !in c.annotations
    requires InUse(e.pods, c.name)
    ensures pod in e.pods && pod.running && "k8upjob" !in pod.labels && c.name in pod.claims
    ensures Holds(plan, key, c.name) && plan[key].nodeSelector == if pod.node == "" then None else Some(pod.node)
    ensures e.relaxed ==> plan[key].tolerations == pod.tolerations
  {
    InUseMeans(e.pods, c.name);
    key := ClaimIsPlanned(e, claims, parse, backup, targets, plan, c);
    pod := MountingPod(e.pods, c.name).value;
  }

  /** In fields: a node affinity requirement that the host be in a list. */
  predicate HostIn(q: NodeRequirement) {
    q.key == "kubernetes.io/hostname" && q.isIn
  }

  /**
    With classic scheduling, a selected read-write-once claim that no running pod uses goes to the
    first host the node affinity of its volume names, unless a hostname annotation overrides it.
   */
  lemma UnmountedClaimFollowsVolume(e: Env, claims: seq<Claim>, parse: string -> Option<seq<string>>,
                                    backup: string, targets: seq<string>, plan: Plan, c: Claim,
                                    terms: seq<seq<NodeRequirement>>, i: nat, k: nat)
    returns (key: string)
    requires PlansApart(e, claims, parse, backup, targets, plan) && c in claims && Selected(e, c, parse)
    requires !e.relaxed && ReadWriteOnce in c.accessModes && "k8up.io/hostname" !in c.annotations
    requires !InUse(e.pods, c.name)
    requires c.volumeName in e.volumes && e.volumes[c.volumeName].affinity == Some(terms)
    requires i < |terms| && k < |terms[i]| && HostIn(terms[i][k])
    requires forall m :: 0 <= m < k ==> !HostIn(terms[i][m])
    requires forall n, q :: 0 <= n < i && q in terms[n] ==> !HostIn(q)
    ensures Holds(plan, key, c.name)
    ensures plan[key].nodeSelector == if terms[i][k].firstValue == "" then None else Some(terms[i][k].firstValue)
  {
    InUseMeans(e.pods, c.name);
    assert forall q: NodeRequirement :: NamesHost(q) <==> HostIn(q);
    FirstHostOfTerms(terms, i, k);
    key := ClaimIsPlanned(e, claims, parse, backup, targets, plan, c);
  }

  /** A hostname annotation decides, in use or not, in both scheduling modes. */
  lemma AnnotatedClaimFollowsAnnotation(e: Env, claims: seq<Claim>, parse: string -> Option<seq<string>>,
                                        backup: string, targets: seq<string>, plan: Plan, c: Claim)
    returns (key: string)
    requires PlansApart(e, claims, parse, backup, targets, plan) && c in claims && Selected(e, c, parse)
    requires "k8up.io/hostname" in c.annotations
    ensures Holds(plan, key, c.name)
    ensures var host := c.annotations["k8up.io/hostname"]; plan[key].nodeSelector == if host == "" then None else Some(host)
  {
    key := ClaimIsPlanned(e, claims, parse, backup, targets, plan, c);
  }

  /** The volume's node affinity names no host. */
  predicate NamesNoHost(v: PersistentVolume) {
    v.affinity.None? || forall n, q :: 0 <= n < |v.affinity.value| && q in v.affinity.value[n] ==> !HostIn(q)
  }

  lemma {:induction false} NoHostInTerms(terms: seq<seq<NodeRequirement>>)
    requires forall n, q :: 0 <= n < |terms| && q in terms[n] ==> !NamesHost(q)
    ensures HostnameInTerms(terms) == None
  {
    if terms != [] {
      NoHost(terms[0]);
      NoHostInTerms(terms[1..]);
    }
  }

  /**
    In all other cases the job may run anywhere: with relaxed scheduling a claim that is not
    read-write-once or not in use; with classic scheduling one that is not in use and either not
    read-write-once or on a volume that names no host.
   */
  lemma ClaimIsFree(e: Env, claims: seq<Claim>, parse: string -> Option<seq<string>>,
                    backup: string, targets: seq<string>, plan: Plan, c: Claim)
    returns (key: string)
    requires PlansApart(e, claims, parse, backup, targets, plan) && c in claims && Selected(e, c, parse)
    requires "k8up.io/hostname" !in c.annotations
    requires if e.relaxed then ReadWriteOnce !in c.accessModes || !InUse(e.pods, c.name)
             else !InUse(e.pods, c.name) &&
                  (ReadWriteOnce !in c.accessModes || (c.volumeName in e.volumes && NamesNoHost(e.volumes[c.volumeName])))
    ensures Holds(plan, key, c.name) && plan[key].nodeSelector == None
  {
    InUseMeans(e.pods, c.name);
    key := ClaimIsPlanned(e, claims, parse, backup, targets, plan, c);
    if !e.relaxed && ReadWriteOnce in c.accessModes && e.volumes[c.volumeName].affinity.Some? {
      assert forall q: NodeRequirement :: NamesHost(q) <==> HostIn(q);
      NoHostInTerms(e.volumes[c.volumeName].affinity.value);
    }
  }
}
