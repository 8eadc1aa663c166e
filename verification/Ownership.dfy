// The Deployment -> ReplicaSet -> Pod ownership chain that every component
// walks, and listOwnedReadyPods of pkg/actuator/pairing_kube.go on top of it.
module Ownership {
  import opened Basics
  import opened PairingLogic
  import opened Matching

  /** Objects as the API server lists them for the Deployment's selector. */
  datatype ReplicaSet = ReplicaSet(uid: string, owners: seq<string>)

  datatype Condition = Condition(kind: string, status: string)

  datatype KubePod = KubePod(name: string, phase: string, conditions: seq<Condition>, owners: seq<string>,
                             labels: map<string, string>)

  const POD_RUNNING := "Running"

  /** A label that is absent reads as "". */
  function LabelOf(labels: map<string, string>, key: string): string {
    if key in labels then labels[key] else ""
  }

  ghost predicate OwnsPod(rss: seq<ReplicaSet>, depUID: string, p: KubePod) {
    exists rs :: rs in rss && depUID in rs.owners && rs.uid in p.owners
  }

  /** A pod as listed; `started` is whether it is past the startup delay. */
  datatype ListedPod = ListedPod(pod: KubePod, started: bool)

  /** Running, owned through the chain, and past the startup delay. */
  ghost predicate Runs(depUID: string, rss: seq<ReplicaSet>, p: ListedPod) {
    p.pod.phase == POD_RUNNING && OwnsPod(rss, depUID, p.pod) && p.started
  }

  /** One of the owners is a ReplicaSet that the Deployment owns. */
  ghost predicate HasOwner(rss: seq<ReplicaSet>, depUID: string, owners: seq<string>) {
    exists i, j, k :: 0 <= i < |rss| && 0 <= j < |rss[i].owners| && 0 <= k < |owners| &&
                      rss[i].owners[j] == depUID && rss[i].uid == owners[k]
  }

  lemma OwnsExactly(rss: seq<ReplicaSet>, depUID: string, p: KubePod)
    ensures OwnsPod(rss, depUID, p) <==> HasOwner(rss, depUID, p.owners)
  {
    if OwnsPod(rss, depUID, p) {
      var rs :| rs in rss && depUID in rs.owners && rs.uid in p.owners;
      var i :| 0 <= i < |rss| && rss[i] == rs;
      var j :| 0 <= j < |rs.owners| && rs.owners[j] == depUID;
      var k :| 0 <= k < |p.owners| && p.owners[k] == rs.uid;
      assert rss[i].owners[j] == depUID && rss[i].uid == p.owners[k];
    }
  }

  /** That is: it is running and started, and owned in this way. */
  lemma RunsExactly(depUID: string, rss: seq<ReplicaSet>, p: ListedPod)
    ensures Runs(depUID, rss, p) <==> p.pod.phase == "Running" && p.started && HasOwner(rss, depUID, p.pod.owners)
  {
    OwnsExactly(rss, depUID, p.pod);
  }

  method OwnedReplicaSets(rss: seq<ReplicaSet>, depUID: string) returns (uids: set<string>)
    ensures forall u :: u in uids <==> exists rs :: rs in rss && depUID in rs.owners && rs.uid == u
  {
    uids := {};
    for i := 0 to |rss|
      invariant forall u :: u in uids <==> exists rs :: rs in rss[..i] && depUID in rs.owners && rs.uid == u
    {
      var rs := rss[i];
      assert rss[..i + 1] == rss[..i] + [rs];
      ghost var was := uids;
      for j := 0 to |rs.owners|
        invariant depUID !in rs.owners[..j] && uids == was
      {
        if rs.owners[j] == depUID {
          uids := uids + {rs.uid};
          break;
        }
      }
    }
    assert rss[..|rss|] == rss;
  }

  method IsOwned(p: KubePod, uids: set<string>) returns (owned: bool)
    ensures owned <==> exists u :: u in p.owners && u in uids
  {
    owned := false;
    for i := 0 to |p.owners|
      invariant !owned && forall u :: u in p.owners[..i] ==> u !in uids
    {
      if p.owners[i] in uids {
        owned := true;
        break;
      }
    }
  }

  ghost predicate PodReady(p: KubePod) {
    p.phase == POD_RUNNING && Condition("Ready", "True") in p.conditions
  }

  method IsPodReady(p: KubePod) returns (ready: bool)
    ensures ready <==> PodReady(p)
  {
    if p.phase != POD_RUNNING {
      return false;
    }
    for i := 0 to |p.conditions|
      invariant Condition("Ready", "True") !in p.conditions[..i]
    {
      if p.conditions[i].kind == "Ready" && p.conditions[i].status == "True" {
        return true;
      }
    }
    return false;
  }

  ghost predicate DistinctNames(pods: seq<KubePod>) {
    forall i, j :: 0 <= i < j < |pods| ==> pods[i].name != pods[j].name
  }

  /** The Deployment's Ready pods among the listed ones, as a side of the pairing. */
  ghost function OwnedSide(ns: string, depUID: string, rss: seq<ReplicaSet>, pods: seq<KubePod>, key: string): Side
    requires DistinctNames(pods)
  {
    Side(ns, map p | p in pods && OwnsPod(rss, depUID, p) :: p.name := Pod(PodReady(p), LabelOf(p.labels, key)))
  }

  ghost predicate Listed(ns: string, depUID: string, rss: seq<ReplicaSet>, pods: seq<KubePod>, key: string,
      out: seq<PodSnapshot>) {
    && (forall s :: s in out ==> exists p :: p in pods && Shows(ns, depUID, rss, p, key, s))
    && (forall p :: p in pods && OwnsPod(rss, depUID, p) && PodReady(p) ==>
          PodSnapshot(p.name, ns, true, LabelOf(p.labels, key)) in out)
    && (forall i, j :: 0 <= i < j < |out| ==> out[i] != out[j])
  }

  ghost predicate Shows(ns: string, depUID: string, rss: seq<ReplicaSet>, p: KubePod, key: string, s: PodSnapshot) {
    OwnsPod(rss, depUID, p) && PodReady(p) && s == PodSnapshot(p.name, ns, true, LabelOf(p.labels, key))
  }

  /** The result is a listing, in the sense the reconciler needs, of the pods that belong to
      the Deployment through its ReplicaSets; a failed call yields an error instead, except
      that the pod call is not made when no ReplicaSet is owned. */
  method ListOwnedReadyPods(ns: string, depUID: string, rss: Option<seq<ReplicaSet>>, pods: Option<seq<KubePod>>,
      key: string) returns (r: Option<seq<PodSnapshot>>)
    requires pods.Some? ==> DistinctNames(pods.value)
    ensures r.None? <==> rss.None? || (pods.None? && exists rs :: rs in rss.value && depUID in rs.owners)
    ensures r.Some? && pods.Some? ==> IsListing(OwnedSide(ns, depUID, rss.value, pods.value, key), r.value)
    ensures r.Some? && pods.None? ==> r.value == []
  {
    if rss.None? {
      return None;
    }
    var uids := OwnedReplicaSets(rss.value, depUID);
    assert uids == {} <==> !exists rs :: rs in rss.value && depUID in rs.owners by {
      if rs :| rs in rss.value && depUID in rs.owners {
        assert rs.uid in uids;
      }
    }
    if |uids| == 0 {
      assert pods.Some? ==> forall p :: p in pods.value ==> !OwnsPod(rss.value, depUID, p);
      return Some([]);
    }
    if pods.None? {
      return None;
    }
    var out: seq<PodSnapshot> := [];
    for i := 0 to |pods.value|
      invariant Listed(ns, depUID, rss.value, pods.value[..i], key, out)
    {
      var p := pods.value[i];
      assert pods.value[..i + 1] == pods.value[..i] + [p];
      var owned := IsOwned(p, uids);
      assert owned <==> OwnsPod(rss.value, depUID, p);
      var ready := IsPodReady(p);
      if !owned || !ready {
        continue;
      }
      var s := PodSnapshot(p.name, ns, true, LabelOf(p.labels, key));
      assert Shows(ns, depUID, rss.value, p, key, s);
      forall k | 0 <= k < |out| ensures out[k].name != p.name {
        assert out[k] in out;
        var p' :| p' in pods.value[..i] && Shows(ns, depUID, rss.value, p', key, out[k]);
      }
      out := out + [s];
    }
    assert pods.value[..|pods.value|] == pods.value;
    ListedIsListing(ns, depUID, rss.value, pods.value, key, out);
    return Some(out);
  }

  lemma ListedIsListing(ns: string, depUID: string, rss: seq<ReplicaSet>, pods: seq<KubePod>, key: string,
      out: seq<PodSnapshot>)
    requires DistinctNames(pods) && Listed(ns, depUID, rss, pods, key, out)
    ensures IsListing(OwnedSide(ns, depUID, rss, pods, key), out)
  {
    var side := OwnedSide(ns, depUID, rss, pods, key);
    forall s | s in out ensures s.name in Ready(side) && s == Snap(side, s.name) {
      var p :| p in pods && Shows(ns, depUID, rss, p, key, s);
      OwnedPod(ns, depUID, rss, pods, key, p);
    }
    forall n | n in Ready(side) ensures Snap(side, n) in out {
      var p :| p in pods && OwnsPod(rss, depUID, p) && p.name == n;
      OwnedPod(ns, depUID, rss, pods, key, p);
    }
  }

  /** The side consists of the owned pods, each Ready if it runs with a Ready condition that is True,
      and with the label that it carries. */
  lemma OwnedSideExactly(ns: string, depUID: string, rss: seq<ReplicaSet>, pods: seq<KubePod>, key: string)
    requires DistinctNames(pods)
    ensures var side := OwnedSide(ns, depUID, rss, pods, key);
      && side.ns == ns
      && (forall n :: n in side.pods <==>
            exists p :: p in pods && p.name == n && HasOwner(rss, depUID, p.owners))
      && forall p :: p in pods && p.name in side.pods ==>
           && side.pods[p.name].pairId == (if key in p.labels then p.labels[key] else "")
           && (side.pods[p.name].ready <==>
                 p.phase == "Running" && Condition("Ready", "True") in p.conditions)
  {
    var side := OwnedSide(ns, depUID, rss, pods, key);
    forall p | p in pods && p.name in side.pods ensures OwnsPod(rss, depUID, p) {
      var q :| q in pods && OwnsPod(rss, depUID, q) && q.name == p.name;
      assert p == q;
    }
    forall p | p in pods
      ensures OwnsPod(rss, depUID, p) <==> HasOwner(rss, depUID, p.owners)
      ensures PodReady(p) <==> p.phase == "Running" && Condition("Ready", "True") in p.conditions
    {
      OwnsExactly(rss, depUID, p);
    }
  }

  lemma OwnedPod(ns: string, depUID: string, rss: seq<ReplicaSet>, pods: seq<KubePod>, key: string, p: KubePod)
    requires DistinctNames(pods) && p in pods && OwnsPod(rss, depUID, p)
    ensures var side := OwnedSide(ns, depUID, rss, pods, key);
      p.name in side.pods && side.pods[p.name] == Pod(PodReady(p), LabelOf(p.labels, key))
  {
  }
}
