// Model of pkg/actuator/pairing.go: one reconcile pass for a managed
// Deployment, and the pass over all of them.
module Reconciler {
  import opened Basics
  import opened PairingLogic
  import opened Matching
  import opened Healing

  datatype DepRef = DepRef(name: string, ns: string)

  /** The labels the reconciler reads (absent reads as "") and spec.replicas. */
  datatype Deployment = Deployment(evaluator: string, vllmName: string, vllmNs: string, replicas: Option<int>)

  datatype World = World(deps: map<DepRef, Deployment>, pods: map<PodRef, Pod>)

  /** One call to the API server, to look up how it ends. */
  datatype Call = GetDeployment(d: DepRef) | ScaleDeployment(d: DepRef) | ListPods(d: DepRef) | PatchPod(p: Patch)

  const VLLM_SERVER := "vllm-server"

  /** The vLLM Deployment a managed Deployment opts into, if it does. */
  function Target(m: DepRef, dep: Deployment): Option<DepRef> {
    if dep.evaluator != VLLM_SERVER || dep.vllmName == "" then None
    else Some(DepRef(dep.vllmName, if dep.vllmNs == "" then m.ns else dep.vllmNs))
  }

  function Replicas(dep: Deployment): int {
    match dep.replicas
    case Some(n) => n
    case None => 0
  }

  /** The pods of a Deployment. `owner` is the ownership chain: a pod name belongs to one Deployment. */
  ghost function SideOf(owner: PodRef -> DepRef, pods: map<PodRef, Pod>, d: DepRef): Side {
    Side(d.ns, map r | r in pods && owner(r) == d && r.ns == d.ns :: r.name := pods[r])
  }

  function PatchReply(reply: Call -> Reply): Patch -> Reply {
    p => reply(PatchPod(p))
  }

  function WritePods(pods: map<PodRef, Pod>, ws: seq<Write>): map<PodRef, Pod> {
    map r | r in pods :: pods[r].(pairId := LabelAfter(ws, r, pods[r].pairId))
  }

  ghost predicate PlanApplied(owner: PodRef -> DepRef, pods: map<PodRef, Pod>, m: DepRef, t: DepRef,
      newUUID: nat -> string, reply: Patch -> Reply, ml: seq<PodSnapshot>, vl: seq<PodSnapshot>, plan: PatchPlan,
      pods': map<PodRef, Pod>) {
    && IsListing(SideOf(owner, pods, m), ml)
    && IsListing(SideOf(owner, pods, t), vl)
    && IsPlan(ml, vl, newUUID, plan)
    && pods' == WritePods(pods, PlanWrites(plan, reply))
  }

  /** What one reconcile pass may leave behind; `dep` is the managed Deployment as listed. */
  ghost predicate Reconciled(owner: PodRef -> DepRef, w: World, m: DepRef, dep: Deployment, reply: Call -> Reply,
      newUUID: nat -> string, w': World) {
    match Target(m, dep)
    case None => w' == w
    case Some(t) =>
      if reply(GetDeployment(t)) != Served || t !in w.deps then w' == w
      else if Replicas(w.deps[t]) != Replicas(dep) then
        w' == if reply(ScaleDeployment(t)).Refused? then w
              else w.(deps := w.deps[t := w.deps[t].(replicas := Some(Replicas(dep)))])
      else if reply(ListPods(m)) != Served || reply(ListPods(t)) != Served then w' == w
      else
        && w'.deps == w.deps
        && exists ml, vl, plan :: PlanApplied(owner, w.pods, m, t, newUUID, PatchReply(reply), ml, vl, plan, w'.pods)
  }

  /** The passes for the listed Deployments, one after the other. */
  ghost predicate AllReconciled(owner: PodRef -> DepRef, w: World, listed: seq<(DepRef, Deployment)>,
      reply: DepRef -> Call -> Reply, newUUID: DepRef -> nat -> string, w': World)
    decreases |listed|
  {
    if listed == [] then w' == w
    else
      var (m, dep) := listed[0];
      exists mid ::
        && Reconciled(owner, w, m, dep, reply(m), newUUID(m), mid)
        && AllReconciled(owner, mid, listed[1..], reply, newUUID, w')
  }

  // -------------------------------------------------------------- the methods

  lemma WritePodsStep(pods: map<PodRef, Pod>, ws: seq<Write>, w: Write)
    ensures WritePods(pods, ws + [w]) ==
            if w.ref in pods then WritePods(pods, ws)[w.ref := pods[w.ref].(pairId := w.id)] else WritePods(pods, ws)
  {
    assert (ws + [w])[..|ws|] == ws;
  }

  function Relabel(pods: map<PodRef, Pod>, r: PodRef, id: string): map<PodRef, Pod> {
    if r in pods then pods[r := pods[r].(pairId := id)] else pods
  }

  /** The pods after one binding. */
  function BoundPods(pods: map<PodRef, Pod>, b: Pairing, reply: Patch -> Reply): map<PodRef, Pod> {
    var m, v := reply(SetLabel(b.managed, b.uuid)), reply(SetLabel(b.vllm, b.uuid));
    if m.Refused? then pods
    else if m.Lost? || v.Refused? then Relabel(pods, b.managed, b.uuid)
    else Relabel(Relabel(pods, b.managed, b.uuid), b.vllm, b.uuid)
  }

  lemma BindingPods(pods: map<PodRef, Pod>, b: Pairing, reply: Patch -> Reply)
    ensures WritePods(pods, BindingWrites(b, reply)) == BoundPods(pods, b, reply)
  {
    var wm, wv := Write(b.managed, b.uuid), Write(b.vllm, b.uuid);
    WriteOne(pods, wm);
    WriteOne(Relabel(pods, b.managed, b.uuid), wv);
    WriteTwice(pods, [wm], [wv]);
    assert [wm] + [wv] == [wm, wv];
    assert WritePods(pods, []) == pods;
  }

  lemma WriteOne(pods: map<PodRef, Pod>, w: Write)
    ensures WritePods(pods, [w]) == Relabel(pods, w.ref, w.id)
  {
    WritePodsStep(pods, [], w);
    assert [] + [w] == [w] && WritePods(pods, []) == pods;
  }

  ghost predicate RefersTo(plan: PatchPlan, refs: set<PodRef>) {
    && (forall r :: r in plan.prunes ==> r in refs)
    && (forall b :: b in plan.bindings ==> b.managed in refs && b.vllm in refs)
  }

  ghost function ListedRefs(l: seq<PodSnapshot>): set<PodRef> {
    set p | p in l :: RefOf(p)
  }

  lemma HolderListed(ml: seq<PodSnapshot>, vl: seq<PodSnapshot>, id: string, r: PodRef)
    requires r in HolderRefs(EntryOf(ml, vl, id))
    ensures r in ListedRefs(ml) + ListedRefs(vl)
  {
    LastHolderCarries(ml, id);
    LastHolderCarries(vl, id);
  }

  /** A plan names pods of the two listings only. */
  lemma PlanRefs(ml: seq<PodSnapshot>, vl: seq<PodSnapshot>, newUUID: nat -> string, plan: PatchPlan)
    requires IsPlan(ml, vl, newUUID, plan)
    ensures RefersTo(plan, ListedRefs(ml) + ListedRefs(vl))
    ensures forall i :: 0 <= i < |plan.bindings| ==>
              && plan.bindings[i].managed in ListedRefs(ml) && plan.bindings[i].vllm in ListedRefs(vl)
              && plan.bindings[i].uuid == newUUID(i)
  {
    forall r | r in plan.prunes ensures r in ListedRefs(ml) + ListedRefs(vl) {
      var id :| id in Ids(ml) + Ids(vl) && r in HolderRefs(EntryOf(ml, vl, id));
      HolderListed(ml, vl, id, r);
    }
    PlanBindingRefs(ml, vl, newUUID, plan);
  }

  lemma PlanBindingRefs(ml: seq<PodSnapshot>, vl: seq<PodSnapshot>, newUUID: nat -> string, plan: PatchPlan)
    requires IsPlan(ml, vl, newUUID, plan)
    ensures forall i :: 0 <= i < |plan.bindings| ==>
              && plan.bindings[i].managed in ListedRefs(ml) && plan.bindings[i].vllm in ListedRefs(vl)
              && plan.bindings[i].uuid == newUUID(i)
  {
    var pruned := KeysOf(Stale(ml, vl));
    var mU, vU :| BindsGreedily(ml, vl, pruned, newUUID, plan.bindings, mU, vU);
    UnpairedElements(ml, pruned);
    UnpairedElements(vl, pruned);
    SameElements(mU, Unpaired(ml, pruned));
    SameElements(vU, Unpaired(vl, pruned));
    forall i | 0 <= i < |plan.bindings|
      ensures plan.bindings[i].managed in ListedRefs(ml) && plan.bindings[i].vllm in ListedRefs(vl)
    {
      assert mU[i] in mU && vU[i] in vU;
    }
  }

  lemma ListedPodsExist(owner: PodRef -> DepRef, pods: map<PodRef, Pod>, d: DepRef, l: seq<PodSnapshot>)
    requires IsListing(SideOf(owner, pods, d), l)
    ensures forall r :: r in ListedRefs(l) ==> r in pods && owner(r) == d
  {
    var s := SideOf(owner, pods, d);
    forall p | p in l ensures RefOf(p) in pods && owner(RefOf(p)) == d {
      assert p.name in s.pods && p == Snap(s, p.name);
      assert RefOf(p) == PodRef(p.name, d.ns);
    }
  }

  /** The Deployments and pods of the cluster, as the API server holds them. */
  class Cluster {
    const owner: PodRef -> DepRef
    var deps: map<DepRef, Deployment>
    var pods: map<PodRef, Pod>

    ghost function State(): World
      reads this
    {
      World(deps, pods)
    }

    constructor (owner: PodRef -> DepRef, w: World)
      ensures this.owner == owner && State() == w
    {
      this.owner, this.deps, this.pods := owner, w.deps, w.pods;
    }

    /** listOwnedReadyPods, in whatever order the API server returns the pods. */
    method ListOwnedReadyPods(d: DepRef) returns (out: seq<PodSnapshot>)
      ensures IsListing(SideOf(owner, pods, d), out)
    {
      out := [];
      var todo := pods.Keys;
      ghost var s := SideOf(owner, pods, d);
      while todo != {}
        invariant todo <= pods.Keys
        invariant forall p :: p in out ==> p.name in Ready(s) && p == Snap(s, p.name) && Ref(s, p.name) !in todo
        invariant forall n :: n in Ready(s) && Ref(s, n) !in todo ==> Snap(s, n) in out
        invariant forall i, j :: 0 <= i < j < |out| ==> out[i] != out[j]
      {
        var r :| r in todo;
        todo := todo - {r};
        if owner(r) == d && r.ns == d.ns && pods[r].ready {
          assert r == Ref(s, r.name) && r.name in Ready(s);
          assert Snap(s, r.name) !in out;
          out := out + [PodSnapshot(r.name, r.ns, pods[r].ready, pods[r].pairId)];
        }
      }
    }

    /** setPodLabel and removePodLabel (id ""); patching an unknown pod fails. */
    method PatchLabel(r: PodRef, id: string, reply: Reply) returns (err: bool)
      modifies this`pods
      ensures err <==> reply != Served || r !in old(pods)
      ensures pods == if reply.TookEffect() then Relabel(old(pods), r, id) else old(pods)
    {
      err := reply != Served || r !in pods;
      if reply.TookEffect() && r in pods {
        pods := pods[r := pods[r].(pairId := id)];
      }
    }

    method ApplyPrunes(prunes: seq<PodRef>, reply: Patch -> Reply)
      requires forall r :: r in prunes ==> r in pods
      modifies this`pods
      ensures pods == WritePods(old(pods), PruneWrites(prunes, reply))
    {
      assert pods == WritePods(old(pods), []);
      for i := 0 to |prunes|
        invariant pods == WritePods(old(pods), PruneWrites(prunes[..i], reply))
      {
        var r := prunes[i];
        assert prunes[..i + 1][..i] == prunes[..i];
        WritePodsStep(old(pods), PruneWrites(prunes[..i], reply), Write(r, ""));
        assert PruneWrites(prunes[..i], reply) + [] == PruneWrites(prunes[..i], reply);
        var err := PatchLabel(r, "", reply(RemoveLabel(r)));
      }
      assert prunes[..|prunes|] == prunes;
    }

    method ApplyBindings(bindings: seq<Pairing>, reply: Patch -> Reply)
      requires forall b :: b in bindings ==> b.managed in pods && b.vllm in pods
      modifies this`pods
      ensures pods == WritePods(old(pods), BindWrites(bindings, reply))
    {
      assert pods == WritePods(old(pods), []);
      for i := 0 to |bindings|
        invariant pods == WritePods(old(pods), BindWrites(bindings[..i], reply))
      {
        var b := bindings[i];
        assert bindings[..i + 1][..i] == bindings[..i];
        WriteTwice(old(pods), BindWrites(bindings[..i], reply), BindingWrites(b, reply));
        BindingPods(pods, b, reply);
        var err := PatchLabel(b.managed, b.uuid, reply(SetLabel(b.managed, b.uuid)));
        if err {
          continue;
        }
        err := PatchLabel(b.vllm, b.uuid, reply(SetLabel(b.vllm, b.uuid)));
      }
      assert bindings[..|bindings|] == bindings;
    }

    /** reconcileOne. Every failure is swallowed: the next tick is the retry. */
    method ReconcileOne(m: DepRef, dep: Deployment, reply: Call -> Reply, newUUID: nat -> string)
      modifies this`deps, this`pods
      ensures Reconciled(owner, old(State()), m, dep, reply, newUUID, State())
    {
      if dep.evaluator != VLLM_SERVER {
        return;
      }
      if dep.vllmName == "" {
        return;
      }
      var vNs := if dep.vllmNs == "" then m.ns else dep.vllmNs;
      var t := DepRef(dep.vllmName, vNs);
      if reply(GetDeployment(t)) != Served || t !in deps {
        return;
      }
      // Replica lockstep, vLLM scaled first.
      var managedRep, vllmRep := Replicas(dep), Replicas(deps[t]);
      if vllmRep != managedRep {
        if reply(ScaleDeployment(t)).TookEffect() {
          deps := deps[t := deps[t].(replicas := Some(managedRep))];
        }
        return;
      }
      if reply(ListPods(m)) != Served {
        return;
      }
      var mPods := ListOwnedReadyPods(m);
      if reply(ListPods(t)) != Served {
        return;
      }
      var vPods := ListOwnedReadyPods(t);
      var plan := ComputePairingPatches(mPods, vPods, newUUID);
      PlanRefs(mPods, vPods, newUUID, plan);
      ListedPodsExist(owner, pods, m, mPods);
      ListedPodsExist(owner, pods, t, vPods);
      ApplyPrunes(plan.prunes, PatchReply(reply));
      ghost var pruned := pods;
      ApplyBindings(plan.bindings, PatchReply(reply));
      WriteTwice(old(pods), PruneWrites(plan.prunes, PatchReply(reply)), BindWrites(plan.bindings, PatchReply(reply)));
      assert PlanApplied(owner, old(pods), m, t, newUUID, PatchReply(reply), mPods, vPods, plan, pods);
    }

    /** reconcileAll over the managed Deployments that List returned; none, if it failed. */
    method ReconcileAll(listed: seq<(DepRef, Deployment)>, reply: DepRef -> Call -> Reply, newUUID: DepRef -> nat -> string)
      modifies this`deps, this`pods
      ensures AllReconciled(owner, old(State()), listed, reply, newUUID, State())
    {
      ghost var w0 := State();
      for i := 0 to |listed|
        invariant AllReconciled(owner, w0, listed[..i], reply, newUUID, State())
      {
        ghost var w1 := State();
        var (m, dep) := listed[i];
        ReconcileOne(m, dep, reply(m), newUUID(m));
        AllReconciledExtend(owner, w0, listed, i, reply, newUUID, w1, State());
      }
      assert listed[..|listed|] == listed;
    }
  }

  lemma WriteTwice(pods: map<PodRef, Pod>, a: seq<Write>, b: seq<Write>)
    ensures WritePods(WritePods(pods, a), b) == WritePods(pods, a + b)
  {
    forall r | r in pods ensures LabelAfter(a + b, r, pods[r].pairId) == LabelAfter(b, r, LabelAfter(a, r, pods[r].pairId)) {
      LabelAfterConcat(a, b, r, pods[r].pairId);
    }
  }

  lemma {:induction false} AllReconciledAppend(owner: PodRef -> DepRef, w: World, listed: seq<(DepRef, Deployment)>,
      last: (DepRef, Deployment), reply: DepRef -> Call -> Reply, newUUID: DepRef -> nat -> string, w1: World, w2: World)
    requires AllReconciled(owner, w, listed, reply, newUUID, w1)
    requires Reconciled(owner, w1, last.0, last.1, reply(last.0), newUUID(last.0), w2)
    ensures AllReconciled(owner, w, listed + [last], reply, newUUID, w2)
    decreases |listed|
  {
    if listed == [] {
      assert AllReconciled(owner, w2, ([last])[1..], reply, newUUID, w2);
      assert listed + [last] == [last];
    } else {
      var (m, dep) := listed[0];
      var mid :| Reconciled(owner, w, m, dep, reply(m), newUUID(m), mid) &&
                 AllReconciled(owner, mid, listed[1..], reply, newUUID, w1);
      AllReconciledAppend(owner, mid, listed[1..], last, reply, newUUID, w1, w2);
      assert (listed + [last])[1..] == listed[1..] + [last];
    }
  }

  lemma AllReconciledExtend(owner: PodRef -> DepRef, w: World, listed: seq<(DepRef, Deployment)>, i: nat,
      reply: DepRef -> Call -> Reply, newUUID: DepRef -> nat -> string, w1: World, w2: World)
    requires i < |listed| && AllReconciled(owner, w, listed[..i], reply, newUUID, w1)
    requires Reconciled(owner, w1, listed[i].0, listed[i].1, reply(listed[i].0), newUUID(listed[i].0), w2)
    ensures AllReconciled(owner, w, listed[..i + 1], reply, newUUID, w2)
  {
    AllReconciledAppend(owner, w, listed[..i], listed[i], reply, newUUID, w1, w2);
    assert listed[..i + 1] == listed[..i] + [listed[i]];
  }

  // ------------------------------------------------- one fault-free pass, any state

  ghost predicate NoFaults(reply: Call -> Reply) {
    forall c :: reply(c) == Served
  }

  lemma WriteSideIsWritePods(owner: PodRef -> DepRef, pods: map<PodRef, Pod>, ws: seq<Write>, d: DepRef)
    ensures SideOf(owner, WritePods(pods, ws), d) == WriteSide(SideOf(owner, pods, d), ws)
  {
  }

  lemma SidesDisjoint(owner: PodRef -> DepRef, pods: map<PodRef, Pod>, m: DepRef, t: DepRef)
    requires m != t && '/' !in m.ns && '/' !in t.ns
    ensures Disjoint(SideOf(owner, pods, m), SideOf(owner, pods, t))
  {
    forall n | n in SideOf(owner, pods, m).pods && m.ns == t.ns ensures n !in SideOf(owner, pods, t).pods {
      assert owner(PodRef(n, m.ns)) == m;
    }
  }

  /** Self-healing for one group: with equal replica counts, a fault-free pass fully
      pairs the two sides, and keeps every healthy pair with its id. */
  lemma PassHeals(owner: PodRef -> DepRef, w: World, m: DepRef, dep: Deployment, t: DepRef, reply: Call -> Reply,
      newUUID: nat -> string, w': World)
    requires Target(m, dep) == Some(t) && t in w.deps && Replicas(w.deps[t]) == Replicas(dep)
    requires Consistent(SideOf(owner, w.pods, m), SideOf(owner, w.pods, t))
    requires NoFaults(reply)
    requires Fresh(newUUID, Labels(SideOf(owner, w.pods, m)) + Labels(SideOf(owner, w.pods, t)))
    requires Reconciled(owner, w, m, dep, reply, newUUID, w')
    ensures w'.deps == w.deps
    ensures Heals(SideOf(owner, w.pods, m), SideOf(owner, w.pods, t), SideOf(owner, w'.pods, m), SideOf(owner, w'.pods, t))
  {
    var ms, vs := SideOf(owner, w.pods, m), SideOf(owner, w.pods, t);
    var ml, vl, plan :| PlanApplied(owner, w.pods, m, t, newUUID, PatchReply(reply), ml, vl, plan, w'.pods);
    var ws := PlanWrites(plan, PatchReply(reply));
    WriteSideIsWritePods(owner, w.pods, ws, m);
    WriteSideIsWritePods(owner, w.pods, ws, t);
    FullPlanHeals(ms, vs, ml, vl, newUUID, plan, PatchReply(reply), WriteSide(ms, ws), WriteSide(vs, ws));
  }

  // ---------------------------------------------- a pass, from the labels as they are

  /** The replica count a Deployment asks for; none given counts as 0. */
  ghost predicate Asks(dep: Deployment, n: int) {
    dep.replicas == Some(n) || (dep.replicas == None && n == 0)
  }

  /** The Deployment that the labels name: in the namespace they name, else in the managed one's. */
  ghost predicate Names(m: DepRef, dep: Deployment, t: DepRef) {
    t.name == dep.vllmName && t.ns == (if dep.vllmNs == "" then m.ns else dep.vllmNs)
  }

  /** With another evaluator or without a name nothing happens; nor does it if the Deployment named,
      or a list of pods, cannot be had. */
  lemma NothingHappens(owner: PodRef -> DepRef, w: World, m: DepRef, dep: Deployment, reply: Call -> Reply,
      newUUID: nat -> string, w': World, t: DepRef)
    requires Reconciled(owner, w, m, dep, reply, newUUID, w') && Names(m, dep, t)
    ensures dep.evaluator != "vllm-server" || dep.vllmName == "" ==> w' == w
    ensures reply(GetDeployment(t)) != Served || t !in w.deps ==> w' == w
    ensures t in w.deps && (exists n :: Asks(dep, n) && Asks(w.deps[t], n)) ==>
              (reply(ListPods(m)) != Served || reply(ListPods(t)) != Served ==> w' == w)
  {
  }

  /** The pass of a Deployment that opts in: if the counts differ, the target's becomes that of the
      managed one, unless the call is refused, and nothing else changes; if they agree, no
      Deployment changes, and a pass without faults heals the two sides. */
  lemma PassFromLabels(owner: PodRef -> DepRef, w: World, m: DepRef, dep: Deployment, reply: Call -> Reply,
      newUUID: nat -> string, w': World, t: DepRef, n: int, k: int)
    requires Reconciled(owner, w, m, dep, reply, newUUID, w') && Names(m, dep, t)
    requires dep.evaluator == "vllm-server" && dep.vllmName != "" && t in w.deps && Asks(dep, n) && Asks(w.deps[t], k)
    requires reply(GetDeployment(t)) == Served
    ensures n != k && reply(ScaleDeployment(t)) == Refused ==> w' == w
    ensures n != k && reply(ScaleDeployment(t)) != Refused ==>
              && w'.pods == w.pods && w'.deps.Keys == w.deps.Keys
              && (forall d :: d in w.deps && d != t ==> w'.deps[d] == w.deps[d])
              && w'.deps[t] == Deployment(w.deps[t].evaluator, w.deps[t].vllmName, w.deps[t].vllmNs, Some(n))
    ensures n == k ==> w'.deps == w.deps
    ensures var sm, sv := SideOf(owner, w.pods, m), SideOf(owner, w.pods, t);
      n == k && NoFaults(reply) && Consistent(sm, sv) && Fresh(newUUID, Labels(sm) + Labels(sv)) ==>
        Heals(sm, sv, SideOf(owner, w'.pods, m), SideOf(owner, w'.pods, t))
  {
    var sm, sv := SideOf(owner, w.pods, m), SideOf(owner, w.pods, t);
    if n == k && NoFaults(reply) && Consistent(sm, sv) && Fresh(newUUID, Labels(sm) + Labels(sv)) {
      PassHeals(owner, w, m, dep, t, reply, newUUID, w');
    }
  }

  /** With equal counts and served reads, whichever patches fail: the pods are those of before, and each
      ends with the label that some plan for the two listings gives it. */
  lemma PassExactly(owner: PodRef -> DepRef, w: World, m: DepRef, dep: Deployment, reply: Call -> Reply,
      newUUID: nat -> string, w': World, t: DepRef, n: int)
    returns (ml: seq<PodSnapshot>, vl: seq<PodSnapshot>, plan: PatchPlan)
    requires Reconciled(owner, w, m, dep, reply, newUUID, w') && Names(m, dep, t)
    requires dep.evaluator == "vllm-server" && dep.vllmName != "" && t in w.deps && Asks(dep, n) && Asks(w.deps[t], n)
    requires reply(GetDeployment(t)) == reply(ListPods(m)) == reply(ListPods(t)) == Served
    requires Consistent(SideOf(owner, w.pods, m), SideOf(owner, w.pods, t))
    ensures w'.deps == w.deps && w'.pods.Keys == w.pods.Keys
    ensures IsListing(SideOf(owner, w.pods, m), ml) && IsListing(SideOf(owner, w.pods, t), vl)
    ensures IsPlan(ml, vl, newUUID, plan)
    ensures forall r :: r in w.pods ==>
              && w'.pods[r].ready == w.pods[r].ready
              && EndsWith(plan, PatchReply(reply), r, w.pods[r].pairId, w'.pods[r].pairId)
  {
    var sm, sv := SideOf(owner, w.pods, m), SideOf(owner, w.pods, t);
    ml, vl, plan :| PlanApplied(owner, w.pods, m, t, newUUID, PatchReply(reply), ml, vl, plan, w'.pods);
    var mU, vU := PlanMeaning(sm, sv, ml, vl, newUUID, plan);
    BindingEnds(sm, sv, mU, vU, newUUID);
    WrittenPods(w.pods, plan, PatchReply(reply));
  }

  lemma WrittenPods(pods: map<PodRef, Pod>, plan: PatchPlan, reply: Patch -> Reply)
    requires DistinctEnds(plan.bindings)
    ensures var pods' := WritePods(pods, PlanWrites(plan, reply));
      pods'.Keys == pods.Keys && forall r :: r in pods ==>
        pods'[r].ready == pods[r].ready && EndsWith(plan, reply, r, pods[r].pairId, pods'[r].pairId)
  {
    forall r | r in pods
      ensures EndsWith(plan, reply, r, pods[r].pairId, LabelAfter(PlanWrites(plan, reply), r, pods[r].pairId))
    {
      PlanEndsWith(plan, reply, r, pods[r].pairId);
    }
  }

  /** A side has the pods of the Deployment in its namespace, by name. */
  lemma SideExactly(owner: PodRef -> DepRef, pods: map<PodRef, Pod>, d: DepRef)
    ensures var s := SideOf(owner, pods, d);
      && s.ns == d.ns
      && (forall n :: n in s.pods <==> PodRef(n, d.ns) in pods && owner(PodRef(n, d.ns)) == d)
      && forall n :: n in s.pods ==> s.pods[n] == pods[PodRef(n, d.ns)]
  {
  }

  /** Whoever opts in, only pods of the managed Deployment and of the one its labels name can change. */
  lemma OnlyNamedPods(owner: PodRef -> DepRef, w: World, m: DepRef, dep: Deployment, reply: Call -> Reply,
      newUUID: nat -> string, w': World, t: DepRef, d: DepRef)
    requires Reconciled(owner, w, m, dep, reply, newUUID, w') && Names(m, dep, t) && d != t
    ensures d in w.deps ==> d in w'.deps && w'.deps[d] == w.deps[d]
    ensures d != m ==> SideOf(owner, w'.pods, d) == SideOf(owner, w.pods, d)
  {
    PassFrame(owner, w, m, dep, reply, newUUID, w', d);
  }

  /** Whatever fails and whatever the replica counts, a pass disturbs no healthy pair. */
  lemma PassKeepsPairs(owner: PodRef -> DepRef, w: World, m: DepRef, dep: Deployment, t: DepRef, reply: Call -> Reply,
      newUUID: nat -> string, w': World)
    requires Target(m, dep) == Some(t) && Consistent(SideOf(owner, w.pods, m), SideOf(owner, w.pods, t))
    requires Reconciled(owner, w, m, dep, reply, newUUID, w')
    ensures var ms, vs := SideOf(owner, w.pods, m), SideOf(owner, w.pods, t);
      var ms', vs' := SideOf(owner, w'.pods, m), SideOf(owner, w'.pods, t);
      KeepsPairs(ms, vs, ms', vs') && KeepsPairs(vs, ms, vs', ms')
  {
    if w'.pods != w.pods {
      var ms, vs := SideOf(owner, w.pods, m), SideOf(owner, w.pods, t);
      var ml, vl, plan :| PlanApplied(owner, w.pods, m, t, newUUID, PatchReply(reply), ml, vl, plan, w'.pods);
      var ws := PlanWrites(plan, PatchReply(reply));
      WriteSideIsWritePods(owner, w.pods, ws, m);
      WriteSideIsWritePods(owner, w.pods, ws, t);
      var mU, vU := PlanMeaning(ms, vs, ml, vl, newUUID, plan);
      PlanKeepsPairs(ms, vs, plan, newUUID, mU, vU, PatchReply(reply));
    }
  }

  /** With differing replica counts a pass only equalises them, vLLM following managed. */
  lemma PassEqualises(owner: PodRef -> DepRef, w: World, m: DepRef, dep: Deployment, t: DepRef, reply: Call -> Reply,
      newUUID: nat -> string, w': World)
    requires Target(m, dep) == Some(t) && t in w.deps && Replicas(w.deps[t]) != Replicas(dep)
    requires NoFaults(reply) && Reconciled(owner, w, m, dep, reply, newUUID, w')
    ensures w'.pods == w.pods && w'.deps.Keys == w.deps.Keys
    ensures Replicas(w'.deps[t]) == Replicas(dep) && w'.deps[t].replicas.Some?
    ensures forall d :: d in w.deps && d != t ==> w'.deps[d] == w.deps[d]
    ensures w'.deps[t].(replicas := None) == w.deps[t].(replicas := None)
  {
  }

  /** A pass over fully paired sides with equal replica counts changes nothing, whatever fails. */
  lemma PassIsNoOp(owner: PodRef -> DepRef, w: World, m: DepRef, dep: Deployment, t: DepRef, reply: Call -> Reply,
      newUUID: nat -> string, w': World)
    requires Target(m, dep) == Some(t) && t in w.deps && Replicas(w.deps[t]) == Replicas(dep)
    requires Consistent(SideOf(owner, w.pods, m), SideOf(owner, w.pods, t))
    requires FullyPaired(SideOf(owner, w.pods, m), SideOf(owner, w.pods, t))
    requires Reconciled(owner, w, m, dep, reply, newUUID, w')
    ensures w' == w
  {
    if reply(GetDeployment(t)) == reply(ListPods(m)) == reply(ListPods(t)) == Served {
      var ml, vl, plan :| PlanApplied(owner, w.pods, m, t, newUUID, PatchReply(reply), ml, vl, plan, w'.pods);
      PlanIsNoOp(owner, w.pods, m, t, newUUID, PatchReply(reply), ml, vl, plan, w'.pods);
    }
  }

  lemma PlanIsNoOp(owner: PodRef -> DepRef, pods: map<PodRef, Pod>, m: DepRef, t: DepRef, newUUID: nat -> string,
      reply: Patch -> Reply, ml: seq<PodSnapshot>, vl: seq<PodSnapshot>, plan: PatchPlan, pods': map<PodRef, Pod>)
    requires Consistent(SideOf(owner, pods, m), SideOf(owner, pods, t))
    requires FullyPaired(SideOf(owner, pods, m), SideOf(owner, pods, t))
    requires PlanApplied(owner, pods, m, t, newUUID, reply, ml, vl, plan, pods')
    ensures pods' == pods
  {
    EmptyPlanIffFullyPaired(SideOf(owner, pods, m), SideOf(owner, pods, t), ml, vl, newUUID, plan);
    EmptyPlanWrites(pods, reply);
  }

  lemma EmptyPlanWrites(pods: map<PodRef, Pod>, reply: Patch -> Reply)
    ensures WritePods(pods, PlanWrites(PatchPlan([], []), reply)) == pods
  {
    assert PlanWrites(PatchPlan([], []), reply) == [];
  }

  /** Whatever fails, a pass is a function of the cluster state: list order, map iteration
      order and the sorting algorithm cannot change its outcome. */
  lemma PassDeterministic(owner: PodRef -> DepRef, w: World, m: DepRef, dep: Deployment, reply: Call -> Reply,
      newUUID: nat -> string, w1: World, w2: World)
    requires Target(m, dep).Some? ==>
               Consistent(SideOf(owner, w.pods, m), SideOf(owner, w.pods, Target(m, dep).value))
    requires Reconciled(owner, w, m, dep, reply, newUUID, w1)
    requires Reconciled(owner, w, m, dep, reply, newUUID, w2)
    ensures w1 == w2
  {
    if w1 != w2 {
      var t := Target(m, dep).value;
      var ml, vl, plan :| PlanApplied(owner, w.pods, m, t, newUUID, PatchReply(reply), ml, vl, plan, w1.pods);
      var ml', vl', plan' :| PlanApplied(owner, w.pods, m, t, newUUID, PatchReply(reply), ml', vl', plan', w2.pods);
      PlanDeterministic(SideOf(owner, w.pods, m), SideOf(owner, w.pods, t), ml, vl, ml', vl', newUUID, plan, plan');
      SameWrites(plan, plan', PatchReply(reply), w.pods);
    }
  }

  lemma SameWrites(plan: PatchPlan, plan': PatchPlan, reply: Patch -> Reply, pods: map<PodRef, Pod>)
    requires forall r :: r in plan.prunes <==> r in plan'.prunes
    requires plan.bindings == plan'.bindings
    ensures WritePods(pods, PlanWrites(plan, reply)) == WritePods(pods, PlanWrites(plan', reply))
  {
    forall r | r in pods
      ensures LabelAfter(PlanWrites(plan, reply), r, pods[r].pairId) == LabelAfter(PlanWrites(plan', reply), r, pods[r].pairId)
    {
      SameLabelAfter(plan, plan', reply, r, pods[r].pairId);
    }
  }

  /** A pass touches the pods of its two Deployments and the replica count of its target only. */
  lemma PassFrame(owner: PodRef -> DepRef, w: World, m: DepRef, dep: Deployment, reply: Call -> Reply,
      newUUID: nat -> string, w': World, d: DepRef)
    requires Reconciled(owner, w, m, dep, reply, newUUID, w')
    ensures w'.pods.Keys == w.pods.Keys && w'.deps.Keys == w.deps.Keys
    ensures d in w.deps && Target(m, dep) != Some(d) ==> w'.deps[d] == w.deps[d]
    ensures d != m && Target(m, dep) != Some(d) ==> SideOf(owner, w'.pods, d) == SideOf(owner, w.pods, d)
  {
    if w'.pods != w.pods {
      var t := Target(m, dep).value;
      var ml, vl, plan :| PlanApplied(owner, w.pods, m, t, newUUID, PatchReply(reply), ml, vl, plan, w'.pods);
      if d != m && d != t {
        PlanFrame(owner, w.pods, m, t, newUUID, PatchReply(reply), ml, vl, plan, w'.pods, d);
      }
    }
  }

  lemma PlanFrame(owner: PodRef -> DepRef, pods: map<PodRef, Pod>, m: DepRef, t: DepRef, newUUID: nat -> string,
      reply: Patch -> Reply, ml: seq<PodSnapshot>, vl: seq<PodSnapshot>, plan: PatchPlan, pods': map<PodRef, Pod>, d: DepRef)
    requires PlanApplied(owner, pods, m, t, newUUID, reply, ml, vl, plan, pods')
    requires d != m && d != t
    ensures SideOf(owner, pods', d) == SideOf(owner, pods, d)
  {
    forall r | r in pods && owner(r) == d ensures pods'[r] == pods[r] {
      PlanLeaves(owner, pods, m, t, newUUID, reply, ml, vl, plan, r);
    }
    SameSide(owner, pods, pods', d);
  }

  lemma SameSide(owner: PodRef -> DepRef, pods: map<PodRef, Pod>, pods': map<PodRef, Pod>, d: DepRef)
    requires pods'.Keys == pods.Keys && forall r :: r in pods && owner(r) == d ==> pods'[r] == pods[r]
    ensures SideOf(owner, pods', d) == SideOf(owner, pods, d)
  {
  }

  lemma PlanLeaves(owner: PodRef -> DepRef, pods: map<PodRef, Pod>, m: DepRef, t: DepRef, newUUID: nat -> string,
      reply: Patch -> Reply, ml: seq<PodSnapshot>, vl: seq<PodSnapshot>, plan: PatchPlan, r: PodRef)
    requires IsListing(SideOf(owner, pods, m), ml) && IsListing(SideOf(owner, pods, t), vl)
    requires IsPlan(ml, vl, newUUID, plan)
    requires r in pods && owner(r) != m && owner(r) != t
    ensures LabelAfter(PlanWrites(plan, reply), r, pods[r].pairId) == pods[r].pairId
  {
    PlanRefs(ml, vl, newUUID, plan);
    ListedPodsExist(owner, pods, m, ml);
    ListedPodsExist(owner, pods, t, vl);
    UntouchedLabel(plan, reply, r, pods[r].pairId);
  }

  // ------------------------------------------------ labels before and after a pass

  /** After a pass, whatever failed, a pod carries what it carried, nothing, or a new id. */
  lemma PassLabels(owner: PodRef -> DepRef, w: World, m: DepRef, dep: Deployment, reply: Call -> Reply,
      newUUID: nat -> string, w': World, r: PodRef)
    requires Reconciled(owner, w, m, dep, reply, newUUID, w') && r in w.pods
    ensures r in w'.pods && w'.pods[r].ready == w.pods[r].ready
    ensures var id := w'.pods[r].pairId;
      id == w.pods[r].pairId || id == "" || exists i :: id == newUUID(i)
  {
    if w'.pods != w.pods {
      var t := Target(m, dep).value;
      var ml, vl, plan :| PlanApplied(owner, w.pods, m, t, newUUID, PatchReply(reply), ml, vl, plan, w'.pods);
      LabelOrigin(plan, PatchReply(reply), r, w.pods[r].pairId);
      PlanBindingRefs(ml, vl, newUUID, plan);
    }
  }

  /** A pass leaves every pod that is not Ready as it is, label included. */
  lemma NotReadyUntouched(owner: PodRef -> DepRef, w: World, m: DepRef, dep: Deployment, reply: Call -> Reply,
      newUUID: nat -> string, w': World, r: PodRef)
    requires Reconciled(owner, w, m, dep, reply, newUUID, w') && r in w.pods && !w.pods[r].ready
    ensures r in w'.pods && w'.pods[r] == w.pods[r]
  {
    if w'.pods != w.pods {
      var t := Target(m, dep).value;
      var ml, vl, plan :| PlanApplied(owner, w.pods, m, t, newUUID, PatchReply(reply), ml, vl, plan, w'.pods);
      PlanRefs(ml, vl, newUUID, plan);
      ListedReady(owner, w.pods, m, ml);
      ListedReady(owner, w.pods, t, vl);
      UntouchedLabel(plan, PatchReply(reply), r, w.pods[r].pairId);
    }
  }

  lemma ListedReady(owner: PodRef -> DepRef, pods: map<PodRef, Pod>, d: DepRef, l: seq<PodSnapshot>)
    requires IsListing(SideOf(owner, pods, d), l)
    ensures forall r :: r in ListedRefs(l) ==> r in pods && pods[r].ready
  {
    forall p | p in l ensures RefOf(p) in pods && pods[RefOf(p)].ready {
      assert p.name in Ready(SideOf(owner, pods, d));
    }
  }

  /** A stale label is one that no pair of Ready pods shares. */
  ghost predicate StaleGoneIffReady(a: Side, b: Side, a': Side) {
    forall n :: n in a.pods && a.pods[n].pairId != "" && n !in Paired(a, b) ==>
      n in a'.pods && (a'.pods[n].pairId != a.pods[n].pairId <==> a.pods[n].ready)
  }

  /** After a fault-free pass with equal replica counts, a stale label is gone exactly if its pod
      is Ready, on either side. */
  lemma StaleLabelGoesIffReady(owner: PodRef -> DepRef, w: World, m: DepRef, dep: Deployment, t: DepRef,
      reply: Call -> Reply, newUUID: nat -> string, w': World)
    requires Target(m, dep) == Some(t) && t in w.deps && Replicas(w.deps[t]) == Replicas(dep)
    requires Consistent(SideOf(owner, w.pods, m), SideOf(owner, w.pods, t))
    requires NoFaults(reply)
    requires Fresh(newUUID, Labels(SideOf(owner, w.pods, m)) + Labels(SideOf(owner, w.pods, t)))
    requires Reconciled(owner, w, m, dep, reply, newUUID, w')
    ensures var ms, vs := SideOf(owner, w.pods, m), SideOf(owner, w.pods, t);
      && StaleGoneIffReady(ms, vs, SideOf(owner, w'.pods, m))
      && StaleGoneIffReady(vs, ms, SideOf(owner, w'.pods, t))
  {
    PassHeals(owner, w, m, dep, t, reply, newUUID, w');
    SideAfter(owner, w, m, dep, reply, newUUID, w', m);
    SideAfter(owner, w, m, dep, reply, newUUID, w', t);
    var ms, vs := SideOf(owner, w.pods, m), SideOf(owner, w.pods, t);
    StaleGoes(ms, vs, SideOf(owner, w'.pods, m), SideOf(owner, w'.pods, t), newUUID);
    StaleGoes(vs, ms, SideOf(owner, w'.pods, t), SideOf(owner, w'.pods, m), newUUID);
  }

  /** What any pass leaves of one side: pods that are not Ready as they were, and every label
      the old one, none, or a new id. */
  ghost predicate IsAfter(s: Side, s': Side, newUUID: nat -> string) {
    && s'.ns == s.ns && s'.pods.Keys == s.pods.Keys
    && (forall n :: n in s.pods && !s.pods[n].ready ==> s'.pods[n] == s.pods[n])
    && (forall n :: n in s.pods ==>
          s'.pods[n].ready == s.pods[n].ready && IsOrigin(s.pods[n].pairId, s'.pods[n].pairId, newUUID))
  }

  ghost predicate IsOrigin(was: string, id: string, newUUID: nat -> string) {
    id == was || id == "" || exists i :: id == newUUID(i)
  }

  lemma SideAfter(owner: PodRef -> DepRef, w: World, m: DepRef, dep: Deployment, reply: Call -> Reply,
      newUUID: nat -> string, w': World, d: DepRef)
    requires Reconciled(owner, w, m, dep, reply, newUUID, w')
    ensures IsAfter(SideOf(owner, w.pods, d), SideOf(owner, w'.pods, d), newUUID)
  {
    PassFrame(owner, w, m, dep, reply, newUUID, w', d);
    var s := SideOf(owner, w.pods, d);
    forall n | n in s.pods
      ensures !s.pods[n].ready ==> w'.pods[Ref(s, n)] == s.pods[n]
      ensures w'.pods[Ref(s, n)].ready == s.pods[n].ready
      ensures IsOrigin(s.pods[n].pairId, w'.pods[Ref(s, n)].pairId, newUUID)
    {
      PassLabels(owner, w, m, dep, reply, newUUID, w', Ref(s, n));
      if !s.pods[n].ready {
        NotReadyUntouched(owner, w, m, dep, reply, newUUID, w', Ref(s, n));
      }
    }
  }

  lemma StaleGoes(a: Side, b: Side, a': Side, b': Side, newUUID: nat -> string)
    requires IsAfter(a, a', newUUID) && IsAfter(b, b', newUUID) && Fresh(newUUID, Labels(a)) && Orphans(a', b') == {}
    ensures StaleGoneIffReady(a, b, a')
  {
    forall n | n in Ready(a) && a.pods[n].pairId != "" && n !in Paired(a, b)
      ensures a'.pods[n].pairId != a.pods[n].pairId
    {
      StaleLabelGoes(a, b, a', b', newUUID, n);
    }
  }

  lemma StaleLabelGoes(a: Side, b: Side, a': Side, b': Side, newUUID: nat -> string, n: string)
    requires IsAfter(a, a', newUUID) && IsAfter(b, b', newUUID) && Fresh(newUUID, Labels(a)) && Orphans(a', b') == {}
    requires n in Ready(a) && a.pods[n].pairId != "" && n !in Paired(a, b)
    ensures a'.pods[n].pairId != a.pods[n].pairId
  {
    var id := a.pods[n].pairId;
    assert id in Labels(a);
    assert n !in Orphans(a', b');
    if a'.pods[n].pairId == id {
      var k :| Mates(a', n, b', k);
      assert IsOrigin(b.pods[k].pairId, id, newUUID);
      assert Mates(a, n, b, k);
    }
  }

  // -------------------------------------------- a pod that stops being Ready

  /** Pod `lost` was paired with pod `other` and is no longer Ready; `newcomer` has no label yet. */
  ghost predicate LostPod(ms: Side, vs: Side, lost: string, newcomer: string, other: string, id: string) {
    && lost != newcomer && id != ""
    && ms.pods.Keys == {lost, newcomer} && vs.pods.Keys == {other}
    && ms.pods[lost] == Pod(false, id) && ms.pods[newcomer] == Pod(true, "") && vs.pods[other] == Pod(true, id)
  }

  lemma LostPodFacts(ms: Side, vs: Side, lost: string, newcomer: string, other: string, id: string)
    requires LostPod(ms, vs, lost, newcomer, other, id)
    ensures DistinctIds(ms) && DistinctIds(vs) && Ready(ms) == {newcomer} && Ready(vs) == {other}
    ensures Labels(ms) + Labels(vs) <= {"", id}
  {
  }

  lemma LostPodOutcome(ms: Side, vs: Side, ms': Side, vs': Side, lost: string, newcomer: string, other: string,
      id: string, newUUID: nat -> string)
    requires LostPod(ms, vs, lost, newcomer, other, id) && Heals(ms, vs, ms', vs')
    requires IsAfter(ms, ms', newUUID) && Fresh(newUUID, {"", id})
    ensures ms'.pods.Keys == {lost, newcomer} && vs'.pods.Keys == {other}
    ensures ms'.pods[lost] == Pod(false, id)
    ensures ms'.pods[newcomer].pairId == vs'.pods[other].pairId && ms'.pods[newcomer].pairId !in {"", id}
  {
    LostPodFacts(ms, vs, lost, newcomer, other, id);
    OnlyPair(ms, vs, ms', vs', newcomer, other);
    assert IsOrigin("", ms'.pods[newcomer].pairId, newUUID);
  }

  /** In such a state a fault-free pass leaves the lost pod with the id under which its partner was
      bound, and binds the partner to the newcomer under a new one. */
  lemma LostPodKeepsLabel(owner: PodRef -> DepRef, w: World, m: DepRef, dep: Deployment, t: DepRef, lost: string,
      newcomer: string, other: string, id: string, reply: Call -> Reply, newUUID: nat -> string, w': World)
    requires LostPod(SideOf(owner, w.pods, m), SideOf(owner, w.pods, t), lost, newcomer, other, id)
    requires m != t && '/' !in m.ns && '/' !in t.ns
    requires Target(m, dep) == Some(t) && t in w.deps && Replicas(w.deps[t]) == Replicas(dep)
    requires NoFaults(reply) && Fresh(newUUID, {"", id}) && Reconciled(owner, w, m, dep, reply, newUUID, w')
    ensures var ms', vs' := SideOf(owner, w'.pods, m), SideOf(owner, w'.pods, t);
      && ms'.pods.Keys == {lost, newcomer} && vs'.pods.Keys == {other}
      && ms'.pods[lost] == Pod(false, id)
      && ms'.pods[newcomer].pairId == vs'.pods[other].pairId && ms'.pods[newcomer].pairId !in {"", id}
  {
    var ms, vs := SideOf(owner, w.pods, m), SideOf(owner, w.pods, t);
    LostPodFacts(ms, vs, lost, newcomer, other, id);
    SidesDisjoint(owner, w.pods, m, t);
    FreshFewer(newUUID, Labels(ms) + Labels(vs), {"", id});
    PassHeals(owner, w, m, dep, t, reply, newUUID, w');
    SideAfter(owner, w, m, dep, reply, newUUID, w', m);
    LostPodOutcome(ms, vs, SideOf(owner, w'.pods, m), SideOf(owner, w'.pods, t), lost, newcomer, other, id, newUUID);
  }

  lemma FreshFewer(newUUID: nat -> string, few: set<string>, many: set<string>)
    requires Fresh(newUUID, many) && few <= many
    ensures Fresh(newUUID, few)
  {
  }

  /** There is such a state: three pods, two Deployments, equal replica counts. */
  lemma LostPodExists(m: DepRef, dep: Deployment, t: DepRef, lost: string, newcomer: string, other: string, id: string)
    returns (owner: PodRef -> DepRef, w: World)
    requires m != t && Target(m, dep) == Some(t) && id != ""
    requires lost != newcomer && other != lost && other != newcomer
    ensures LostPod(SideOf(owner, w.pods, m), SideOf(owner, w.pods, t), lost, newcomer, other, id)
    ensures m in w.deps && w.deps[m] == dep && t in w.deps && Replicas(w.deps[t]) == Replicas(dep)
  {
    owner := (r: PodRef) => if r.name == other then t else m;
    var l, n, o := PodRef(lost, m.ns), PodRef(newcomer, m.ns), PodRef(other, t.ns);
    w := World(map[m := dep, t := dep], map[l := Pod(false, id), n := Pod(true, ""), o := Pod(true, id)]);
    var pods := w.pods;
    assert l in pods && n in pods && o in pods && forall r :: r in pods ==> r == l || r == n || r == o;
    assert owner(l) == m && owner(n) == m && owner(o) == t;
    assert pods[l] == Pod(false, id) && pods[n] == Pod(true, "") && pods[o] == Pod(true, id);
    ThreePods(owner, pods, m, t, l, n, o);
  }

  lemma ThreePods(owner: PodRef -> DepRef, pods: map<PodRef, Pod>, m: DepRef, t: DepRef, l: PodRef, n: PodRef, o: PodRef)
    requires m != t && pods.Keys == {l, n, o} && owner(l) == m && owner(n) == m && owner(o) == t
    requires l.ns == m.ns && n.ns == m.ns && o.ns == t.ns
    ensures var ms, vs := SideOf(owner, pods, m), SideOf(owner, pods, t);
      && ms.pods.Keys == {l.name, n.name} && vs.pods.Keys == {o.name}
      && ms.pods[l.name] == pods[l] && ms.pods[n.name] == pods[n] && vs.pods[o.name] == pods[o]
  {
  }

  lemma OnlyPair(m: Side, v: Side, m': Side, v': Side, n: string, k: string)
    requires Heals(m, v, m', v') && Ready(m) == {n} && Ready(v) == {k}
    ensures m'.pods[n].pairId == v'.pods[k].pairId != ""
  {
    ReadySame(m, m');
    ReadySame(v, v');
    assert Paired(m', v') <= {n} && |Paired(m', v')| == 1;
    SingleElement(Paired(m', v'), n);
    var k' :| Mates(m', n, v', k');
  }

  lemma SingleElement(s: set<string>, n: string)
    requires s <= {n} && |s| == 1
    ensures n in s
  {
    assert n !in s ==> s == {};
  }
}
