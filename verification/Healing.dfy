// What applying one plan does to a managed side and a vLLM side, and the
// fixed points of the reconciler: the states in which a plan is empty.
module Healing {
  import opened Basics
  import opened PairingLogic
  import opened Matching

  /** One label patch that the API server accepted; id "" is a removal. */
  datatype Write = Write(ref: PodRef, id: string)

  /** A patch the reconciler may issue, to look up how it ends. */
  datatype Patch = RemoveLabel(ref: PodRef) | SetLabel(ref: PodRef, id: string)

  ghost predicate AllServed(reply: Patch -> Reply) {
    forall p :: reply(p) == Served
  }

  /** Failed removals are logged and skipped. */
  function PruneWrites(prunes: seq<PodRef>, reply: Patch -> Reply): seq<Write> {
    if prunes == [] then []
    else
      var n := |prunes| - 1;
      PruneWrites(prunes[..n], reply) + (if reply(RemoveLabel(prunes[n])).TookEffect() then [Write(prunes[n], "")] else [])
  }

  /** A failed managed write skips the vLLM write of the same binding. */
  function BindingWrites(b: Pairing, reply: Patch -> Reply): seq<Write> {
    var m := reply(SetLabel(b.managed, b.uuid));
    if m.Refused? then []
    else if m.Lost? || reply(SetLabel(b.vllm, b.uuid)).Refused? then [Write(b.managed, b.uuid)]
    else [Write(b.managed, b.uuid), Write(b.vllm, b.uuid)]
  }

  function BindWrites(bindings: seq<Pairing>, reply: Patch -> Reply): seq<Write> {
    if bindings == [] then []
    else
      var n := |bindings| - 1;
      BindWrites(bindings[..n], reply) + BindingWrites(bindings[n], reply)
  }

  function PlanWrites(plan: PatchPlan, reply: Patch -> Reply): seq<Write> {
    PruneWrites(plan.prunes, reply) + BindWrites(plan.bindings, reply)
  }

  /** The label a pod ends with: that of the last accepted write to it. */
  function LabelAfter(ws: seq<Write>, ref: PodRef, was: string): string {
    if ws == [] then was
    else if ws[|ws| - 1].ref == ref then ws[|ws| - 1].id
    else LabelAfter(ws[..|ws| - 1], ref, was)
  }

  function WriteSide(s: Side, ws: seq<Write>): Side {
    Side(s.ns, map n | n in s.pods :: s.pods[n].(pairId := LabelAfter(ws, Ref(s, n), s.pods[n].pairId)))
  }

  lemma {:induction false} LabelAfterConcat(a: seq<Write>, b: seq<Write>, ref: PodRef, was: string)
    ensures LabelAfter(a + b, ref, was) == LabelAfter(b, ref, LabelAfter(a, ref, was))
  {
    if b == [] {
      assert a + b == a;
    } else {
      var n := |b| - 1;
      assert (a + b)[..|a + b| - 1] == a + b[..n];
      LabelAfterConcat(a, b[..n], ref, was);
    }
  }

  lemma {:induction false} LabelAfterPrunes(prunes: seq<PodRef>, reply: Patch -> Reply, ref: PodRef, was: string)
    ensures LabelAfter(PruneWrites(prunes, reply), ref, was) ==
            if ref in prunes && reply(RemoveLabel(ref)).TookEffect() then "" else was
  {
    if prunes != [] {
      var n := |prunes| - 1;
      assert prunes == prunes[..n] + [prunes[n]];
      LabelAfterPrunes(prunes[..n], reply, ref, was);
      LabelAfterConcat(PruneWrites(prunes[..n], reply),
        if reply(RemoveLabel(prunes[n])).TookEffect() then [Write(prunes[n], "")] else [], ref, was);
    }
  }

  ghost predicate DistinctEnds(bs: seq<Pairing>) {
    && (forall i, j :: 0 <= i < |bs| && 0 <= j < |bs| ==> bs[i].managed != bs[j].vllm)
    && (forall i, j :: 0 <= i < j < |bs| ==> bs[i].managed != bs[j].managed && bs[i].vllm != bs[j].vllm)
  }

  ghost predicate Bound(bs: seq<Pairing>, ref: PodRef, i: int) {
    0 <= i < |bs| && (bs[i].managed == ref || bs[i].vllm == ref)
  }

  lemma LabelAfterBindings(bs: seq<Pairing>, reply: Patch -> Reply, ref: PodRef, was: string)
    requires DistinctEnds(bs) && AllServed(reply)
    ensures forall i :: Bound(bs, ref, i) ==> LabelAfter(BindWrites(bs, reply), ref, was) == bs[i].uuid
    ensures (forall i :: !Bound(bs, ref, i)) ==> LabelAfter(BindWrites(bs, reply), ref, was) == was
  {
    LabelIsBoundId(bs, reply, ref, was);
    forall i | Bound(bs, ref, i) ensures BoundId(bs, ref, was) == bs[i].uuid {
      BoundIdAt(bs, ref, was, i);
    }
    if forall i :: !Bound(bs, ref, i) {
      BoundIdNone(bs, ref, was);
    }
  }

  /** The id of the last pairing that has this pod as an end. */
  function BoundId(bs: seq<Pairing>, ref: PodRef, was: string): string {
    if bs == [] then was
    else if bs[|bs| - 1].managed == ref || bs[|bs| - 1].vllm == ref then bs[|bs| - 1].uuid
    else BoundId(bs[..|bs| - 1], ref, was)
  }

  lemma {:induction false} LabelIsBoundId(bs: seq<Pairing>, reply: Patch -> Reply, ref: PodRef, was: string)
    requires AllServed(reply)
    ensures LabelAfter(BindWrites(bs, reply), ref, was) == BoundId(bs, ref, was)
  {
    if bs != [] {
      var n := |bs| - 1;
      LabelIsBoundId(bs[..n], reply, ref, was);
      LabelAfterLast(bs[..n], bs[n], reply, ref, was);
    }
  }

  lemma {:induction false} BoundIdAt(bs: seq<Pairing>, ref: PodRef, was: string, i: int)
    requires DistinctEnds(bs) && Bound(bs, ref, i)
    ensures BoundId(bs, ref, was) == bs[i].uuid
  {
    if i < |bs| - 1 {
      assert !Bound(bs, ref, |bs| - 1);
      BoundIdAt(bs[..|bs| - 1], ref, was, i);
    }
  }

  lemma {:induction false} BoundIdNone(bs: seq<Pairing>, ref: PodRef, was: string)
    requires forall i :: !Bound(bs, ref, i)
    ensures BoundId(bs, ref, was) == was
  {
    if bs != [] {
      var r := bs[..|bs| - 1];
      assert !Bound(bs, ref, |bs| - 1);
      forall i ensures !Bound(r, ref, i) {
        assert !Bound(bs, ref, i);
      }
      BoundIdNone(r, ref, was);
    }
  }

  lemma LabelAfterLast(r: seq<Pairing>, b: Pairing, reply: Patch -> Reply, ref: PodRef, was: string)
    requires AllServed(reply)
    ensures LabelAfter(BindWrites(r, reply) + BindingWrites(b, reply), ref, was) ==
            if b.managed == ref || b.vllm == ref then b.uuid else LabelAfter(BindWrites(r, reply), ref, was)
  {
    assert BindingWrites(b, reply) == [Write(b.managed, b.uuid), Write(b.vllm, b.uuid)];
    LabelAfterConcat(BindWrites(r, reply), BindingWrites(b, reply), ref, was);
    LabelAfterPair(b, ref, LabelAfter(BindWrites(r, reply), ref, was));
  }

  lemma LabelAfterPair(b: Pairing, ref: PodRef, was: string)
    ensures LabelAfter([Write(b.managed, b.uuid), Write(b.vllm, b.uuid)], ref, was) ==
            if b.managed == ref || b.vllm == ref then b.uuid else was
  {
    var ws := [Write(b.managed, b.uuid), Write(b.vllm, b.uuid)];
    assert ws[..1] == [Write(b.managed, b.uuid)];
    assert LabelAfter(ws[..1], ref, was) == if b.managed == ref then b.uuid else was;
  }

  // ------------------------------------------------------------ one full plan

  /** newUUID hands out non-empty ids that differ from each other and from all labels. */
  ghost predicate Fresh(newUUID: nat -> string, used: set<string>) {
    && (forall i :: newUUID(i) != "" && newUUID(i) !in used)
    && (forall i, j :: newUUID(i) == newUUID(j) ==> i == j)
  }

  ghost function Labels(s: Side): set<string> {
    set n | n in s.pods :: s.pods[n].pairId
  }

  ghost predicate SamePods(s: Side, s': Side) {
    s'.ns == s.ns && s'.pods.Keys == s.pods.Keys && forall n :: n in s.pods ==> s'.pods[n].ready == s.pods[n].ready
  }

  ghost predicate KeepsPairs(a: Side, b: Side, a': Side, b': Side) {
    forall n :: n in Paired(a, b) ==> n in Paired(a', b') && a'.pods[n].pairId == a.pods[n].pairId
  }

  /** Every Ready pod that can have a partner has one, and no stale label is left. */
  ghost predicate FullyPaired(m: Side, v: Side) {
    && |Paired(m, v)| == |Paired(v, m)| == Min(|Ready(m)|, |Ready(v)|)
    && Orphans(m, v) == {} && Orphans(v, m) == {}
  }

  ghost function PairedIds(a: Side, b: Side): set<string> {
    set n | n in Paired(a, b) :: a.pods[n].pairId
  }

  lemma PairedIdsCount(a: Side, b: Side)
    requires DistinctIds(a)
    ensures |PairedIds(a, b)| == |Paired(a, b)|
  {
    InjectiveImage(Paired(a, b), (n: string) => if n in a.pods then a.pods[n].pairId else "", PairedIds(a, b));
  }

  lemma PairedIdsIncluded(a: Side, b: Side)
    ensures PairedIds(a, b) <= PairedIds(b, a)
  {
    forall n | n in Paired(a, b) ensures a.pods[n].pairId in PairedIds(b, a) {
      var n' :| Mates(a, n, b, n');
      assert Mates(b, n', a, n);
      assert n' in Paired(b, a);
    }
  }

  lemma PairedCount(m: Side, v: Side)
    requires DistinctIds(m) && DistinctIds(v)
    ensures |Paired(m, v)| == |Paired(v, m)|
  {
    PairedIdsCount(m, v);
    PairedIdsCount(v, m);
    PairedIdsIncluded(m, v);
    PairedIdsIncluded(v, m);
    assert PairedIds(m, v) == PairedIds(v, m);
  }

  /** The label of every pod of side `a` once the whole plan has been applied: `other`
      is the opposite side, `free` its own free pods in binding order. */
  ghost predicate Relabelled(a: Side, b: Side, a': Side, free: seq<PodSnapshot>, k: nat, newUUID: nat -> string) {
    && k <= |free|
    && SamePods(a, a')
    && (forall i :: 0 <= i < k ==> free[i].name in a'.pods && a'.pods[free[i].name].pairId == newUUID(i))
    && (forall n :: n in a.pods && (forall i :: 0 <= i < k ==> free[i].name != n) ==>
          a'.pods[n].pairId == if n in Orphans(a, b) then "" else a.pods[n].pairId)
  }

  ghost predicate BindsOnly(a: Side, b: Pairing, name: string) {
    forall n :: n in a.pods ==> (b.managed == Ref(a, n) || b.vllm == Ref(a, n) <==> n == name)
  }

  /** The bindings that touch side `a` are those of its free pods, index by index. */
  ghost predicate BoundAs(a: Side, bs: seq<Pairing>, free: seq<PodSnapshot>) {
    |bs| <= |free| && forall i :: 0 <= i < |bs| ==> BindsOnly(a, bs[i], free[i].name)
  }

  lemma BindingEnds(m: Side, v: Side, mU: seq<PodSnapshot>, vU: seq<PodSnapshot>, newUUID: nat -> string)
    requires Disjoint(m, v) && IsFree(m, v, mU) && IsFree(v, m, vU)
    ensures var bs := Bind(mU, vU, newUUID);
      DistinctEnds(bs) && BoundAs(m, bs, mU) && BoundAs(v, bs, vU)
  {
    var bs := Bind(mU, vU, newUUID);
    forall i | 0 <= i < |bs|
      ensures bs[i].managed == Ref(m, mU[i].name) && mU[i].name in m.pods
      ensures bs[i].vllm == Ref(v, vU[i].name) && vU[i].name in v.pods
      ensures BindsOnly(m, bs[i], mU[i].name) && BindsOnly(v, bs[i], vU[i].name)
    {
      assert mU[i] in mU && vU[i] in vU;
    }
  }

  lemma SideRelabelled(a: Side, b: Side, plan: PatchPlan, free: seq<PodSnapshot>, newUUID: nat -> string,
      reply: Patch -> Reply)
    requires Disjoint(a, b) && AllServed(reply) && DistinctEnds(plan.bindings)
    requires forall r :: r in plan.prunes <==> r in OrphanRefs(a, b) + OrphanRefs(b, a)
    requires IsFree(a, b, free) && BoundAs(a, plan.bindings, free)
    requires forall i :: 0 <= i < |plan.bindings| ==> plan.bindings[i].uuid == newUUID(i)
    ensures Relabelled(a, b, WriteSide(a, PlanWrites(plan, reply)), free, |plan.bindings|, newUUID)
  {
    var a', k := WriteSide(a, PlanWrites(plan, reply)), |plan.bindings|;
    forall i | 0 <= i < k ensures free[i].name in a'.pods && a'.pods[free[i].name].pairId == newUUID(i) {
      assert free[i] in free;
      WrittenLabel(a, b, plan, reply, free[i].name);
      assert BindsOnly(a, plan.bindings[i], free[i].name);
      assert Bound(plan.bindings, Ref(a, free[i].name), i);
    }
    forall n | n in a.pods && (forall i :: 0 <= i < k ==> free[i].name != n)
      ensures a'.pods[n].pairId == if n in Orphans(a, b) then "" else a.pods[n].pairId
    {
      WrittenLabel(a, b, plan, reply, n);
      forall i ensures !Bound(plan.bindings, Ref(a, n), i) {
        assert 0 <= i < k ==> BindsOnly(a, plan.bindings[i], free[i].name);
      }
    }
  }

  lemma PlanRelabels(m: Side, v: Side, plan: PatchPlan, mU: seq<PodSnapshot>, vU: seq<PodSnapshot>,
      newUUID: nat -> string, reply: Patch -> Reply)
    requires Disjoint(m, v) && AllServed(reply)
    requires Decides(m, v, plan, newUUID, mU, vU)
    ensures Relabelled(m, v, WriteSide(m, PlanWrites(plan, reply)), mU, Min(|mU|, |vU|), newUUID)
    ensures Relabelled(v, m, WriteSide(v, PlanWrites(plan, reply)), vU, Min(|mU|, |vU|), newUUID)
  {
    BindingEnds(m, v, mU, vU, newUUID);
    SideRelabelled(m, v, plan, mU, newUUID, reply);
    SideRelabelled(v, m, plan, vU, newUUID, reply);
  }

  lemma WrittenLabel(a: Side, b: Side, plan: PatchPlan, reply: Patch -> Reply, n: string)
    requires Disjoint(a, b) && AllServed(reply) && DistinctEnds(plan.bindings) && n in a.pods
    requires forall r :: r in plan.prunes <==> r in OrphanRefs(a, b) + OrphanRefs(b, a)
    ensures var id := WriteSide(a, PlanWrites(plan, reply)).pods[n].pairId;
      && (forall i :: Bound(plan.bindings, Ref(a, n), i) ==> id == plan.bindings[i].uuid)
      && ((forall i :: !Bound(plan.bindings, Ref(a, n), i)) ==>
            id == if n in Orphans(a, b) then "" else a.pods[n].pairId)
  {
    var ref, was := Ref(a, n), a.pods[n].pairId;
    PrunedIffOrphan(a, b, plan.prunes, n);
    LabelAfterPlan(plan, reply, ref, was);
    LabelAfterBindings(plan.bindings, reply, ref, if ref in plan.prunes then "" else was);
  }

  lemma PrunedIffOrphan(a: Side, b: Side, prunes: seq<PodRef>, n: string)
    requires Disjoint(a, b) && n in a.pods
    requires forall r :: r in prunes <==> r in OrphanRefs(a, b) + OrphanRefs(b, a)
    ensures Ref(a, n) in prunes <==> n in Orphans(a, b)
  {
  }

  lemma LabelAfterPlan(plan: PatchPlan, reply: Patch -> Reply, ref: PodRef, was: string)
    requires AllServed(reply)
    ensures LabelAfter(PlanWrites(plan, reply), ref, was) ==
            LabelAfter(BindWrites(plan.bindings, reply), ref, if ref in plan.prunes then "" else was)
  {
    LabelAfterConcat(PruneWrites(plan.prunes, reply), BindWrites(plan.bindings, reply), ref, was);
    LabelAfterPrunes(plan.prunes, reply, ref, was);
  }

  ghost function BoundNames(free: seq<PodSnapshot>, k: nat): set<string>
    requires k <= |free|
  {
    set i | 0 <= i < k :: free[i].name
  }

  lemma BoundNamesSize(a: Side, b: Side, free: seq<PodSnapshot>, k: nat)
    requires IsFree(a, b, free) && k <= |free|
    ensures |BoundNames(free, k)| == k
    ensures BoundNames(free, k) <= Ready(a) - Paired(a, b)
  {
    var names := seq(k, i requires 0 <= i < |free| => free[i].name);
    forall n ensures n in BoundNames(free, k) <==> n in names {
      if n in BoundNames(free, k) {
        var i :| 0 <= i < k && free[i].name == n;
        assert names[i] == n;
      }
    }
    DistinctSeqSize(names, BoundNames(free, k));
    assert forall i :: 0 <= i < k ==> free[i] in free;
  }

  /** On one side: paired pods keep their partner and their label. */
  lemma PairsKept(a: Side, b: Side, a': Side, b': Side, aU: seq<PodSnapshot>, bU: seq<PodSnapshot>,
      k: nat, newUUID: nat -> string)
    requires IsFree(a, b, aU) && IsFree(b, a, bU)
    requires Relabelled(a, b, a', aU, k, newUUID) && Relabelled(b, a, b', bU, k, newUUID)
    ensures KeepsPairs(a, b, a', b')
  {
    forall n | n in Paired(a, b) ensures a'.pods[n].pairId == a.pods[n].pairId {
      LabelKept(a, b, a', aU, k, newUUID, n);
    }
    forall n | n in Paired(b, a) ensures b'.pods[n].pairId == b.pods[n].pairId {
      LabelKept(b, a, b', bU, k, newUUID, n);
    }
    SameLabelsKeepPairs(a, b, a', b');
  }

  lemma LabelKept(a: Side, b: Side, a': Side, free: seq<PodSnapshot>, k: nat, newUUID: nat -> string, n: string)
    requires IsFree(a, b, free) && Relabelled(a, b, a', free, k, newUUID) && n in Paired(a, b)
    ensures n in a'.pods && a'.pods[n].pairId == a.pods[n].pairId
  {
    forall i | 0 <= i < k ensures free[i].name != n {
      assert free[i] in free;
    }
  }

  /** On one side: the pods bound by this plan join the pairs, the others end unlabelled. */
  lemma PairsAdded(a: Side, b: Side, a': Side, b': Side, aU: seq<PodSnapshot>, bU: seq<PodSnapshot>,
      k: nat, newUUID: nat -> string)
    requires Fresh(newUUID, {}) && IsFree(a, b, aU) && IsFree(b, a, bU)
    requires Relabelled(a, b, a', aU, k, newUUID) && Relabelled(b, a, b', bU, k, newUUID)
    ensures BoundNames(aU, k) <= Paired(a', b')
    ensures forall n :: n in Ready(a) - Paired(a, b) - BoundNames(aU, k) ==> a'.pods[n].pairId == ""
  {
    forall n | n in BoundNames(aU, k) ensures n in Paired(a', b') {
      var i :| 0 <= i < k && aU[i].name == n;
      BoundAreMates(a, b, a', b', aU, bU, k, newUUID, i);
    }
    forall n | n in Ready(a) - Paired(a, b) - BoundNames(aU, k) ensures a'.pods[n].pairId == "" {
      FreeEndsUnlabelled(a, b, a', aU, k, newUUID, n);
    }
  }

  lemma BoundAreMates(a: Side, b: Side, a': Side, b': Side, aU: seq<PodSnapshot>, bU: seq<PodSnapshot>,
      k: nat, newUUID: nat -> string, i: nat)
    requires Fresh(newUUID, {}) && IsFree(a, b, aU) && IsFree(b, a, bU) && i < k
    requires Relabelled(a, b, a', aU, k, newUUID) && Relabelled(b, a, b', bU, k, newUUID)
    ensures Mates(a', aU[i].name, b', bU[i].name)
  {
    assert aU[i] in aU && bU[i] in bU;
  }

  lemma FreeEndsUnlabelled(a: Side, b: Side, a': Side, free: seq<PodSnapshot>, k: nat, newUUID: nat -> string, n: string)
    requires Relabelled(a, b, a', free, k, newUUID) && n in Ready(a) - Paired(a, b) - BoundNames(free, k)
    ensures a'.pods[n].pairId == ""
  {
    forall i | 0 <= i < k ensures free[i].name != n {
      assert free[i].name in BoundNames(free, k);
    }
    assert n in Orphans(a, b) || a.pods[n].pairId == "";
  }

  lemma RelabelledIds(a: Side, b: Side, a': Side, free: seq<PodSnapshot>, k: nat, newUUID: nat -> string)
    requires DistinctIds(a) && Fresh(newUUID, Labels(a)) && Relabelled(a, b, a', free, k, newUUID)
    ensures DistinctIds(a')
  {
    forall n, n' | n in a'.pods && n' in a'.pods && a'.pods[n].pairId == a'.pods[n'].pairId != "" ensures n == n' {
      var i := LabelSource(a, b, a', free, k, newUUID, n);
      var j := LabelSource(a, b, a', free, k, newUUID, n');
      assert a.pods[n].pairId in Labels(a) && a.pods[n'].pairId in Labels(a);
    }
  }

  /** Pod n got the i-th new id, or, for i == -1, kept its label or lost it. */
  lemma LabelSource(a: Side, b: Side, a': Side, free: seq<PodSnapshot>, k: nat, newUUID: nat -> string, n: string)
    returns (i: int)
    requires Relabelled(a, b, a', free, k, newUUID) && n in a.pods
    ensures -1 <= i < k
    ensures i >= 0 ==> free[i].name == n && a'.pods[n].pairId == newUUID(i)
    ensures i < 0 ==> a'.pods[n].pairId in {"", a.pods[n].pairId}
  {
    if j :| 0 <= j < k && free[j].name == n {
      i := j;
    } else {
      i := -1;
    }
  }

  lemma RelabelledPairs(a: Side, b: Side, a': Side, b': Side, aU: seq<PodSnapshot>, bU: seq<PodSnapshot>,
      k: nat, newUUID: nat -> string)
    requires Fresh(newUUID, {}) && IsFree(a, b, aU) && IsFree(b, a, bU)
    requires Relabelled(a, b, a', aU, k, newUUID) && Relabelled(b, a, b', bU, k, newUUID)
    ensures KeepsPairs(a, b, a', b') && Orphans(a', b') == {}
    ensures |Paired(a', b')| == |Paired(a, b)| + k
  {
    PairsKept(a, b, a', b', aU, bU, k, newUUID);
    PairsAdded(a, b, a', b', aU, bU, k, newUUID);
    BoundNamesSize(a, b, aU, k);
    ReadySame(a, a');
    PairsAfter(a, b, a', b', BoundNames(aU, k));
  }

  lemma PairsAfter(a: Side, b: Side, a': Side, b': Side, bound: set<string>)
    requires Ready(a') == Ready(a)
    requires bound <= Ready(a) - Paired(a, b) && bound <= Paired(a', b')
    requires Paired(a, b) <= Paired(a', b')
    requires forall n :: n in Ready(a) - Paired(a, b) - bound ==> a'.pods[n].pairId == ""
    ensures |Paired(a', b')| == |Paired(a, b)| + |bound|
    ensures Orphans(a', b') == {}
  {
    forall n | n in Paired(a', b') ensures n in Paired(a, b) + bound {
      PairedIsLabelled(a', b', n);
    }
    assert Paired(a', b') == Paired(a, b) + bound;
  }

  lemma PairedIsLabelled(a: Side, b: Side, n: string)
    requires n in Paired(a, b)
    ensures n in Ready(a) && a.pods[n].pairId != ""
  {
    var n' :| Mates(a, n, b, n');
  }

  /** A plan applied without faults leaves exactly min(ready managed, ready vLLM) pairs,
      keeps every healthy pair with its id, clears every stale label, and does not
      touch readiness or membership. */
  lemma FullPlanHeals(m: Side, v: Side, ml: seq<PodSnapshot>, vl: seq<PodSnapshot>, newUUID: nat -> string,
      plan: PatchPlan, reply: Patch -> Reply, m': Side, v': Side)
    requires Consistent(m, v) && Fresh(newUUID, Labels(m) + Labels(v)) && AllServed(reply)
    requires IsListing(m, ml) && IsListing(v, vl) && IsPlan(ml, vl, newUUID, plan)
    requires m' == WriteSide(m, PlanWrites(plan, reply)) && v' == WriteSide(v, PlanWrites(plan, reply))
    ensures Heals(m, v, m', v')
  {
    var mU, vU := PlanMeaning(m, v, ml, vl, newUUID, plan);
    DecisionHeals(m, v, plan, newUUID, mU, vU, reply);
  }

  lemma DecisionHeals(m: Side, v: Side, plan: PatchPlan, newUUID: nat -> string,
      mU: seq<PodSnapshot>, vU: seq<PodSnapshot>, reply: Patch -> Reply)
    requires Consistent(m, v) && Fresh(newUUID, Labels(m) + Labels(v)) && AllServed(reply)
    requires Decides(m, v, plan, newUUID, mU, vU)
    ensures var m', v' := WriteSide(m, PlanWrites(plan, reply)), WriteSide(v, PlanWrites(plan, reply));
      Heals(m, v, m', v')
  {
    var m', v' := WriteSide(m, PlanWrites(plan, reply)), WriteSide(v, PlanWrites(plan, reply));
    PlanRelabels(m, v, plan, mU, vU, newUUID, reply);
    RelabellingHeals(m, v, m', v', mU, vU, newUUID);
  }

  ghost predicate Heals(m: Side, v: Side, m': Side, v': Side) {
    && SamePods(m, m') && SamePods(v, v') && Consistent(m', v')
    && KeepsPairs(m, v, m', v') && KeepsPairs(v, m, v', m')
    && FullyPaired(m', v')
  }

  lemma RelabellingHeals(m: Side, v: Side, m': Side, v': Side, mU: seq<PodSnapshot>, vU: seq<PodSnapshot>,
      newUUID: nat -> string)
    requires Consistent(m, v) && Fresh(newUUID, Labels(m) + Labels(v))
    requires IsFree(m, v, mU) && IsFree(v, m, vU)
    requires Relabelled(m, v, m', mU, Min(|mU|, |vU|), newUUID)
    requires Relabelled(v, m, v', vU, Min(|mU|, |vU|), newUUID)
    ensures Heals(m, v, m', v')
  {
    var k := Min(|mU|, |vU|);
    FreshBoth(m, v, newUUID);
    RelabelledIds(m, v, m', mU, k, newUUID);
    RelabelledIds(v, m, v', vU, k, newUUID);
    assert Consistent(m', v');
    RelabelledPairs(m, v, m', v', mU, vU, k, newUUID);
    RelabelledPairs(v, m, v', m', vU, mU, k, newUUID);
    RelabelledSizes(m, v, m', v', mU, vU);
  }

  lemma RelabelledSizes(m: Side, v: Side, m': Side, v': Side, mU: seq<PodSnapshot>, vU: seq<PodSnapshot>)
    requires DistinctIds(m) && DistinctIds(v) && SamePods(m, m') && SamePods(v, v')
    requires IsFree(m, v, mU) && IsFree(v, m, vU)
    requires |Paired(m', v')| == |Paired(m, v)| + Min(|mU|, |vU|)
    requires |Paired(v', m')| == |Paired(v, m)| + Min(|mU|, |vU|)
    ensures |Paired(m', v')| == |Paired(v', m')| == Min(|Ready(m')|, |Ready(v')|)
  {
    PairedCount(m, v);
    FreeCount(m, v, mU);
    FreeCount(v, m, vU);
    ReadySame(m, m');
    ReadySame(v, v');
  }

  lemma FreshBoth(m: Side, v: Side, newUUID: nat -> string)
    requires Fresh(newUUID, Labels(m) + Labels(v))
    ensures Fresh(newUUID, {}) && Fresh(newUUID, Labels(m)) && Fresh(newUUID, Labels(v))
  {
  }

  lemma ReadySame(s: Side, s': Side)
    requires SamePods(s, s')
    ensures Ready(s') == Ready(s)
  {
  }

  /** The fixed points: a plan is empty exactly when the sides are fully paired. */
  lemma EmptyPlanIffFullyPaired(m: Side, v: Side, ml: seq<PodSnapshot>, vl: seq<PodSnapshot>,
      newUUID: nat -> string, plan: PatchPlan)
    requires Consistent(m, v)
    requires IsListing(m, ml) && IsListing(v, vl) && IsPlan(ml, vl, newUUID, plan)
    ensures plan == PatchPlan([], []) <==> FullyPaired(m, v)
  {
    var mU, vU := PlanMeaning(m, v, ml, vl, newUUID, plan);
    FreeCount(m, v, mU);
    FreeCount(v, m, vU);
    PairedCount(m, v);
    NoPrunes(m, v, plan);
  }

  lemma NoPrunes(m: Side, v: Side, plan: PatchPlan)
    requires forall r :: r in plan.prunes <==> r in OrphanRefs(m, v) + OrphanRefs(v, m)
    ensures plan.prunes == [] <==> Orphans(m, v) == {} && Orphans(v, m) == {}
  {
    forall n | n in Orphans(m, v) ensures plan.prunes != [] {
      assert Ref(m, n) in OrphanRefs(m, v);
      assert Ref(m, n) in plan.prunes;
    }
    forall n | n in Orphans(v, m) ensures plan.prunes != [] {
      assert Ref(v, n) in OrphanRefs(v, m);
      assert Ref(v, n) in plan.prunes;
    }
    if plan.prunes != [] {
      var r := plan.prunes[0];
      assert r in plan.prunes;
    }
  }

  /** The outcome depends on the set of prunes, not on their order. */
  lemma SameLabelAfter(plan: PatchPlan, plan': PatchPlan, reply: Patch -> Reply, ref: PodRef, was: string)
    requires forall r :: r in plan.prunes <==> r in plan'.prunes
    requires plan.bindings == plan'.bindings
    ensures LabelAfter(PlanWrites(plan, reply), ref, was) == LabelAfter(PlanWrites(plan', reply), ref, was)
  {
    LabelAfterConcat(PruneWrites(plan.prunes, reply), BindWrites(plan.bindings, reply), ref, was);
    LabelAfterConcat(PruneWrites(plan'.prunes, reply), BindWrites(plan'.bindings, reply), ref, was);
    LabelAfterPrunes(plan.prunes, reply, ref, was);
    LabelAfterPrunes(plan'.prunes, reply, ref, was);
  }

  lemma {:induction false} UnwrittenLabel(ws: seq<Write>, ref: PodRef, was: string)
    requires forall w :: w in ws ==> w.ref != ref
    ensures LabelAfter(ws, ref, was) == was
  {
    if ws != [] {
      assert ws[|ws| - 1] in ws;
      UnwrittenLabel(ws[..|ws| - 1], ref, was);
    }
  }

  lemma {:induction false} BindWritesRefs(bs: seq<Pairing>, reply: Patch -> Reply)
    ensures forall w :: w in BindWrites(bs, reply) ==> exists b :: b in bs && (w.ref == b.managed || w.ref == b.vllm)
  {
    if bs != [] {
      var n := |bs| - 1;
      BindWritesRefs(bs[..n], reply);
      assert bs[n] in bs;
    }
  }

  /** Whichever patches fail, a plan disturbs no healthy pair. */
  lemma PlanKeepsPairs(m: Side, v: Side, plan: PatchPlan, newUUID: nat -> string, mU: seq<PodSnapshot>,
      vU: seq<PodSnapshot>, reply: Patch -> Reply)
    requires Disjoint(m, v) && Decides(m, v, plan, newUUID, mU, vU)
    ensures var m', v' := WriteSide(m, PlanWrites(plan, reply)), WriteSide(v, PlanWrites(plan, reply));
      KeepsPairs(m, v, m', v') && KeepsPairs(v, m, v', m')
  {
    var m', v' := WriteSide(m, PlanWrites(plan, reply)), WriteSide(v, PlanWrites(plan, reply));
    BindingEnds(m, v, mU, vU, newUUID);
    forall n | n in Paired(m, v) ensures m'.pods[n].pairId == m.pods[n].pairId {
      PairedUntouched(m, v, plan, mU, reply, n);
    }
    forall n | n in Paired(v, m) ensures v'.pods[n].pairId == v.pods[n].pairId {
      PairedUntouched(v, m, plan, vU, reply, n);
    }
    SameLabelsKeepPairs(m, v, m', v');
    SameLabelsKeepPairs(v, m, v', m');
  }

  lemma PairedUntouched(a: Side, b: Side, plan: PatchPlan, free: seq<PodSnapshot>, reply: Patch -> Reply, n: string)
    requires Disjoint(a, b) && n in Paired(a, b)
    requires forall r :: r in plan.prunes <==> r in OrphanRefs(a, b) + OrphanRefs(b, a)
    requires IsFree(a, b, free) && BoundAs(a, plan.bindings, free)
    ensures LabelAfter(PlanWrites(plan, reply), Ref(a, n), a.pods[n].pairId) == a.pods[n].pairId
  {
    forall bd | bd in plan.bindings ensures bd.managed != Ref(a, n) && bd.vllm != Ref(a, n) {
      var i :| 0 <= i < |plan.bindings| && plan.bindings[i] == bd;
      assert BindsOnly(a, bd, free[i].name) && free[i] in free;
    }
    assert Ref(a, n) !in OrphanRefs(a, b);
    UntouchedLabel(plan, reply, Ref(a, n), a.pods[n].pairId);
  }

  lemma SameLabelsKeepPairs(a: Side, b: Side, a': Side, b': Side)
    requires SamePods(a, a') && SamePods(b, b')
    requires forall n :: n in Paired(a, b) ==> a'.pods[n].pairId == a.pods[n].pairId
    requires forall n :: n in Paired(b, a) ==> b'.pods[n].pairId == b.pods[n].pairId
    ensures KeepsPairs(a, b, a', b')
  {
    forall n | n in Paired(a, b) ensures n in Paired(a', b') {
      var n' :| Mates(a, n, b, n');
      assert Mates(b, n', a, n);
      assert Mates(a', n, b', n');
    }
  }

  lemma UntouchedLabel(plan: PatchPlan, reply: Patch -> Reply, ref: PodRef, was: string)
    requires ref !in plan.prunes && forall b :: b in plan.bindings ==> b.managed != ref && b.vllm != ref
    ensures LabelAfter(PlanWrites(plan, reply), ref, was) == was
  {
    LabelAfterConcat(PruneWrites(plan.prunes, reply), BindWrites(plan.bindings, reply), ref, was);
    LabelAfterPrunes(plan.prunes, reply, ref, was);
    BindWritesRefs(plan.bindings, reply);
    UnwrittenLabel(BindWrites(plan.bindings, reply), ref, was);
  }

  // ----------------------------------------- a plan of which some patches fail

  /** The label with which a pod ends: the removal counts unless it is refused; the id of a binding
      reaches the managed end unless refused, and the vLLM end only if the write to the managed end
      was seen to succeed. */
  ghost predicate EndsWith(plan: PatchPlan, reply: Patch -> Reply, r: PodRef, was: string, now: string) {
    var pruned := if r in plan.prunes && reply(RemoveLabel(r)) != Refused then "" else was;
    && (forall b :: b in plan.bindings && b.managed == r ==>
          now == if reply(SetLabel(r, b.uuid)) != Refused then b.uuid else pruned)
    && (forall b :: b in plan.bindings && b.vllm == r ==>
          now == if reply(SetLabel(b.managed, b.uuid)) == Served && reply(SetLabel(r, b.uuid)) != Refused
                 then b.uuid else pruned)
    && ((forall b :: b in plan.bindings ==> b.managed != r && b.vllm != r) ==> now == pruned)
  }

  lemma OneBinding(b: Pairing, reply: Patch -> Reply, r: PodRef, was: string)
    requires b.managed != b.vllm
    ensures LabelAfter(BindingWrites(b, reply), r, was) ==
            if b.managed == r then (if reply(SetLabel(r, b.uuid)) != Refused then b.uuid else was)
            else if b.vllm == r && reply(SetLabel(b.managed, b.uuid)) == Served && reply(SetLabel(r, b.uuid)) != Refused
            then b.uuid else was
  {
    LabelAfterPair(b, r, was);
    assert [Write(b.managed, b.uuid)][..0] == [];
  }

  lemma {:induction false} SomeBindings(bs: seq<Pairing>, reply: Patch -> Reply, r: PodRef, was: string)
    requires DistinctEnds(bs)
    ensures EndsWith(PatchPlan([], bs), reply, r, was, LabelAfter(BindWrites(bs, reply), r, was))
  {
    if bs != [] {
      var n := |bs| - 1;
      assert bs == bs[..n] + [bs[n]];
      SomeBindings(bs[..n], reply, r, was);
      LabelAfterConcat(BindWrites(bs[..n], reply), BindingWrites(bs[n], reply), r, was);
      OneBinding(bs[n], reply, r, LabelAfter(BindWrites(bs[..n], reply), r, was));
    }
  }

  lemma PlanEndsWith(plan: PatchPlan, reply: Patch -> Reply, r: PodRef, was: string)
    requires DistinctEnds(plan.bindings)
    ensures EndsWith(plan, reply, r, was, LabelAfter(PlanWrites(plan, reply), r, was))
  {
    LabelAfterPrunes(plan.prunes, reply, r, was);
    LabelAfterConcat(PruneWrites(plan.prunes, reply), BindWrites(plan.bindings, reply), r, was);
    SomeBindings(plan.bindings, reply, r, LabelAfter(PruneWrites(plan.prunes, reply), r, was));
  }

  // ------------------------------------------------------ where labels come from

  lemma {:induction false} LabelFromWrite(ws: seq<Write>, ref: PodRef, was: string)
    ensures var id := LabelAfter(ws, ref, was);
      id == was || exists w :: w in ws && w.id == id
  {
    if ws != [] {
      var n := |ws| - 1;
      LabelFromWrite(ws[..n], ref, was);
      assert ws[n] in ws && forall w :: w in ws[..n] ==> w in ws;
    }
  }

  lemma {:induction false} PruneWriteIds(prunes: seq<PodRef>, reply: Patch -> Reply)
    ensures forall w :: w in PruneWrites(prunes, reply) ==> w.id == ""
  {
    if prunes != [] {
      PruneWriteIds(prunes[..|prunes| - 1], reply);
    }
  }

  lemma {:induction false} BindWriteIds(bs: seq<Pairing>, reply: Patch -> Reply)
    ensures forall w :: w in BindWrites(bs, reply) ==> exists b :: b in bs && w.id == b.uuid
  {
    if bs != [] {
      var n := |bs| - 1;
      BindWriteIds(bs[..n], reply);
      assert bs[n] in bs;
    }
  }

  /** After a plan a pod carries what it carried, nothing, or an id of the plan. */
  lemma LabelOrigin(plan: PatchPlan, reply: Patch -> Reply, ref: PodRef, was: string)
    ensures var id := LabelAfter(PlanWrites(plan, reply), ref, was);
      id == was || id == "" || exists b :: b in plan.bindings && b.uuid == id
  {
    LabelFromWrite(PlanWrites(plan, reply), ref, was);
    PruneWriteIds(plan.prunes, reply);
    BindWriteIds(plan.bindings, reply);
  }
}
