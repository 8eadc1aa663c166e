// What ComputePairingPatches decides, said of the snapshots alone: any pods, Ready or not, and any
// labels, repeated ones included.
module Decision {
  import opened Basics
  import opened Order
  import opened PairingLogic
  import opened Matching

  // ------------------------------------------------------------------ the prunes

  /** Position k holds the last pod of the list with this id. */
  ghost predicate LastAt(l: seq<PodSnapshot>, k: int, id: string) {
    0 <= k < |l| && l[k].pairId == id && forall j :: k < j < |l| ==> l[j].pairId != id
  }

  /** The last holders of the id on both sides are there and Ready. */
  ghost predicate HealthyId(managed: seq<PodSnapshot>, vllm: seq<PodSnapshot>, id: string) {
    exists i, j :: LastAt(managed, i, id) && LastAt(vllm, j, id) && managed[i].ready && vllm[j].ready
  }

  /** r is the last holder, on its side, of an id that is not healthy. */
  ghost predicate Released(managed: seq<PodSnapshot>, vllm: seq<PodSnapshot>, r: PodRef) {
    exists id, k :: id != "" && !HealthyId(managed, vllm, id) &&
      ((LastAt(managed, k, id) && r == PodRef(managed[k].name, managed[k].ns)) ||
       (LastAt(vllm, k, id) && r == PodRef(vllm[k].name, vllm[k].ns)))
  }

  lemma {:induction false} LastHolderAt(l: seq<PodSnapshot>, id: string)
    ensures forall k :: LastAt(l, k, id) ==> LastHolder(l, id) == Some(l[k])
    ensures LastHolder(l, id).Some? ==> exists k :: LastAt(l, k, id)
  {
    if l != [] {
      var n := |l| - 1;
      LastHolderAt(l[..n], id);
      if l[n].pairId == id {
        assert LastAt(l, n, id);
      } else {
        assert forall k :: LastAt(l, k, id) <==> LastAt(l[..n], k, id);
      }
    }
  }

  lemma HealthyEntryMeaning(managed: seq<PodSnapshot>, vllm: seq<PodSnapshot>, id: string)
    ensures HealthyEntry(EntryOf(managed, vllm, id)) <==> HealthyId(managed, vllm, id)
  {
    LastHolderAt(managed, id);
    LastHolderAt(vllm, id);
  }

  lemma StaleMeaning(managed: seq<PodSnapshot>, vllm: seq<PodSnapshot>, r: PodRef)
    ensures r in Stale(managed, vllm) <==> Released(managed, vllm, r)
  {
    if r in Stale(managed, vllm) {
      var id :| id in Ids(managed) + Ids(vllm) && !HealthyEntry(EntryOf(managed, vllm, id)) &&
                r in HolderRefs(EntryOf(managed, vllm, id));
      LastHolderAt(managed, id);
      LastHolderAt(vllm, id);
      HealthyEntryMeaning(managed, vllm, id);
    }
    if Released(managed, vllm, r) {
      var id, k :| id != "" && !HealthyId(managed, vllm, id) &&
        ((LastAt(managed, k, id) && r == PodRef(managed[k].name, managed[k].ns)) ||
         (LastAt(vllm, k, id) && r == PodRef(vllm[k].name, vllm[k].ns)));
      LastHolderAt(managed, id);
      LastHolderAt(vllm, id);
      HealthyEntryMeaning(managed, vllm, id);
      if LastAt(managed, k, id) {
        assert managed[k] in managed && id in Ids(managed);
      }
      if LastAt(vllm, k, id) {
        assert vllm[k] in vllm && id in Ids(vllm);
      }
      assert r in HolderRefs(EntryOf(managed, vllm, id));
    }
  }

  // ---------------------------------------------------------------- the bindings

  /** p is no worse a choice than q: never-labelled pods first, then by name. */
  ghost predicate Preferred(p: PodSnapshot, q: PodSnapshot) {
    && (q.pairId == "" ==> p.pairId == "")
    && ((p.pairId == "") == (q.pairId == "") ==> p.name == q.name || Precedes(p.name, q.name))
  }

  /** Ready, and unlabelled or about to lose the label. */
  ghost predicate Offered(p: PodSnapshot, prunes: seq<PodRef>) {
    p.ready && (p.pairId == "" || exists r :: r in prunes && Key(r) == Key(PodRef(p.name, p.ns)))
  }

  /** u lists, as often as l does, the pods of l on offer, better choices first. */
  ghost predicate OffersOf(l: seq<PodSnapshot>, prunes: seq<PodRef>, u: seq<PodSnapshot>) {
    && (forall p :: multiset(u)[p] == if Offered(p, prunes) then multiset(l)[p] else 0)
    && (forall i, j :: 0 <= i < j < |u| ==> Preferred(u[i], u[j]))
  }

  lemma SortedIsPreferred(p: PodSnapshot, q: PodSnapshot)
    requires !Before(q, p)
    ensures Preferred(p, q)
  {
    LexMeaning(p.name, q.name);
    LexTotal(p.name, q.name);
  }

  lemma {:induction false} UnpairedCounts(l: seq<PodSnapshot>, pruned: set<string>, p: PodSnapshot)
    ensures multiset(Unpaired(l, pruned))[p] == if Available(p, pruned) then multiset(l)[p] else 0
  {
    if l != [] {
      var n := |l| - 1;
      assert l == l[..n] + [l[n]];
      UnpairedCounts(l[..n], pruned, p);
    }
  }

  lemma SortedOffers(l: seq<PodSnapshot>, prunes: seq<PodRef>, pruned: set<string>, u: seq<PodSnapshot>)
    requires pruned == SeqKeys(prunes) && IsSort(u, Unpaired(l, pruned))
    ensures OffersOf(l, prunes, u)
  {
    forall p ensures multiset(u)[p] == if Offered(p, prunes) then multiset(l)[p] else 0 {
      UnpairedCounts(l, pruned, p);
      assert Key(RefOf(p)) in pruned <==> exists r :: r in prunes && Key(r) == Key(PodRef(p.name, p.ns));
    }
    forall i, j | 0 <= i < j < |u| ensures Preferred(u[i], u[j]) {
      SortedIsPreferred(u[i], u[j]);
    }
  }

  /** Entry i binds the i-th best choice of each side, as long as both sides have one. */
  ghost predicate BindsInOrder(bs: seq<Pairing>, mU: seq<PodSnapshot>, vU: seq<PodSnapshot>, newUUID: nat -> string) {
    && |bs| <= |mU| && |bs| <= |vU| && (|bs| == |mU| || |bs| == |vU|)
    && forall i :: 0 <= i < |bs| ==>
         bs[i] == Pairing(PodRef(mU[i].name, mU[i].ns), PodRef(vU[i].name, vU[i].ns), newUUID(i))
  }

  /** The whole decision: the pods that lose their label are the last holders of unhealthy ids, each
      key once, and the bindings take the best choices of both sides in order. */
  lemma PlanDecision(managed: seq<PodSnapshot>, vllm: seq<PodSnapshot>, newUUID: nat -> string, plan: PatchPlan)
    returns (mU: seq<PodSnapshot>, vU: seq<PodSnapshot>)
    requires IsPlan(managed, vllm, newUUID, plan)
    ensures forall r :: r in plan.prunes ==> Released(managed, vllm, r)
    ensures forall r :: Released(managed, vllm, r) ==> exists q :: q in plan.prunes && Key(q) == Key(r)
    ensures forall i, j :: 0 <= i < j < |plan.prunes| ==> Key(plan.prunes[i]) != Key(plan.prunes[j])
    ensures OffersOf(managed, plan.prunes, mU) && OffersOf(vllm, plan.prunes, vU)
    ensures BindsInOrder(plan.bindings, mU, vU, newUUID)
  {
    var stale := Stale(managed, vllm);
    forall r ensures r in stale <==> Released(managed, vllm, r) {
      StaleMeaning(managed, vllm, r);
    }
    forall r | r in stale ensures exists q :: q in plan.prunes && Key(q) == Key(r) {
      assert Key(r) in SeqKeys(plan.prunes);
    }
    mU, vU :| BindsGreedily(managed, vllm, KeysOf(stale), newUUID, plan.bindings, mU, vU);
    SortedOffers(managed, plan.prunes, KeysOf(stale), mU);
    SortedOffers(vllm, plan.prunes, KeysOf(stale), vU);
  }

  /** y is bound and x, on offer on the same side, is not. */
  ghost predicate PassedOver(l: seq<PodSnapshot>, prunes: seq<PodRef>, ends: seq<PodRef>, x: PodSnapshot, y: PodSnapshot) {
    && x in l && Offered(x, prunes) && PodRef(x.name, x.ns) !in ends
    && y in l && Offered(y, prunes) && PodRef(y.name, y.ns) in ends
  }

  ghost predicate DistinctRefs(l: seq<PodSnapshot>) {
    forall p, q :: p in l && q in l && p.name == q.name && p.ns == q.ns ==> p == q
  }

  function ManagedEnds(bs: seq<Pairing>): seq<PodRef> {
    seq(|bs|, i requires 0 <= i < |bs| => bs[i].managed)
  }

  function VLLMEnds(bs: seq<Pairing>): seq<PodRef> {
    seq(|bs|, i requires 0 <= i < |bs| => bs[i].vllm)
  }

  /** The ends of successive bindings, as pods of l, come in order of preference. */
  ghost predicate InOrder(l: seq<PodSnapshot>, ends: seq<PodRef>) {
    forall x, y, i, j :: (0 <= i < j < |ends| && x in l && y in l && ends[i] == PodRef(x.name, x.ns) &&
                          ends[j] == PodRef(y.name, y.ns)) ==> Preferred(x, y)
  }

  lemma OffersFirst(l: seq<PodSnapshot>, prunes: seq<PodRef>, u: seq<PodSnapshot>, ends: seq<PodRef>)
    requires OffersOf(l, prunes, u) && DistinctRefs(l) && |ends| <= |u|
    requires forall i :: 0 <= i < |ends| ==> ends[i] == PodRef(u[i].name, u[i].ns)
    ensures forall x, y :: PassedOver(l, prunes, ends, x, y) ==> Preferred(y, x)
    ensures InOrder(l, ends)
  {
    OffersListed(l, prunes, u);
    forall x, y | PassedOver(l, prunes, ends, x, y) ensures Preferred(y, x) {
      assert multiset(u)[x] > 0;
      var i :| 0 <= i < |u| && u[i] == x;
      var j :| 0 <= j < |ends| && ends[j] == PodRef(y.name, y.ns);
      assert u[j] in u && u[j] == y;
    }
    forall x, y, i, j | 0 <= i < j < |ends| && x in l && y in l && ends[i] == PodRef(x.name, x.ns) &&
                        ends[j] == PodRef(y.name, y.ns)
      ensures Preferred(x, y)
    {
      assert u[i] in u && u[j] in u;
    }
  }

  lemma OffersListed(l: seq<PodSnapshot>, prunes: seq<PodRef>, u: seq<PodSnapshot>)
    requires OffersOf(l, prunes, u)
    ensures forall p :: p in u ==> p in l && Offered(p, prunes)
    ensures forall p :: p in l && Offered(p, prunes) ==> p in u
  {
    forall p | p in u ensures p in l && Offered(p, prunes) {
      assert multiset(u)[p] > 0 && multiset(l)[p] > 0;
    }
    forall p | p in l && Offered(p, prunes) ensures p in u {
      assert multiset(l)[p] > 0 && multiset(u)[p] > 0;
    }
  }

  /** On either side no pod is passed over for a worse choice: never for one that carries a label if it
      has none itself, and within one class never for one whose name comes later. The ends of
      earlier bindings are no worse choices than those of later ones. */
  lemma FreshPodsFirst(managed: seq<PodSnapshot>, vllm: seq<PodSnapshot>, newUUID: nat -> string, plan: PatchPlan)
    requires IsPlan(managed, vllm, newUUID, plan) && DistinctRefs(managed) && DistinctRefs(vllm)
    ensures forall x, y :: PassedOver(managed, plan.prunes, ManagedEnds(plan.bindings), x, y) ==> Preferred(y, x)
    ensures forall x, y :: PassedOver(vllm, plan.prunes, VLLMEnds(plan.bindings), x, y) ==> Preferred(y, x)
    ensures InOrder(managed, ManagedEnds(plan.bindings)) && InOrder(vllm, VLLMEnds(plan.bindings))
  {
    var mU, vU := PlanDecision(managed, vllm, newUUID, plan);
    OffersFirst(managed, plan.prunes, mU, ManagedEnds(plan.bindings));
    OffersFirst(vllm, plan.prunes, vU, VLLMEnds(plan.bindings));
  }
}
