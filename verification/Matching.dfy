// What one pairing decision means for the pods it was computed from: which
// labels are stale, which pods are free, and that the plan does not depend on
// the order in which the API or a Go map enumerated them.
module Matching {
  import opened Basics
  import opened Order
  import opened PairingLogic

  datatype Pod = Pod(ready: bool, pairId: string)

  /** The pods of one Deployment, by name; a Deployment's pods share its namespace. */
  datatype Side = Side(ns: string, pods: map<string, Pod>)

  function Ref(s: Side, n: string): PodRef {
    PodRef(n, s.ns)
  }

  function Snap(s: Side, n: string): PodSnapshot
    requires n in s.pods
  {
    PodSnapshot(n, s.ns, s.pods[n].ready, s.pods[n].pairId)
  }

  ghost function Ready(s: Side): set<string> {
    set n | n in s.pods && s.pods[n].ready
  }

  ghost predicate Mates(a: Side, n: string, b: Side, n': string) {
    n in Ready(a) && n' in Ready(b) && a.pods[n].pairId != "" && a.pods[n].pairId == b.pods[n'].pairId
  }

  /** The Ready pods of `a` that share their label with a Ready pod of `b`. */
  ghost function Paired(a: Side, b: Side): set<string> {
    set n | n in Ready(a) && (exists n' :: Mates(a, n, b, n'))
  }

  /** The Ready pods of `a` whose label no Ready pod of `b` carries. */
  ghost function Orphans(a: Side, b: Side): set<string> {
    set n | n in Ready(a) && a.pods[n].pairId != "" && n !in Paired(a, b)
  }

  ghost predicate DistinctIds(s: Side) {
    forall n, n' :: n in s.pods && n' in s.pods && s.pods[n].pairId == s.pods[n'].pairId != "" ==> n == n'
  }

  /** Pod names are unique in a namespace, and namespaces contain no '/'. */
  ghost predicate Disjoint(a: Side, b: Side) {
    '/' !in a.ns && '/' !in b.ns && (a.ns == b.ns ==> a.pods.Keys !! b.pods.Keys)
  }

  /** What listOwnedReadyPods may return for a side: its Ready pods in some order. */
  ghost predicate IsListing(s: Side, l: seq<PodSnapshot>) {
    && (forall p :: p in l ==> p.name in Ready(s) && p == Snap(s, p.name))
    && (forall n :: n in Ready(s) ==> Snap(s, n) in l)
    && (forall i, j :: 0 <= i < j < |l| ==> l[i] != l[j])
  }

  /** That is: each Ready pod of the side once, with its name, namespace and label, and nothing else. */
  lemma ListingExactly(s: Side, l: seq<PodSnapshot>)
    requires IsListing(s, l)
    ensures forall p :: p in l <==>
              p.name in s.pods && s.pods[p.name].ready && p == PodSnapshot(p.name, s.ns, true, s.pods[p.name].pairId)
    ensures forall i, j :: 0 <= i < j < |l| ==> l[i].name != l[j].name
  {
    forall n | n in Ready(s) ensures PodSnapshot(n, s.ns, true, s.pods[n].pairId) in l {
      assert Snap(s, n) in l;
    }
    forall i, j | 0 <= i < j < |l| ensures l[i].name != l[j].name {
      assert l[i] in l && l[j] in l;
    }
  }

  ghost predicate Consistent(a: Side, b: Side) {
    DistinctIds(a) && DistinctIds(b) && Disjoint(a, b)
  }

  // ------------------------------------------------------------- stale labels

  lemma ListingHolder(s: Side, l: seq<PodSnapshot>, id: string)
    requires IsListing(s, l) && DistinctIds(s) && id != ""
    ensures forall n :: n in Ready(s) && s.pods[n].pairId == id ==> LastHolder(l, id) == Some(Snap(s, n))
    ensures LastHolder(l, id).Some? ==>
              var p := LastHolder(l, id).value;
              p.name in Ready(s) && p == Snap(s, p.name) && p.pairId == id
  {
    LastHolderCarries(l, id);
  }

  lemma HealthyIsMates(a: Side, b: Side, al: seq<PodSnapshot>, bl: seq<PodSnapshot>, n: string)
    requires IsListing(a, al) && IsListing(b, bl) && Consistent(a, b)
    requires n in Ready(a) && a.pods[n].pairId != ""
    ensures HealthyEntry(EntryOf(al, bl, a.pods[n].pairId)) <==> n in Paired(a, b)
    ensures HealthyEntry(EntryOf(bl, al, a.pods[n].pairId)) <==> n in Paired(a, b)
  {
    var id := a.pods[n].pairId;
    ListingHolder(a, al, id);
    ListingHolder(b, bl, id);
    if n in Paired(a, b) {
      var n' :| Mates(a, n, b, n');
    } else if LastHolder(bl, id).Some? {
      assert Mates(a, n, b, LastHolder(bl, id).value.name);
    }
  }

  ghost function OrphanRefs(a: Side, b: Side): set<PodRef> {
    set n | n in Orphans(a, b) :: Ref(a, n)
  }

  /** With distinct ids on each side, the indexed decision is exactly the two-sided one. */
  lemma StaleIsOrphans(m: Side, v: Side, ml: seq<PodSnapshot>, vl: seq<PodSnapshot>)
    requires IsListing(m, ml) && IsListing(v, vl) && Consistent(m, v)
    ensures Stale(ml, vl) == OrphanRefs(m, v) + OrphanRefs(v, m)
  {
    forall r | r in Stale(ml, vl) ensures r in OrphanRefs(m, v) + OrphanRefs(v, m) {
      var id :| id in Ids(ml) + Ids(vl) && !HealthyEntry(EntryOf(ml, vl, id)) && r in HolderRefs(EntryOf(ml, vl, id));
      ListingHolder(m, ml, id);
      ListingHolder(v, vl, id);
      if LastHolder(ml, id).Some? && r == RefOf(LastHolder(ml, id).value) {
        HealthyIsMates(m, v, ml, vl, r.name);
        assert r.name in Orphans(m, v);
      } else {
        HealthyIsMates(v, m, vl, ml, r.name);
        assert r.name in Orphans(v, m);
      }
    }
    forall n | n in Orphans(m, v) ensures Ref(m, n) in Stale(ml, vl) {
      HealthyIsMates(m, v, ml, vl, n);
      var id := m.pods[n].pairId;
      ListingHolder(m, ml, id);
      assert Snap(m, n) in ml;
      assert Ref(m, n) in HolderRefs(EntryOf(ml, vl, id)) && id in Ids(ml);
    }
    forall n | n in Orphans(v, m) ensures Ref(v, n) in Stale(ml, vl) {
      HealthyIsMates(v, m, vl, ml, n);
      var id := v.pods[n].pairId;
      ListingHolder(v, vl, id);
      assert Snap(v, n) in vl;
      assert Ref(v, n) in HolderRefs(EntryOf(ml, vl, id)) && id in Ids(vl);
    }
  }

  // ---------------------------------------------------------------- free pods

  lemma {:induction false} UnpairedElements(l: seq<PodSnapshot>, pruned: set<string>)
    ensures forall p :: p in Unpaired(l, pruned) <==> p in l && Available(p, pruned)
    ensures (forall i, j :: 0 <= i < j < |l| ==> l[i] != l[j]) ==>
              forall i, j :: 0 <= i < j < |Unpaired(l, pruned)| ==> Unpaired(l, pruned)[i] != Unpaired(l, pruned)[j]
  {
    if l != [] {
      var n := |l| - 1;
      assert l == l[..n] + [l[n]];
      UnpairedElements(l[..n], pruned);
      if forall i, j :: 0 <= i < j < |l| ==> l[i] != l[j] {
        assert l[n] !in l[..n];
      }
    }
  }

  /** The free pods of `a`, in the order sort.Slice left them. */
  ghost predicate IsFree(a: Side, b: Side, s: seq<PodSnapshot>) {
    && (forall p :: p in s ==> p.name in Ready(a) - Paired(a, b) && p == Snap(a, p.name))
    && (forall n :: n in Ready(a) - Paired(a, b) ==> Snap(a, n) in s)
    && (forall i, j :: 0 <= i < j < |s| ==> s[i].name != s[j].name)
    && Sorted(s)
  }

  lemma FreePods(a: Side, b: Side, al: seq<PodSnapshot>, stale: set<PodRef>, s: seq<PodSnapshot>)
    requires IsListing(a, al) && Consistent(a, b)
    requires stale == OrphanRefs(a, b) + OrphanRefs(b, a)
    requires IsSort(s, Unpaired(al, KeysOf(stale)))
    ensures IsFree(a, b, s)
  {
    var u := Unpaired(al, KeysOf(stale));
    UnpairedElements(al, KeysOf(stale));
    SameElements(s, u);
    forall p | p in al ensures p in s <==> p.name !in Paired(a, b) {
      if p.pairId == "" {
        assert p.name !in Paired(a, b);
      } else if Key(RefOf(p)) in KeysOf(stale) {
        var r :| r in stale && Key(r) == Key(RefOf(p));
        KeyInjective(r, RefOf(p));
        assert a.ns == b.ns ==> p.name !in b.pods;
        assert RefOf(p) in OrphanRefs(a, b);
      } else {
        assert RefOf(p) !in stale;
        assert RefOf(p) == Ref(a, p.name) && p.name !in Orphans(a, b);
      }
    }
    forall i, j | 0 <= i < j < |s| ensures s[i].name != s[j].name {
      assert s[i] in u && s[j] in u;
    }
  }

  lemma {:induction false} DistinctCounts<T>(s: seq<T>)
    ensures (forall i, j :: 0 <= i < j < |s| ==> s[i] != s[j]) <==> (forall x :: multiset(s)[x] <= 1)
  {
    if s != [] {
      var n := |s| - 1;
      var r := s[..n];
      assert s == r + [s[n]];
      DistinctCounts(r);
      if forall i, j :: 0 <= i < j < |s| ==> s[i] != s[j] {
        assert s[n] !in r;
        assert multiset(r)[s[n]] == 0;
      } else if forall i, j :: 0 <= i < j < |r| ==> r[i] != r[j] {
        var i, j :| 0 <= i < j < |s| && s[i] == s[j];
        assert j == n && s[n] in r;
        assert multiset(r)[s[n]] >= 1;
        assert multiset(s)[s[n]] >= 2;
      } else {
        var x :| multiset(r)[x] > 1;
        assert multiset(s)[x] > 1;
      }
    }
  }

  lemma SameElements<T>(s: seq<T>, u: seq<T>)
    requires multiset(s) == multiset(u)
    ensures forall x :: x in s <==> x in u
    ensures (forall i, j :: 0 <= i < j < |u| ==> u[i] != u[j]) ==> forall i, j :: 0 <= i < j < |s| ==> s[i] != s[j]
  {
    forall x ensures x in s <==> x in u {
      assert x in multiset(s) <==> x in multiset(u);
    }
    DistinctCounts(s);
    DistinctCounts(u);
  }

  lemma FreeCount(a: Side, b: Side, s: seq<PodSnapshot>)
    requires IsFree(a, b, s)
    ensures |s| == |Ready(a)| - |Paired(a, b)|
  {
    var names := seq(|s|, i requires 0 <= i < |s| => s[i].name);
    forall n | n in Ready(a) - Paired(a, b) ensures n in names {
      var i :| 0 <= i < |s| && s[i] == Snap(a, n);
      assert names[i] == n;
    }
    forall n | n in names ensures n in Ready(a) - Paired(a, b) {
      var i :| 0 <= i < |names| && names[i] == n;
      assert s[i] in s;
    }
    DistinctSeqSize(names, Ready(a) - Paired(a, b));
  }

  // -------------------------------------------------------------- determinism

  lemma TailElements(s: seq<PodSnapshot>)
    requires s != []
    requires forall i, j :: 0 <= i < j < |s| ==> s[i].name != s[j].name
    ensures forall p :: p in s[1..] <==> p in s && p != s[0]
  {
    assert s == [s[0]] + s[1..];
    forall k | 0 <= k < |s[1..]| ensures s[1..][k].name != s[0].name {
      assert s[1..][k] == s[k + 1];
    }
  }

  /** Two sorted lists of the same distinctly named pods are the same list. */
  lemma {:induction false} SortUnique(s: seq<PodSnapshot>, t: seq<PodSnapshot>)
    requires forall p :: p in s <==> p in t
    requires forall i, j :: 0 <= i < j < |s| ==> s[i].name != s[j].name
    requires forall i, j :: 0 <= i < j < |t| ==> t[i].name != t[j].name
    requires Sorted(s) && Sorted(t)
    ensures s == t
  {
    assert t != [] ==> t[0] in s;
    if s != [] {
      assert s[0] in t;
      var i :| 0 <= i < |t| && t[i] == s[0];
      var j :| 0 <= j < |s| && s[j] == t[0];
      LexTotal(s[0].name, t[0].name);
      assert !Before(t[i], t[0]) || i == 0;
      assert !Before(s[j], s[0]) || j == 0;
      assert s[0] == t[0];
      TailElements(s);
      TailElements(t);
      SortUnique(s[1..], t[1..]);
      assert s == [s[0]] + s[1..] && t == [t[0]] + t[1..];
    }
  }

  lemma SameMultiset<T>(s: seq<T>, t: seq<T>)
    requires forall i, j :: 0 <= i < j < |s| ==> s[i] != s[j]
    requires forall i, j :: 0 <= i < j < |t| ==> t[i] != t[j]
    requires forall x :: x in s <==> x in t
    ensures multiset(s) == multiset(t)
  {
    DistinctCounts(s);
    DistinctCounts(t);
    forall x ensures multiset(s)[x] == multiset(t)[x] {
      assert x in s <==> x in multiset(s);
      assert x in t <==> x in multiset(t);
    }
  }

  /** The plan in terms of the two sides: the orphans of both lose their label, each
      exactly once, and the free pods `mU` and `vU` are bound in order. */
  ghost predicate Decides(m: Side, v: Side, plan: PatchPlan, newUUID: nat -> string,
      mU: seq<PodSnapshot>, vU: seq<PodSnapshot>) {
    && (forall r :: r in plan.prunes <==> r in OrphanRefs(m, v) + OrphanRefs(v, m))
    && (forall i, j :: 0 <= i < j < |plan.prunes| ==> plan.prunes[i] != plan.prunes[j])
    && IsFree(m, v, mU) && IsFree(v, m, vU)
    && plan.bindings == Bind(mU, vU, newUUID)
  }

  lemma PrunesByRef(prunes: seq<PodRef>, stale: set<PodRef>)
    requires PrunesExactly(prunes, stale)
    requires forall r :: r in stale ==> '/' !in r.ns
    ensures forall r :: r in prunes <==> r in stale
    ensures forall i, j :: 0 <= i < j < |prunes| ==> prunes[i] != prunes[j]
  {
    forall r | r in stale ensures r in prunes {
      assert Key(r) in SeqKeys(prunes);
      var q :| q in prunes && Key(q) == Key(r);
      KeyInjective(q, r);
    }
  }

  lemma PlanMeaning(m: Side, v: Side, ml: seq<PodSnapshot>, vl: seq<PodSnapshot>, newUUID: nat -> string, plan: PatchPlan)
    returns (mU: seq<PodSnapshot>, vU: seq<PodSnapshot>)
    requires IsListing(m, ml) && IsListing(v, vl) && Consistent(m, v)
    requires IsPlan(ml, vl, newUUID, plan)
    ensures Decides(m, v, plan, newUUID, mU, vU)
  {
    var stale := Stale(ml, vl);
    StaleIsOrphans(m, v, ml, vl);
    PrunesByRef(plan.prunes, OrphanRefs(m, v) + OrphanRefs(v, m));
    mU, vU :| BindsGreedily(ml, vl, KeysOf(stale), newUUID, plan.bindings, mU, vU);
    FreePods(m, v, ml, stale, mU);
    assert stale == OrphanRefs(v, m) + OrphanRefs(m, v);
    FreePods(v, m, vl, stale, vU);
  }

  lemma FreeSame(a: Side, b: Side, s: seq<PodSnapshot>, t: seq<PodSnapshot>)
    requires IsFree(a, b, s) && IsFree(a, b, t)
    ensures s == t
  {
    SortUnique(s, t);
  }

  /** The prune set and the list of bindings do not depend on the order in which the API
      listed the pods, on map iteration order, or on the sorting algorithm. */
  lemma PlanDeterministic(m: Side, v: Side, ml: seq<PodSnapshot>, vl: seq<PodSnapshot>,
      ml': seq<PodSnapshot>, vl': seq<PodSnapshot>, newUUID: nat -> string, plan: PatchPlan, plan': PatchPlan)
    requires Consistent(m, v)
    requires IsListing(m, ml) && IsListing(v, vl) && IsPlan(ml, vl, newUUID, plan)
    requires IsListing(m, ml') && IsListing(v, vl') && IsPlan(ml', vl', newUUID, plan')
    ensures forall r :: r in plan.prunes <==> r in plan'.prunes
    ensures multiset(plan.prunes) == multiset(plan'.prunes)
    ensures plan.bindings == plan'.bindings
  {
    var mU, vU := PlanMeaning(m, v, ml, vl, newUUID, plan);
    var mU', vU' := PlanMeaning(m, v, ml', vl', newUUID, plan');
    FreeSame(m, v, mU, mU');
    FreeSame(v, m, vU, vU');
    SameMultiset(plan.prunes, plan'.prunes);
  }

  // ----------------------------------------------------- repeated ids in a side

  /** A listing as the reconciler gets it: Ready pods only, each listed under one reference, and
      none of them on the other side. */
  ghost predicate ReadyListings(ml: seq<PodSnapshot>, vl: seq<PodSnapshot>) {
    && (forall p :: p in ml + vl ==> p.ready)
    && (forall p, q :: p in ml + vl && q in ml + vl && RefOf(p) == RefOf(q) ==> p == q)
    && (forall p :: p in ml ==> p !in vl)
  }

  /** No id that the other side lacks is carried twice on this one. */
  ghost predicate UnmatchedOnce(al: seq<PodSnapshot>, bl: seq<PodSnapshot>) {
    forall p, q :: p in al && q in al && p.pairId == q.pairId != "" && p.pairId !in Ids(bl) ==> p == q
  }

  ghost function UnmatchedRefs(al: seq<PodSnapshot>, bl: seq<PodSnapshot>): set<PodRef> {
    set p | p in al && p.pairId != "" && p.pairId !in Ids(bl) :: RefOf(p)
  }

  ghost predicate OrderFree(ml: seq<PodSnapshot>, vl: seq<PodSnapshot>) {
    forall ml', vl' :: multiset(ml') == multiset(ml) && multiset(vl') == multiset(vl) ==>
      Stale(ml', vl') == Stale(ml, vl)
  }

  lemma ReadyEntry(ml: seq<PodSnapshot>, vl: seq<PodSnapshot>, id: string)
    requires (forall p :: p in ml + vl ==> p.ready) && id != ""
    ensures HealthyEntry(EntryOf(ml, vl, id)) <==> id in Ids(ml) && id in Ids(vl)
    ensures LastHolder(ml, id).Some? <==> id in Ids(ml)
    ensures LastHolder(vl, id).Some? <==> id in Ids(vl)
  {
    LastHolderCarries(ml, id);
    LastHolderCarries(vl, id);
    assert forall p :: p in ml || p in vl ==> p in ml + vl;
  }

  lemma StaleIsUnmatched(ml: seq<PodSnapshot>, vl: seq<PodSnapshot>)
    requires ReadyListings(ml, vl) && UnmatchedOnce(ml, vl) && UnmatchedOnce(vl, ml)
    ensures Stale(ml, vl) == UnmatchedRefs(ml, vl) + UnmatchedRefs(vl, ml)
  {
    forall id | id in Ids(ml) + Ids(vl)
      ensures !HealthyEntry(EntryOf(ml, vl, id)) ==>
                forall r :: r in HolderRefs(EntryOf(ml, vl, id)) ==> r in UnmatchedRefs(ml, vl) + UnmatchedRefs(vl, ml)
    {
      ReadyEntry(ml, vl, id);
      LastHolderCarries(ml, id);
      LastHolderCarries(vl, id);
    }
    forall r | r in UnmatchedRefs(ml, vl) ensures r in Stale(ml, vl) {
      var p :| p in ml && p.pairId != "" && p.pairId !in Ids(vl) && RefOf(p) == r;
      UnmatchedIsStale(ml, vl, p);
    }
    forall r | r in UnmatchedRefs(vl, ml) ensures r in Stale(ml, vl) {
      var p :| p in vl && p.pairId != "" && p.pairId !in Ids(ml) && RefOf(p) == r;
      UnmatchedIsStale(vl, ml, p);
      StaleSymmetric(ml, vl);
    }
  }

  lemma StaleSymmetric(ml: seq<PodSnapshot>, vl: seq<PodSnapshot>)
    ensures Stale(ml, vl) == Stale(vl, ml)
  {
    forall id ensures HealthyEntry(EntryOf(ml, vl, id)) == HealthyEntry(EntryOf(vl, ml, id))
      ensures HolderRefs(EntryOf(ml, vl, id)) == HolderRefs(EntryOf(vl, ml, id))
    {
    }
  }

  /** The only holder of an id that the other side lacks is pruned. */
  lemma UnmatchedIsStale(al: seq<PodSnapshot>, bl: seq<PodSnapshot>, p: PodSnapshot)
    requires (forall q :: q in al + bl ==> q.ready) && p in al && p.pairId != "" && p.pairId !in Ids(bl)
    requires LastHolder(al, p.pairId) == Some(p) || UnmatchedOnce(al, bl)
    ensures RefOf(p) in Stale(al, bl)
  {
    LastHolderCarries(al, p.pairId);
    ReadyEntry(al, bl, p.pairId);
    assert RefOf(p) in HolderRefs(EntryOf(al, bl, p.pairId));
  }

  /** A pod that is not the last holder of its id is not pruned. */
  lemma OtherHolderSpared(al: seq<PodSnapshot>, bl: seq<PodSnapshot>, q: PodSnapshot)
    requires ReadyListings(al, bl) && q in al && LastHolder(al, q.pairId) != Some(q)
    ensures RefOf(q) !in Stale(al, bl)
  {
    forall id ensures RefOf(q) !in HolderRefs(EntryOf(al, bl, id)) {
      NotHolder(al, bl, q, id);
    }
  }

  lemma NotHolder(al: seq<PodSnapshot>, bl: seq<PodSnapshot>, q: PodSnapshot, id: string)
    requires ReadyListings(al, bl) && q in al && LastHolder(al, q.pairId) != Some(q)
    ensures RefOf(q) !in HolderRefs(EntryOf(al, bl, id))
  {
    LastHolderCarries(al, id);
    LastHolderCarries(bl, id);
    assert forall p :: p in al || p in bl <==> p in al + bl;
    assert LastHolder(al, id).Some? ==> LastHolder(al, id).value != q;
  }

  /** The same pods with p listed last. */
  lemma Last(al: seq<PodSnapshot>, p: PodSnapshot) returns (al': seq<PodSnapshot>)
    requires p in al
    ensures multiset(al') == multiset(al) && LastHolder(al', p.pairId) == Some(p)
  {
    var i :| 0 <= i < |al| && al[i] == p;
    al' := al[..i] + al[i + 1..] + [p];
    assert al == al[..i] + [p] + al[i + 1..];
  }

  /** For Ready listings, repeated ids included, the prunes are independent of the listing order
      if and only if no id is carried twice on one side and missing on the other. */
  lemma OrderFreeIff(ml: seq<PodSnapshot>, vl: seq<PodSnapshot>)
    requires ReadyListings(ml, vl)
    ensures OrderFree(ml, vl) <==> UnmatchedOnce(ml, vl) && UnmatchedOnce(vl, ml)
  {
    if UnmatchedOnce(ml, vl) && UnmatchedOnce(vl, ml) {
      StaleIsUnmatched(ml, vl);
      forall ml', vl' | multiset(ml') == multiset(ml) && multiset(vl') == multiset(vl)
        ensures Stale(ml', vl') == Stale(ml, vl)
      {
        SamePodsListed(ml, vl, ml', vl');
        StaleIsUnmatched(ml', vl');
      }
    }
    if !UnmatchedOnce(ml, vl) {
      RepeatedIdOrderMatters(ml, vl);
    }
    if !UnmatchedOnce(vl, ml) {
      RepeatedIdOrderMatters(vl, ml);
      StaleSymmetric(ml, vl);
      forall ml', vl' ensures Stale(ml', vl') == Stale(vl', ml') {
        StaleSymmetric(ml', vl');
      }
    }
  }

  lemma SamePodsListed(ml: seq<PodSnapshot>, vl: seq<PodSnapshot>, ml': seq<PodSnapshot>, vl': seq<PodSnapshot>)
    requires multiset(ml') == multiset(ml) && multiset(vl') == multiset(vl)
    requires ReadyListings(ml, vl)
    ensures ReadyListings(ml', vl')
    ensures UnmatchedOnce(ml, vl) ==> UnmatchedOnce(ml', vl')
    ensures UnmatchedOnce(vl, ml) ==> UnmatchedOnce(vl', ml')
    ensures UnmatchedRefs(ml', vl') == UnmatchedRefs(ml, vl) && UnmatchedRefs(vl', ml') == UnmatchedRefs(vl, ml)
  {
    SameElements(ml', ml);
    SameElements(vl', vl);
    assert Ids(ml') == Ids(ml) && Ids(vl') == Ids(vl);
    assert forall p :: p in ml' + vl' <==> p in ml + vl;
  }

  lemma RepeatedIdOrderMatters(al: seq<PodSnapshot>, bl: seq<PodSnapshot>)
    requires ReadyListings(al, bl) && !UnmatchedOnce(al, bl)
    ensures exists al1, al2 :: multiset(al1) == multiset(al) == multiset(al2) && Stale(al1, bl) != Stale(al2, bl)
  {
    var p, q :| p in al && q in al && p.pairId == q.pairId != "" && p.pairId !in Ids(bl) && p != q;
    var al1 := Last(al, p);
    var al2 := Last(al, q);
    SamePodsListed(al, bl, al1, bl);
    SamePodsListed(al, bl, al2, bl);
    SameElements(al1, al);
    SameElements(al2, al);
    OtherHolderSpared(al1, bl, q);
    UnmatchedIsStale(al2, bl, q);
  }

  /** Two Ready pods with one id that the other side lacks: the one listed last is pruned. */
  lemma DuplicateIdsOrderMatters() returns (a: PodSnapshot, b: PodSnapshot)
    ensures a.ready && b.ready && a.pairId == b.pairId && a.name != b.name
    ensures Stale([a, b], []) == {RefOf(b)} && Stale([b, a], []) == {RefOf(a)}
  {
    a := PodSnapshot("m-1", "ns", true, "X");
    b := PodSnapshot("m-2", "ns", true, "X");
    assert Ids([a, b]) == {"X"} && Ids([b, a]) == {"X"} by {
      assert a in [a, b] && a in [b, a];
    }
    assert Ids([]) == {};
    assert EntryOf([a, b], [], "X") == Entry(Some(b), None);
    assert EntryOf([b, a], [], "X") == Entry(Some(a), None);
    assert Stale([a, b], []) == HolderRefs(Entry(Some(b), None));
    assert Stale([b, a], []) == HolderRefs(Entry(Some(a), None));
  }
}
