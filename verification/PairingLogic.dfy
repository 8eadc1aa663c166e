// Model of pkg/actuator/pairing_logic.go: the prune and bind decision computed
// from one snapshot of the pods on the managed side and on the vLLM side.
module PairingLogic {
  import opened Basics
  import opened Order

  /** A pod as the decision sees it; an absent pair-id label reads as "". */
  datatype PodSnapshot = PodSnapshot(name: string, ns: string, ready: bool, pairId: string)

  datatype PodRef = PodRef(name: string, ns: string)

  datatype Pairing = Pairing(managed: PodRef, vllm: PodRef, uuid: string)

  datatype PatchPlan = PatchPlan(prunes: seq<PodRef>, bindings: seq<Pairing>)

  /** The holders that the pair-id index records for one id. */
  datatype Entry = Entry(mPod: Option<PodSnapshot>, vPod: Option<PodSnapshot>)

  function RefOf(p: PodSnapshot): PodRef {
    PodRef(p.name, p.ns)
  }

  /** The key of the source's `pruned` map. */
  function Key(r: PodRef): string {
    r.ns + "/" + r.name
  }

  lemma KeyInjective(a: PodRef, b: PodRef)
    requires '/' !in a.ns && '/' !in b.ns
    requires Key(a) == Key(b)
    ensures a == b
  {
    assert Key(a)[|a.ns|] == '/' && Key(b)[|b.ns|] == '/';
    assert forall i :: 0 <= i < |a.ns| ==> Key(a)[i] == a.ns[i] != '/';
    assert forall i :: 0 <= i < |b.ns| ==> Key(b)[i] == b.ns[i] != '/';
    assert a.ns == Key(a)[..|a.ns|] && b.ns == Key(b)[..|b.ns|];
    assert a.name == Key(a)[|a.ns| + 1..] && b.name == Key(b)[|b.ns| + 1..];
  }

  // ---------------------------------------------------------------- the index

  function Ids(pods: seq<PodSnapshot>): set<string> {
    set p | p in pods && p.pairId != "" :: p.pairId
  }

  /** The pod the index keeps for an id: the last one listed that carries it. */
  function LastHolder(pods: seq<PodSnapshot>, id: string): Option<PodSnapshot> {
    if pods == [] then None
    else if pods[|pods| - 1].pairId == id then Some(pods[|pods| - 1])
    else LastHolder(pods[..|pods| - 1], id)
  }

  lemma {:induction false} LastHolderCarries(pods: seq<PodSnapshot>, id: string)
    ensures match LastHolder(pods, id)
            case Some(p) => p in pods && p.pairId == id
            case None => forall p :: p in pods ==> p.pairId != id
  {
    if pods != [] {
      var n := |pods| - 1;
      assert pods == pods[..n] + [pods[n]];
      LastHolderCarries(pods[..n], id);
    }
  }

  ghost predicate Indexed(idx: map<string, Entry>, managed: seq<PodSnapshot>, vllm: seq<PodSnapshot>) {
    && idx.Keys == Ids(managed) + Ids(vllm)
    && forall id :: id in idx ==> idx[id] == Entry(LastHolder(managed, id), LastHolder(vllm, id))
  }

  predicate HealthyEntry(e: Entry) {
    e.mPod.Some? && e.vPod.Some? && e.mPod.value.ready && e.vPod.value.ready
  }

  function EntryOf(managed: seq<PodSnapshot>, vllm: seq<PodSnapshot>, id: string): Entry {
    Entry(LastHolder(managed, id), LastHolder(vllm, id))
  }

  // --------------------------------------------------------- what is decided

  ghost function HolderRefs(e: Entry): set<PodRef> {
    (if e.mPod.Some? then {RefOf(e.mPod.value)} else {}) +
    (if e.vPod.Some? then {RefOf(e.vPod.value)} else {})
  }

  /** The indexed holders of those ids that lack a Ready holder on some side. */
  ghost function StaleRefs(managed: seq<PodSnapshot>, vllm: seq<PodSnapshot>, ids: set<string>): set<PodRef> {
    set id, r | id in ids && !HealthyEntry(EntryOf(managed, vllm, id)) &&
                r in HolderRefs(EntryOf(managed, vllm, id)) :: r
  }

  ghost function Stale(managed: seq<PodSnapshot>, vllm: seq<PodSnapshot>): set<PodRef> {
    StaleRefs(managed, vllm, Ids(managed) + Ids(vllm))
  }

  ghost function KeysOf(refs: set<PodRef>): set<string> {
    set r | r in refs :: Key(r)
  }

  ghost function SeqKeys(refs: seq<PodRef>): set<string> {
    set r | r in refs :: Key(r)
  }

  ghost predicate DistinctKeys(refs: seq<PodRef>) {
    forall i, j :: 0 <= i < j < |refs| ==> Key(refs[i]) != Key(refs[j])
  }

  /** The prunes name stale holders only, each key of a stale holder exactly once. */
  ghost predicate PrunesExactly(prunes: seq<PodRef>, stale: set<PodRef>) {
    && DistinctKeys(prunes)
    && (forall r :: r in prunes ==> r in stale)
    && SeqKeys(prunes) == KeysOf(stale)
  }

  predicate Available(p: PodSnapshot, pruned: set<string>) {
    p.ready && (p.pairId == "" || Key(RefOf(p)) in pruned)
  }

  function Unpaired(pods: seq<PodSnapshot>, pruned: set<string>): seq<PodSnapshot> {
    if pods == [] then []
    else
      var rest := Unpaired(pods[..|pods| - 1], pruned);
      var p := pods[|pods| - 1];
      if Available(p, pruned) then rest + [p] else rest
  }

  /** The comparison passed to sort.Slice: never-labelled pods first, then by name. */
  predicate Before(p: PodSnapshot, q: PodSnapshot) {
    if (p.pairId == "") != (q.pairId == "") then p.pairId == ""
    else LexLess(p.name, q.name)
  }

  ghost predicate Sorted(s: seq<PodSnapshot>) {
    forall i, j :: 0 <= i < j < |s| ==> !Before(s[j], s[i])
  }

  /** All that sort.Slice promises: the same pods, none before an earlier one. */
  ghost predicate IsSort(s: seq<PodSnapshot>, of: seq<PodSnapshot>) {
    multiset(s) == multiset(of) && Sorted(s)
  }

  function Bind(mUnpaired: seq<PodSnapshot>, vUnpaired: seq<PodSnapshot>, newUUID: nat -> string): (bs: seq<Pairing>)
    ensures |bs| == Min(|mUnpaired|, |vUnpaired|)
    ensures forall i :: 0 <= i < |bs| ==> bs[i].managed == RefOf(mUnpaired[i]) && bs[i].vllm == RefOf(vUnpaired[i])
    ensures forall i :: 0 <= i < |bs| ==> bs[i].uuid == newUUID(i)
  {
    seq(Min(|mUnpaired|, |vUnpaired|), i requires 0 <= i < |mUnpaired| && i < |vUnpaired| =>
      Pairing(RefOf(mUnpaired[i]), RefOf(vUnpaired[i]), newUUID(i)))
  }

  ghost predicate BindsGreedily(managed: seq<PodSnapshot>, vllm: seq<PodSnapshot>, pruned: set<string>,
      newUUID: nat -> string, bindings: seq<Pairing>, mUnpaired: seq<PodSnapshot>, vUnpaired: seq<PodSnapshot>) {
    && IsSort(mUnpaired, Unpaired(managed, pruned))
    && IsSort(vUnpaired, Unpaired(vllm, pruned))
    && bindings == Bind(mUnpaired, vUnpaired, newUUID)
  }

  /** The outcomes that ComputePairingPatches may return. Map iteration order leaves
      the order of the prunes open; sort.Slice may order equal names either way. */
  ghost predicate IsPlan(managed: seq<PodSnapshot>, vllm: seq<PodSnapshot>, newUUID: nat -> string, plan: PatchPlan) {
    && PrunesExactly(plan.prunes, Stale(managed, vllm))
    && exists mU, vU :: BindsGreedily(managed, vllm, KeysOf(Stale(managed, vllm)), newUUID, plan.bindings, mU, vU)
  }

  // -------------------------------------------------------------- the methods

  method AddPrune(pruned: set<string>, prunes: seq<PodRef>, p: Option<PodSnapshot>)
    returns (pruned': set<string>, prunes': seq<PodRef>)
    requires DistinctKeys(prunes)
    requires pruned == SeqKeys(prunes)
    ensures DistinctKeys(prunes')
    ensures pruned' == SeqKeys(prunes')
    ensures prunes <= prunes'
    ensures forall r :: r in prunes' ==> r in prunes || (p.Some? && r == RefOf(p.value))
    ensures pruned' == pruned + (if p.Some? then {Key(RefOf(p.value))} else {})
  {
    pruned', prunes' := pruned, prunes;
    if p.Some? && Key(RefOf(p.value)) !in pruned {
      pruned' := pruned + {Key(RefOf(p.value))};
      prunes' := prunes + [RefOf(p.value)];
      assert forall q :: q in prunes' <==> q in prunes || q == RefOf(p.value);
    }
  }

  /** Clear the label of both recorded holders. */
  method AddPrunes(pruned: set<string>, prunes: seq<PodRef>, e: Entry)
    returns (pruned': set<string>, prunes': seq<PodRef>)
    requires DistinctKeys(prunes)
    requires pruned == SeqKeys(prunes)
    ensures DistinctKeys(prunes')
    ensures pruned' == SeqKeys(prunes')
    ensures forall r :: r in prunes ==> r in prunes'
    ensures forall r :: r in prunes' ==> r in prunes || r in HolderRefs(e)
    ensures forall r :: r in HolderRefs(e) ==> Key(r) in pruned'
    ensures pruned <= pruned'
  {
    pruned', prunes' := AddPrune(pruned, prunes, e.mPod);
    pruned', prunes' := AddPrune(pruned', prunes', e.vPod);
  }

  /** sort.Slice, here as an insertion sort. Callers know only its contract. */
  method SortSlice(pods: seq<PodSnapshot>) returns (out: seq<PodSnapshot>)
    ensures IsSort(out, pods)
  {
    out := [];
    for i := 0 to |pods|
      invariant IsSort(out, pods[..i])
    {
      assert pods[..i + 1] == pods[..i] + [pods[i]];
      out := Insert(out, pods[i]);
    }
    assert pods[..|pods|] == pods;
  }

  method Insert(s: seq<PodSnapshot>, p: PodSnapshot) returns (out: seq<PodSnapshot>)
    requires Sorted(s)
    ensures Sorted(out) && multiset(out) == multiset(s) + multiset{p}
  {
    var k := |s|;
    while k > 0 && Before(p, s[k - 1])
      invariant 0 <= k <= |s|
      invariant forall j :: k <= j < |s| ==> Before(p, s[j])
    {
      k := k - 1;
    }
    out := s[..k] + [p] + s[k..];
    assert s == s[..k] + s[k..];
    SortedInsert(s, p, k);
  }

  lemma BeforeAsymmetric(p: PodSnapshot, q: PodSnapshot)
    ensures !(Before(p, q) && Before(q, p))
  {
    if LexLess(p.name, q.name) && LexLess(q.name, p.name) {
      LexTransitive(p.name, q.name, p.name);
      LexIrreflexive(p.name);
    }
  }

  lemma BeforeTransitive(p: PodSnapshot, q: PodSnapshot, r: PodSnapshot)
    ensures Before(p, q) && Before(q, r) ==> Before(p, r)
    ensures !Before(q, p) && !Before(r, q) ==> !Before(r, p)
  {
    LexTotal(p.name, q.name);
    LexTotal(q.name, r.name);
    if LexLess(p.name, q.name) && LexLess(q.name, r.name) {
      LexTransitive(p.name, q.name, r.name);
    }
    if LexLess(r.name, p.name) {
      if LexLess(p.name, q.name) {
        LexTransitive(r.name, p.name, q.name);
      }
      if LexLess(q.name, r.name) {
        LexTransitive(q.name, r.name, p.name);
      }
    }
  }

  lemma SortedInsert(s: seq<PodSnapshot>, p: PodSnapshot, k: nat)
    requires Sorted(s) && k <= |s|
    requires k > 0 ==> !Before(p, s[k - 1])
    requires forall j :: k <= j < |s| ==> Before(p, s[j])
    ensures Sorted(s[..k] + [p] + s[k..])
  {
    var t := s[..k] + [p] + s[k..];
    forall i, j | 0 <= i < j < |t| ensures !Before(t[j], t[i]) {
      if j == k {
        if i < k - 1 {
          BeforeTransitive(s[i], s[k - 1], p);
        }
      } else if i == k {
        BeforeAsymmetric(p, s[j - 1]);
      } else {
        assert t[i] == s[if i < k then i else i - 1] && t[j] == s[if j < k then j else j - 1];
      }
    }
  }

  method EffectivelyUnpaired(pods: seq<PodSnapshot>, pruned: set<string>) returns (out: seq<PodSnapshot>)
    ensures IsSort(out, Unpaired(pods, pruned))
  {
    out := [];
    for i := 0 to |pods|
      invariant out == Unpaired(pods[..i], pruned)
    {
      var p := pods[i];
      assert pods[..i + 1][..i] == pods[..i];
      if !p.ready {
        continue;
      }
      if p.pairId == "" || Key(RefOf(p)) in pruned {
        out := out + [p];
      }
    }
    assert pods[..|pods|] == pods;
    out := SortSlice(out);
  }

  /** Build the pair-id index from both sides. */
  method BuildIndex(managed: seq<PodSnapshot>, vllm: seq<PodSnapshot>) returns (idx: map<string, Entry>)
    ensures Indexed(idx, managed, vllm)
  {
    idx := map[];
    for i := 0 to |managed|
      invariant Indexed(idx, managed[..i], [])
    {
      var p := managed[i];
      IndexManaged(idx, managed, i);
      if p.pairId == "" {
        continue;
      }
      if p.pairId in idx {
        idx := idx[p.pairId := idx[p.pairId].(mPod := Some(p))];
      } else {
        idx := idx[p.pairId := Entry(Some(p), None)];
      }
    }
    assert managed[..|managed|] == managed;
    for i := 0 to |vllm|
      invariant Indexed(idx, managed, vllm[..i])
    {
      var p := vllm[i];
      IndexVLLM(idx, managed, vllm, i);
      if p.pairId == "" {
        continue;
      }
      if p.pairId in idx {
        idx := idx[p.pairId := idx[p.pairId].(vPod := Some(p))];
      } else {
        idx := idx[p.pairId := Entry(None, Some(p))];
      }
    }
    assert vllm[..|vllm|] == vllm;
  }

  lemma IndexManaged(idx: map<string, Entry>, managed: seq<PodSnapshot>, i: nat)
    requires i < |managed| && Indexed(idx, managed[..i], [])
    ensures var p := managed[i];
      if p.pairId == "" then Indexed(idx, managed[..i + 1], [])
      else if p.pairId in idx then Indexed(idx[p.pairId := idx[p.pairId].(mPod := Some(p))], managed[..i + 1], [])
      else Indexed(idx[p.pairId := Entry(Some(p), None)], managed[..i + 1], [])
  {
    IdsAppend(managed, i);
    LastHolderCarries(managed[..i], managed[i].pairId);
  }

  lemma IndexVLLM(idx: map<string, Entry>, managed: seq<PodSnapshot>, vllm: seq<PodSnapshot>, i: nat)
    requires i < |vllm| && Indexed(idx, managed, vllm[..i])
    ensures var p := vllm[i];
      if p.pairId == "" then Indexed(idx, managed, vllm[..i + 1])
      else if p.pairId in idx then Indexed(idx[p.pairId := idx[p.pairId].(vPod := Some(p))], managed, vllm[..i + 1])
      else Indexed(idx[p.pairId := Entry(None, Some(p))], managed, vllm[..i + 1])
  {
    IdsAppend(vllm, i);
    LastHolderCarries(managed, vllm[i].pairId);
    LastHolderCarries(vllm[..i], vllm[i].pairId);
  }

  lemma IdsAppend(pods: seq<PodSnapshot>, i: nat)
    requires i < |pods|
    ensures Ids(pods[..i + 1]) == Ids(pods[..i]) + if pods[i].pairId == "" then {} else {pods[i].pairId}
    ensures forall id :: LastHolder(pods[..i + 1], id) ==
                         if pods[i].pairId == id then Some(pods[i]) else LastHolder(pods[..i], id)
  {
    var longer := pods[..i + 1];
    assert longer == pods[..i] + [pods[i]];
    assert longer[..|longer| - 1] == pods[..i];
    forall id ensures LastHolder(longer, id) ==
                      if pods[i].pairId == id then Some(pods[i]) else LastHolder(pods[..i], id) {
      assert longer != [] && longer[|longer| - 1] == pods[i];
    }
  }

  lemma StaleRefsExtend(managed: seq<PodSnapshot>, vllm: seq<PodSnapshot>, ids: set<string>, id: string)
    ensures StaleRefs(managed, vllm, ids + {id}) == StaleRefs(managed, vllm, ids) +
              if HealthyEntry(EntryOf(managed, vllm, id)) then {} else HolderRefs(EntryOf(managed, vllm, id))
  {
  }

  /** A pair-id is healthy iff both peers are present and Ready; visit the ids in any order. */
  method PruneUnhealthy(idx: map<string, Entry>, ghost managed: seq<PodSnapshot>, ghost vllm: seq<PodSnapshot>)
    returns (pruned: set<string>, prunes: seq<PodRef>)
    requires Indexed(idx, managed, vllm)
    ensures pruned == KeysOf(Stale(managed, vllm))
    ensures PrunesExactly(prunes, Stale(managed, vllm))
  {
    pruned, prunes := {}, [];
    var todo := idx.Keys;
    ghost var done: set<string> := {};
    while todo != {}
      invariant todo <= idx.Keys && done == idx.Keys - todo
      invariant DistinctKeys(prunes)
      invariant pruned == SeqKeys(prunes)
      invariant forall r :: r in prunes ==> r in StaleRefs(managed, vllm, done)
      invariant forall r :: r in StaleRefs(managed, vllm, done) ==> Key(r) in pruned
    {
      var id :| id in todo;
      todo := todo - {id};
      var e := idx[id];
      StaleRefsExtend(managed, vllm, done, id);
      done := done + {id};
      if !HealthyEntry(e) {
        pruned, prunes := AddPrunes(pruned, prunes, e);
      }
    }
    assert done == Ids(managed) + Ids(vllm);
  }

  method ComputePairingPatches(managed: seq<PodSnapshot>, vllm: seq<PodSnapshot>, newUUID: nat -> string)
    returns (plan: PatchPlan)
    ensures IsPlan(managed, vllm, newUUID, plan)
  {
    var idx := BuildIndex(managed, vllm);
    var pruned, prunes := PruneUnhealthy(idx, managed, vllm);

    // Pair the pods that are Ready and unlabelled, or about to lose their label.
    var mUnpaired := EffectivelyUnpaired(managed, pruned);
    var vUnpaired := EffectivelyUnpaired(vllm, pruned);
    var n := Min(|mUnpaired|, |vUnpaired|);
    var bindings: seq<Pairing> := [];
    for i := 0 to n
      invariant bindings == Bind(mUnpaired, vUnpaired, newUUID)[..i]
    {
      bindings := bindings + [Pairing(RefOf(mUnpaired[i]), RefOf(vUnpaired[i]), newUUID(i))];
    }
    plan := PatchPlan(prunes, bindings);
    assert BindsGreedily(managed, vllm, pruned, newUUID, bindings, mUnpaired, vUnpaired);
  }
}
