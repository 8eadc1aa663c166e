// Two managed Deployments that name the same vLLM Deployment: when the passes of
// reconcileAll can settle both, and what happens tick after tick when they cannot.
module SharedTarget {
  import opened Basics
  import opened PairingLogic
  import opened Matching
  import opened Healing
  import opened Reconciler
  import opened Fleet

  ghost predicate NoCommonId(a: Side, b: Side) {
    forall n, n' :: n in Ready(a) && n' in Ready(b) && a.pods[n].pairId != "" ==> a.pods[n].pairId != b.pods[n'].pairId
  }

  /** Two managed Deployments `a` and `b` that share the vLLM Deployment `v`: right after the pass
      for `b`, no pod of `a` has a partner left. */
  lemma Unsettles(a: Side, b: Side, v: Side)
    requires NoCommonId(a, b)
    requires FullyPaired(b, v)
    ensures Paired(a, v) == {}
    ensures Ready(a) != {} && Ready(v) != {} ==> !FullyPaired(a, v)
  {
    forall n, n' ensures !Mates(a, n, v, n') {
      if n' in Ready(v) && v.pods[n'].pairId != "" {
        assert n' !in Orphans(v, b) && n' in Paired(v, b);
        var k :| Mates(v, n', b, k);
      }
    }
    if Ready(a) != {} && Ready(v) != {} {
      var x, y :| x in Ready(a) && y in Ready(v);
      assert |Ready(a)| > 0 && |Ready(v)| > 0;
    }
  }

  ghost predicate Unlabelled(s: Side) {
    forall n :: n in Ready(s) ==> s.pods[n].pairId == ""
  }

  lemma NoCommonIdSymmetric(a: Side, b: Side)
    requires NoCommonId(a, b)
    ensures NoCommonId(b, a)
  {
  }

  lemma UnlabelledPairs(a: Side, b: Side)
    requires Unlabelled(a)
    ensures Paired(a, b) == {} && Paired(b, a) == {} && Orphans(a, b) == {}
  {
  }

  lemma NoneFullyPaired(a: Side, v: Side)
    requires FullyPaired(a, v) && Paired(a, v) == {}
    ensures Unlabelled(a) && Unlabelled(v) && (Ready(a) == {} || Ready(v) == {})
  {
    assert |Paired(a, v)| == 0 == |Paired(v, a)|;
    forall n | n in Ready(a) ensures a.pods[n].pairId == "" {
      assert n !in Orphans(a, v);
    }
    forall n | n in Ready(v) ensures v.pods[n].pairId == "" {
      assert n !in Orphans(v, a) && n !in Paired(v, a);
    }
    assert Ready(a) != {} && Ready(v) != {} ==> |Ready(a)| > 0 && |Ready(v)| > 0;
  }

  /** Both are settled at once exactly in the states with nothing to pair: no Ready pod carries a
      label, and there is no Ready vLLM pod, or no Ready pod in either managed Deployment. */
  lemma PairedIff(a: Side, b: Side, v: Side)
    requires NoCommonId(a, b)
    ensures FullyPaired(a, v) && FullyPaired(b, v) <==>
            && Unlabelled(a) && Unlabelled(b) && Unlabelled(v)
            && (Ready(v) == {} || (Ready(a) == {} && Ready(b) == {}))
  {
    if FullyPaired(a, v) && FullyPaired(b, v) {
      NoCommonIdSymmetric(a, b);
      Unsettles(a, b, v);
      Unsettles(b, a, v);
      NoneFullyPaired(a, v);
      NoneFullyPaired(b, v);
    }
    if Unlabelled(a) && Unlabelled(b) && Unlabelled(v) {
      UnlabelledPairs(a, v);
      UnlabelledPairs(b, v);
      UnlabelledPairs(v, a);
      UnlabelledPairs(v, b);
    }
  }

  lemma StripOutcome(sa: Side, sb: Side, sv: Side, sa': Side, sv': Side, newUUID: nat -> string)
    requires Heals(sa, sv, sa', sv') && IsAfter(sa, sa', newUUID)
    requires NoCommonId(sa, sb) && Fresh(newUUID, Labels(sb))
    ensures Paired(sb, sv') == {} && Ready(sv') == Ready(sv)
  {
    ReadySame(sv, sv');
    NoCommonIdAfter(sa, sb, sa', newUUID);
    Unsettles(sb, sa', sv');
  }

  /** A fault-free pass for `a` strips every pair that another Deployment `b` had with their common
      target, even if no pod of `a` is Ready. */
  lemma PassStripsOthers(owner: PodRef -> DepRef, w: World, a: DepRef, dep: Deployment, b: DepRef, t: DepRef,
      reply: Call -> Reply, newUUID: nat -> string, w': World)
    requires a != b && b != t && Target(a, dep) == Some(t) && t in w.deps && Replicas(w.deps[t]) == Replicas(dep)
    requires Consistent(SideOf(owner, w.pods, a), SideOf(owner, w.pods, t)) && NoFaults(reply)
    requires NoCommonId(SideOf(owner, w.pods, a), SideOf(owner, w.pods, b))
    requires Fresh(newUUID, Labels(SideOf(owner, w.pods, a)) + Labels(SideOf(owner, w.pods, t)))
    requires Fresh(newUUID, Labels(SideOf(owner, w.pods, b)))
    requires Reconciled(owner, w, a, dep, reply, newUUID, w')
    ensures SideOf(owner, w'.pods, b) == SideOf(owner, w.pods, b)
    ensures Paired(SideOf(owner, w'.pods, b), SideOf(owner, w'.pods, t)) == {}
    ensures Ready(SideOf(owner, w'.pods, t)) == Ready(SideOf(owner, w.pods, t))
  {
    PassHeals(owner, w, a, dep, t, reply, newUUID, w');
    PassFrame(owner, w, a, dep, reply, newUUID, w', b);
    SideAfter(owner, w, a, dep, reply, newUUID, w', a);
    StripOutcome(SideOf(owner, w.pods, a), SideOf(owner, w.pods, b), SideOf(owner, w.pods, t),
                 SideOf(owner, w'.pods, a), SideOf(owner, w'.pods, t), newUUID);
  }

  /** New ids keep the two sides without a common one. */
  lemma NoCommonIdAfter(a: Side, b: Side, a': Side, newUUID: nat -> string)
    requires NoCommonId(a, b) && IsAfter(a, a', newUUID) && Fresh(newUUID, Labels(b))
    ensures NoCommonId(b, a') && NoCommonId(a', b)
  {
    forall n, n' | n in Ready(a') && n' in Ready(b) && b.pods[n'].pairId != ""
      ensures a'.pods[n].pairId != b.pods[n'].pairId
    {
      assert IsOrigin(a.pods[n].pairId, a'.pods[n].pairId, newUUID);
      assert b.pods[n'].pairId in Labels(b) && n in Ready(a);
    }
  }

  /** Fresh for these labels, and never drawn twice by the two passes. */
  ghost predicate FreshForLoop(newUUID: DepRef -> nat -> string, b: DepRef, a: DepRef, used: set<string>) {
    && Fresh(newUUID(b), used) && Fresh(newUUID(a), used)
    && NeverAlike(newUUID(a), newUUID(b))
  }

  ghost predicate Separated(sa: Side, sb: Side, sv: Side) {
    Consistent(sa, sv) && Consistent(sb, sv) && NoCommonId(sb, sa)
  }

  /** After the pass for b, everything the pass for a needs still holds. */
  lemma FirstOutcome(sa: Side, sb: Side, sv: Side, sb': Side, sv': Side, drawn: nat -> string, newUUID: nat -> string)
    requires Separated(sa, sb, sv) && Heals(sb, sv, sb', sv') && IsAfter(sb, sb', drawn) && IsAfter(sv, sv', drawn)
    requires Fresh(drawn, Labels(sa)) && NeverAlike(newUUID, drawn)
    requires Fresh(newUUID, Labels(sa)) && Fresh(newUUID, Labels(sb)) && Fresh(newUUID, Labels(sv))
    ensures Consistent(sa, sv') && NoCommonId(sa, sb')
    ensures Fresh(newUUID, Labels(sa) + Labels(sv')) && Fresh(newUUID, Labels(sb'))
    ensures Ready(sb') == Ready(sb) && Ready(sv') == Ready(sv)
  {
    NoCommonIdAfter(sb, sa, sb', drawn);
    FreshAfter(sb, sb', drawn, newUUID);
    FreshAfter(sv, sv', drawn, newUUID);
    ReadySame(sb, sb');
    ReadySame(sv, sv');
  }

  lemma FirstPass(owner: PodRef -> DepRef, w: World, b: DepRef, dep: Deployment, a: DepRef, t: DepRef,
      reply: Call -> Reply, drawn: nat -> string, newUUID: nat -> string, mid: World)
    requires a != b && a != t && Target(b, dep) == Some(t) && t in w.deps
    requires Replicas(w.deps[t]) == Replicas(dep) && NoFaults(reply)
    requires Separated(SideOf(owner, w.pods, a), SideOf(owner, w.pods, b), SideOf(owner, w.pods, t))
    requires FreshForAll(drawn, newUUID, SideOf(owner, w.pods, a), SideOf(owner, w.pods, b), SideOf(owner, w.pods, t))
    requires Reconciled(owner, w, b, dep, reply, drawn, mid)
    ensures mid.deps == w.deps && SideOf(owner, mid.pods, a) == SideOf(owner, w.pods, a)
    ensures var sa, sb, sv := SideOf(owner, mid.pods, a), SideOf(owner, mid.pods, b), SideOf(owner, mid.pods, t);
      && Consistent(sa, sv) && Consistent(sb, sv) && FullyPaired(sb, sv) && NoCommonId(sa, sb)
      && Fresh(newUUID, Labels(sa) + Labels(sv)) && Fresh(newUUID, Labels(sb))
      && Ready(sb) == Ready(SideOf(owner, w.pods, b)) && Ready(sv) == Ready(SideOf(owner, w.pods, t))
  {
    PassHeals(owner, w, b, dep, t, reply, drawn, mid);
    PassFrame(owner, w, b, dep, reply, drawn, mid, a);
    SideAfter(owner, w, b, dep, reply, drawn, mid, b);
    SideAfter(owner, w, b, dep, reply, drawn, mid, t);
    FirstOutcome(SideOf(owner, w.pods, a), SideOf(owner, w.pods, b), SideOf(owner, w.pods, t),
                 SideOf(owner, mid.pods, b), SideOf(owner, mid.pods, t), drawn, newUUID);
  }

  ghost predicate FreshForAll(drawn: nat -> string, newUUID: nat -> string, sa: Side, sb: Side, sv: Side) {
    && Fresh(drawn, Labels(sa)) && Fresh(drawn, Labels(sb) + Labels(sv)) && NeverAlike(newUUID, drawn)
    && Fresh(newUUID, Labels(sa)) && Fresh(newUUID, Labels(sb)) && Fresh(newUUID, Labels(sv))
  }

  lemma FreshForEach(newUUID: DepRef -> nat -> string, b: DepRef, a: DepRef, sa: Side, sb: Side, sv: Side)
    requires FreshForLoop(newUUID, b, a, Labels(sa) + Labels(sb) + Labels(sv))
    ensures FreshForAll(newUUID(b), newUUID(a), sa, sb, sv)
  {
    var used := Labels(sa) + Labels(sb) + Labels(sv);
    FreshFewer(newUUID(b), Labels(sa), used);
    FreshFewer(newUUID(b), Labels(sb) + Labels(sv), used);
    FreshFewer(newUUID(a), Labels(sa), used);
    FreshFewer(newUUID(a), Labels(sb), used);
    FreshFewer(newUUID(a), Labels(sv), used);
  }

  // ------------------------------------------------------------ the two passes of the loop

  /** A listing in which the i-th and the j-th entry, b and a, name the target t, and no other entry
      has to do with b, a or t. */
  datatype Shared = Shared(listed: seq<(DepRef, Deployment)>, i: nat, j: nat, b: (DepRef, Deployment),
                           a: (DepRef, Deployment), t: DepRef) {

    ghost predicate Valid() {
      && i < j < |listed| && listed[i] == b && listed[j] == a
      && a.0 != b.0 && a.0 != t && b.0 != t && TargetOf(a) == Some(t) == TargetOf(b)
      && forall k :: 0 <= k < |listed| && k != i && k != j ==> Stranger(listed[k])
    }

    ghost predicate Stranger(e: (DepRef, Deployment)) {
      TargetOf(e).Some? ==> e.0 !in {b.0, a.0, t} && TargetOf(e).value !in {b.0, a.0, t}
    }
  }

  /** The pods of b, a and t are the same in both. */
  ghost predicate SameSides(s: Shared, owner: PodRef -> DepRef, w: World, w': World) {
    && SideOf(owner, w'.pods, s.b.0) == SideOf(owner, w.pods, s.b.0)
    && SideOf(owner, w'.pods, s.a.0) == SideOf(owner, w.pods, s.a.0)
    && SideOf(owner, w'.pods, s.t) == SideOf(owner, w.pods, s.t)
  }

  /** So is the target's count. */
  ghost predicate SameFor(s: Shared, owner: PodRef -> DepRef, w: World, w': World) {
    && SameSides(s, owner, w, w')
    && (s.t in w.deps <==> s.t in w'.deps) && (s.t in w.deps ==> w'.deps[s.t] == w.deps[s.t])
  }

  lemma StrangersFrame(s: Shared, owner: PodRef -> DepRef, w: World, others: seq<(DepRef, Deployment)>,
      reply: DepRef -> Call -> Reply, newUUID: DepRef -> nat -> string, w': World)
    requires AllReconciled(owner, w, others, reply, newUUID, w') && forall e :: e in others ==> s.Stranger(e)
    ensures SameFor(s, owner, w, w')
  {
    forall d | d in {s.b.0, s.a.0, s.t}
      ensures SideOf(owner, w'.pods, d) == SideOf(owner, w.pods, d)
      ensures (d in w.deps <==> d in w'.deps) && (d in w.deps ==> w'.deps[d] == w.deps[d])
    {
      assert !Involves(others, d);
      FleetFrame(owner, w, others, reply, newUUID, w', d);
    }
  }

  lemma Segments(s: Shared)
    returns (early: seq<(DepRef, Deployment)>, between: seq<(DepRef, Deployment)>, late: seq<(DepRef, Deployment)>)
    requires s.Valid()
    ensures s.listed == early + ([s.b] + (between + ([s.a] + late)))
    ensures forall e :: e in early || e in between || e in late ==> s.Stranger(e)
  {
    early, between, late := s.listed[..s.i], s.listed[s.i + 1..s.j], s.listed[s.j + 1..];
    forall e | e in early || e in between || e in late ensures s.Stranger(e) {
      var k :| 0 <= k < |s.listed| && k != s.i && k != s.j && s.listed[k] == e;
    }
  }

  /** Of a whole loop, b, a and t only see the pass for b, from w1 to w2, and that for a, from w3 to w4. */
  lemma TwoPasses(s: Shared, owner: PodRef -> DepRef, w: World, reply: DepRef -> Call -> Reply,
      newUUID: DepRef -> nat -> string, w': World)
    returns (w1: World, w2: World, w3: World, w4: World)
    requires s.Valid() && AllReconciled(owner, w, s.listed, reply, newUUID, w')
    ensures SameFor(s, owner, w, w1) && SameFor(s, owner, w2, w3) && SameFor(s, owner, w4, w')
    ensures Reconciled(owner, w1, s.b.0, s.b.1, reply(s.b.0), newUUID(s.b.0), w2)
    ensures Reconciled(owner, w3, s.a.0, s.a.1, reply(s.a.0), newUUID(s.a.0), w4)
  {
    var early, between, late := Segments(s);
    var rest := between + ([s.a] + late);
    w1 := LoopSplits(owner, w, early, [s.b] + rest, reply, newUUID, w');
    StrangersFrame(s, owner, w, early, reply, newUUID, w1);
    w2 := FirstOfLoop(owner, w1, s.b, rest, reply, newUUID, w');
    w3, w4 := StrangersThenOne(s, owner, w2, between, s.a, late, reply, newUUID, w');
  }

  lemma StrangersThenOne(s: Shared, owner: PodRef -> DepRef, w: World, others: seq<(DepRef, Deployment)>,
      e: (DepRef, Deployment), late: seq<(DepRef, Deployment)>, reply: DepRef -> Call -> Reply,
      newUUID: DepRef -> nat -> string, w': World)
    returns (w1: World, w2: World)
    requires AllReconciled(owner, w, others + ([e] + late), reply, newUUID, w')
    requires forall x :: x in others || x in late ==> s.Stranger(x)
    ensures SameFor(s, owner, w, w1) && SameFor(s, owner, w2, w')
    ensures Reconciled(owner, w1, e.0, e.1, reply(e.0), newUUID(e.0), w2)
  {
    w1 := LoopSplits(owner, w, others, [e] + late, reply, newUUID, w');
    StrangersFrame(s, owner, w, others, reply, newUUID, w1);
    w2 := FirstOfLoop(owner, w1, e, late, reply, newUUID, w');
    StrangersFrame(s, owner, w2, late, reply, newUUID, w');
  }

  /** One fault-free loop over such a listing. */
  ghost predicate SharedLoop(s: Shared, owner: PodRef -> DepRef, w: World, reply: DepRef -> Call -> Reply,
      newUUID: DepRef -> nat -> string, w': World) {
    && s.Valid() && s.t in w.deps && (forall d :: NoFaults(reply(d)))
    && AllReconciled(owner, w, s.listed, reply, newUUID, w')
  }

  ghost predicate FreshIn(s: Shared, owner: PodRef -> DepRef, pods: map<PodRef, Pod>, newUUID: DepRef -> nat -> string) {
    FreshForLoop(newUUID, s.b.0, s.a.0,
                 Labels(SideOf(owner, pods, s.a.0)) + Labels(SideOf(owner, pods, s.b.0)) + Labels(SideOf(owner, pods, s.t)))
  }

  ghost predicate SeparatedIn(s: Shared, owner: PodRef -> DepRef, pods: map<PodRef, Pod>) {
    Separated(SideOf(owner, pods, s.a.0), SideOf(owner, pods, s.b.0), SideOf(owner, pods, s.t))
  }

  ghost predicate NothingToPairIn(s: Shared, owner: PodRef -> DepRef, pods: map<PodRef, Pod>) {
    NothingToPair(SideOf(owner, pods, s.a.0), SideOf(owner, pods, s.b.0), SideOf(owner, pods, s.t))
  }

  /** With equal counts, whatever the first had been given, the second takes away. */
  lemma LoopStripsFirst(s: Shared, owner: PodRef -> DepRef, w: World, reply: DepRef -> Call -> Reply,
      newUUID: DepRef -> nat -> string, w': World)
    requires SharedLoop(s, owner, w, reply, newUUID, w')
    requires Replicas(w.deps[s.t]) == Replicas(s.a.1) == Replicas(s.b.1)
    requires SeparatedIn(s, owner, w.pods) && FreshIn(s, owner, w.pods, newUUID)
    ensures var sb', sv' := SideOf(owner, w'.pods, s.b.0), SideOf(owner, w'.pods, s.t);
      && Paired(sb', sv') == {}
      && (Ready(SideOf(owner, w.pods, s.b.0)) != {} && Ready(SideOf(owner, w.pods, s.t)) != {} ==> !FullyPaired(sb', sv'))
  {
    var w1, w2, w3, w4 := TwoPasses(s, owner, w, reply, newUUID, w');
    var a, b := s.a.0, s.b.0;
    FreshForEach(newUUID, b, a, SideOf(owner, w.pods, a), SideOf(owner, w.pods, b), SideOf(owner, w.pods, s.t));
    FirstPass(owner, w1, b, s.b.1, a, s.t, reply(b), newUUID(b), newUUID(a), w2);
    PassStripsOthers(owner, w3, a, s.a.1, b, s.t, reply(a), newUUID(a), w4);
    StillUnpaired(SideOf(owner, w'.pods, b), SideOf(owner, w'.pods, s.t));
  }

  lemma StillUnpaired(s: Side, v: Side)
    requires Paired(s, v) == {}
    ensures Ready(s) != {} && Ready(v) != {} ==> !FullyPaired(s, v)
  {
    assert Ready(s) != {} && Ready(v) != {} ==> |Ready(s)| > 0 && |Ready(v)| > 0;
  }

  ghost predicate OneUnlabelled(s: Side, n: string) {
    s.pods.Keys == {n} && Ready(s) == {n} && Labels(s) == {""} && DistinctIds(s) && Unlabelled(s)
  }

  lemma OneUnlabelledPod(owner: PodRef -> DepRef, pods: map<PodRef, Pod>, d: DepRef, n: string)
    requires PodRef(n, d.ns) in pods && owner(PodRef(n, d.ns)) == d
    requires forall r :: r in pods ==> pods[r] == Pod(true, "") && (owner(r) == d ==> r.name == n)
    ensures OneUnlabelled(SideOf(owner, pods, d), n)
  {
    var s := SideOf(owner, pods, d);
    assert n in s.pods && s.pods[n] == Pod(true, "");
  }

  lemma ThreeUnlabelledPods(b: DepRef, depB: Deployment, a: DepRef, depA: Deployment, t: DepRef,
      x: string, y: string, z: string) returns (owner: PodRef -> DepRef, w: World)
    requires a != b && a != t && b != t && x != y && x != z && y != z
    ensures w.deps.Keys == {a, b, t} && w.deps[t] == depA
    ensures w.pods.Keys == {PodRef(x, b.ns), PodRef(y, a.ns), PodRef(z, t.ns)}
    ensures forall r :: r in w.pods ==> w.pods[r] == Pod(true, "")
    ensures OneUnlabelled(SideOf(owner, w.pods, b), x)
    ensures OneUnlabelled(SideOf(owner, w.pods, a), y)
    ensures OneUnlabelled(SideOf(owner, w.pods, t), z)
  {
    owner := (r: PodRef) => if r.name == x then b else if r.name == y then a else t;
    w := World(map[a := depA, b := depB, t := depA],
               map[PodRef(x, b.ns) := Pod(true, ""), PodRef(y, a.ns) := Pod(true, ""), PodRef(z, t.ns) := Pod(true, "")]);
    OneUnlabelledPod(owner, w.pods, b, x);
    OneUnlabelledPod(owner, w.pods, a, y);
    OneUnlabelledPod(owner, w.pods, t, z);
  }

  lemma SeparatedPods(sa: Side, sb: Side, sv: Side, x: string, y: string, z: string)
    requires OneUnlabelled(sa, x) && OneUnlabelled(sb, y) && OneUnlabelled(sv, z) && Disjoint(sa, sv) && Disjoint(sb, sv)
    ensures Separated(sa, sb, sv) && Labels(sa) + Labels(sb) + Labels(sv) == {""}
    ensures Ready(sb) != {} && Ready(sv) != {}
  {
  }

  lemma OneEach(s: Shared, owner: PodRef -> DepRef, w: World, reply: DepRef -> Call -> Reply,
      newUUID: DepRef -> nat -> string, w': World, x: string, y: string, z: string)
    requires SharedLoop(s, owner, w, reply, newUUID, w')
    requires Replicas(w.deps[s.t]) == Replicas(s.a.1) == Replicas(s.b.1)
    requires '/' !in s.a.0.ns && '/' !in s.b.0.ns && '/' !in s.t.ns && FreshForLoop(newUUID, s.b.0, s.a.0, {""})
    requires OneUnlabelled(SideOf(owner, w.pods, s.b.0), x) && OneUnlabelled(SideOf(owner, w.pods, s.a.0), y)
    requires OneUnlabelled(SideOf(owner, w.pods, s.t), z)
    ensures !FullyPaired(SideOf(owner, w'.pods, s.b.0), SideOf(owner, w'.pods, s.t))
  {
    SidesDisjoint(owner, w.pods, s.a.0, s.t);
    SidesDisjoint(owner, w.pods, s.b.0, s.t);
    SeparatedPods(SideOf(owner, w.pods, s.a.0), SideOf(owner, w.pods, s.b.0), SideOf(owner, w.pods, s.t), y, x, z);
    LoopStripsFirst(s, owner, w, reply, newUUID, w');
  }

  /** A concrete case: three Deployments of one Ready, unlabelled pod each, two of them naming the
      third. Whichever order the loop takes them in, the first is left without a partner. */
  lemma Example(b: DepRef, depB: Deployment, a: DepRef, depA: Deployment, t: DepRef,
      x: string, y: string, z: string, reply: DepRef -> Call -> Reply, newUUID: DepRef -> nat -> string)
    returns (owner: PodRef -> DepRef, w: World)
    requires a != b && a != t && b != t && Target(a, depA) == Some(t) == Target(b, depB)
    requires Replicas(depA) == Replicas(depB)
    requires '/' !in a.ns && '/' !in b.ns && '/' !in t.ns && x != y && x != z && y != z
    requires FreshForLoop(newUUID, b, a, {""}) && forall d :: NoFaults(reply(d))
    ensures w.deps.Keys == {a, b, t} && w.pods.Keys == {PodRef(x, b.ns), PodRef(y, a.ns), PodRef(z, t.ns)}
    ensures forall r :: r in w.pods ==> w.pods[r] == Pod(true, "")
    ensures forall w' :: AllReconciled(owner, w, [(b, depB), (a, depA)], reply, newUUID, w') ==>
              !FullyPaired(SideOf(owner, w'.pods, b), SideOf(owner, w'.pods, t))
  {
    owner, w := ThreeUnlabelledPods(b, depB, a, depA, t, x, y, z);
    var s := Shared([(b, depB), (a, depA)], 0, 1, (b, depB), (a, depA), t);
    forall w' | AllReconciled(owner, w, [(b, depB), (a, depA)], reply, newUUID, w')
      ensures !FullyPaired(SideOf(owner, w'.pods, b), SideOf(owner, w'.pods, t))
    {
      OneEach(s, owner, w, reply, newUUID, w', x, y, z);
    }
  }

  // ------------------------------------------------------------ the exact condition

  /** What the last pass of the loop, for `a`, leaves when the counts agree. */
  ghost predicate LastOutcome(sa: Side, sb: Side, sv: Side, sa': Side, sv': Side) {
    && Separated(sa', sb, sv') && FullyPaired(sa', sv') && Ready(sa') == Ready(sa) && Ready(sv') == Ready(sv)
    && (FullyPaired(sb, sv') <==> Unlabelled(sb) && NothingToPair(sa, sb, sv))
  }

  /** No Ready vLLM pod, or no Ready pod in either managed Deployment. */
  ghost predicate NothingToPair(sa: Side, sb: Side, sv: Side) {
    Ready(sv) == {} || (Ready(sa) == {} && Ready(sb) == {})
  }

  lemma LastSettles(sa: Side, sb: Side, sv: Side, sa': Side, sv': Side, newUUID: nat -> string)
    requires Heals(sa, sv, sa', sv') && IsAfter(sa, sa', newUUID) && Consistent(sb, sv)
    requires NoCommonId(sa, sb) && Fresh(newUUID, Labels(sb))
    ensures LastOutcome(sa, sb, sv, sa', sv')
  {
    ReadySame(sa, sa');
    ReadySame(sv, sv');
    NoCommonIdAfter(sa, sb, sa', newUUID);
    PairedIff(sa', sb, sv');
    if NothingToPair(sa, sb, sv) {
      assert Paired(sa', sv') == {};
      NoneFullyPaired(sa', sv');
    }
  }

  lemma LastPass(owner: PodRef -> DepRef, w: World, a: DepRef, dep: Deployment, b: DepRef, t: DepRef,
      reply: Call -> Reply, newUUID: nat -> string, w': World)
    requires a != b && b != t && Target(a, dep) == Some(t) && t in w.deps && Replicas(w.deps[t]) == Replicas(dep)
    requires Consistent(SideOf(owner, w.pods, a), SideOf(owner, w.pods, t)) && NoFaults(reply)
    requires Consistent(SideOf(owner, w.pods, b), SideOf(owner, w.pods, t))
    requires NoCommonId(SideOf(owner, w.pods, a), SideOf(owner, w.pods, b))
    requires Fresh(newUUID, Labels(SideOf(owner, w.pods, a)) + Labels(SideOf(owner, w.pods, t)))
    requires Fresh(newUUID, Labels(SideOf(owner, w.pods, b)))
    requires Reconciled(owner, w, a, dep, reply, newUUID, w')
    ensures w'.deps == w.deps && SideOf(owner, w'.pods, b) == SideOf(owner, w.pods, b)
    ensures LastOutcome(SideOf(owner, w.pods, a), SideOf(owner, w.pods, b), SideOf(owner, w.pods, t),
                        SideOf(owner, w'.pods, a), SideOf(owner, w'.pods, t))
  {
    PassHeals(owner, w, a, dep, t, reply, newUUID, w');
    PassFrame(owner, w, a, dep, reply, newUUID, w', b);
    SideAfter(owner, w, a, dep, reply, newUUID, w', a);
    LastSettles(SideOf(owner, w.pods, a), SideOf(owner, w.pods, b), SideOf(owner, w.pods, t),
                SideOf(owner, w'.pods, a), SideOf(owner, w'.pods, t), newUUID);
  }

  lemma CountAfterPass(owner: PodRef -> DepRef, w: World, m: DepRef, dep: Deployment, t: DepRef, reply: Call -> Reply,
      newUUID: nat -> string, w': World)
    requires Target(m, dep) == Some(t) && t in w.deps && NoFaults(reply)
    requires Reconciled(owner, w, m, dep, reply, newUUID, w')
    ensures t in w'.deps && Replicas(w'.deps[t]) == Replicas(dep)
    ensures Replicas(w.deps[t]) != Replicas(dep) ==> w'.pods == w.pods
  {
  }

  /** With differing counts the loop rewrites the target's count twice and cannot settle the first. */
  lemma DifferingCounts(s: Shared, owner: PodRef -> DepRef, w: World, reply: DepRef -> Call -> Reply,
      newUUID: DepRef -> nat -> string, w': World)
    requires SharedLoop(s, owner, w, reply, newUUID, w') && Replicas(s.a.1) != Replicas(s.b.1)
    ensures s.t in w'.deps && Replicas(w'.deps[s.t]) == Replicas(s.a.1) && !Settled(owner, w', s.b)
    ensures Replicas(w.deps[s.t]) != Replicas(s.b.1) ==> SameSides(s, owner, w, w')
  {
    var w1, w2, w3, w4 := TwoPasses(s, owner, w, reply, newUUID, w');
    CountAfterPass(owner, w1, s.b.0, s.b.1, s.t, reply(s.b.0), newUUID(s.b.0), w2);
    CountAfterPass(owner, w3, s.a.0, s.a.1, s.t, reply(s.a.0), newUUID(s.a.0), w4);
  }

  /** What the loop leaves when the counts of the two agree. */
  ghost predicate LoopOutcome(s: Shared, owner: PodRef -> DepRef, w: World, w': World)
    requires s.t in w.deps
  {
    && s.t in w'.deps && Replicas(w'.deps[s.t]) == Replicas(s.a.1)
    && SeparatedIn(s, owner, w'.pods)
    && (NothingToPairIn(s, owner, w'.pods) <==> NothingToPairIn(s, owner, w.pods))
    && Settled(owner, w', s.a)
    && (Settled(owner, w', s.b) <==>
          && NothingToPairIn(s, owner, w.pods)
          && (Replicas(w.deps[s.t]) == Replicas(s.b.1) || Unlabelled(SideOf(owner, w.pods, s.b.0))))
  }

  lemma PairedNoneUnlabelled(sb: Side, sv: Side)
    requires FullyPaired(sb, sv) && (Ready(sb) == {} || Ready(sv) == {})
    ensures Unlabelled(sb)
  {
    assert Paired(sb, sv) == {};
    NoneFullyPaired(sb, sv);
  }

  /** What the first pass leaves to the second, for sides `sa`, `sb`, `sv` that become `sa`, `sb'`, `sv'`. */
  ghost predicate Halfway(sa: Side, sb: Side, sv: Side, sb': Side, sv': Side, equal: bool, newUUID: nat -> string) {
    && Consistent(sa, sv') && Consistent(sb', sv') && NoCommonId(sa, sb')
    && Fresh(newUUID, Labels(sa) + Labels(sv')) && Fresh(newUUID, Labels(sb'))
    && Ready(sb') == Ready(sb) && Ready(sv') == Ready(sv)
    && (NothingToPair(sa, sb, sv) ==> (Unlabelled(sb') <==> equal || Unlabelled(sb)))
  }

  lemma HalfwayPaired(sa: Side, sb: Side, sv: Side, sb': Side, sv': Side, newUUID: nat -> string)
    requires Consistent(sa, sv') && Consistent(sb', sv') && NoCommonId(sa, sb') && FullyPaired(sb', sv')
    requires Fresh(newUUID, Labels(sa) + Labels(sv')) && Fresh(newUUID, Labels(sb'))
    requires Ready(sb') == Ready(sb) && Ready(sv') == Ready(sv)
    ensures Halfway(sa, sb, sv, sb', sv', true, newUUID)
  {
    if NothingToPair(sa, sb, sv) {
      PairedNoneUnlabelled(sb', sv');
    }
  }

  lemma HalfwaySame(sa: Side, sb: Side, sv: Side, drawn: nat -> string, newUUID: nat -> string)
    requires Separated(sa, sb, sv) && FreshForAll(drawn, newUUID, sa, sb, sv)
    ensures Halfway(sa, sb, sv, sb, sv, false, newUUID)
  {
    NoCommonIdSymmetric(sb, sa);
  }

  lemma HalfLoop(owner: PodRef -> DepRef, w: World, b: DepRef, dep: Deployment, a: DepRef, t: DepRef,
      reply: Call -> Reply, drawn: nat -> string, newUUID: nat -> string, mid: World)
    requires a != b && a != t && Target(b, dep) == Some(t) && t in w.deps && NoFaults(reply)
    requires Separated(SideOf(owner, w.pods, a), SideOf(owner, w.pods, b), SideOf(owner, w.pods, t))
    requires FreshForAll(drawn, newUUID, SideOf(owner, w.pods, a), SideOf(owner, w.pods, b), SideOf(owner, w.pods, t))
    requires Reconciled(owner, w, b, dep, reply, drawn, mid)
    ensures t in mid.deps && Replicas(mid.deps[t]) == Replicas(dep)
    ensures SideOf(owner, mid.pods, a) == SideOf(owner, w.pods, a)
    ensures Halfway(SideOf(owner, w.pods, a), SideOf(owner, w.pods, b), SideOf(owner, w.pods, t),
                    SideOf(owner, mid.pods, b), SideOf(owner, mid.pods, t), Replicas(w.deps[t]) == Replicas(dep), newUUID)
  {
    var sa, sb, sv := SideOf(owner, w.pods, a), SideOf(owner, w.pods, b), SideOf(owner, w.pods, t);
    CountAfterPass(owner, w, b, dep, t, reply, drawn, mid);
    if Replicas(w.deps[t]) == Replicas(dep) {
      FirstPass(owner, w, b, dep, a, t, reply, drawn, newUUID, mid);
      HalfwayPaired(sa, sb, sv, SideOf(owner, mid.pods, b), SideOf(owner, mid.pods, t), newUUID);
    } else {
      HalfwaySame(sa, sb, sv, drawn, newUUID);
    }
  }

  lemma Combined(sa: Side, sb: Side, sv: Side, sb': Side, sv': Side, equal: bool, newUUID: nat -> string,
      sa'': Side, sv'': Side)
    requires Halfway(sa, sb, sv, sb', sv', equal, newUUID) && LastOutcome(sa, sb', sv', sa'', sv'')
    ensures Separated(sa'', sb', sv'') && FullyPaired(sa'', sv'')
    ensures NothingToPair(sa'', sb', sv'') <==> NothingToPair(sa, sb, sv)
    ensures FullyPaired(sb', sv'') <==> NothingToPair(sa, sb, sv) && (equal || Unlabelled(sb))
  {
  }

  lemma BothPasses(s: Shared, owner: PodRef -> DepRef, w: World, reply: DepRef -> Call -> Reply,
      newUUID: DepRef -> nat -> string, w': World)
    returns (sv': Side)
    requires SharedLoop(s, owner, w, reply, newUUID, w') && Replicas(s.a.1) == Replicas(s.b.1)
    requires SeparatedIn(s, owner, w.pods) && FreshIn(s, owner, w.pods, newUUID)
    ensures s.t in w'.deps && Replicas(w'.deps[s.t]) == Replicas(s.a.1)
    ensures Halfway(SideOf(owner, w.pods, s.a.0), SideOf(owner, w.pods, s.b.0), SideOf(owner, w.pods, s.t),
                    SideOf(owner, w'.pods, s.b.0), sv', Replicas(w.deps[s.t]) == Replicas(s.b.1), newUUID(s.a.0))
    ensures LastOutcome(SideOf(owner, w.pods, s.a.0), SideOf(owner, w'.pods, s.b.0), sv',
                        SideOf(owner, w'.pods, s.a.0), SideOf(owner, w'.pods, s.t))
  {
    var w1, w2, w3, w4 := TwoPasses(s, owner, w, reply, newUUID, w');
    var a, b := s.a.0, s.b.0;
    sv' := SideOf(owner, w2.pods, s.t);
    FreshForEach(newUUID, b, a, SideOf(owner, w.pods, a), SideOf(owner, w.pods, b), SideOf(owner, w.pods, s.t));
    HalfLoop(owner, w1, b, s.b.1, a, s.t, reply(b), newUUID(b), newUUID(a), w2);
    LastPass(owner, w3, a, s.a.1, b, s.t, reply(a), newUUID(a), w4);
  }

  lemma LoopCombined(s: Shared, owner: PodRef -> DepRef, w: World, reply: DepRef -> Call -> Reply,
      newUUID: DepRef -> nat -> string, w': World)
    requires SharedLoop(s, owner, w, reply, newUUID, w') && Replicas(s.a.1) == Replicas(s.b.1)
    requires SeparatedIn(s, owner, w.pods) && FreshIn(s, owner, w.pods, newUUID)
    ensures s.t in w'.deps && Replicas(w'.deps[s.t]) == Replicas(s.a.1)
    ensures var sa, sb, sv := SideOf(owner, w.pods, s.a.0), SideOf(owner, w.pods, s.b.0), SideOf(owner, w.pods, s.t);
      var sa', sb', sv' := SideOf(owner, w'.pods, s.a.0), SideOf(owner, w'.pods, s.b.0), SideOf(owner, w'.pods, s.t);
      && Separated(sa', sb', sv') && FullyPaired(sa', sv')
      && (NothingToPair(sa', sb', sv') <==> NothingToPair(sa, sb, sv))
      && (FullyPaired(sb', sv') <==>
            NothingToPair(sa, sb, sv) && (Replicas(w.deps[s.t]) == Replicas(s.b.1) || Unlabelled(sb)))
  {
    var mid := BothPasses(s, owner, w, reply, newUUID, w');
    Combined(SideOf(owner, w.pods, s.a.0), SideOf(owner, w.pods, s.b.0), SideOf(owner, w.pods, s.t),
             SideOf(owner, w'.pods, s.b.0), mid, Replicas(w.deps[s.t]) == Replicas(s.b.1), newUUID(s.a.0),
             SideOf(owner, w'.pods, s.a.0), SideOf(owner, w'.pods, s.t));
  }

  lemma SettledIffPaired(owner: PodRef -> DepRef, w: World, e: (DepRef, Deployment), t: DepRef)
    requires TargetOf(e) == Some(t) && t in w.deps && Replicas(w.deps[t]) == Replicas(e.1)
    requires Consistent(SideOf(owner, w.pods, e.0), SideOf(owner, w.pods, t))
    ensures Settled(owner, w, e) <==> FullyPaired(SideOf(owner, w.pods, e.0), SideOf(owner, w.pods, t))
  {
  }

  lemma EqualCountsLoop(s: Shared, owner: PodRef -> DepRef, w: World, reply: DepRef -> Call -> Reply,
      newUUID: DepRef -> nat -> string, w': World)
    requires SharedLoop(s, owner, w, reply, newUUID, w') && Replicas(s.a.1) == Replicas(s.b.1)
    requires SeparatedIn(s, owner, w.pods) && FreshIn(s, owner, w.pods, newUUID)
    ensures LoopOutcome(s, owner, w, w')
  {
    LoopCombined(s, owner, w, reply, newUUID, w');
    SettledIffPaired(owner, w', s.a, s.t);
    SettledIffPaired(owner, w', s.b, s.t);
  }

  /** After one fault-free loop both are settled if and only if their replica counts agree, there is
      nothing to pair, and no Ready pod of the first keeps a label because its pass went into the
      target's count. */
  lemma SettlesIff(s: Shared, owner: PodRef -> DepRef, w: World, reply: DepRef -> Call -> Reply,
      newUUID: DepRef -> nat -> string, w': World)
    requires SharedLoop(s, owner, w, reply, newUUID, w')
    requires SeparatedIn(s, owner, w.pods) && FreshIn(s, owner, w.pods, newUUID)
    ensures Settled(owner, w', s.b) && Settled(owner, w', s.a) <==>
            && Replicas(s.a.1) == Replicas(s.b.1)
            && NothingToPairIn(s, owner, w.pods)
            && (Replicas(w.deps[s.t]) == Replicas(s.b.1) || Unlabelled(SideOf(owner, w.pods, s.b.0)))
  {
    if Replicas(s.a.1) == Replicas(s.b.1) {
      EqualCountsLoop(s, owner, w, reply, newUUID, w');
    } else {
      DifferingCounts(s, owner, w, reply, newUUID, w');
    }
  }

  // -------------------------------------------------------------- tick after tick

  /** Consecutive fault-free loops, with no other change in between. */
  ghost predicate SharedTicks(s: Shared, owner: PodRef -> DepRef, ws: seq<World>,
      reply: nat -> DepRef -> Call -> Reply, newUUID: nat -> DepRef -> nat -> string) {
    forall k :: 0 <= k < |ws| - 1 ==>
      && SharedLoop(s, owner, ws[k], reply(k), newUUID(k), ws[k + 1])
      && FreshIn(s, owner, ws[k].pods, newUUID(k))
  }

  /** With differing counts, for good: each tick ends with the count of the one listed last and the
      other unsettled, and from the second tick on no pod of the three is written. */
  lemma {:induction false} DifferingCountsNeverSettle(s: Shared, owner: PodRef -> DepRef, ws: seq<World>,
      reply: nat -> DepRef -> Call -> Reply, newUUID: nat -> DepRef -> nat -> string, k: nat)
    requires SharedTicks(s, owner, ws, reply, newUUID) && Replicas(s.a.1) != Replicas(s.b.1) && 1 <= k < |ws|
    ensures s.t in ws[k].deps && Replicas(ws[k].deps[s.t]) == Replicas(s.a.1) && !Settled(owner, ws[k], s.b)
    ensures SameSides(s, owner, ws[1], ws[k])
    ensures Replicas(ws[0].deps[s.t]) != Replicas(s.b.1) ==> SameSides(s, owner, ws[0], ws[k])
  {
    if k > 1 {
      DifferingCountsNeverSettle(s, owner, ws, reply, newUUID, k - 1);
    }
    DifferingCounts(s, owner, ws[k - 1], reply(k - 1), newUUID(k - 1), ws[k]);
  }

  lemma {:induction false} EqualCountsTicks(s: Shared, owner: PodRef -> DepRef, ws: seq<World>,
      reply: nat -> DepRef -> Call -> Reply, newUUID: nat -> DepRef -> nat -> string, k: nat)
    requires SharedTicks(s, owner, ws, reply, newUUID) && Replicas(s.a.1) == Replicas(s.b.1) && 1 <= k < |ws|
    requires SeparatedIn(s, owner, ws[0].pods)
    ensures s.t in ws[k].deps && Replicas(ws[k].deps[s.t]) == Replicas(s.a.1) && SeparatedIn(s, owner, ws[k].pods)
    ensures NothingToPairIn(s, owner, ws[k].pods) <==> NothingToPairIn(s, owner, ws[0].pods)
  {
    if k > 1 {
      EqualCountsTicks(s, owner, ws, reply, newUUID, k - 1);
    }
    EqualCountsLoop(s, owner, ws[k - 1], reply(k - 1), newUUID(k - 1), ws[k]);
  }

  /** From the second tick on, whatever the target's count was, both are settled if and only if their
      replica counts agree and there is nothing to pair. */
  lemma TicksSettleIff(s: Shared, owner: PodRef -> DepRef, ws: seq<World>, reply: nat -> DepRef -> Call -> Reply,
      newUUID: nat -> DepRef -> nat -> string, k: nat)
    requires SharedTicks(s, owner, ws, reply, newUUID) && 2 <= k < |ws| && SeparatedIn(s, owner, ws[0].pods)
    ensures Settled(owner, ws[k], s.b) && Settled(owner, ws[k], s.a) <==>
            Replicas(s.a.1) == Replicas(s.b.1) && NothingToPairIn(s, owner, ws[0].pods)
  {
    if Replicas(s.a.1) == Replicas(s.b.1) {
      EqualCountsTicks(s, owner, ws, reply, newUUID, k - 1);
      EqualCountsLoop(s, owner, ws[k - 1], reply(k - 1), newUUID(k - 1), ws[k]);
    } else {
      DifferingCountsNeverSettle(s, owner, ws, reply, newUUID, k);
    }
  }
}
