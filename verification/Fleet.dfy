// reconcileAll over a whole fleet of managed Deployments: the passes do not
// interfere when every vLLM Deployment has one managed Deployment.
module Fleet {
  import opened Basics
  import opened PairingLogic
  import opened Matching
  import opened Healing
  import opened Reconciler
  import opened Protocol

  function TargetOf(entry: (DepRef, Deployment)): Option<DepRef> {
    Target(entry.0, entry.1)
  }

  /** Each vLLM Deployment is the target of one managed Deployment, and is not managed itself. */
  ghost predicate Separate(listed: seq<(DepRef, Deployment)>) {
    && (forall i, j :: 0 <= i < j < |listed| ==> listed[i].0 != listed[j].0)
    && (forall i, j :: 0 <= i < j < |listed| && TargetOf(listed[i]).Some? ==> TargetOf(listed[i]) != TargetOf(listed[j]))
    && (forall i, j :: 0 <= i < |listed| && 0 <= j < |listed| && TargetOf(listed[j]).Some? ==>
          TargetOf(listed[i]) != Some(listed[j].0))
  }

  ghost predicate Involves(listed: seq<(DepRef, Deployment)>, d: DepRef) {
    exists e :: e in listed && (TargetOf(e) == Some(d) || (TargetOf(e).Some? && e.0 == d))
  }

  /** Deployments that opt out and are nobody's target are left alone. */
  lemma {:induction false} FleetFrame(owner: PodRef -> DepRef, w: World, listed: seq<(DepRef, Deployment)>,
      reply: DepRef -> Call -> Reply, newUUID: DepRef -> nat -> string, w': World, d: DepRef)
    requires AllReconciled(owner, w, listed, reply, newUUID, w')
    requires !Involves(listed, d)
    ensures SideOf(owner, w'.pods, d) == SideOf(owner, w.pods, d)
    ensures d in w.deps <==> d in w'.deps
    ensures d in w.deps ==> w'.deps[d] == w.deps[d]
    decreases |listed|
  {
    if listed != [] {
      var (m, dep) := listed[0];
      var mid :| Reconciled(owner, w, m, dep, reply(m), newUUID(m), mid) &&
                 AllReconciled(owner, mid, listed[1..], reply, newUUID, w');
      assert listed[0] in listed;
      assert Target(m, dep) != Some(d) && (Target(m, dep).Some? ==> m != d);
      PassFrame(owner, w, m, dep, reply(m), newUUID(m), mid, d);
      assert forall e :: e in listed[1..] ==> e in listed;
      FleetFrame(owner, mid, listed[1..], reply, newUUID, w', d);
    }
  }

  lemma {:induction false} LoopSplits(owner: PodRef -> DepRef, w: World, init: seq<(DepRef, Deployment)>,
      rest: seq<(DepRef, Deployment)>, reply: DepRef -> Call -> Reply, newUUID: DepRef -> nat -> string, w': World)
    returns (mid: World)
    requires AllReconciled(owner, w, init + rest, reply, newUUID, w')
    ensures AllReconciled(owner, w, init, reply, newUUID, mid) && AllReconciled(owner, mid, rest, reply, newUUID, w')
    decreases |init|
  {
    if init == [] {
      assert init + rest == rest;
      mid := w;
    } else {
      var (m, dep) := init[0];
      assert (init + rest)[1..] == init[1..] + rest;
      var w1 :| Reconciled(owner, w, m, dep, reply(m), newUUID(m), w1) &&
                AllReconciled(owner, w1, (init + rest)[1..], reply, newUUID, w');
      mid := LoopSplits(owner, w1, init[1..], rest, reply, newUUID, w');
    }
  }

  lemma FirstOfLoop(owner: PodRef -> DepRef, w: World, e: (DepRef, Deployment), rest: seq<(DepRef, Deployment)>,
      reply: DepRef -> Call -> Reply, newUUID: DepRef -> nat -> string, w': World)
    returns (mid: World)
    requires AllReconciled(owner, w, [e] + rest, reply, newUUID, w')
    ensures Reconciled(owner, w, e.0, e.1, reply(e.0), newUUID(e.0), mid)
    ensures AllReconciled(owner, mid, rest, reply, newUUID, w')
  {
    assert ([e] + rest)[0] == e && ([e] + rest)[1..] == rest;
    mid :| Reconciled(owner, w, e.0, e.1, reply(e.0), newUUID(e.0), mid) &&
           AllReconciled(owner, mid, ([e] + rest)[1..], reply, newUUID, w');
  }

  /** The i-th group goes through reconcileAll as if its own pass were the only one. */
  lemma OwnPass(owner: PodRef -> DepRef, w: World, listed: seq<(DepRef, Deployment)>,
      reply: DepRef -> Call -> Reply, newUUID: DepRef -> nat -> string, w': World, i: nat)
    returns (w1: World, w2: World)
    requires AllReconciled(owner, w, listed, reply, newUUID, w') && Separate(listed)
    requires i < |listed| && TargetOf(listed[i]).Some?
    ensures Reconciled(owner, w1, listed[i].0, listed[i].1, reply(listed[i].0), newUUID(listed[i].0), w2)
    ensures forall d :: d in {listed[i].0, TargetOf(listed[i]).value} ==>
              && SideOf(owner, w1.pods, d) == SideOf(owner, w.pods, d)
              && SideOf(owner, w'.pods, d) == SideOf(owner, w2.pods, d)
              && (d in w.deps <==> d in w1.deps) && (d in w2.deps <==> d in w'.deps)
              && (d in w.deps ==> w1.deps[d] == w.deps[d])
              && (d in w2.deps ==> w'.deps[d] == w2.deps[d])
  {
    var e, early, late := listed[i], listed[..i], listed[i + 1..];
    assert listed == early + ([e] + late);
    w1 := LoopSplits(owner, w, early, [e] + late, reply, newUUID, w');
    w2 := FirstOfLoop(owner, w1, e, late, reply, newUUID, w');
    forall d | d in {e.0, TargetOf(e).value}
      ensures SideOf(owner, w1.pods, d) == SideOf(owner, w.pods, d)
      ensures SideOf(owner, w'.pods, d) == SideOf(owner, w2.pods, d)
      ensures (d in w.deps <==> d in w1.deps) && (d in w2.deps <==> d in w'.deps)
      ensures d in w.deps ==> w1.deps[d] == w.deps[d]
      ensures d in w2.deps ==> w'.deps[d] == w2.deps[d]
    {
      NotInvolvedElsewhere(listed, i, d);
      FleetFrame(owner, w, early, reply, newUUID, w1, d);
      FleetFrame(owner, w2, late, reply, newUUID, w', d);
    }
  }

  lemma NotInvolvedElsewhere(listed: seq<(DepRef, Deployment)>, i: nat, d: DepRef)
    requires Separate(listed) && i < |listed| && TargetOf(listed[i]).Some? && d in {listed[i].0, TargetOf(listed[i]).value}
    ensures !Involves(listed[..i], d) && !Involves(listed[i + 1..], d)
  {
    forall e | e in listed[..i] || e in listed[i + 1..]
      ensures TargetOf(e) != Some(d) && (TargetOf(e).Some? ==> e.0 != d)
    {
      var k :| 0 <= k < |listed| && k != i && listed[k] == e;
    }
  }

  /** One fault-free reconcileAll does for every group what its own pass would do: it
      equalises differing replica counts, or else fully pairs the group. */
  lemma FleetHeals(owner: PodRef -> DepRef, w: World, listed: seq<(DepRef, Deployment)>, reply: DepRef -> Call -> Reply,
      newUUID: DepRef -> nat -> string, w': World, i: nat)
    requires AllReconciled(owner, w, listed, reply, newUUID, w') && Separate(listed) && (forall m :: NoFaults(reply(m)))
    requires i < |listed| && TargetOf(listed[i]).Some? && TargetOf(listed[i]).value in w.deps
    requires var sm, sv := SideOf(owner, w.pods, listed[i].0), SideOf(owner, w.pods, TargetOf(listed[i]).value);
      Consistent(sm, sv) && Fresh(newUUID(listed[i].0), Labels(sm) + Labels(sv))
    ensures var m, dep, t := listed[i].0, listed[i].1, TargetOf(listed[i]).value;
      var sm, sv := SideOf(owner, w.pods, m), SideOf(owner, w.pods, t);
      var sm', sv' := SideOf(owner, w'.pods, m), SideOf(owner, w'.pods, t);
      && t in w'.deps && Replicas(w'.deps[t]) == Replicas(dep)
      && if Replicas(w.deps[t]) == Replicas(dep) then Heals(sm, sv, sm', sv') && w'.deps[t] == w.deps[t]
         else sm' == sm && sv' == sv
  {
    var m, dep, t := listed[i].0, listed[i].1, TargetOf(listed[i]).value;
    var w1, w2 := OwnPass(owner, w, listed, reply, newUUID, w', i);
    PassFrame(owner, w1, m, dep, reply(m), newUUID(m), w2, t);
    if Replicas(w.deps[t]) == Replicas(dep) {
      PassHeals(owner, w1, m, dep, t, reply(m), newUUID(m), w2);
    } else {
      PassEqualises(owner, w1, m, dep, t, reply(m), newUUID(m), w2);
    }
  }

  // -------------------------------------------------------------- tick after tick

  ghost predicate Settled(owner: PodRef -> DepRef, w: World, e: (DepRef, Deployment)) {
    TargetOf(e).Some? && TargetOf(e).value in w.deps ==>
      var sm, sv := SideOf(owner, w.pods, e.0), SideOf(owner, w.pods, TargetOf(e).value);
      Replicas(w.deps[TargetOf(e).value]) == Replicas(e.1) && Consistent(sm, sv) && FullyPaired(sm, sv)
  }

  /** A tick over a settled fleet changes nothing, whichever calls fail. */
  lemma {:induction false} FleetIsNoOp(owner: PodRef -> DepRef, w: World, listed: seq<(DepRef, Deployment)>,
      reply: DepRef -> Call -> Reply, newUUID: DepRef -> nat -> string, w': World)
    requires AllReconciled(owner, w, listed, reply, newUUID, w')
    requires forall e :: e in listed ==> Settled(owner, w, e)
    ensures w' == w
    decreases |listed|
  {
    if listed != [] {
      var (m, dep) := listed[0];
      var mid :| Reconciled(owner, w, m, dep, reply(m), newUUID(m), mid) &&
                 AllReconciled(owner, mid, listed[1..], reply, newUUID, w');
      assert Settled(owner, w, listed[0]) && forall e :: e in listed[1..] ==> e in listed;
      if Target(m, dep).Some? && Target(m, dep).value in w.deps {
        PassIsNoOp(owner, w, m, dep, Target(m, dep).value, reply(m), newUUID(m), mid);
      }
      FleetIsNoOp(owner, w, listed[1..], reply, newUUID, w');
    }
  }

  /** Two fault-free ticks with unchanged pods settle every group: the first at the latest
      equalises the replica counts, the second at the latest pairs. */
  lemma TwoTicksSettle(owner: PodRef -> DepRef, w: World, listed: seq<(DepRef, Deployment)>,
      reply: DepRef -> Call -> Reply, newUUID: DepRef -> nat -> string, w1: World,
      reply2: DepRef -> Call -> Reply, newUUID2: DepRef -> nat -> string, w2: World, i: nat)
    requires Separate(listed) && (forall m :: NoFaults(reply(m))) && (forall m :: NoFaults(reply2(m)))
    requires AllReconciled(owner, w, listed, reply, newUUID, w1)
    requires AllReconciled(owner, w1, listed, reply2, newUUID2, w2)
    requires i < |listed| && TargetOf(listed[i]).Some? && TargetOf(listed[i]).value in w.deps
    requires var sm, sv := SideOf(owner, w.pods, listed[i].0), SideOf(owner, w.pods, TargetOf(listed[i]).value);
      Consistent(sm, sv) && Fresh(newUUID(listed[i].0), Labels(sm) + Labels(sv))
    requires var sm, sv := SideOf(owner, w1.pods, listed[i].0), SideOf(owner, w1.pods, TargetOf(listed[i]).value);
      Fresh(newUUID2(listed[i].0), Labels(sm) + Labels(sv))
    ensures TargetOf(listed[i]).value in w2.deps && Settled(owner, w2, listed[i])
  {
    FleetHeals(owner, w, listed, reply, newUUID, w1, i);
    FleetHeals(owner, w1, listed, reply2, newUUID2, w2, i);
  }

  /** Self-healing for the whole fleet: from every state of every run, one fault-free
      reconcileAll leaves each group either with equal replica counts or fully paired. */
  lemma FleetSelfHealing(c: Config, ss: seq<State>, listed: seq<(DepRef, Deployment)>, reply: DepRef -> Call -> Reply,
      newUUID: DepRef -> nat -> string, w': World, i: nat)
    requires Run(c, ss) && Separate(listed) && (forall m :: NoFaults(reply(m)))
    requires i < |listed| && TargetOf(listed[i]).Some?
    requires var s, m, t := ss[|ss| - 1], listed[i].0, TargetOf(listed[i]).value;
      && t in s.deps && m != t && '/' !in m.ns && '/' !in t.ns
      && Fresh(newUUID(m), s.issued.Keys)
      && AllReconciled(c.owner, World(s.deps, s.pods), listed, reply, newUUID, w')
    ensures var s, m, t := ss[|ss| - 1], listed[i].0, TargetOf(listed[i]).value;
      var sm, sv := SideOf(c.owner, s.pods, m), SideOf(c.owner, s.pods, t);
      var sm', sv' := SideOf(c.owner, w'.pods, m), SideOf(c.owner, w'.pods, t);
      && t in w'.deps && Replicas(w'.deps[t]) == Replicas(listed[i].1)
      && if Replicas(s.deps[t]) == Replicas(listed[i].1) then Heals(sm, sv, sm', sv')
         else sm' == sm && sv' == sv
  {
    var s, m, t := ss[|ss| - 1], listed[i].0, TargetOf(listed[i]).value;
    RunInv(c, ss, |ss| - 1);
    InvDistinctIds(c, s, m);
    InvDistinctIds(c, s, t);
    SidesDisjoint(c.owner, s.pods, m, t);
    InvFresh(c, s, newUUID(m), m);
    InvFresh(c, s, newUUID(m), t);
    FleetHeals(c.owner, World(s.deps, s.pods), listed, reply, newUUID, w', i);
  }

  /** No id is drawn twice by the two. */
  ghost predicate NeverAlike(f: nat -> string, g: nat -> string) {
    forall i, j :: f(i) != g(j)
  }

  lemma FreshAfter(s: Side, s': Side, drawn: nat -> string, newUUID: nat -> string)
    requires IsAfter(s, s', drawn) && Fresh(newUUID, Labels(s)) && NeverAlike(newUUID, drawn)
    ensures Fresh(newUUID, Labels(s'))
  {
    forall id | id in Labels(s') ensures forall i :: newUUID(i) != id {
      var n :| n in s'.pods && s'.pods[n].pairId == id;
      assert IsOrigin(s.pods[n].pairId, id, drawn) && s.pods[n].pairId in Labels(s);
    }
  }

  lemma FreshNextTick(owner: PodRef -> DepRef, w: World, listed: seq<(DepRef, Deployment)>, reply: DepRef -> Call -> Reply,
      newUUID: DepRef -> nat -> string, w': World, i: nat, next: nat -> string)
    requires AllReconciled(owner, w, listed, reply, newUUID, w') && Separate(listed)
    requires i < |listed| && TargetOf(listed[i]).Some? && NeverAlike(next, newUUID(listed[i].0))
    requires Fresh(next, Labels(SideOf(owner, w.pods, listed[i].0)))
    requires Fresh(next, Labels(SideOf(owner, w.pods, TargetOf(listed[i]).value)))
    ensures Fresh(next, Labels(SideOf(owner, w'.pods, listed[i].0)) + Labels(SideOf(owner, w'.pods, TargetOf(listed[i]).value)))
  {
    var m, t := listed[i].0, TargetOf(listed[i]).value;
    var w1, w2 := OwnPass(owner, w, listed, reply, newUUID, w', i);
    SideAfter(owner, w1, m, listed[i].1, reply(m), newUUID(m), w2, m);
    SideAfter(owner, w1, m, listed[i].1, reply(m), newUUID(m), w2, t);
    FreshAfter(SideOf(owner, w.pods, m), SideOf(owner, w'.pods, m), newUUID(m), next);
    FreshAfter(SideOf(owner, w.pods, t), SideOf(owner, w'.pods, t), newUUID(m), next);
  }

  /** From every state of every run, two fault-free ticks settle every group. */
  lemma FleetSettles(c: Config, ss: seq<State>, listed: seq<(DepRef, Deployment)>,
      reply: DepRef -> Call -> Reply, newUUID: DepRef -> nat -> string, w1: World,
      reply2: DepRef -> Call -> Reply, newUUID2: DepRef -> nat -> string, w2: World, i: nat)
    requires Run(c, ss) && Separate(listed) && (forall m :: NoFaults(reply(m))) && (forall m :: NoFaults(reply2(m)))
    requires i < |listed| && TargetOf(listed[i]).Some?
    requires var s, m, t := ss[|ss| - 1], listed[i].0, TargetOf(listed[i]).value;
      && t in s.deps && m != t && '/' !in m.ns && '/' !in t.ns
      && Fresh(newUUID(m), s.issued.Keys) && Fresh(newUUID2(m), s.issued.Keys) && NeverAlike(newUUID2(m), newUUID(m))
      && AllReconciled(c.owner, World(s.deps, s.pods), listed, reply, newUUID, w1)
      && AllReconciled(c.owner, w1, listed, reply2, newUUID2, w2)
    ensures TargetOf(listed[i]).value in w2.deps && Settled(c.owner, w2, listed[i])
  {
    var s, m, t := ss[|ss| - 1], listed[i].0, TargetOf(listed[i]).value;
    RunInv(c, ss, |ss| - 1);
    InvDistinctIds(c, s, m);
    InvDistinctIds(c, s, t);
    SidesDisjoint(c.owner, s.pods, m, t);
    InvFresh(c, s, newUUID(m), m);
    InvFresh(c, s, newUUID(m), t);
    InvFresh(c, s, newUUID2(m), m);
    InvFresh(c, s, newUUID2(m), t);
    FreshNextTick(c.owner, World(s.deps, s.pods), listed, reply, newUUID, w1, i, newUUID2(m));
    TwoTicksSettle(c.owner, World(s.deps, s.pods), listed, reply, newUUID, w1, reply2, newUUID2, w2, i);
  }
}
