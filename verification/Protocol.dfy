// The reconciler as a distributed protocol: API calls one at a time, any of
// which may fail, crashes between calls, and a cluster that keeps changing
// around them. Whole passes are runs of this protocol.
module Protocol {
  import opened Basics
  import opened PairingLogic
  import opened Matching
  import opened Healing
  import opened Reconciler

  /** A patch still to be issued; the vLLM half of a binding waits for its managed half. */
  datatype Op = Prune(ref: PodRef) | BindManaged(p: Pairing) | BindVLLM(p: Pairing)

  datatype Phase =
    | Idle
    | Started(m: DepRef, dep: Deployment)
    | Scaling(t: DepRef, n: int)
    | Compared(m: DepRef, t: DepRef)
    | ListedManaged(m: DepRef, t: DepRef, ml: seq<PodSnapshot>)
    | Applying(todo: seq<Op>)

  /** `issued` and `managedWritten` record the history: every id ever drawn with the
      pairing it was drawn for, and the ids whose managed write succeeded. */
  datatype State = State(deps: map<DepRef, Deployment>, pods: map<PodRef, Pod>, phase: Phase,
                         issued: map<string, Pairing>, managedWritten: set<string>)

  /** Which Deployment a pod name belongs to, and which Deployments are managed. */
  datatype Config = Config(owner: PodRef -> DepRef, isManaged: DepRef -> bool)

  // -------------------------------------------------------------------- steps

  /** Pods arrive unlabelled, leave, change readiness or lose their label, and Deployments
      change, any number of them at once. Nobody but the reconciler writes ids. */
  ghost predicate EnvStep(s: State, s': State) {
    && s'.phase == s.phase && s'.issued == s.issued && s'.managedWritten == s.managedWritten
    && forall r :: r in s'.pods && s'.pods[r].pairId != "" ==> r in s.pods && s'.pods[r].pairId == s.pods[r].pairId
  }

  /** The process dies, or a failed GET or LIST ends the pass. */
  ghost predicate CrashStep(s: State, s': State) {
    s' == s.(phase := Idle)
  }

  ghost predicate StartStep(c: Config, s: State, s': State, m: DepRef, dep: Deployment) {
    s.phase.Idle? && c.isManaged(m) && s' == s.(phase := Started(m, dep))
  }

  ghost predicate CompareStep(c: Config, s: State, s': State) {
    && s.phase.Started?
    && var t := Target(s.phase.m, s.phase.dep);
      && t.Some? && !c.isManaged(t.value) && t.value in s.deps
      && s' == s.(phase := if Replicas(s.deps[t.value]) != Replicas(s.phase.dep)
                           then Scaling(t.value, Replicas(s.phase.dep)) else Compared(s.phase.m, t.value))
  }

  ghost predicate ScaleStep(s: State, s': State) {
    && s.phase.Scaling? && s.phase.t in s.deps
    && s' == s.(phase := Idle, deps := s.deps[s.phase.t := s.deps[s.phase.t].(replicas := Some(s.phase.n))])
  }

  ghost predicate ListManagedStep(c: Config, s: State, s': State, ml: seq<PodSnapshot>) {
    && s.phase.Compared? && IsListing(SideOf(c.owner, s.pods, s.phase.m), ml)
    && s' == s.(phase := ListedManaged(s.phase.m, s.phase.t, ml))
  }

  function Prunes(refs: seq<PodRef>): seq<Op> {
    seq(|refs|, i requires 0 <= i < |refs| => Prune(refs[i]))
  }

  function Binds(bs: seq<Pairing>): seq<Op> {
    seq(|bs|, i requires 0 <= i < |bs| => BindManaged(bs[i]))
  }

  ghost function Issue(issued: map<string, Pairing>, bs: seq<Pairing>): map<string, Pairing> {
    if bs == [] then issued
    else Issue(issued, bs[..|bs| - 1])[bs[|bs| - 1].uuid := bs[|bs| - 1]]
  }

  /** List the vLLM pods, later than the managed ones, and compute the plan from both. */
  ghost predicate PlanStep(c: Config, s: State, s': State, vl: seq<PodSnapshot>, newUUID: nat -> string, plan: PatchPlan) {
    && s.phase.ListedManaged? && IsListing(SideOf(c.owner, s.pods, s.phase.t), vl)
    && Fresh(newUUID, s.issued.Keys)
    && IsPlan(s.phase.ml, vl, newUUID, plan)
    && s' == s.(phase := Applying(Prunes(plan.prunes) + Binds(plan.bindings)), issued := Issue(s.issued, plan.bindings))
  }

  /** The next patch is served, refused, or served with its reply lost; refused in any case
      if its pod is gone. Only a managed write that is seen to succeed is followed by its vLLM half. */
  ghost predicate PatchStep(s: State, s': State, reply: Reply) {
    && s.phase.Applying? && s.phase.todo != []
    && var op, rest := s.phase.todo[0], s.phase.todo[1..];
      match op
      case Prune(r) =>
        s' == s.(phase := Applying(rest),
                 pods := if reply.TookEffect() && r in s.pods then s.pods[r := s.pods[r].(pairId := "")] else s.pods)
      case BindManaged(p) =>
        s' == if reply.Refused? || p.managed !in s.pods then s.(phase := Applying(rest))
              else if reply.Lost? then
                s.(phase := Applying(rest), pods := s.pods[p.managed := s.pods[p.managed].(pairId := p.uuid)])
              else
                s.(phase := Applying([BindVLLM(p)] + rest), managedWritten := s.managedWritten + {p.uuid},
                   pods := s.pods[p.managed := s.pods[p.managed].(pairId := p.uuid)])
      case BindVLLM(p) =>
        s' == s.(phase := Applying(rest),
                 pods := if reply.TookEffect() && p.vllm in s.pods
                         then s.pods[p.vllm := s.pods[p.vllm].(pairId := p.uuid)] else s.pods)
  }

  ghost predicate Step(c: Config, s: State, s': State) {
    || EnvStep(s, s')
    || CrashStep(s, s')
    || (exists m, dep :: StartStep(c, s, s', m, dep))
    || CompareStep(c, s, s')
    || ScaleStep(s, s')
    || (exists ml :: ListManagedStep(c, s, s', ml))
    || (exists vl, newUUID, plan :: PlanStep(c, s, s', vl, newUUID, plan))
    || PatchStep(s, s', Served)
    || PatchStep(s, s', Refused)
    || PatchStep(s, s', Lost)
  }

  ghost predicate Init(s: State) {
    s.phase.Idle? && s.issued == map[] && s.managedWritten == {} && forall r :: r in s.pods ==> s.pods[r].pairId == ""
  }

  ghost predicate Path(c: Config, ss: seq<State>) {
    ss != [] && forall i, j :: 0 <= i && j == i + 1 < |ss| ==> Step(c, ss[i], ss[j])
  }

  ghost predicate Run(c: Config, ss: seq<State>) {
    Path(c, ss) && Init(ss[0])
  }

  // ---------------------------------------------------------------- invariant

  ghost predicate Entitled(s: State, r: PodRef, id: string) {
    id in s.issued && (s.issued[id].managed == r || (s.issued[id].vllm == r && id in s.managedWritten))
  }

  ghost predicate OpInv(s: State, op: Op) {
    match op
    case Prune(_) => true
    case BindManaged(p) => p.uuid != "" && p.uuid in s.issued && s.issued[p.uuid] == p
    case BindVLLM(p) => p.uuid != "" && p.uuid in s.issued && s.issued[p.uuid] == p && p.uuid in s.managedWritten
  }

  ghost predicate PhaseInv(c: Config, s: State) {
    match s.phase
    case Started(m, _) => c.isManaged(m)
    case Compared(m, t) => c.isManaged(m) && !c.isManaged(t)
    case ListedManaged(m, t, ml) =>
      c.isManaged(m) && !c.isManaged(t) && forall r :: r in ListedRefs(ml) ==> c.owner(r) == m
    case Applying(todo) => forall op :: op in todo ==> OpInv(s, op)
    case _ => true
  }

  ghost predicate Inv(c: Config, s: State) {
    && (forall r :: r in s.pods && s.pods[r].pairId != "" ==> Entitled(s, r, s.pods[r].pairId))
    && (forall id :: id in s.issued ==>
          c.isManaged(c.owner(s.issued[id].managed)) && !c.isManaged(c.owner(s.issued[id].vllm)))
    && PhaseInv(c, s)
  }

  lemma {:induction false} IssueKeeps(issued: map<string, Pairing>, bs: seq<Pairing>, newUUID: nat -> string)
    requires Fresh(newUUID, issued.Keys)
    requires forall i :: 0 <= i < |bs| ==> bs[i].uuid == newUUID(i)
    ensures forall id :: id in issued ==> id in Issue(issued, bs) && Issue(issued, bs)[id] == issued[id]
    ensures forall i :: 0 <= i < |bs| ==> bs[i].uuid in Issue(issued, bs) && Issue(issued, bs)[bs[i].uuid] == bs[i]
    ensures forall id :: id in Issue(issued, bs) && id !in issued ==>
              exists i :: 0 <= i < |bs| && bs[i].uuid == id && Issue(issued, bs)[id] == bs[i]
  {
    if bs != [] {
      IssueKeeps(issued, bs[..|bs| - 1], newUUID);
    }
  }

  lemma PlanOpsInv(s: State, prunes: seq<PodRef>, bs: seq<Pairing>)
    requires forall i :: 0 <= i < |bs| ==> bs[i].uuid != "" && bs[i].uuid in s.issued && s.issued[bs[i].uuid] == bs[i]
    ensures forall op :: op in Prunes(prunes) + Binds(bs) ==> OpInv(s, op)
  {
    forall op | op in Prunes(prunes) + Binds(bs) ensures OpInv(s, op) {
      if op in Binds(bs) {
        var i :| 0 <= i < |bs| && op == BindManaged(bs[i]);
      } else {
        assert op in Prunes(prunes);
      }
    }
  }

  lemma PlanStepInv(c: Config, s: State, s': State, vl: seq<PodSnapshot>, newUUID: nat -> string, plan: PatchPlan)
    requires Inv(c, s) && PlanStep(c, s, s', vl, newUUID, plan)
    ensures Inv(c, s')
  {
    var bs := plan.bindings;
    PlanEnds(c, s, vl, newUUID, plan);
    IssueKeeps(s.issued, bs, newUUID);
    PlanOpsInv(s', plan.prunes, bs);
    assert forall r, id :: Entitled(s, r, id) ==> Entitled(s', r, id);
  }

  lemma PlanEnds(c: Config, s: State, vl: seq<PodSnapshot>, newUUID: nat -> string, plan: PatchPlan)
    requires s.phase.ListedManaged? && PhaseInv(c, s)
    requires IsListing(SideOf(c.owner, s.pods, s.phase.t), vl) && IsPlan(s.phase.ml, vl, newUUID, plan)
    ensures forall i :: 0 <= i < |plan.bindings| ==>
              var b := plan.bindings[i];
              b.uuid == newUUID(i) && c.isManaged(c.owner(b.managed)) && !c.isManaged(c.owner(b.vllm))
  {
    PlanRefs(s.phase.ml, vl, newUUID, plan);
    ListedPodsExist(c.owner, s.pods, s.phase.t, vl);
  }

  lemma PatchStepInv(c: Config, s: State, s': State, reply: Reply)
    requires Inv(c, s) && PatchStep(s, s', reply)
    ensures Inv(c, s')
  {
    var op, rest := s.phase.todo[0], s.phase.todo[1..];
    assert OpInv(s, op);
    assert forall o :: o in rest ==> o in s.phase.todo;
    assert forall o :: OpInv(s, o) ==> OpInv(s', o);
    forall o | o in s'.phase.todo ensures OpInv(s', o) {
      assert o in rest || (op.BindManaged? && o == BindVLLM(op.p));
    }
    assert forall r, id :: Entitled(s, r, id) ==> Entitled(s', r, id);
  }

  lemma EnvStepInv(c: Config, s: State, s': State)
    requires Inv(c, s) && EnvStep(s, s')
    ensures Inv(c, s')
  {
    assert forall r, id :: Entitled(s, r, id) ==> Entitled(s', r, id);
    assert forall op :: OpInv(s, op) ==> OpInv(s', op);
  }

  lemma ListManagedStepInv(c: Config, s: State, s': State, ml: seq<PodSnapshot>)
    requires Inv(c, s) && ListManagedStep(c, s, s', ml)
    ensures Inv(c, s')
  {
    ListedPodsExist(c.owner, s.pods, s.phase.m, ml);
    assert forall r, id :: Entitled(s, r, id) ==> Entitled(s', r, id);
  }

  lemma ControlStepInv(c: Config, s: State, s': State)
    requires Inv(c, s)
    requires CrashStep(s, s') || CompareStep(c, s, s') || ScaleStep(s, s') || exists m, dep :: StartStep(c, s, s', m, dep)
    ensures Inv(c, s')
  {
    assert forall r, id :: Entitled(s, r, id) ==> Entitled(s', r, id);
  }

  lemma StepInv(c: Config, s: State, s': State)
    requires Inv(c, s) && Step(c, s, s')
    ensures Inv(c, s')
  {
    if exists vl, newUUID, plan :: PlanStep(c, s, s', vl, newUUID, plan) {
      var vl, newUUID, plan :| PlanStep(c, s, s', vl, newUUID, plan);
      PlanStepInv(c, s, s', vl, newUUID, plan);
    } else if PatchStep(s, s', Served) {
      PatchStepInv(c, s, s', Served);
    } else if PatchStep(s, s', Refused) {
      PatchStepInv(c, s, s', Refused);
    } else if PatchStep(s, s', Lost) {
      PatchStepInv(c, s, s', Lost);
    } else if exists ml :: ListManagedStep(c, s, s', ml) {
      var ml :| ListManagedStep(c, s, s', ml);
      ListManagedStepInv(c, s, s', ml);
    } else if EnvStep(s, s') {
      EnvStepInv(c, s, s');
    } else {
      ControlStepInv(c, s, s');
    }
  }

  /** The invariant holds in every state of every run. */
  lemma {:induction false} RunInv(c: Config, ss: seq<State>, i: nat)
    requires Run(c, ss) && i < |ss|
    ensures Inv(c, ss[i])
  {
    if i > 0 {
      RunInv(c, ss, i - 1);
      assert Step(c, ss[i - 1], ss[i]);
      StepInv(c, ss[i - 1], ss[i]);
    }
  }

  // -------------------------------------------------------------- no mis-pairing

  /** In every state of every run, two pods carry the same id only if they are the two ends
      of the one pairing it was drawn for, one managed and one not; so an id is on at most
      one managed and one vLLM pod, and within a Deployment ids are distinct. */
  lemma NoMispairing(c: Config, ss: seq<State>, i: nat, r: PodRef, r': PodRef)
    requires Run(c, ss) && i < |ss|
    requires var pods := ss[i].pods; r in pods && r' in pods && r != r' && pods[r].pairId == pods[r'].pairId != ""
    ensures var id := ss[i].pods[r].pairId;
      && id in ss[i].issued
      && {r, r'} == {ss[i].issued[id].managed, ss[i].issued[id].vllm}
      && c.isManaged(c.owner(r)) != c.isManaged(c.owner(r'))
      && id in ss[i].managedWritten
  {
    RunInv(c, ss, i);
    var id := ss[i].pods[r].pairId;
    assert Entitled(ss[i], r, id) && Entitled(ss[i], r', id);
  }

  lemma InvDistinctIds(c: Config, s: State, d: DepRef)
    requires Inv(c, s)
    ensures DistinctIds(SideOf(c.owner, s.pods, d))
  {
    var side := SideOf(c.owner, s.pods, d);
    forall n, n' | n in side.pods && n' in side.pods && side.pods[n].pairId == side.pods[n'].pairId != "" ensures n == n' {
      var r, r', id := PodRef(n, d.ns), PodRef(n', d.ns), side.pods[n].pairId;
      assert Entitled(s, r, id) && Entitled(s, r', id);
    }
  }

  ghost predicate ManagedWrite(s: State, s': State, id: string) {
    && PatchStep(s, s', Served) && s.phase.todo[0].BindManaged? && s.phase.todo[0].p.uuid == id
    && id in s'.issued && s'.issued[id] == s.phase.todo[0].p
    && s'.issued[id].managed in s'.pods && s'.pods[s'.issued[id].managed].pairId == id
  }

  /** An id reaches `managedWritten` only by a patch that put it on its managed pod. */
  lemma {:induction false} WrittenEarlier(c: Config, ss: seq<State>, i: nat, id: string) returns (j: nat)
    requires Run(c, ss) && i < |ss| && id in ss[i].managedWritten
    ensures j < i && ManagedWrite(ss[j], ss[j + 1], id)
  {
    var k := i - 1;
    assert Step(c, ss[k], ss[k + 1]);
    if id in ss[k].managedWritten {
      j := WrittenEarlier(c, ss, k, id);
    } else {
      RunInv(c, ss, k);
      NewlyWritten(c, ss[k], ss[k + 1], id);
      j := k;
    }
  }

  lemma NewlyWritten(c: Config, s: State, s': State, id: string)
    requires Inv(c, s) && Step(c, s, s') && id in s'.managedWritten && id !in s.managedWritten
    ensures ManagedWrite(s, s', id)
  {
    assert PatchStep(s, s', Served) && s.phase.todo[0].BindManaged?;
    assert OpInv(s, s.phase.todo[0]);
  }

  /** A vLLM pod carries an id only after an earlier patch of the same run wrote that id to
      the managed pod of its pairing, whichever calls failed in between. */
  lemma VLLMLabelledAfterManaged(c: Config, ss: seq<State>, i: nat, r: PodRef) returns (j: nat)
    requires Run(c, ss) && i < |ss| && r in ss[i].pods && ss[i].pods[r].pairId != ""
    requires !c.isManaged(c.owner(r))
    ensures j < i && ManagedWrite(ss[j], ss[j + 1], ss[i].pods[r].pairId)
    ensures ss[j + 1].issued[ss[i].pods[r].pairId].vllm == r
  {
    RunInv(c, ss, i);
    var id := ss[i].pods[r].pairId;
    assert Entitled(ss[i], r, id);
    j := WrittenEarlier(c, ss, i, id);
    IssuedForGood(c, ss, j + 1, i);
  }

  ghost predicate IssuedKept(s: State, s': State) {
    forall id :: id in s.issued ==> id in s'.issued && s'.issued[id] == s.issued[id]
  }

  lemma StepKeepsIssued(c: Config, s: State, s': State)
    requires Step(c, s, s')
    ensures IssuedKept(s, s')
  {
    if exists vl, newUUID, plan :: PlanStep(c, s, s', vl, newUUID, plan) {
      var vl, newUUID, plan :| PlanStep(c, s, s', vl, newUUID, plan);
      PlanRefs(s.phase.ml, vl, newUUID, plan);
      IssueKeeps(s.issued, plan.bindings, newUUID);
    }
  }

  lemma {:induction false} KeptForGood(ss: seq<State>, i: nat, k: nat)
    requires i <= k < |ss|
    requires forall a, b :: 0 <= a && b == a + 1 < |ss| ==> IssuedKept(ss[a], ss[b])
    ensures IssuedKept(ss[i], ss[k])
    decreases k - i
  {
    if i < k {
      KeptForGood(ss, i, k - 1);
      assert IssuedKept(ss[k - 1], ss[k]);
    }
  }

  /** An id never changes the pairing it stands for. */
  lemma IssuedForGood(c: Config, ss: seq<State>, i: nat, k: nat)
    requires Path(c, ss) && i <= k < |ss|
    ensures IssuedKept(ss[i], ss[k])
  {
    forall a, b | 0 <= a && b == a + 1 < |ss| ensures IssuedKept(ss[a], ss[b]) {
      StepKeepsIssued(c, ss[a], ss[b]);
    }
    KeptForGood(ss, i, k);
  }

  // ---------------------------------------------------------------- self-healing

  /** From every state of every run, however it was reached and whatever was in flight when
      the process stopped, one fault-free pass over a group with equal replica counts fully
      pairs it, and the pass after that is a no-op; with differing counts the pass only
      equalises them. */
  lemma SelfHealing(c: Config, ss: seq<State>, m: DepRef, dep: Deployment, t: DepRef, reply: Call -> Reply,
      newUUID: nat -> string, w1: World, reply2: Call -> Reply, newUUID2: nat -> string, w2: World)
    requires Run(c, ss)
    requires c.isManaged(m) && !c.isManaged(t) && '/' !in m.ns && '/' !in t.ns
    requires var s := ss[|ss| - 1];
      && Target(m, dep) == Some(t) && t in s.deps
      && NoFaults(reply) && Fresh(newUUID, s.issued.Keys)
      && Reconciled(c.owner, World(s.deps, s.pods), m, dep, reply, newUUID, w1)
    requires Reconciled(c.owner, w1, m, dep, reply2, newUUID2, w2)
    ensures var s := ss[|ss| - 1];
      var ms, vs := SideOf(c.owner, s.pods, m), SideOf(c.owner, s.pods, t);
      if Replicas(s.deps[t]) == Replicas(dep) then
        && Heals(ms, vs, SideOf(c.owner, w1.pods, m), SideOf(c.owner, w1.pods, t))
        && w1.deps == s.deps && w2 == w1
      else
        w1.pods == s.pods && t in w1.deps && Replicas(w1.deps[t]) == Replicas(dep)
  {
    var s := ss[|ss| - 1];
    var w := World(s.deps, s.pods);
    RunInv(c, ss, |ss| - 1);
    if Replicas(s.deps[t]) == Replicas(dep) {
      var ms, vs := SideOf(c.owner, s.pods, m), SideOf(c.owner, s.pods, t);
      InvDistinctIds(c, s, m);
      InvDistinctIds(c, s, t);
      SidesDisjoint(c.owner, s.pods, m, t);
      InvFresh(c, s, newUUID, m);
      InvFresh(c, s, newUUID, t);
      PassHeals(c.owner, w, m, dep, t, reply, newUUID, w1);
      PassIsNoOp(c.owner, w1, m, dep, t, reply2, newUUID2, w2);
    } else {
      PassEqualises(c.owner, w, m, dep, t, reply, newUUID, w1);
    }
  }

  lemma InvFresh(c: Config, s: State, newUUID: nat -> string, d: DepRef)
    requires Inv(c, s) && Fresh(newUUID, s.issued.Keys)
    ensures Fresh(newUUID, Labels(SideOf(c.owner, s.pods, d)))
  {
    var side := SideOf(c.owner, s.pods, d);
    forall n | n in side.pods && side.pods[n].pairId != "" ensures side.pods[n].pairId in s.issued {
      assert Entitled(s, PodRef(n, d.ns), side.pods[n].pairId);
    }
  }

  // ------------------------------------------------------- passes are runs

  lemma PathAppend(c: Config, ss: seq<State>, s': State)
    requires Path(c, ss) && Step(c, ss[|ss| - 1], s')
    ensures Path(c, ss + [s'])
  {
    var tt := ss + [s'];
    forall i, j | 0 <= i && j == i + 1 < |tt| ensures Step(c, tt[i], tt[j]) {
      if j < |ss| {
        assert Step(c, ss[i], ss[j]);
      }
    }
  }

  lemma PathConcat(c: Config, a: seq<State>, b: seq<State>)
    requires Path(c, a) && Path(c, b) && a[|a| - 1] == b[0]
    ensures Path(c, a + b[1..])
  {
    var tt := a + b[1..];
    forall i, j | 0 <= i && j == i + 1 < |tt| ensures Step(c, tt[i], tt[j]) {
      if j < |a| {
        assert Step(c, a[i], a[j]);
      } else {
        assert Step(c, b[i - |a| + 1], b[j - |a| + 1]);
      }
    }
  }

  /** The end of a path that issued the patches of a plan: labels written, `rest` still to do. */
  ghost predicate Reaches(c: Config, ss: seq<State>, s: State, pods: map<PodRef, Pod>, rest: seq<Op>) {
    && Path(c, ss) && ss[0] == s
    && ss[|ss| - 1].deps == s.deps && ss[|ss| - 1].pods == pods && ss[|ss| - 1].phase == Applying(rest)
  }

  lemma {:induction false} PrunesPath(c: Config, s: State, prunes: seq<PodRef>, rest: seq<Op>, reply: Patch -> Reply)
    returns (ss: seq<State>)
    requires s.phase == Applying(Prunes(prunes) + rest)
    ensures Reaches(c, ss, s, WritePods(s.pods, PruneWrites(prunes, reply)), rest)
  {
    if prunes == [] {
      assert Prunes(prunes) + rest == rest;
      assert WritePods(s.pods, []) == s.pods;
      ss := [s];
    } else {
      var n := |prunes| - 1;
      var r := prunes[n];
      assert Prunes(prunes) + rest == Prunes(prunes[..n]) + ([Prune(r)] + rest);
      ss := PrunesPath(c, s, prunes[..n], [Prune(r)] + rest, reply);
      var s1 := ss[|ss| - 1];
      var ws := PruneWrites(prunes[..n], reply);
      WritePodsStep(s.pods, ws, Write(r, ""));
      assert ws + [] == ws;
      var s2 := s1.(phase := Applying(rest), pods := WritePods(s.pods, PruneWrites(prunes, reply)));
      assert ([Prune(r)] + rest)[1..] == rest;
      assert PatchStep(s1, s2, reply(RemoveLabel(r)));
      PathAppend(c, ss, s2);
      ss := ss + [s2];
    }
  }

  lemma BindPath(c: Config, s: State, b: Pairing, rest: seq<Op>, reply: Patch -> Reply) returns (ss: seq<State>)
    requires s.phase == Applying([BindManaged(b)] + rest) && b.managed in s.pods && b.vllm in s.pods
    ensures Reaches(c, ss, s, WritePods(s.pods, BindingWrites(b, reply)), rest)
  {
    assert ([BindManaged(b)] + rest)[1..] == rest && ([BindVLLM(b)] + rest)[1..] == rest;
    BindingPods(s.pods, b, reply);
    var mReply, vReply := reply(SetLabel(b.managed, b.uuid)), reply(SetLabel(b.vllm, b.uuid));
    if mReply.Refused? {
      var s1 := s.(phase := Applying(rest));
      assert PatchStep(s, s1, Refused);
      ss := [s, s1];
    } else if mReply.Lost? {
      var s1 := s.(phase := Applying(rest), pods := s.pods[b.managed := s.pods[b.managed].(pairId := b.uuid)]);
      assert PatchStep(s, s1, Lost);
      ss := [s, s1];
    } else {
      var s1 := s.(phase := Applying([BindVLLM(b)] + rest), managedWritten := s.managedWritten + {b.uuid},
                   pods := s.pods[b.managed := s.pods[b.managed].(pairId := b.uuid)]);
      assert PatchStep(s, s1, Served);
      var s2 := s1.(phase := Applying(rest),
                    pods := if vReply.TookEffect() then s1.pods[b.vllm := s1.pods[b.vllm].(pairId := b.uuid)] else s1.pods);
      assert PatchStep(s1, s2, vReply);
      ss := [s, s1, s2];
    }
  }

  lemma {:induction false} BindsPath(c: Config, s: State, bs: seq<Pairing>, rest: seq<Op>, reply: Patch -> Reply)
    returns (ss: seq<State>)
    requires s.phase == Applying(Binds(bs) + rest)
    requires forall b :: b in bs ==> b.managed in s.pods && b.vllm in s.pods
    ensures Reaches(c, ss, s, WritePods(s.pods, BindWrites(bs, reply)), rest)
  {
    if bs == [] {
      assert Binds(bs) + rest == rest;
      ss := StayPath(c, s, rest);
    } else {
      var n := |bs| - 1;
      assert bs[n] in bs && forall b :: b in bs[..n] ==> b in bs;
      BindsSplit(bs, rest);
      ss := BindsPath(c, s, bs[..n], [BindManaged(bs[n])] + rest, reply);
      ss := BindMore(c, s, ss, BindWrites(bs[..n], reply), bs[n], rest, reply);
    }
  }

  lemma StayPath(c: Config, s: State, rest: seq<Op>) returns (ss: seq<State>)
    requires s.phase == Applying(rest)
    ensures Reaches(c, ss, s, WritePods(s.pods, []), rest)
  {
    assert WritePods(s.pods, []) == s.pods;
    ss := [s];
  }

  lemma BindsSplit(bs: seq<Pairing>, rest: seq<Op>)
    requires bs != []
    ensures Binds(bs) + rest == Binds(bs[..|bs| - 1]) + ([BindManaged(bs[|bs| - 1])] + rest)
  {
  }

  lemma BindMore(c: Config, s: State, ss: seq<State>, ws: seq<Write>, b: Pairing, rest: seq<Op>, reply: Patch -> Reply)
    returns (tt: seq<State>)
    requires Reaches(c, ss, s, WritePods(s.pods, ws), [BindManaged(b)] + rest)
    requires b.managed in s.pods && b.vllm in s.pods
    ensures Reaches(c, tt, s, WritePods(s.pods, ws + BindingWrites(b, reply)), rest)
  {
    var uu := BindPath(c, ss[|ss| - 1], b, rest, reply);
    WriteTwice(s.pods, ws, BindingWrites(b, reply));
    ReachesThrough(c, ss, uu, s, [BindManaged(b)] + rest, rest);
    tt := ss + uu[1..];
  }

  lemma ReachesThrough(c: Config, ss: seq<State>, tt: seq<State>, s: State, mid: seq<Op>, rest: seq<Op>)
    requires ss != [] && tt != [] && Reaches(c, ss, s, ss[|ss| - 1].pods, mid)
    requires Reaches(c, tt, ss[|ss| - 1], tt[|tt| - 1].pods, rest)
    ensures Reaches(c, ss + tt[1..], s, tt[|tt| - 1].pods, rest)
  {
    PathConcat(c, ss, tt);
    assert |tt| == 1 ==> ss + tt[1..] == ss;
  }

  lemma PlanPath(c: Config, s: State, plan: PatchPlan, reply: Patch -> Reply) returns (ss: seq<State>)
    requires s.phase == Applying(Prunes(plan.prunes) + Binds(plan.bindings))
    requires forall b :: b in plan.bindings ==> b.managed in s.pods && b.vllm in s.pods
    ensures Reaches(c, ss, s, WritePods(s.pods, PlanWrites(plan, reply)), [])
  {
    ss := PrunesPath(c, s, plan.prunes, Binds(plan.bindings), reply);
    assert Binds(plan.bindings) + [] == Binds(plan.bindings);
    var tt := BindsPath(c, ss[|ss| - 1], plan.bindings, [], reply);
    WriteTwice(s.pods, PruneWrites(plan.prunes, reply), BindWrites(plan.bindings, reply));
    ReachesThrough(c, ss, tt, s, Binds(plan.bindings), []);
    ss := ss + tt[1..];
  }

  ghost predicate EndsIn(c: Config, ss: seq<State>, s: State, w: World) {
    && Path(c, ss) && ss[0] == s
    && ss[|ss| - 1].phase.Idle? && World(ss[|ss| - 1].deps, ss[|ss| - 1].pods) == w
  }

  /** Every outcome of a whole pass, with any calls failing, is the end of a run of single
      calls; so the properties of all runs hold of what ReconcileOne leaves behind. */
  lemma PassIsRun(c: Config, s: State, m: DepRef, dep: Deployment, reply: Call -> Reply, newUUID: nat -> string, w': World)
    returns (ss: seq<State>)
    requires s.phase.Idle? && c.isManaged(m) && Fresh(newUUID, s.issued.Keys)
    requires Target(m, dep).Some? ==> !c.isManaged(Target(m, dep).value)
    requires Reconciled(c.owner, World(s.deps, s.pods), m, dep, reply, newUUID, w')
    ensures EndsIn(c, ss, s, w')
  {
    ss := [s];
    if w' != World(s.deps, s.pods) {
      var t := Target(m, dep).value;
      var s1 := s.(phase := Started(m, dep));
      assert StartStep(c, s, s1, m, dep);
      PathAppend(c, ss, s1);
      ss := ss + [s1];
      if Replicas(s.deps[t]) != Replicas(dep) {
        ss := ScalePath(c, ss, w');
      } else {
        var s2 := s1.(phase := Compared(m, t));
        assert CompareStep(c, s1, s2);
        PathAppend(c, ss, s2);
        ss := ss + [s2];
        ss := DecidePath(c, ss, newUUID, PatchReply(reply), w'.pods);
      }
    }
  }

  lemma ScalePath(c: Config, ss: seq<State>, w': World) returns (tt: seq<State>)
    requires Path(c, ss)
    requires var s := ss[|ss| - 1];
      && s.phase.Started?
      && var t := Target(s.phase.m, s.phase.dep);
        && t.Some? && !c.isManaged(t.value) && t.value in s.deps
        && Replicas(s.deps[t.value]) != Replicas(s.phase.dep)
        && w' == World(s.deps[t.value := s.deps[t.value].(replicas := Some(Replicas(s.phase.dep)))], s.pods)
    ensures EndsIn(c, tt, ss[0], w')
  {
    var s := ss[|ss| - 1];
    var t := Target(s.phase.m, s.phase.dep).value;
    var s1 := s.(phase := Scaling(t, Replicas(s.phase.dep)));
    assert CompareStep(c, s, s1);
    PathAppend(c, ss, s1);
    var s2 := s1.(phase := Idle, deps := w'.deps);
    assert ScaleStep(s1, s2);
    PathAppend(c, ss + [s1], s2);
    tt := ss + [s1] + [s2];
  }

  lemma DecidePath(c: Config, ss: seq<State>, newUUID: nat -> string, reply: Patch -> Reply, pods': map<PodRef, Pod>)
    returns (tt: seq<State>)
    requires Path(c, ss)
    requires var s := ss[|ss| - 1];
      && s.phase.Compared? && Fresh(newUUID, s.issued.Keys)
      && exists ml, vl, plan :: PlanApplied(c.owner, s.pods, s.phase.m, s.phase.t, newUUID, reply, ml, vl, plan, pods')
    ensures EndsIn(c, tt, ss[0], World(ss[|ss| - 1].deps, pods'))
  {
    var s := ss[|ss| - 1];
    var m, t := s.phase.m, s.phase.t;
    var ml, vl, plan :| PlanApplied(c.owner, s.pods, m, t, newUUID, reply, ml, vl, plan, pods');
    var s1 := s.(phase := ListedManaged(m, t, ml));
    assert ListManagedStep(c, s, s1, ml);
    PathAppend(c, ss, s1);
    var s2 := s1.(phase := Applying(Prunes(plan.prunes) + Binds(plan.bindings)), issued := Issue(s.issued, plan.bindings));
    assert PlanStep(c, s1, s2, vl, newUUID, plan);
    PathAppend(c, ss + [s1], s2);
    PlanRefs(ml, vl, newUUID, plan);
    ListedPodsExist(c.owner, s.pods, m, ml);
    ListedPodsExist(c.owner, s.pods, t, vl);
    var uu := PlanPath(c, s2, plan, reply);
    tt := Finish(c, ss + [s1] + [s2], uu, pods');
  }

  /** Nothing is left to do: the pass is over. */
  lemma Finish(c: Config, ss: seq<State>, uu: seq<State>, pods': map<PodRef, Pod>) returns (tt: seq<State>)
    requires Path(c, ss) && Reaches(c, uu, ss[|ss| - 1], pods', [])
    ensures EndsIn(c, tt, ss[0], World(ss[|ss| - 1].deps, pods'))
  {
    PathConcat(c, ss, uu);
    tt := ss + uu[1..];
    assert |uu| == 1 ==> tt == ss;
    var s := tt[|tt| - 1].(phase := Idle);
    assert CrashStep(tt[|tt| - 1], s);
    PathAppend(c, tt, s);
    tt := tt + [s];
  }
}
