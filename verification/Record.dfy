// Model of pkg/monitor/builder.go: the record of one control cycle, assembled from the
// observed servers, the optimizer's decisions and the capacity data.
module Monitor {
  import opened Reals
  import opened Aggregates
  import opened Config
  import opened Order

  datatype Targets = Targets(itl: real, ttft: real)
  datatype ModelTarget = ModelTarget(model: string, slo: Targets)
  datatype ServiceClass = ServiceClass(name: string, targets: seq<ModelTarget>)
  datatype AcceleratorCount = AcceleratorCount(accType: string, count: int)

  datatype ServerRecord = ServerRecord(name: string, className: string, model: string, load: ServerLoad,
                                       itl: real, ttft: real, occPerReplica: real, occTotal: real, slo: Targets,
                                       accelerator: string, numReplicas: int, maxBatch: int, cost: real)
  datatype CapacityRecord = CapacityRecord(accType: string, inUse: int, available: int)

  /** Tuned parameters of a model on an accelerator, as held and as recorded. */
  datatype PerfData = PerfData(name: string, acc: string, alpha: real, beta: real, gamma: real)
  datatype ModelParms = ModelParms(model: string, acc: string, alpha: real, beta: real, gamma: real)
  datatype ModelData = ModelData(perfData: seq<PerfData>)

  datatype Timing = Timing(collect: int, tune: int, optimize: int, actuate: int, total: int)

  datatype CycleRecord = CycleRecord(timestamp: string, cycle: int, servers: seq<ServerRecord>,
                                     internals: seq<ModelParms>, capacity: seq<CapacityRecord>, totalCost: real,
                                     timing: Timing)

  const NO_TARGETS := Targets(0.0, 0.0)

  // -------------------------------------------------------------- specification

  function FirstModel(targets: seq<ModelTarget>, model: string): Targets {
    if targets == [] then NO_TARGETS
    else if targets[0].model == model then targets[0].slo
    else FirstModel(targets[1..], model)
  }

  /** The targets of the first class of the server's name; later classes of that name are ignored. */
  function FirstTargets(classes: seq<ServiceClass>, className: string, model: string): Targets {
    if classes == [] then NO_TARGETS
    else if classes[0].name == className then FirstModel(classes[0].targets, model)
    else FirstTargets(classes[1..], className, model)
  }

  /** What is recorded of a server: what was observed, and what was decided, if anything was. */
  function RecordOf(s: ServerSpec, solution: map<string, Allocation>, classes: seq<ServiceClass>): ServerRecord {
    var a := s.alloc;
    var observed := ServerRecord(s.name, s.className, s.model, a.load, a.itl, a.ttft, a.occupancy,
                                 Times(a.occupancy, a.numReplicas as real), FirstTargets(classes, s.className, s.model),
                                 "", 0, 0, 0.0);
    if s.name in solution then
      var d := solution[s.name];
      observed.(accelerator := d.accelerator, numReplicas := d.numReplicas, maxBatch := d.maxBatch, cost := d.cost)
    else observed
  }

  function CostOf(r: ServerRecord): real { r.cost }

  /** Sum of f over a set, in whatever order. */
  ghost function SumOver(keys: set<string>, f: string -> int): int {
    if keys == {} then 0
    else
      var k :| k in keys;
      f(k) + SumOver(keys - {k}, f)
  }

  function Counted(a: Allocation): bool {
    a.accelerator != "" && a.numReplicas > 0
  }

  /** The units that one allocation takes of an accelerator type. */
  function Units(solution: map<string, Allocation>, accType: string): string -> int {
    k => if k in solution && Counted(solution[k]) && solution[k].accelerator == accType
         then solution[k].numReplicas else 0
  }

  /** The units that one allocation takes of any type. */
  function AllUnits(solution: map<string, Allocation>): string -> int {
    k => if k in solution && Counted(solution[k]) then solution[k].numReplicas else 0
  }

  /** The last count listed for a type, or 0. */
  function Available(capacity: seq<AcceleratorCount>, accType: string): int {
    if capacity == [] then 0
    else if capacity[|capacity| - 1].accType == accType then capacity[|capacity| - 1].count
    else Available(capacity[..|capacity| - 1], accType)
  }

  ghost predicate StrictlySorted(cs: seq<CapacityRecord>) {
    forall i, j :: 0 <= i < j < |cs| ==> LexLess(cs[i].accType, cs[j].accType)
  }

  ghost predicate IsEntry(c: CapacityRecord, solution: map<string, Allocation>, capacity: seq<AcceleratorCount>) {
    && c.inUse == SumOver(solution.Keys, Units(solution, c.accType)) > 0
    && c.available == Available(capacity, c.accType)
  }

  /** The capacity section: one entry for every type in use and no other, by increasing type. */
  ghost predicate IsCapacity(cs: seq<CapacityRecord>, solution: map<string, Allocation>, capacity: seq<AcceleratorCount>) {
    && StrictlySorted(cs)
    && (forall c :: c in cs ==> IsEntry(c, solution, capacity))
    && (forall k :: k in solution && Counted(solution[k]) ==> HasType(cs, solution[k].accelerator))
  }

  // ------------------------------------------------------------------ sums over sets

  /** Any element can be taken out of the sum first. */
  lemma {:induction false} SumOverAny(keys: set<string>, f: string -> int, k: string)
    requires k in keys
    ensures SumOver(keys, f) == f(k) + SumOver(keys - {k}, f)
    decreases |keys|
  {
    var x :| x in keys && SumOver(keys, f) == f(x) + SumOver(keys - {x}, f);
    if x != k {
      SumOverAny(keys - {x}, f, k);
      SumOverAny(keys - {k}, f, x);
      assert keys - {x} - {k} == keys - {k} - {x};
    }
  }

  lemma SumOverAdd(keys: set<string>, f: string -> int, k: string)
    requires k !in keys
    ensures SumOver(keys + {k}, f) == SumOver(keys, f) + f(k)
  {
    SumOverAny(keys + {k}, f, k);
    assert keys + {k} - {k} == keys;
  }

  lemma {:induction false} SumOverPointwise(keys: set<string>, f: string -> int, g: string -> int, h: string -> int)
    requires forall k :: k in keys ==> h(k) == f(k) + g(k)
    ensures SumOver(keys, h) == SumOver(keys, f) + SumOver(keys, g)
    decreases |keys|
  {
    if keys != {} {
      var k :| k in keys;
      SumOverAny(keys, f, k);
      SumOverAny(keys, g, k);
      SumOverAny(keys, h, k);
      SumOverPointwise(keys - {k}, f, g, h);
    }
  }

  /** A sum of non-negative terms is positive exactly when some term is. */
  lemma {:induction false} SumOverPositive(keys: set<string>, f: string -> int)
    requires forall k :: k in keys ==> f(k) >= 0
    ensures SumOver(keys, f) >= 0
    ensures SumOver(keys, f) > 0 <==> exists k :: k in keys && f(k) > 0
    decreases |keys|
  {
    if keys != {} {
      var k :| k in keys;
      SumOverAny(keys, f, k);
      SumOverPositive(keys - {k}, f);
    }
  }

  // ----------------------------------------------------------------- the builder

  /** The inner loops over service classes, each left at its first match. */
  method FindTargets(classes: seq<ServiceClass>, className: string, model: string) returns (slo: Targets)
    ensures slo == FirstTargets(classes, className, model)
  {
    slo := NO_TARGETS;
    for i := 0 to |classes|
      invariant FirstTargets(classes, className, model) == FirstTargets(classes[i..], className, model)
      invariant slo == NO_TARGETS
    {
      var sc := classes[i];
      assert classes[i..][1..] == classes[i + 1..];
      if sc.name == className {
        for j := 0 to |sc.targets|
          invariant FirstModel(sc.targets, model) == FirstModel(sc.targets[j..], model)
          invariant slo == NO_TARGETS
        {
          assert sc.targets[j..][1..] == sc.targets[j + 1..];
          if sc.targets[j].model == model {
            slo := sc.targets[j].slo;
            break;
          }
        }
        return;
      }
    }
  }

  method RecordServers(servers: seq<ServerSpec>, solution: map<string, Allocation>, classes: seq<ServiceClass>)
    returns (records: seq<ServerRecord>, totalCost: real)
    ensures |records| == |servers|
    ensures forall i :: 0 <= i < |servers| ==> records[i] == RecordOf(servers[i], solution, classes)
    ensures totalCost == SumOf(records, CostOf)
  {
    records, totalCost := [], 0.0;
    for i := 0 to |servers|
      invariant |records| == i
      invariant forall k :: 0 <= k < i ==> records[k] == RecordOf(servers[k], solution, classes)
      invariant totalCost == SumOf(records, CostOf)
    {
      var s := servers[i];
      var slo := FindTargets(classes, s.className, s.model);
      var sr := ServerRecord(s.name, s.className, s.model, s.alloc.load, s.alloc.itl, s.alloc.ttft, s.alloc.occupancy,
                             Times(s.alloc.occupancy, s.alloc.numReplicas as real), slo, "", 0, 0, 0.0);
      if s.name in solution {
        var alloc := solution[s.name];
        sr := sr.(accelerator := alloc.accelerator, numReplicas := alloc.numReplicas, maxBatch := alloc.maxBatch,
                  cost := alloc.cost);
        totalCost := totalCost + alloc.cost;
      }
      SumOfAppend(records, sr, CostOf);
      records := records + [sr];
    }
  }

  /** The loop over the solution, whose order Go leaves open. */
  method AllocatedByType(solution: map<string, Allocation>) returns (inUse: map<string, int>)
    ensures forall t :: t in inUse <==> SumOver(solution.Keys, Units(solution, t)) > 0
    ensures forall t :: t in inUse ==> inUse[t] == SumOver(solution.Keys, Units(solution, t))
  {
    inUse := map[];
    var todo := solution.Keys;
    while todo != {}
      invariant todo <= solution.Keys
      invariant forall t :: Tallied(inUse, t, SumOver(solution.Keys - todo, Units(solution, t)))
    {
      var k :| k in todo;
      var alloc := solution[k];
      ghost var done := solution.Keys - todo;
      forall t ensures SumOver(done + {k}, Units(solution, t)) == SumOver(done, Units(solution, t)) + Units(solution, t)(k) {
        SumOverAdd(done, Units(solution, t), k);
      }
      todo := todo - {k};
      assert solution.Keys - todo == done + {k};
      if alloc.accelerator != "" && alloc.numReplicas > 0 {
        var before := if alloc.accelerator in inUse then inUse[alloc.accelerator] else 0;
        inUse := inUse[alloc.accelerator := before + alloc.numReplicas];
      }
    }
    assert solution.Keys - todo == solution.Keys;
  }

  ghost predicate Tallied(inUse: map<string, int>, t: string, sum: int) {
    && sum >= 0
    && (t in inUse <==> sum > 0)
    && (t in inUse ==> inUse[t] == sum)
  }

  method AvailableByType(capacity: seq<AcceleratorCount>) returns (available: map<string, int>)
    ensures forall t :: Available(capacity, t) == if t in available then available[t] else 0
  {
    available := map[];
    for i := 0 to |capacity|
      invariant forall t :: Available(capacity[..i], t) == if t in available then available[t] else 0
    {
      assert capacity[..i + 1][..i] == capacity[..i];
      available := available[capacity[i].accType := capacity[i].count];
    }
    assert capacity[..|capacity|] == capacity;
  }

  /** The loop over the types in use, whose order Go leaves open. */
  method ListTypes(inUse: map<string, int>, available: map<string, int>) returns (records: seq<CapacityRecord>)
    ensures DistinctTypes(records) && Lists(records, inUse, available)
    ensures forall t :: t in inUse ==> HasType(records, t)
  {
    records := [];
    var todo := inUse.Keys;
    while todo != {}
      invariant todo <= inUse.Keys
      invariant DistinctTypes(records) && Lists(records, inUse, available)
      invariant forall c :: c in records ==> c.accType !in todo
      invariant forall t :: t in inUse && t !in todo ==> HasType(records, t)
    {
      var t :| t in todo;
      todo := todo - {t};
      var c := CapacityRecord(t, inUse[t], if t in available then available[t] else 0);
      HasTypeAppend(records, c);
      records := records + [c];
    }
  }

  ghost predicate Lists(records: seq<CapacityRecord>, inUse: map<string, int>, available: map<string, int>) {
    forall c :: c in records ==>
      && c.accType in inUse && c.inUse == inUse[c.accType]
      && c.available == if c.accType in available then available[c.accType] else 0
  }

  ghost predicate HasType(cs: seq<CapacityRecord>, t: string) {
    exists c :: c in cs && c.accType == t
  }

  lemma HasTypeAppend(cs: seq<CapacityRecord>, c: CapacityRecord)
    ensures HasType(cs + [c], c.accType)
    ensures forall t :: HasType(cs, t) ==> HasType(cs + [c], t)
  {
    assert c in cs + [c];
    forall t | HasType(cs, t) ensures HasType(cs + [c], t) {
      var d :| d in cs && d.accType == t;
      assert d in cs + [c];
    }
  }

  /** One record per type in use, sorted by type. */
  method RecordCapacity(solution: map<string, Allocation>, capacity: seq<AcceleratorCount>)
    returns (records: seq<CapacityRecord>)
    ensures IsCapacity(records, solution, capacity)
  {
    var inUse := AllocatedByType(solution);
    var available := AvailableByType(capacity);
    var listed := ListTypes(inUse, available);
    records := SortByType(listed);
    forall k | k in solution && Counted(solution[k]) ensures HasType(records, solution[k].accelerator) {
      UsedTypeCounts(solution, k);
      var c :| c in listed && c.accType == solution[k].accelerator;
      assert c in records;
    }
  }

  lemma UsedTypeCounts(solution: map<string, Allocation>, k: string)
    requires k in solution && Counted(solution[k])
    ensures SumOver(solution.Keys, Units(solution, solution[k].accelerator)) > 0
  {
    SumOverPositive(solution.Keys, Units(solution, solution[k].accelerator));
    assert Units(solution, solution[k].accelerator)(k) > 0;
  }

  ghost predicate DistinctTypes(cs: seq<CapacityRecord>) {
    forall i, j :: 0 <= i < j < |cs| ==> cs[i].accType != cs[j].accType
  }

  /** sort.Slice by type, here as an insertion sort. Callers know only its contract. */
  method SortByType(cs: seq<CapacityRecord>) returns (out: seq<CapacityRecord>)
    requires DistinctTypes(cs)
    ensures StrictlySorted(out) && forall c :: c in out <==> c in cs
  {
    out := [];
    for i := 0 to |cs|
      invariant StrictlySorted(out) && forall c :: c in out <==> c in cs[..i]
    {
      out := Insert(out, cs[i]);
    }
  }

  /** One step of the sort: a record of a new type goes to its place. */
  method Insert(cs: seq<CapacityRecord>, c: CapacityRecord) returns (out: seq<CapacityRecord>)
    requires StrictlySorted(cs) && forall d :: d in cs ==> d.accType != c.accType
    ensures StrictlySorted(out) && forall d :: d in out <==> d == c || d in cs
  {
    var k := |cs|;
    while k > 0 && LexLess(c.accType, cs[k - 1].accType)
      invariant 0 <= k <= |cs|
      invariant forall j :: k <= j < |cs| ==> LexLess(c.accType, cs[j].accType)
    {
      k := k - 1;
    }
    out := cs[..k] + [c] + cs[k..];
    assert cs == cs[..k] + cs[k..];
    if k > 0 {
      assert cs[k - 1] in cs;
      LexTotal(c.accType, cs[k - 1].accType);
    }
    InsertSorted(cs, c, k);
  }

  lemma InsertSorted(cs: seq<CapacityRecord>, c: CapacityRecord, k: nat)
    requires StrictlySorted(cs) && k <= |cs|
    requires k > 0 ==> LexLess(cs[k - 1].accType, c.accType)
    requires forall j :: k <= j < |cs| ==> LexLess(c.accType, cs[j].accType)
    ensures StrictlySorted(cs[..k] + [c] + cs[k..])
  {
    forall j | 0 <= j < k ensures LexLess(cs[j].accType, c.accType) {
      if j < k - 1 {
        LexTransitive(cs[j].accType, cs[k - 1].accType, c.accType);
      }
    }
    var out := cs[..k] + [c] + cs[k..];
    forall i, j | 0 <= i < j < |out| ensures LexLess(out[i].accType, out[j].accType) {
      assert out[i] == if i < k then cs[i] else if i == k then c else cs[i - 1];
      assert out[j] == if j < k then cs[j] else if j == k then c else cs[j - 1];
    }
  }

  ghost predicate Records(parms: ModelParms, pd: PerfData) {
    && parms.model == pd.name && parms.acc == pd.acc
    && parms.alpha == pd.alpha && parms.beta == pd.beta && parms.gamma == pd.gamma
  }

  method RecordInternals(modelData: ModelData) returns (internals: seq<ModelParms>)
    ensures |internals| == |modelData.perfData|
    ensures forall i :: 0 <= i < |internals| ==> Records(internals[i], modelData.perfData[i])
  {
    internals := [];
    for i := 0 to |modelData.perfData|
      invariant |internals| == i && forall k :: 0 <= k < i ==> Records(internals[k], modelData.perfData[k])
    {
      var pd := modelData.perfData[i];
      internals := internals + [ModelParms(pd.name, pd.acc, pd.alpha, pd.beta, pd.gamma)];
    }
  }

  method BuildRecord(now: string, cycle: int, servers: seq<ServerSpec>, solution: map<string, Allocation>,
                     classes: seq<ServiceClass>, modelData: ModelData, capacity: seq<AcceleratorCount>, timing: Timing)
    returns (r: CycleRecord)
    ensures r.timestamp == now && r.cycle == cycle && r.timing == timing
    ensures |r.servers| == |servers|
    ensures forall i :: 0 <= i < |servers| ==> r.servers[i] == RecordOf(servers[i], solution, classes)
    ensures |r.internals| == |modelData.perfData|
    ensures forall i :: 0 <= i < |r.internals| ==> Records(r.internals[i], modelData.perfData[i])
    ensures r.totalCost == SumOf(r.servers, CostOf)
    ensures IsCapacity(r.capacity, solution, capacity)
  {
    var records, totalCost := RecordServers(servers, solution, classes);
    var internals := RecordInternals(modelData);
    var caps := RecordCapacity(solution, capacity);
    r := CycleRecord(now, cycle, records, internals, caps, totalCost, timing);
  }

  // ------------------------------------------- what is recorded, entry by entry

  /** The first class of that name. */
  ghost predicate FirstNamed(classes: seq<ServiceClass>, className: string, i: int) {
    0 <= i < |classes| && classes[i].name == className && forall j :: 0 <= j < i ==> classes[j].name != className
  }

  /** The first entry for that model. */
  ghost predicate FirstFor(targets: seq<ModelTarget>, model: string, k: int) {
    0 <= k < |targets| && targets[k].model == model && forall j :: 0 <= j < k ==> targets[j].model != model
  }

  lemma {:induction false} FirstModelExactly(targets: seq<ModelTarget>, model: string)
    ensures forall k :: FirstFor(targets, model, k) ==> FirstModel(targets, model) == targets[k].slo
    ensures (forall t :: t in targets ==> t.model != model) ==> FirstModel(targets, model) == Targets(0.0, 0.0)
  {
    if targets != [] && targets[0].model != model {
      FirstModelExactly(targets[1..], model);
      forall k | FirstFor(targets, model, k) ensures FirstModel(targets, model) == targets[k].slo {
        assert FirstFor(targets[1..], model, k - 1);
      }
    }
  }

  /** The targets of a server: those that the first class of its name has first for its model; none
      if there is no such class, or no such entry in it. */
  lemma {:induction false} TargetsExactly(classes: seq<ServiceClass>, className: string, model: string)
    ensures forall i, k :: FirstNamed(classes, className, i) && FirstFor(classes[i].targets, model, k) ==>
              FirstTargets(classes, className, model) == classes[i].targets[k].slo
    ensures forall i :: FirstNamed(classes, className, i) && (forall t :: t in classes[i].targets ==> t.model != model) ==>
              FirstTargets(classes, className, model) == Targets(0.0, 0.0)
    ensures (forall c :: c in classes ==> c.name != className) ==>
              FirstTargets(classes, className, model) == Targets(0.0, 0.0)
  {
    if classes != [] {
      if classes[0].name == className {
        FirstModelExactly(classes[0].targets, model);
        assert forall i :: FirstNamed(classes, className, i) ==> i == 0;
      } else {
        TargetsExactly(classes[1..], className, model);
        assert forall i :: FirstNamed(classes, className, i) ==>
                 i > 0 && classes[i] == classes[1..][i - 1] && FirstNamed(classes[1..], className, i - 1);
      }
    }
  }

  /** A server is recorded with what was observed of it and, if the solution has it, with what was
      decided for it, cost included. */
  lemma RecordExactly(s: ServerSpec, solution: map<string, Allocation>, classes: seq<ServiceClass>)
    ensures var r := RecordOf(s, solution, classes);
      && r.name == s.name && r.className == s.className && r.model == s.model && r.load == s.alloc.load
      && r.itl == s.alloc.itl && r.ttft == s.alloc.ttft && r.occPerReplica == s.alloc.occupancy
      && r.occTotal == s.alloc.occupancy * s.alloc.numReplicas as real
      && r.slo == FirstTargets(classes, s.className, s.model)
      && (s.name in solution ==>
            var d := solution[s.name];
            && r.accelerator == d.accelerator && r.numReplicas == d.numReplicas
            && r.maxBatch == d.maxBatch && r.cost == d.cost == CostOf(r))
      && (s.name !in solution ==>
            r.accelerator == "" && r.numReplicas == 0 && r.maxBatch == 0 && r.cost == 0.0 == CostOf(r))
  {
  }

  lemma InternalsExactly(parms: ModelParms, pd: PerfData)
    ensures Records(parms, pd) <==> parms == ModelParms(pd.name, pd.acc, pd.alpha, pd.beta, pd.gamma)
  {
  }

  /** Some decision gives replicas of that type, and a type has a name. */
  ghost predicate InUse(solution: map<string, Allocation>, t: string) {
    t != "" && exists k :: k in solution && solution[k].accelerator == t && solution[k].numReplicas > 0
  }

  /** n is the count that the capacity data lists last for the type, 0 if it lists none. */
  ghost predicate LastListed(capacity: seq<AcceleratorCount>, t: string, n: int) {
    if forall c :: c in capacity ==> c.accType != t then n == 0
    else exists i :: 0 <= i < |capacity| && capacity[i] == AcceleratorCount(t, n) &&
                     forall j :: i < j < |capacity| ==> capacity[j].accType != t
  }

  lemma {:induction false} AvailableExactly(capacity: seq<AcceleratorCount>, t: string)
    ensures LastListed(capacity, t, Available(capacity, t))
  {
    if capacity != [] {
      var n := |capacity| - 1;
      if capacity[n].accType == t {
        assert capacity[n] in capacity && capacity[n] == AcceleratorCount(t, Available(capacity, t));
      } else {
        AvailableExactly(capacity[..n], t);
        OtherTypeListed(capacity, t, Available(capacity[..n], t));
      }
    }
  }

  lemma OtherTypeListed(capacity: seq<AcceleratorCount>, t: string, m: int)
    requires capacity != [] && capacity[|capacity| - 1].accType != t && LastListed(capacity[..|capacity| - 1], t, m)
    ensures LastListed(capacity, t, m)
  {
    var init := capacity[..|capacity| - 1];
    assert capacity == init + [capacity[|capacity| - 1]];
    if i :| 0 <= i < |init| && init[i] == AcceleratorCount(t, m) && forall j :: i < j < |init| ==> init[j].accType != t {
      assert capacity[i] == AcceleratorCount(t, m) && capacity[i] in capacity;
      assert forall j :: i < j < |init| ==> capacity[j] == init[j];
    }
  }

  /** The replicas that one decision gives of a type. */
  function GivenOf(solution: map<string, Allocation>, t: string): string -> int {
    k => if k in solution && solution[k].accelerator == t && solution[k].numReplicas > 0 then solution[k].numReplicas else 0
  }

  lemma {:induction false} SumOverSame(keys: set<string>, f: string -> int, g: string -> int)
    requires forall k :: k in keys ==> f(k) == g(k)
    ensures SumOver(keys, f) == SumOver(keys, g)
    decreases |keys|
  {
    if keys != {} {
      var k :| k in keys;
      SumOverAny(keys, f, k);
      SumOverAny(keys, g, k);
      SumOverSame(keys - {k}, f, g);
    }
  }

  /** The capacity section lists the types in use, in the order of their names and no other, each with all
      the replicas given of it and with the count listed last. */
  lemma CapacityExactly(cs: seq<CapacityRecord>, solution: map<string, Allocation>, capacity: seq<AcceleratorCount>)
    requires IsCapacity(cs, solution, capacity)
    ensures forall t :: InUse(solution, t) <==> exists c :: c in cs && c.accType == t
    ensures forall i, j :: 0 <= i < j < |cs| ==> Precedes(cs[i].accType, cs[j].accType)
    ensures forall c :: c in cs ==>
              c.inUse == SumOver(solution.Keys, GivenOf(solution, c.accType)) && LastListed(capacity, c.accType, c.available)
  {
    forall i, j | 0 <= i < j < |cs| ensures Precedes(cs[i].accType, cs[j].accType) {
      LexMeaning(cs[i].accType, cs[j].accType);
    }
    forall c | c in cs
      ensures InUse(solution, c.accType) && LastListed(capacity, c.accType, c.available)
      ensures c.inUse == SumOver(solution.Keys, GivenOf(solution, c.accType))
    {
      EntryIsUsed(c, solution, capacity);
      AvailableExactly(capacity, c.accType);
      SumOverSame(solution.Keys, Units(solution, c.accType), GivenOf(solution, c.accType));
    }
    forall t | InUse(solution, t) ensures exists c :: c in cs && c.accType == t {
      var k :| k in solution && solution[k].accelerator == t && solution[k].numReplicas > 0;
      assert HasType(cs, solution[k].accelerator);
    }
  }

  // ---------------------------------------------------------------- conservation

  function TotalAllocated(cs: seq<CapacityRecord>): int {
    if cs == [] then 0 else TotalAllocated(cs[..|cs| - 1]) + cs[|cs| - 1].inUse
  }

  /** The units of the types listed in a prefix. */
  function UnitsIn(solution: map<string, Allocation>, cs: seq<CapacityRecord>): string -> int {
    k => if k in solution && Counted(solution[k]) && (exists i :: 0 <= i < |cs| && cs[i].accType == solution[k].accelerator)
         then solution[k].numReplicas else 0
  }

  lemma {:induction false} UnitsAddUp(cs: seq<CapacityRecord>, solution: map<string, Allocation>,
                                      capacity: seq<AcceleratorCount>)
    requires StrictlySorted(cs) && forall c :: c in cs ==> IsEntry(c, solution, capacity)
    ensures TotalAllocated(cs) == SumOver(solution.Keys, UnitsIn(solution, cs))
  {
    if cs == [] {
      SumOverZero(solution.Keys, UnitsIn(solution, cs));
    } else {
      var init, c := cs[..|cs| - 1], cs[|cs| - 1];
      assert c in cs && forall d :: d in init ==> d in cs;
      UnitsAddUp(init, solution, capacity);
      forall k | k in solution.Keys
        ensures UnitsIn(solution, cs)(k) == UnitsIn(solution, init)(k) + Units(solution, c.accType)(k)
      {
        UnitsInLast(cs, solution, k);
      }
      SumOverPointwise(solution.Keys, UnitsIn(solution, init), Units(solution, c.accType), UnitsIn(solution, cs));
    }
  }

  lemma UnitsInLast(cs: seq<CapacityRecord>, solution: map<string, Allocation>, k: string)
    requires cs != [] && StrictlySorted(cs) && k in solution
    ensures var init, c := cs[..|cs| - 1], cs[|cs| - 1];
      UnitsIn(solution, cs)(k) == UnitsIn(solution, init)(k) + Units(solution, c.accType)(k)
  {
    var n := |cs| - 1;
    LastTypeIsNew(cs);
    if i :| 0 <= i < |cs| && cs[i].accType == solution[k].accelerator {
      assert i < n ==> cs[..n][i].accType == solution[k].accelerator;
      assert i == n ==> forall j :: 0 <= j < n ==> cs[..n][j].accType != solution[k].accelerator;
    }
  }

  lemma LastTypeIsNew(cs: seq<CapacityRecord>)
    requires cs != [] && StrictlySorted(cs)
    ensures forall i :: 0 <= i < |cs| - 1 ==> cs[i].accType != cs[|cs| - 1].accType
  {
    LexIrreflexive(cs[|cs| - 1].accType);
  }

  lemma {:induction false} SumOverZero(keys: set<string>, f: string -> int)
    requires forall k :: k in keys ==> f(k) == 0
    ensures SumOver(keys, f) == 0
    decreases |keys|
  {
    if keys != {} {
      var k :| k in keys;
      SumOverAny(keys, f, k);
      SumOverZero(keys - {k}, f);
    }
  }

  /** Nothing allocated goes unrecorded, and nothing is recorded twice: the capacity entries
      add up to the replicas of all counted allocations. */
  lemma CapacityConserved(cs: seq<CapacityRecord>, solution: map<string, Allocation>, capacity: seq<AcceleratorCount>)
    requires IsCapacity(cs, solution, capacity)
    ensures TotalAllocated(cs) == SumOver(solution.Keys, AllUnits(solution))
  {
    UnitsAddUp(cs, solution, capacity);
    forall k | k in solution.Keys ensures AllUnits(solution)(k) == UnitsIn(solution, cs)(k) + Nothing(k) {
      if Counted(solution[k]) {
        var c :| c in cs && c.accType == solution[k].accelerator;
      }
    }
    SumOverZero(solution.Keys, Nothing);
    SumOverPointwise(solution.Keys, UnitsIn(solution, cs), Nothing, AllUnits(solution));
  }

  function Nothing(k: string): int {
    0
  }

  /** An entry's type is one that some counted allocation names. */
  lemma EntryIsUsed(c: CapacityRecord, solution: map<string, Allocation>, capacity: seq<AcceleratorCount>)
    requires IsEntry(c, solution, capacity)
    ensures exists k :: k in solution && Counted(solution[k]) && solution[k].accelerator == c.accType
  {
    SumOverPositive(solution.Keys, Units(solution, c.accType));
    var k :| k in solution.Keys && Units(solution, c.accType)(k) > 0;
  }

  lemma CapacityIncluded(cs: seq<CapacityRecord>, cs': seq<CapacityRecord>, solution: map<string, Allocation>,
                         capacity: seq<AcceleratorCount>)
    requires IsCapacity(cs, solution, capacity) && IsCapacity(cs', solution, capacity)
    ensures forall c :: c in cs ==> c in cs'
  {
    forall c | c in cs ensures c in cs' {
      EntryIsUsed(c, solution, capacity);
      var k :| k in solution && Counted(solution[k]) && solution[k].accelerator == c.accType;
      var d :| d in cs' && d.accType == c.accType;
      assert IsEntry(d, solution, capacity);
    }
  }

  lemma {:induction false} SortedUnique(cs: seq<CapacityRecord>, cs': seq<CapacityRecord>)
    requires StrictlySorted(cs) && StrictlySorted(cs') && forall c :: c in cs <==> c in cs'
    ensures cs == cs'
  {
    if cs != [] || cs' != [] {
      var c := if cs != [] then cs[0] else cs'[0];
      assert c in cs && c in cs';
      var n, n' := |cs| - 1, |cs'| - 1;
      SameLast(cs, cs');
      SetWithoutLast(cs);
      SetWithoutLast(cs');
      forall c ensures c in cs[..n] <==> c in cs'[..n'] {
        assert c in cs[..n] <==> c in cs && c != cs[n];
        assert c in cs'[..n'] <==> c in cs' && c != cs'[n'];
      }
      SortedUnique(cs[..n], cs'[..n']);
    }
  }

  lemma SameLast(cs: seq<CapacityRecord>, cs': seq<CapacityRecord>)
    requires cs != [] && cs' != [] && StrictlySorted(cs) && StrictlySorted(cs')
    requires forall c :: c in cs <==> c in cs'
    ensures cs[|cs| - 1] == cs'[|cs'| - 1]
  {
    var c, c' := cs[|cs| - 1], cs'[|cs'| - 1];
    assert c in cs && c' in cs';
    if c != c' {
      assert LexLess(c.accType, c'.accType) && LexLess(c'.accType, c.accType);
      LexTransitive(c.accType, c'.accType, c.accType);
      LexIrreflexive(c.accType);
    }
  }

  lemma SetWithoutLast(cs: seq<CapacityRecord>)
    requires cs != [] && StrictlySorted(cs)
    ensures forall c :: c in cs[..|cs| - 1] <==> c in cs && c != cs[|cs| - 1]
  {
    LastTypeIsNew(cs);
  }

  /** The capacity section does not depend on the order in which the maps were walked. */
  lemma CapacityDeterministic(cs: seq<CapacityRecord>, cs': seq<CapacityRecord>, solution: map<string, Allocation>,
                              capacity: seq<AcceleratorCount>)
    requires IsCapacity(cs, solution, capacity) && IsCapacity(cs', solution, capacity)
    ensures cs == cs'
  {
    CapacityIncluded(cs, cs', solution, capacity);
    CapacityIncluded(cs', cs, solution, capacity);
    SortedUnique(cs, cs');
  }
}
