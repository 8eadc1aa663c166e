// Model of pkg/controller/controller.go: one control cycle, and runs of cycles. Files and the
// replies of the other components are inputs of a cycle; None is a failed read or call.
module ControlLoop {
  import opened Aggregates
  import opened Basics
  import opened Config
  import opened Monitor

  datatype Document = Document(text: string)

  datatype Server = Server(spec: ServerSpec, maxBatchSize: int)

  datatype SystemData = SystemData(accelerators: Document, models: ModelData, serviceClasses: seq<ServiceClass>,
                                   optimizer: Document, capacity: seq<AcceleratorCount>, servers: seq<Server>)

  datatype Files = Files(accelerators: Option<Document>, models: Option<ModelData>,
                         serviceClasses: Option<seq<ServiceClass>>, optimizer: Option<Document>,
                         capacity: Option<seq<AcceleratorCount>>)

  /** The collector's reply: server specs, their Kubernetes resources, the number of replica specs. */
  datatype Collected = Collected(servers: seq<Server>, kube: map<string, string>, replicaSpecs: nat)

  /** What one cycle meets. */
  datatype Inputs = Inputs(files: Files, collected: Option<Collected>, warmUp: Option<bool>, merge: Option<ModelData>,
                           optimize: Option<map<string, Allocation>>, actuate: bool, now: string, timing: Timing)

  datatype Settings = Settings(isDynamicMode: bool, tunerEnabled: bool, warmUpTimeout: nat, defaultMaxBatchSize: nat)

  datatype Outcome = ReadFailed | CollectFailed | HeldBack | OptimizeFailed | ActuateFailed | Actuated

  /** What the actuator is sent. */
  datatype ActuatorInfo = ActuatorInfo(solution: map<string, Allocation>, kube: map<string, string>)

  /** What a cycle did: how it ended, what it sent to /merge, to the optimizer and to the actuator,
      and what it recorded. */
  datatype Report = Report(outcome: Outcome, mergeInput: Option<ModelData>, optimizerInput: Option<SystemData>,
                           actuatorInput: Option<ActuatorInfo>, record: Option<CycleRecord>)

  // ------------------------------------------------------- what decides a cycle

  predicate ReadsAll(f: Files) {
    f.accelerators.Some? && f.models.Some? && f.serviceClasses.Some? && f.optimizer.Some?
  }

  /** The static data is read in full this cycle. */
  predicate Refreshes(g: Settings, e: Inputs) {
    e.files.capacity.Some? && g.isDynamicMode && ReadsAll(e.files)
  }

  predicate Reads(g: Settings, e: Inputs) {
    e.files.capacity.Some? && (g.isDynamicMode ==> ReadsAll(e.files))
  }

  /** The cycle gets as far as the warm-up gate. */
  predicate Reaches(g: Settings, e: Inputs) {
    Reads(g, e) && e.collected.Some? && e.collected.value.servers != []
  }

  predicate ConsultsTuner(g: Settings, e: Inputs) {
    Reaches(g, e) && g.tunerEnabled && e.collected.value.replicaSpecs > 0
  }

  predicate WarmsUp(g: Settings, e: Inputs) {
    ConsultsTuner(g, e) && e.warmUp == Some(true)
  }

  predicate Merges(g: Settings, e: Inputs) {
    ConsultsTuner(g, e) && e.warmUp == Some(false) && e.merge.Some?
  }

  /** `count` is the warm-up counter before the cycle. */
  predicate Holds(g: Settings, count: int, e: Inputs) {
    WarmsUp(g, e) && (g.warmUpTimeout == 0 || count + 1 < g.warmUpTimeout)
  }

  predicate Proceeds(g: Settings, count: int, e: Inputs) {
    Reaches(g, e) && !Holds(g, count, e)
  }

  predicate Completes(g: Settings, count: int, e: Inputs) {
    Proceeds(g, count, e) && e.optimize.Some? && e.actuate
  }

  function OutcomeOf(g: Settings, count: int, e: Inputs): Outcome {
    if !Reads(g, e) then ReadFailed
    else if !Reaches(g, e) then CollectFailed
    else if Holds(g, count, e) then HeldBack
    else if e.optimize.None? then OptimizeFailed
    else if !e.actuate then ActuateFailed
    else Actuated
  }

  // ------------------------------------------------------- what a cycle changes

  /** readStaticData: the four files in turn; whatever was read before a failure stays. */
  function ReadStatic(d: SystemData, f: Files): SystemData {
    if f.accelerators.None? then d
    else
      var d := d.(accelerators := f.accelerators.value);
      if f.models.None? then d
      else
        var d := d.(models := f.models.value);
        if f.serviceClasses.None? then d
        else
          var d := d.(serviceClasses := f.serviceClasses.value);
          if f.optimizer.None? then d else d.(optimizer := f.optimizer.value)
  }

  function AfterReads(g: Settings, d: SystemData, e: Inputs): SystemData {
    if e.files.capacity.None? then d
    else
      var d := d.(capacity := e.files.capacity.value);
      if g.isDynamicMode then ReadStatic(d, e.files) else d
  }

  function Pinned(servers: seq<Server>, size: nat): seq<Server> {
    seq(|servers|, i requires 0 <= i < |servers| =>
      if size > 0 && servers[i].maxBatchSize == 0 then servers[i].(maxBatchSize := size) else servers[i])
  }

  function DataAfter(g: Settings, d: SystemData, e: Inputs): SystemData {
    var d := AfterReads(g, d, e);
    var d := if Reaches(g, e) then d.(servers := Pinned(e.collected.value.servers, g.defaultMaxBatchSize)) else d;
    if Merges(g, e) then d.(models := e.merge.value) else d
  }

  function CurrentAfter(g: Settings, current: ModelData, e: Inputs): ModelData {
    if Merges(g, e) then e.merge.value else Reread(g, current, e)
  }

  /** A copy of the model data once the static data has been read again, if it is. */
  function Reread(g: Settings, copy: ModelData, e: Inputs): ModelData {
    if Refreshes(g, e) then e.files.models.value else copy
  }

  function CountAfter(g: Settings, count: int, e: Inputs): int {
    if !Reaches(g, e) then count else if WarmsUp(g, e) then count + 1 else 0
  }

  class Controller {
    const settings: Settings
    var systemData: SystemData
    var serverMap: map<string, string>
    var originalModelData: ModelData
    var currentModelData: ModelData
    var cycleNum: int
    var warmUpCount: int

    constructor (g: Settings, blank: SystemData)
      ensures settings == g && systemData == blank && cycleNum == 0 && warmUpCount == 0
    {
      settings, systemData, serverMap := g, blank, map[];
      originalModelData, currentModelData := blank.models, blank.models;
      cycleNum, warmUpCount := 0, 0;
    }

    function Now(): State
      reads this
    {
      State(systemData, originalModelData, currentModelData, cycleNum, warmUpCount)
    }

    method ReadStaticData(f: Files) returns (ok: bool)
      modifies this`systemData
      ensures systemData == ReadStatic(old(systemData), f)
      ensures ok <==> ReadsAll(f)
    {
      if f.accelerators.None? {
        return false;
      }
      systemData := systemData.(accelerators := f.accelerators.value);
      if f.models.None? {
        return false;
      }
      systemData := systemData.(models := f.models.value);
      if f.serviceClasses.None? {
        return false;
      }
      systemData := systemData.(serviceClasses := f.serviceClasses.value);
      if f.optimizer.None? {
        return false;
      }
      systemData := systemData.(optimizer := f.optimizer.value);
      return true;
    }

    /** Init: both model-data copies start as the file, or not at all. */
    method Init(f: Files) returns (ok: bool)
      modifies this
      ensures ok <==> ReadsAll(f) && f.capacity.Some?
      ensures ok ==> originalModelData == currentModelData == systemData.models == f.models.value
      ensures ok ==> systemData.servers == [] && systemData.capacity == f.capacity.value
      ensures cycleNum == old(cycleNum) && warmUpCount == old(warmUpCount)
    {
      ok := ReadStaticData(f);
      if !ok {
        return;
      }
      originalModelData := systemData.models;
      currentModelData := systemData.models;
      if f.capacity.None? {
        return false;
      }
      systemData := systemData.(capacity := f.capacity.value);
      systemData := systemData.(servers := []);
    }

    method PinBatchSizes()
      modifies this`systemData
      ensures systemData == old(systemData).(servers := Pinned(old(systemData).servers, settings.defaultMaxBatchSize))
    {
      if settings.defaultMaxBatchSize == 0 {
        assert systemData.servers == Pinned(systemData.servers, 0);
        return;
      }
      ghost var was := systemData;
      var n := |systemData.servers|;
      for i := 0 to n
        invariant systemData == was.(servers := systemData.servers) && |systemData.servers| == n
        invariant forall k :: 0 <= k < i ==> systemData.servers[k] == Pinned(was.servers, settings.defaultMaxBatchSize)[k]
        invariant forall k :: i <= k < n ==> systemData.servers[k] == was.servers[k]
      {
        var s := systemData.servers[i];
        if s.maxBatchSize == 0 {
          systemData := systemData.(servers :=
            systemData.servers[i := s.(maxBatchSize := settings.defaultMaxBatchSize)]);
        }
      }
      assert systemData.servers == Pinned(was.servers, settings.defaultMaxBatchSize);
    }

    /** The /warmup and /merge calls. */
    method ConsultTuner(e: Inputs) returns (warmingUp: bool, mergeInput: Option<ModelData>)
      modifies this`systemData, this`currentModelData
      ensures warmingUp <==> e.warmUp == Some(true)
      ensures mergeInput == if e.warmUp == Some(false) then Some(old(currentModelData)) else None
      ensures var merged := e.warmUp == Some(false) && e.merge.Some?;
        && currentModelData == (if merged then e.merge.value else old(currentModelData))
        && systemData == (if merged then old(systemData).(models := e.merge.value) else old(systemData))
    {
      warmingUp, mergeInput := false, None;
      var warmUpKnown := false;
      if e.warmUp.Some? {
        warmingUp := e.warmUp.value;
        warmUpKnown := true;
      }
      if warmUpKnown && !warmingUp {
        mergeInput := Some(currentModelData);
        if e.merge.Some? {
          currentModelData := e.merge.value;
          systemData := systemData.(models := currentModelData);
        }
      }
    }

    method Optimize(e: Inputs) returns (r: Report)
      modifies this
      ensures r.outcome == OutcomeOf(settings, old(warmUpCount), e)
      ensures Now() == Next(settings, old(Now()), e)
      ensures serverMap == if Reaches(settings, e) then e.collected.value.kube else old(serverMap)
      ensures r.optimizerInput == OptimizerInput(settings, old(Now()), e)
      ensures r.mergeInput == MergeInput(settings, old(Now()), e)
      ensures r.actuatorInput == ActuatorInput(settings, old(Now()), e)
      ensures r.record.Some? <==> r.outcome == Actuated
      ensures r.record.Some? ==> IsRecord(r.record.value, cycleNum, e, systemData, currentModelData)
    {
      var ok := ReadData(e);
      if !ok {
        return Report(ReadFailed, None, None, None, None);
      }
      if e.collected.None? || |e.collected.value.servers| == 0 {
        return Report(CollectFailed, None, None, None, None);
      }
      TakeServers(e.collected.value);
      var warmingUp, mergeInput := false, None;
      if settings.tunerEnabled && e.collected.value.replicaSpecs > 0 {
        warmingUp, mergeInput := ConsultTuner(e);
      }
      if warmingUp {
        warmUpCount := warmUpCount + 1;
        if settings.warmUpTimeout == 0 || warmUpCount < settings.warmUpTimeout {
          return Report(HeldBack, mergeInput, None, None, None);
        }
      } else {
        warmUpCount := 0;
      }
      r := OptimizeAndActuate(e, mergeInput);
    }

    method TakeServers(c: Collected)
      modifies this`systemData, this`serverMap
      ensures systemData == old(systemData).(servers := Pinned(c.servers, settings.defaultMaxBatchSize))
      ensures serverMap == c.kube
    {
      systemData := systemData.(servers := c.servers);
      PinBatchSizes();
      serverMap := c.kube;
    }

    /** The two reads a cycle starts with. */
    method ReadData(e: Inputs) returns (ok: bool)
      modifies this`systemData, this`originalModelData, this`currentModelData
      ensures ok <==> Reads(settings, e)
      ensures systemData == AfterReads(settings, old(systemData), e)
      ensures originalModelData == Reread(settings, old(originalModelData), e)
      ensures currentModelData == Reread(settings, old(currentModelData), e)
    {
      if e.files.capacity.None? {
        return false;
      }
      systemData := systemData.(capacity := e.files.capacity.value);
      ok := true;
      if settings.isDynamicMode {
        ok := ReadStaticData(e.files);
        if ok {
          originalModelData := systemData.models;
          currentModelData := systemData.models;
        }
      }
    }

    /** What follows the gate. */
    method OptimizeAndActuate(e: Inputs, mergeInput: Option<ModelData>) returns (r: Report)
      modifies this`cycleNum
      ensures r.mergeInput == mergeInput && r.optimizerInput == Some(systemData)
      ensures r.actuatorInput == if e.optimize.Some? then Some(ActuatorInfo(e.optimize.value, serverMap)) else None
      ensures r.outcome == if e.optimize.None? then OptimizeFailed else if !e.actuate then ActuateFailed else Actuated
      ensures cycleNum == old(cycleNum) + if r.outcome == Actuated then 1 else 0
      ensures r.record.Some? <==> r.outcome == Actuated
      ensures r.record.Some? ==> IsRecord(r.record.value, cycleNum, e, systemData, currentModelData)
    {
      if e.optimize.None? {
        return Report(OptimizeFailed, mergeInput, Some(systemData), None, None);
      }
      var info := ActuatorInfo(e.optimize.value, serverMap);
      if !e.actuate {
        return Report(ActuateFailed, mergeInput, Some(systemData), Some(info), None);
      }
      cycleNum := cycleNum + 1;
      var servers := systemData.servers;
      var specs := seq(|servers|, i requires 0 <= i < |servers| => servers[i].spec);
      var record := BuildRecord(e.now, cycleNum, specs, e.optimize.value, systemData.serviceClasses, currentModelData,
                                systemData.capacity, e.timing);
      r := Report(Actuated, mergeInput, Some(systemData), Some(info), Some(record));
    }
  }

  /** A record of the cycle: its number, one entry per server, the model parameters in use, the
      cost and the capacity. */
  ghost predicate IsRecord(r: CycleRecord, cycle: int, e: Inputs, d: SystemData, current: ModelData)
    requires e.optimize.Some?
  {
    && r.timestamp == e.now && r.cycle == cycle && r.timing == e.timing && |r.servers| == |d.servers|
    && (forall i :: 0 <= i < |r.servers| ==>
          r.servers[i] == RecordOf(d.servers[i].spec, e.optimize.value, d.serviceClasses))
    && |r.internals| == |current.perfData|
    && (forall i :: 0 <= i < |r.internals| ==> Records(r.internals[i], current.perfData[i]))
    && r.totalCost == SumOf(r.servers, CostOf)
    && IsCapacity(r.capacity, e.optimize.value, d.capacity)
  }

  /** Such a record says of the cycle what the cycle was. */
  lemma RecordOfCycle(r: CycleRecord, cycle: int, e: Inputs, d: SystemData, current: ModelData)
    requires e.optimize.Some? && IsRecord(r, cycle, e, d, current)
    ensures r.timestamp == e.now && r.cycle == cycle && r.timing == e.timing && |r.servers| == |d.servers|
    ensures forall i :: 0 <= i < |r.servers| ==>
              r.servers[i] == RecordOf(d.servers[i].spec, e.optimize.value, d.serviceClasses)
    ensures r.internals == seq(|current.perfData|, i requires 0 <= i < |current.perfData| =>
              var pd := current.perfData[i]; ModelParms(pd.name, pd.acc, pd.alpha, pd.beta, pd.gamma))
    ensures r.totalCost == SumOf(r.servers, (s: ServerRecord) => s.cost)
    ensures IsCapacity(r.capacity, e.optimize.value, d.capacity)
  {
    SumOfSame(r.servers, CostOf, (s: ServerRecord) => s.cost);
  }

  // -------------------------------------------------------------- whole runs

  /** The part of the controller that lasts from cycle to cycle. */
  datatype State = State(data: SystemData, original: ModelData, current: ModelData, cycleNum: int, warmUpCount: int)

  function Next(g: Settings, s: State, e: Inputs): State {
    State(DataAfter(g, s.data, e), Reread(g, s.original, e), CurrentAfter(g, s.current, e),
          s.cycleNum + (if Completes(g, s.warmUpCount, e) then 1 else 0), CountAfter(g, s.warmUpCount, e))
  }

  function Run(g: Settings, s: State, es: seq<Inputs>): State {
    if es == [] then s else Next(g, Run(g, s, es[..|es| - 1]), es[|es| - 1])
  }

  /** What the optimizer is asked to solve, if the cycle gets that far. */
  function OptimizerInput(g: Settings, s: State, e: Inputs): Option<SystemData> {
    if Proceeds(g, s.warmUpCount, e) then Some(DataAfter(g, s.data, e)) else None
  }

  /** What the tuner is asked to merge its parameters into, if it is asked. */
  function MergeInput(g: Settings, s: State, e: Inputs): Option<ModelData> {
    if ConsultsTuner(g, e) && e.warmUp == Some(false) then Some(Reread(g, s.current, e)) else None
  }

  function ActuatorInput(g: Settings, s: State, e: Inputs): Option<ActuatorInfo> {
    if Proceeds(g, s.warmUpCount, e) && e.optimize.Some?
    then Some(ActuatorInfo(e.optimize.value, e.collected.value.kube)) else None
  }

  // -------------------------------------------- a cycle, from its settings and inputs

  /** The capacity can be read and, in dynamic mode, so can the four static files. */
  ghost predicate Readable(g: Settings, f: Files) {
    && f.capacity.Some?
    && (g.isDynamicMode ==> f.accelerators.Some? && f.models.Some? && f.serviceClasses.Some? && f.optimizer.Some?)
  }

  ghost predicate AnyServers(e: Inputs) {
    e.collected.Some? && e.collected.value.servers != []
  }

  /** The model data in use once the files are read: in dynamic mode that of the model file. */
  ghost predicate InUse(g: Settings, s: State, e: Inputs, models: ModelData) {
    if g.isDynamicMode then e.files.models == Some(models) else models == s.current
  }

  ghost predicate NothingSent(g: Settings, s: State, e: Inputs) {
    OptimizerInput(g, s, e) == None && MergeInput(g, s, e) == None && ActuatorInput(g, s, e) == None
  }

  /** Without the files, or without servers, a cycle sends nothing and leaves both counters alone; the
      model data moves with the files if they can be read. */
  lemma IdleCycle(g: Settings, s: State, e: Inputs)
    requires !Readable(g, e.files) || !AnyServers(e)
    ensures OutcomeOf(g, s.warmUpCount, e) == if Readable(g, e.files) then CollectFailed else ReadFailed
    ensures NothingSent(g, s, e) && !Reaches(g, e)
    ensures Next(g, s, e).warmUpCount == s.warmUpCount && Next(g, s, e).cycleNum == s.cycleNum
    ensures if Readable(g, e.files) then InUse(g, s, e, Next(g, s, e).current) else Next(g, s, e).current == s.current
  {
  }

  /** Without the tuner, without replicas to tune on, or without its answer, no cycle is held back, nothing is
      merged, and the model data is that of the files. */
  lemma UntunedCycle(g: Settings, s: State, e: Inputs)
    requires Readable(g, e.files) && AnyServers(e)
    requires !g.tunerEnabled || e.collected.value.replicaSpecs == 0 || e.warmUp == None
    ensures OutcomeOf(g, s.warmUpCount, e) != HeldBack && Next(g, s, e).warmUpCount == 0
    ensures MergeInput(g, s, e) == None && InUse(g, s, e, Next(g, s, e).current)
  {
  }

  /** While the tuner warms up, the counter rises by one, nothing is merged, and the cycle is held back if
      and only if there is no timeout or the counter is still below it. */
  lemma WarmUpCycle(g: Settings, s: State, e: Inputs)
    requires Readable(g, e.files) && AnyServers(e)
    requires g.tunerEnabled && e.collected.value.replicaSpecs > 0 && e.warmUp == Some(true)
    ensures Next(g, s, e).warmUpCount == s.warmUpCount + 1
    ensures OutcomeOf(g, s.warmUpCount, e) == HeldBack <==>
            g.warmUpTimeout == 0 || s.warmUpCount + 1 < g.warmUpTimeout
    ensures MergeInput(g, s, e) == None && InUse(g, s, e, Next(g, s, e).current)
  {
  }

  /** Once it is warm, it is sent the model data in use, and what it answers is used and sent to the
      optimizer; without an answer the data stays. */
  lemma TunedCycle(g: Settings, s: State, e: Inputs)
    requires Readable(g, e.files) && AnyServers(e)
    requires g.tunerEnabled && e.collected.value.replicaSpecs > 0 && e.warmUp == Some(false)
    ensures OutcomeOf(g, s.warmUpCount, e) != HeldBack && Next(g, s, e).warmUpCount == 0
    ensures MergeInput(g, s, e).Some? && InUse(g, s, e, MergeInput(g, s, e).value)
    ensures Next(g, s, e).current == if e.merge.Some? then e.merge.value else MergeInput(g, s, e).value
    ensures e.merge.Some? ==>
              OptimizerInput(g, s, e).Some? && OptimizerInput(g, s, e).value.models == e.merge.value
  {
  }

  /** What follows depends on the gate, the optimizer and the actuator alone. */
  lemma CycleBeyondGate(g: Settings, s: State, e: Inputs)
    requires Readable(g, e.files) && AnyServers(e)
    ensures var outcome := OutcomeOf(g, s.warmUpCount, e);
      && Reaches(g, e)
      && (outcome == HeldBack ==> OptimizerInput(g, s, e) == None && ActuatorInput(g, s, e) == None)
      && (outcome != HeldBack ==>
            && OptimizerInput(g, s, e) == Some(Next(g, s, e).data)
            && outcome == (if e.optimize == None then OptimizeFailed else if e.actuate then Actuated else ActuateFailed)
            && (e.optimize == None ==> ActuatorInput(g, s, e) == None)
            && (e.optimize.Some? ==> ActuatorInput(g, s, e) == Some(ActuatorInfo(e.optimize.value, e.collected.value.kube))))
      && Next(g, s, e).cycleNum == s.cycleNum + if outcome == Actuated then 1 else 0
  {
  }

  /** A server as collected, its batch size the default one if it has none. */
  ghost predicate PinnedTo(size: nat, was: Server, now: Server) {
    now.spec == was.spec && now.maxBatchSize == if was.maxBatchSize == 0 then size else was.maxBatchSize
  }

  /** The data the optimizer works on: every file that was read, in the order they are read and up to
      the first that cannot be, and the servers as collected. */
  lemma DataIsFresh(g: Settings, s: State, e: Inputs)
    ensures var d, d', f := s.data, Next(g, s, e).data, e.files;
      && d'.capacity == (if f.capacity.Some? then f.capacity.value else d.capacity)
      && (f.capacity == None || !g.isDynamicMode || f.accelerators == None ==>
            && d'.accelerators == d.accelerators && d'.serviceClasses == d.serviceClasses && d'.optimizer == d.optimizer)
      && (f.capacity.Some? && g.isDynamicMode && f.accelerators.Some? ==>
            && d'.accelerators == f.accelerators.value
            && (f.models.Some? && f.serviceClasses.Some? ==> d'.serviceClasses == f.serviceClasses.value)
            && (f.models == None || f.serviceClasses == None ==> d'.serviceClasses == d.serviceClasses)
            && (Readable(g, f) ==> d'.optimizer == f.optimizer.value)
            && (!Readable(g, f) ==> d'.optimizer == d.optimizer)
            && (f.models.Some? && (MergeInput(g, s, e) == None || e.merge == None) ==> d'.models == f.models.value))
      && (f.capacity == None || !g.isDynamicMode || f.accelerators == None || f.models == None ==>
            (MergeInput(g, s, e) == None || e.merge == None ==> d'.models == d.models))
      && (Readable(g, f) && AnyServers(e) ==>
            && |d'.servers| == |e.collected.value.servers|
            && forall i :: 0 <= i < |d'.servers| ==>
                 PinnedTo(g.defaultMaxBatchSize, e.collected.value.servers[i], d'.servers[i]))
      && (!Readable(g, f) || !AnyServers(e) ==> d'.servers == d.servers)
  {
  }

  /** The report of cycle k of a run. */
  ghost predicate Reported(g: Settings, s: State, es: seq<Inputs>, k: nat, r: Report)
    requires k < |es|
  {
    var before := Run(g, s, es[..k]);
    && r.outcome == OutcomeOf(g, before.warmUpCount, es[k])
    && r.optimizerInput == OptimizerInput(g, before, es[k])
  }

  /** Successive calls of Optimize make such a run. */
  method OptimizeAll(a: Controller, es: seq<Inputs>) returns (reports: seq<Report>)
    modifies a
    ensures |reports| == |es| && a.Now() == Run(a.settings, old(a.Now()), es)
    ensures forall k :: 0 <= k < |es| ==> Reported(a.settings, old(a.Now()), es, k, reports[k])
  {
    reports := [];
    for i := 0 to |es|
      invariant |reports| == i && a.Now() == Run(a.settings, old(a.Now()), es[..i])
      invariant forall k :: 0 <= k < i ==> Reported(a.settings, old(a.Now()), es, k, reports[k])
    {
      assert es[..i + 1][..i] == es[..i];
      var r := a.Optimize(es[i]);
      reports := reports + [r];
    }
    assert es[..|es|] == es;
  }

  // ---------------------------------------------------------- the warm-up gate

  /** From cycle c on, every cycle that reached the gate was a warm-up cycle, and the one before
      c, if any, reached it and was not. */
  ghost predicate WarmsUpSince(g: Settings, es: seq<Inputs>, c: nat) {
    && c <= |es|
    && (c > 0 ==> Reaches(g, es[c - 1]) && !WarmsUp(g, es[c - 1]))
    && forall i :: c <= i < |es| && Reaches(g, es[i]) ==> WarmsUp(g, es[i])
  }

  ghost function WarmUps(g: Settings, es: seq<Inputs>, c: nat): set<nat> {
    set i | c <= i < |es| && WarmsUp(g, es[i])
  }

  /** The counter counts the warm-up cycles since the last cycle that passed the gate without
      warming up; cycles that failed before the gate do not matter. */
  lemma {:induction false} CountMeaning(g: Settings, s: State, es: seq<Inputs>, c: nat)
    requires s.warmUpCount == 0 && WarmsUpSince(g, es, c)
    ensures Run(g, s, es).warmUpCount == |WarmUps(g, es, c)|
  {
    if c == |es| {
      assert WarmUps(g, es, c) == {};
    } else {
      CountMeaning(g, s, es[..|es| - 1], c);
      LastWarmUp(g, es, c);
    }
  }

  lemma LastWarmUp(g: Settings, es: seq<Inputs>, c: nat)
    requires c < |es|
    ensures var n := |es| - 1;
      |WarmUps(g, es, c)| == |WarmUps(g, es[..n], c)| + if WarmsUp(g, es[n]) then 1 else 0
  {
    var n := |es| - 1;
    assert WarmUps(g, es, c) == WarmUps(g, es[..n], c) + if WarmsUp(g, es[n]) then {n} else {};
  }

  lemma {:induction false} WarmsUpSomewhere(g: Settings, es: seq<Inputs>) returns (c: nat)
    ensures WarmsUpSince(g, es, c)
  {
    if es == [] {
      c := 0;
    } else {
      var n := |es| - 1;
      c := WarmsUpSomewhere(g, es[..n]);
      if Reaches(g, es[n]) && !WarmsUp(g, es[n]) {
        c := |es|;
      }
    }
  }

  /** The counter is k exactly when the last k cycles that reached the gate were warm-up cycles and
      the one that reached it before them, if any, was not. */
  lemma CountIs(g: Settings, s: State, es: seq<Inputs>, k: nat)
    requires s.warmUpCount == 0
    ensures Run(g, s, es).warmUpCount == k <==> exists c :: WarmsUpSince(g, es, c) && |WarmUps(g, es, c)| == k
  {
    var c := WarmsUpSomewhere(g, es);
    CountMeaning(g, s, es, c);
    forall d | WarmsUpSince(g, es, d) ensures Run(g, s, es).warmUpCount == |WarmUps(g, es, d)| {
      CountMeaning(g, s, es, d);
    }
  }

  /** The k-th warm-up cycle in a row is held back exactly when there is no timeout or k is below
      it, and no other cycle is. */
  lemma WarmUpGate(g: Settings, s: State, es: seq<Inputs>, e: Inputs, c: nat)
    requires s.warmUpCount == 0 && WarmsUpSince(g, es, c)
    ensures WarmsUp(g, e) ==> WarmsUpSince(g, es + [e], c)
    ensures OutcomeOf(g, Run(g, s, es).warmUpCount, e) == HeldBack <==>
            WarmsUp(g, e) && (g.warmUpTimeout == 0 || |WarmUps(g, es + [e], c)| < g.warmUpTimeout)
  {
    CountMeaning(g, s, es, c);
    LastWarmUp(g, es + [e], c);
    assert (es + [e])[..|es|] == es;
  }

  /** The files and servers are there, and the tuner, consulted, says that it is still warming up. */
  ghost predicate StillWarming(g: Settings, e: Inputs) {
    && Readable(g, e.files) && AnyServers(e)
    && g.tunerEnabled && e.collected.value.replicaSpecs > 0 && e.warmUp == Some(true)
  }

  /** Of successive such cycles exactly the first warmUpTimeout - 1 are held back, or all without a timeout. */
  lemma {:induction false} WarmUpRun(g: Settings, s: State, es: seq<Inputs>, k: nat)
    requires s.warmUpCount == 0 && k < |es| && forall i :: 0 <= i <= k ==> StillWarming(g, es[i])
    ensures Run(g, s, es[..k]).warmUpCount == k
    ensures OutcomeAt(g, s, es, k) == HeldBack <==> g.warmUpTimeout == 0 || k + 1 < g.warmUpTimeout
  {
    if k > 0 {
      WarmUpRun(g, s, es, k - 1);
      assert es[..k][..k - 1] == es[..k - 1];
      WarmUpCycle(g, Run(g, s, es[..k - 1]), es[k - 1]);
    }
    WarmUpCycle(g, Run(g, s, es[..k]), es[k]);
  }

  // ---------------------------------------------------------- the cycle number

  ghost function OutcomeAt(g: Settings, s: State, es: seq<Inputs>, k: nat): Outcome
    requires k < |es|
  {
    OutcomeOf(g, Run(g, s, es[..k]).warmUpCount, es[k])
  }

  ghost function ActuatedCycles(g: Settings, s: State, es: seq<Inputs>): set<nat> {
    set k | 0 <= k < |es| && OutcomeAt(g, s, es, k) == Actuated
  }

  /** The cycle number counts the cycles that were actuated. */
  lemma {:induction false} CycleNumCounts(g: Settings, s: State, es: seq<Inputs>)
    ensures Run(g, s, es).cycleNum == s.cycleNum + |ActuatedCycles(g, s, es)|
  {
    if es == [] {
      assert ActuatedCycles(g, s, es) == {};
    } else {
      var n := |es| - 1;
      CycleNumCounts(g, s, es[..n]);
      LastActuated(g, s, es);
      CompletesIffActuated(g, Run(g, s, es[..n]).warmUpCount, es[n]);
    }
  }

  lemma CompletesIffActuated(g: Settings, count: int, e: Inputs)
    ensures Completes(g, count, e) <==> OutcomeOf(g, count, e) == Actuated
  {
  }

  lemma OutcomeOfPrefix(g: Settings, s: State, es: seq<Inputs>, n: nat, k: nat)
    requires k < n <= |es|
    ensures OutcomeAt(g, s, es[..n], k) == OutcomeAt(g, s, es, k)
  {
    assert es[..n][..k] == es[..k];
  }

  lemma LastActuated(g: Settings, s: State, es: seq<Inputs>)
    requires es != []
    ensures var n := |es| - 1;
      |ActuatedCycles(g, s, es)| ==
      |ActuatedCycles(g, s, es[..n])| + if OutcomeAt(g, s, es, n) == Actuated then 1 else 0
  {
    var n := |es| - 1;
    forall k | 0 <= k < n ensures OutcomeAt(g, s, es[..n], k) == OutcomeAt(g, s, es, k) {
      OutcomeOfPrefix(g, s, es, n, k);
    }
    assert ActuatedCycles(g, s, es) ==
           ActuatedCycles(g, s, es[..n]) + if OutcomeAt(g, s, es, n) == Actuated then {n} else {};
  }

  // ----------------------------------------------------------- the model data

  /** The cycle gives the controller new model data: by a merge, or by a full read. */
  predicate Renews(g: Settings, e: Inputs) {
    Merges(g, e) || Refreshes(g, e)
  }

  function Renewed(g: Settings, e: Inputs): ModelData
    requires Renews(g, e)
  {
    if Merges(g, e) then e.merge.value else e.files.models.value
  }

  /** i is the last cycle with this property, or -1 if no cycle has it. */
  ghost predicate IsLast(i: int, es: seq<Inputs>, p: Inputs -> bool) {
    && -1 <= i < |es|
    && (i >= 0 ==> p(es[i]))
    && forall j :: i < j < |es| ==> !p(es[j])
  }

  function Renewal(g: Settings): Inputs -> bool {
    e => Renews(g, e)
  }

  /** The current model data is what the last cycle that renewed it gave, or what it was at first. */
  lemma {:induction false} CurrentIsLatest(g: Settings, s: State, es: seq<Inputs>, i: int)
    requires IsLast(i, es, Renewal(g))
    ensures Run(g, s, es).current == if i >= 0 then Renewed(g, es[i]) else s.current
  {
    var n := |es| - 1;
    if i < n {
      CurrentIsLatest(g, s, es[..n], i);
      assert !Renewal(g)(es[n]);
    }
  }

  /** Without dynamic mode the two copies never part. */
  lemma {:induction false} StaticModeAgrees(g: Settings, s: State, es: seq<Inputs>)
    requires !g.isDynamicMode && s.data.models == s.current
    ensures Run(g, s, es).data.models == Run(g, s, es).current
    ensures Run(g, s, es).original == s.original
  {
    if es != [] {
      StaticModeAgrees(g, s, es[..|es| - 1]);
    }
  }

  /** Every optimizer call is made with the latest model data, whatever failed before. */
  lemma OptimizerSeesLatest(g: Settings, s: State, es: seq<Inputs>, e: Inputs, i: int)
    requires s.data.models == s.current && IsLast(i, es + [e], Renewal(g))
    ensures var sent := OptimizerInput(g, Run(g, s, es), e);
      sent.Some? ==> sent.value.models == Run(g, s, es + [e]).current ==
                     if i >= 0 then Renewed(g, (es + [e])[i]) else s.current
  {
    CurrentIsLatest(g, s, es + [e], i);
    assert (es + [e])[..|es|] == es;
    if !g.isDynamicMode {
      StaticModeAgrees(g, s, es);
    }
  }

  /** The re-read of the static data stops after the model file. */
  predicate StopsAfterModels(g: Settings, e: Inputs) {
    && g.isDynamicMode && e.files.capacity.Some? && e.files.accelerators.Some? && e.files.models.Some?
    && !ReadsAll(e.files)
  }

  /** On return the two copies can differ, and exactly then: when the re-read stopped after a
      model file that is news. */
  lemma ModelsPartIff(g: Settings, s: State, e: Inputs)
    requires s.data.models == s.current
    ensures Next(g, s, e).data.models != Next(g, s, e).current <==>
            StopsAfterModels(g, e) && e.files.models.value != s.current
  {
  }

  /** The model file is read again. */
  function ReadsModels(g: Settings): Inputs -> bool {
    e => StopsAfterModels(g, e) || Refreshes(g, e)
  }

  /** Over runs: the copies agree unless the last re-read of the model file stopped after it; the
      optimizer's copy is then that file. */
  lemma {:induction false} ModelsPartInRuns(g: Settings, s: State, es: seq<Inputs>, i: int)
    requires s.data.models == s.current && IsLast(i, es, ReadsModels(g))
    ensures Run(g, s, es).data.models ==
            if i >= 0 && StopsAfterModels(g, es[i]) then es[i].files.models.value else Run(g, s, es).current
  {
    var n := |es| - 1;
    if !g.isDynamicMode {
      StaticModeAgrees(g, s, es);
    } else if i < n {
      ModelsPartInRuns(g, s, es[..n], i);
      assert !ReadsModels(g)(es[n]);
    }
  }

  // ------------------------------------------------------------ batch sizes

  /** With a default, no server is sent to the optimizer without a batch size, and none that
      has one loses it. */
  lemma BatchSizesPinned(servers: seq<Server>, size: nat)
    requires size > 0
    ensures forall i :: 0 <= i < |servers| ==>
              && Pinned(servers, size)[i].maxBatchSize != 0
              && Pinned(servers, size)[i].spec == servers[i].spec
              && (servers[i].maxBatchSize != 0 ==> Pinned(servers, size)[i] == servers[i])
  {
  }
}
