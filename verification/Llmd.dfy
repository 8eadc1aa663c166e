// Model of pkg/collector/sensor_llmd.go: per-pod readings gathered from Prometheus vectors,
// and the Deployment's figures folded from them.
module LlmdSensor {
  import opened Basics
  import opened Reals
  import opened Aggregates
  import opened Config

  /** A reading per metric; None is a metric the pod did not report. */
  datatype PodReading = PodReading(throughput: Option<real>, itlSec: Option<real>, ttftSec: Option<real>,
                                   occupancy: Option<real>)

  const NO_READING := PodReading(None, None, None, None)

  /** One element of a Prometheus vector: the pod label, and the value unless it is NaN or infinite. */
  datatype Entry = Entry(pod: string, value: Option<real>)

  /** The four per-pod queries. */
  datatype Metric = Throughput | ITL | TTFT | Occupancy

  function Set(r: PodReading, metric: Metric, v: real): PodReading {
    match metric
    case Throughput => r.(throughput := Some(v))
    case ITL => r.(itlSec := Some(v))
    case TTFT => r.(ttftSec := Some(v))
    case Occupancy => r.(occupancy := Some(v))
  }

  /** The last usable value that a vector holds for a pod. */
  function LastValue(v: seq<Entry>, pod: string): Option<real> {
    if v == [] then None
    else
      var e := v[|v| - 1];
      if e.pod == pod && e.value.Some? then e.value else LastValue(v[..|v| - 1], pod)
  }

  class Metrics {
    var pods: map<string, PodReading>

    constructor ()
      ensures pods == map[]
    {
      pods := map[];
    }

    function ReadingOf(pod: string): PodReading
      reads this
    {
      if pod in pods then pods[pod] else NO_READING
    }

    /** collectByPod: only the one metric is touched, only for pods with a usable value;
        a pod without one is not even entered. */
    method CollectByPod(v: seq<Entry>, metric: Metric)
      modifies this
      ensures forall pod :: ReadingOf(pod) == Updated(old(ReadingOf(pod)), metric, Usable(v, pod))
      ensures forall pod :: pod in pods <==> pod in old(pods) || Usable(v, pod).Some?
    {
      for i := 0 to |v|
        invariant forall pod :: ReadingOf(pod) == Updated(old(ReadingOf(pod)), metric, Usable(v[..i], pod))
        invariant forall pod :: pod in pods <==> pod in old(pods) || Usable(v[..i], pod).Some?
      {
        assert v[..i + 1][..i] == v[..i];
        var e := v[i];
        if e.pod == "" {
          continue;
        }
        if e.value.Some? {
          pods := pods[e.pod := Set(ReadingOf(e.pod), metric, e.value.value)];
        }
      }
      assert v[..|v|] == v;
    }

    /** buildLLMDSpecs, against the specification below. */
    method BuildSpecs(server: Server, numReplicas: int, podNames: seq<string>, tokens: Tokens)
      returns (spec: ServerSpec, replicas: seq<ServerSpec>)
      ensures replicas == Keep(podNames, Replica(server, pods, tokens))
      ensures spec == Summary(server, numReplicas, Keep(podNames, Reading(pods)), tokens)
    {
      replicas := [];
      var t := Totals(0.0, 0.0, 0.0, 0.0, 0.0, 0.0, 0);
      ghost var rs := [];
      for i := 0 to |podNames|
        invariant rs == Keep(podNames[..i], Reading(pods)) && t.Of(rs)
        invariant replicas == Keep(podNames[..i], Replica(server, pods, tokens))
      {
        assert podNames[..i + 1][..i] == podNames[..i];
        var pod := podNames[i];
        if pod !in pods || pods[pod].throughput.None? {
          continue;
        }
        replicas := replicas + [ReplicaSpec(server, pod, pods[pod], tokens)];
        t := Add(t, pods[pod], rs);
        rs := rs + [pods[pod]];
      }
      assert podNames[..|podNames|] == podNames;
      var itl := if t.itlWeight > 0.0 then t.weightedITL / t.itlWeight else 0.0;
      var ttft := if t.ttftWeight > 0.0 then t.weightedTTFT / t.ttftWeight else 0.0;
      var occ := if t.numOcc > 0 then t.sumOcc / t.numOcc as real else 0.0;
      spec := ServerSpec(server.name, server.className, server.model, server.maxQueueSize,
                         Allocation(server.accelerator, numReplicas, 0, 0.0, itl, ttft, occ,
                                    ServerLoad(t.throughput, t.throughput,
                                               Truncate(tokens.input), Truncate(tokens.output))));
    }
  }

  /** The running totals of the loop. */
  datatype Totals = Totals(throughput: real, weightedITL: real, itlWeight: real, weightedTTFT: real, ttftWeight: real,
                           sumOcc: real, numOcc: int) {

    ghost predicate Of(rs: seq<PodReading>) {
      && throughput == SumOf(rs, ThroughputOf)
      && weightedITL == SumOf(rs, ItlProduct) && itlWeight == SumOf(rs, ItlWeight)
      && weightedTTFT == SumOf(rs, TtftProduct) && ttftWeight == SumOf(rs, TtftWeight)
      && sumOcc == SumOf(rs, OccupancyOf) && numOcc as real == SumOf(rs, OccupancyWeight)
    }
  }

  /** The loop's body: a metric that is absent adds to neither its sum nor its weight. */
  method Add(t: Totals, r: PodReading, ghost rs: seq<PodReading>) returns (t': Totals)
    requires t.Of(rs) && r.throughput.Some?
    ensures t'.Of(rs + [r])
  {
    SumsAppend(rs, r);
    var tput := r.throughput.value;
    t' := t.(throughput := t.throughput + tput);
    if r.itlSec.Some? {
      var itlMs := r.itlSec.value * 1000.0;
      t' := t'.(weightedITL := t'.weightedITL + Times(itlMs, tput), itlWeight := t'.itlWeight + tput);
    }
    if r.ttftSec.Some? {
      var ttftMs := r.ttftSec.value * 1000.0;
      t' := t'.(weightedTTFT := t'.weightedTTFT + Times(ttftMs, tput), ttftWeight := t'.ttftWeight + tput);
    }
    if r.occupancy.Some? {
      t' := t'.(sumOcc := t'.sumOcc + r.occupancy.value, numOcc := t'.numOcc + 1);
    }
  }

  function Updated(r: PodReading, metric: Metric, v: Option<real>): PodReading {
    if v.Some? then Set(r, metric, v.value) else r
  }

  function Usable(v: seq<Entry>, pod: string): Option<real> {
    if pod == "" then None else LastValue(v, pod)
  }

  // ---------------------------------------------------------- the specification

  /** Deployment-level token averages. */
  datatype Tokens = Tokens(input: real, output: real)

  function OrZero(x: Option<real>): real {
    if x.Some? then x.value else 0.0
  }

  /** One replica; a metric that is absent is reported as 0. */
  function ReplicaSpec(server: Server, pod: string, r: PodReading, tokens: Tokens): ServerSpec {
    ServerSpec(server.name + REPLICA_NAME_SEPARATOR + pod, server.className, server.model, server.maxQueueSize,
               Allocation(server.accelerator, 1, 0, 0.0, OrZero(r.itlSec) * 1000.0, OrZero(r.ttftSec) * 1000.0,
                          OrZero(r.occupancy),
                          ServerLoad(ThroughputOf(r), ThroughputOf(r),
                                     Truncate(tokens.input), Truncate(tokens.output))))
  }

  /** What a pod contributes: nothing unless its throughput is known. */
  function Reading(m: map<string, PodReading>): string -> Option<PodReading> {
    pod => if pod in m && m[pod].throughput.Some? then Some(m[pod]) else None
  }

  function Replica(server: Server, m: map<string, PodReading>, tokens: Tokens): string -> Option<ServerSpec> {
    pod => if pod in m && m[pod].throughput.Some? then Some(ReplicaSpec(server, pod, m[pod], tokens)) else None
  }

  function ThroughputOf(r: PodReading): real { OrZero(r.throughput) }
  function ItlOf(r: PodReading): real { OrZero(r.itlSec) * 1000.0 }
  function TtftOf(r: PodReading): real { OrZero(r.ttftSec) * 1000.0 }
  function OccupancyOf(r: PodReading): real { OrZero(r.occupancy) }
  function ItlWeight(r: PodReading): real { if r.itlSec.Some? then ThroughputOf(r) else 0.0 }
  function TtftWeight(r: PodReading): real { if r.ttftSec.Some? then ThroughputOf(r) else 0.0 }
  function OccupancyWeight(r: PodReading): real { if r.occupancy.Some? then 1.0 else 0.0 }
  function ItlProduct(r: PodReading): real { if r.itlSec.Some? then Times(ItlOf(r), ThroughputOf(r)) else 0.0 }
  function TtftProduct(r: PodReading): real { if r.ttftSec.Some? then Times(TtftOf(r), ThroughputOf(r)) else 0.0 }

  function Summary(server: Server, numReplicas: int, rs: seq<PodReading>, tokens: Tokens): ServerSpec {
    ServerSpec(server.name, server.className, server.model, server.maxQueueSize,
               Allocation(server.accelerator, numReplicas, 0, 0.0,
                          Mean(SumOf(rs, ItlProduct), SumOf(rs, ItlWeight)),
                          Mean(SumOf(rs, TtftProduct), SumOf(rs, TtftWeight)),
                          Mean(SumOf(rs, OccupancyOf), SumOf(rs, OccupancyWeight)),
                          ServerLoad(SumOf(rs, ThroughputOf), SumOf(rs, ThroughputOf),
                                     Truncate(tokens.input), Truncate(tokens.output))))
  }

  lemma SumsAppend(rs: seq<PodReading>, r: PodReading)
    ensures SumOf(rs + [r], ThroughputOf) == SumOf(rs, ThroughputOf) + ThroughputOf(r)
    ensures SumOf(rs + [r], ItlProduct) == SumOf(rs, ItlProduct) + ItlProduct(r)
    ensures SumOf(rs + [r], ItlWeight) == SumOf(rs, ItlWeight) + ItlWeight(r)
    ensures SumOf(rs + [r], TtftProduct) == SumOf(rs, TtftProduct) + TtftProduct(r)
    ensures SumOf(rs + [r], TtftWeight) == SumOf(rs, TtftWeight) + TtftWeight(r)
    ensures SumOf(rs + [r], OccupancyOf) == SumOf(rs, OccupancyOf) + OccupancyOf(r)
    ensures SumOf(rs + [r], OccupancyWeight) == SumOf(rs, OccupancyWeight) + OccupancyWeight(r)
  {
    SumOfAppend(rs, r, ThroughputOf);
    SumOfAppend(rs, r, ItlProduct);
    SumOfAppend(rs, r, ItlWeight);
    SumOfAppend(rs, r, TtftProduct);
    SumOfAppend(rs, r, TtftWeight);
    SumOfAppend(rs, r, OccupancyOf);
    SumOfAppend(rs, r, OccupancyWeight);
  }

  // ------------------------------------------- which readings count, and for what

  /** The vector's last entry for that pod with a usable value has this one. */
  ghost predicate LastSays(v: seq<Entry>, pod: string, x: real) {
    exists k :: 0 <= k < |v| && v[k] == Entry(pod, Some(x)) &&
                forall j :: k < j < |v| && v[j].pod == pod ==> v[j].value == None
  }

  lemma {:induction false} UsableExactly(v: seq<Entry>, pod: string)
    ensures forall x :: Usable(v, pod) == Some(x) <==> pod != "" && LastSays(v, pod, x)
  {
    if v != [] && pod != "" {
      var n := |v| - 1;
      UsableExactly(v[..n], pod);
      forall x ensures LastSays(v, pod, x) <==>
                       if v[n].pod == pod && v[n].value.Some? then v[n].value.value == x else LastSays(v[..n], pod, x)
      {
        LastSaysStep(v, pod, x);
      }
    }
  }

  lemma LastSaysStep(v: seq<Entry>, pod: string, x: real)
    requires v != []
    ensures var n := |v| - 1;
      LastSays(v, pod, x) <==>
      if v[n].pod == pod && v[n].value.Some? then v[n].value.value == x else LastSays(v[..n], pod, x)
  {
    var n := |v| - 1;
    if LastSays(v[..n], pod, x) && !(v[n].pod == pod && v[n].value.Some?) {
      var k :| 0 <= k < n && v[..n][k] == Entry(pod, Some(x)) &&
               forall j :: k < j < n && v[..n][j].pod == pod ==> v[..n][j].value == None;
      assert v[k] == Entry(pod, Some(x));
      assert forall j :: k < j < n ==> v[j] == v[..n][j];
    }
    if LastSays(v, pod, x) && !(v[n].pod == pod && v[n].value.Some?) {
      var k :| 0 <= k < |v| && v[k] == Entry(pod, Some(x)) &&
               forall j :: k < j < |v| && v[j].pod == pod ==> v[j].value == None;
      assert v[..n][k] == v[k];
    }
    if v[n] == Entry(pod, Some(x)) {
      assert LastSays(v, pod, x);
    }
  }

  /** A query fills its own metric of a reading, if there is a value, and no other. */
  lemma UpdatedExactly(r: PodReading, x: Option<real>)
    ensures Updated(r, Throughput, x) == PodReading(if x == None then r.throughput else x, r.itlSec, r.ttftSec, r.occupancy)
    ensures Updated(r, ITL, x) == PodReading(r.throughput, if x == None then r.itlSec else x, r.ttftSec, r.occupancy)
    ensures Updated(r, TTFT, x) == PodReading(r.throughput, r.itlSec, if x == None then r.ttftSec else x, r.occupancy)
    ensures Updated(r, Occupancy, x) == PodReading(r.throughput, r.itlSec, r.ttftSec, if x == None then r.occupancy else x)
  {
  }

  ghost predicate Reports(m: map<string, PodReading>, pod: string) {
    pod in m && m[pod].throughput.Some?
  }

  /** x, or 0 if there is none, in milliseconds instead of seconds. */
  ghost predicate InMillis(ms: real, x: Option<real>) {
    ms == match x case Some(v) => 1000.0 * v case None => 0.0
  }

  /** The replica says of the pod what was read of it; its throughput stands in for its arrival rate. */
  ghost predicate Shows(server: Server, pod: string, r: PodReading, tokens: Tokens, s: ServerSpec)
    requires r.throughput.Some?
  {
    var a := s.alloc;
    && s.name == server.name + "/" + pod && s.className == server.className && s.model == server.model
    && s.maxQueueSize == server.maxQueueSize && a.accelerator == server.accelerator
    && a.numReplicas == 1 && a.maxBatch == 0 && a.cost == 0.0
    && InMillis(a.itl, r.itlSec) && InMillis(a.ttft, r.ttftSec)
    && a.occupancy == (match r.occupancy case Some(v) => v case None => 0.0)
    && a.load.throughput == a.load.arrivalRate == r.throughput.value
    && IsWholePart(tokens.input, a.load.avgInTokens) && IsWholePart(tokens.output, a.load.avgOutTokens)
  }

  /** The replicas are those of exactly the pods with a throughput, in the order given, each showing its own. */
  lemma ReplicasExactly(server: Server, podNames: seq<string>, m: map<string, PodReading>, tokens: Tokens)
    returns (idx: seq<nat>)
    ensures Increasing(idx) && forall i :: i in idx <==> 0 <= i < |podNames| && Reports(m, podNames[i])
    ensures |Keep(podNames, Replica(server, m, tokens))| == |idx|
    ensures forall k :: 0 <= k < |idx| ==>
              && idx[k] < |podNames| && Reports(m, podNames[idx[k]])
              && Shows(server, podNames[idx[k]], m[podNames[idx[k]]], tokens,
                       Keep(podNames, Replica(server, m, tokens))[k])
  {
    idx := KeepPositions(podNames, Replica(server, m, tokens));
    TruncateMeaning(tokens.input);
    TruncateMeaning(tokens.output);
  }

  /** The figures are folded from the readings of the same pods. */
  lemma ReadingsExactly(podNames: seq<string>, m: map<string, PodReading>) returns (idx: seq<nat>)
    ensures Increasing(idx) && forall i :: i in idx <==> 0 <= i < |podNames| && Reports(m, podNames[i])
    ensures |Keep(podNames, Reading(m))| == |idx|
    ensures forall k :: 0 <= k < |idx| ==>
              idx[k] < |podNames| && Reports(m, podNames[idx[k]]) && Keep(podNames, Reading(m))[k] == m[podNames[idx[k]]]
  {
    idx := KeepPositions(podNames, Reading(m));
  }

  /** A latency in milliseconds times the pod's throughput, if it reports both, or nothing. */
  function Product(latency: Option<real>, throughput: Option<real>): real {
    match (latency, throughput)
    case (Some(l), Some(t)) => Times(1000.0 * l, t)
    case _ => 0.0
  }

  /** The throughput that counts for a metric: only that of pods that report it. */
  function WeightFor(x: Option<real>, throughput: Option<real>): real {
    match (x, throughput)
    case (Some(_), Some(t)) => t
    case _ => 0.0
  }

  /** Latencies are means over the pods that report them, weighted by throughput; the occupancy is the
      plain mean over those that report it. */
  lemma MeansExactly(server: Server, numReplicas: int, rs: seq<PodReading>, tokens: Tokens)
    requires forall r :: r in rs ==> r.throughput.Some?
    ensures var a := Summary(server, numReplicas, rs, tokens).alloc;
      && a.load.throughput == a.load.arrivalRate == SumOf(rs, (r: PodReading) => WeightFor(r.throughput, r.throughput))
      && IsMean(a.itl, SumOf(rs, (r: PodReading) => Product(r.itlSec, r.throughput)),
                SumOf(rs, (r: PodReading) => WeightFor(r.itlSec, r.throughput)))
      && IsMean(a.ttft, SumOf(rs, (r: PodReading) => Product(r.ttftSec, r.throughput)),
                SumOf(rs, (r: PodReading) => WeightFor(r.ttftSec, r.throughput)))
      && IsMean(a.occupancy, SumOf(rs, (r: PodReading) => WeightFor(r.occupancy, r.occupancy)),
                SumOf(rs, (r: PodReading) => if r.occupancy.Some? then 1.0 else 0.0))
  {
    SumOfSame(rs, ThroughputOf, (r: PodReading) => WeightFor(r.throughput, r.throughput));
    SumOfSame(rs, ItlProduct, (r: PodReading) => Product(r.itlSec, r.throughput));
    SumOfSame(rs, ItlWeight, (r: PodReading) => WeightFor(r.itlSec, r.throughput));
    SumOfSame(rs, TtftProduct, (r: PodReading) => Product(r.ttftSec, r.throughput));
    SumOfSame(rs, TtftWeight, (r: PodReading) => WeightFor(r.ttftSec, r.throughput));
    SumOfSame(rs, OccupancyOf, (r: PodReading) => WeightFor(r.occupancy, r.occupancy));
    SumOfSame(rs, OccupancyWeight, (r: PodReading) => if r.occupancy.Some? then 1.0 else 0.0);
    MeanExactly(SumOf(rs, ItlProduct), SumOf(rs, ItlWeight));
    MeanExactly(SumOf(rs, TtftProduct), SumOf(rs, TtftWeight));
    MeanExactly(SumOf(rs, OccupancyOf), SumOf(rs, OccupancyWeight));
  }

  /** The rest of a Deployment's spec is taken over from its labels and averages. */
  lemma SpecExactly(server: Server, numReplicas: int, rs: seq<PodReading>, tokens: Tokens)
    ensures var s := Summary(server, numReplicas, rs, tokens);
      && s.name == server.name && s.className == server.className && s.model == server.model
      && s.maxQueueSize == server.maxQueueSize && s.alloc.accelerator == server.accelerator
      && s.alloc.numReplicas == numReplicas && s.alloc.maxBatch == 0 && s.alloc.cost == 0.0
      && IsWholePart(tokens.input, s.alloc.load.avgInTokens) && IsWholePart(tokens.output, s.alloc.load.avgOutTokens)
  {
    TruncateMeaning(tokens.input);
    TruncateMeaning(tokens.output);
  }

  // ------------------------------------------------------------- conservation

  function SpecThroughput(s: ServerSpec): real {
    s.alloc.load.throughput
  }

  /** The Deployment's throughput, and the arrival rate it stands in for, is that of the replicas emitted. */
  lemma {:induction false} ThroughputConserved(server: Server, numReplicas: int, podNames: seq<string>,
                                               m: map<string, PodReading>, tokens: Tokens)
    ensures var load := Summary(server, numReplicas, Keep(podNames, Reading(m)), tokens).alloc.load;
      load.throughput == load.arrivalRate == SumOf(Keep(podNames, Replica(server, m, tokens)), SpecThroughput)
  {
    SameSum(server, podNames, m, tokens);
  }

  lemma {:induction false} SameSum(server: Server, podNames: seq<string>, m: map<string, PodReading>, tokens: Tokens)
    ensures SumOf(Keep(podNames, Reading(m)), ThroughputOf) ==
            SumOf(Keep(podNames, Replica(server, m, tokens)), SpecThroughput)
  {
    if podNames != [] {
      var init, pod := podNames[..|podNames| - 1], podNames[|podNames| - 1];
      SameSum(server, init, m, tokens);
      if Reading(m)(pod).Some? {
        SumOfAppend(Keep(init, Reading(m)), m[pod], ThroughputOf);
        SumOfAppend(Keep(init, Replica(server, m, tokens)), ReplicaSpec(server, pod, m[pod], tokens), SpecThroughput);
      }
    }
  }

  // -------------------------------------------------------------- the averages

  /** Latencies and occupancy lie between the values of the pods that report them; for the
      latencies only pods with a positive throughput matter. An unreported latency is no zero. */
  lemma AveragesBetween(server: Server, numReplicas: int, rs: seq<PodReading>, tokens: Tokens, lo: real, hi: real)
    requires forall r :: r in rs ==> ThroughputOf(r) >= 0.0
    ensures var a := Summary(server, numReplicas, rs, tokens).alloc;
      && (SumOf(rs, ItlWeight) > 0.0 && (forall r :: r in rs && ItlWeight(r) > 0.0 ==> lo <= ItlOf(r) <= hi)
          ==> lo <= a.itl <= hi)
      && (SumOf(rs, TtftWeight) > 0.0 && (forall r :: r in rs && TtftWeight(r) > 0.0 ==> lo <= TtftOf(r) <= hi)
          ==> lo <= a.ttft <= hi)
      && (SumOf(rs, OccupancyWeight) > 0.0 &&
          (forall r :: r in rs && r.occupancy.Some? ==> lo <= r.occupancy.value <= hi)
          ==> lo <= a.occupancy <= hi)
  {
    if SumOf(rs, ItlWeight) > 0.0 && forall r :: r in rs && ItlWeight(r) > 0.0 ==> lo <= ItlOf(r) <= hi {
      WeightedBounds(rs, ItlOf, ItlWeight, ItlProduct, lo, hi);
      MeanBetween(SumOf(rs, ItlProduct), SumOf(rs, ItlWeight), lo, hi);
    }
    if SumOf(rs, TtftWeight) > 0.0 && forall r :: r in rs && TtftWeight(r) > 0.0 ==> lo <= TtftOf(r) <= hi {
      WeightedBounds(rs, TtftOf, TtftWeight, TtftProduct, lo, hi);
      MeanBetween(SumOf(rs, TtftProduct), SumOf(rs, TtftWeight), lo, hi);
    }
    if SumOf(rs, OccupancyWeight) > 0.0 && forall r :: r in rs && r.occupancy.Some? ==> lo <= r.occupancy.value <= hi {
      WeightedBounds(rs, OccupancyOf, OccupancyWeight, OccupancyOf, lo, hi);
      MeanBetween(SumOf(rs, OccupancyOf), SumOf(rs, OccupancyWeight), lo, hi);
    }
  }

  /** A pod without throughput might as well be away altogether. */
  lemma SilentPodsDoNotCount(server: Server, podNames: seq<string>, m: map<string, PodReading>, tokens: Tokens, i: nat)
    requires i < |podNames| && Reading(m)(podNames[i]).None?
    ensures var without := podNames[..i] + podNames[i + 1..];
      && Keep(podNames, Reading(m)) == Keep(without, Reading(m))
      && Keep(podNames, Replica(server, m, tokens)) == Keep(without, Replica(server, m, tokens))
  {
    KeepSkips(podNames, i, Reading(m));
    KeepSkips(podNames, i, Replica(server, m, tokens));
  }

  /** A pod that did not report a metric might as well be away, as far as that metric's average goes. */
  lemma UnreportedDoesNotCount(server: Server, numReplicas: int, podNames: seq<string>, m: map<string, PodReading>,
                               tokens: Tokens, i: nat)
    requires i < |podNames|
    ensures var a := Summary(server, numReplicas, Keep(podNames, Reading(m)), tokens).alloc;
      var a' := Summary(server, numReplicas, Keep(podNames[..i] + podNames[i + 1..], Reading(m)), tokens).alloc;
      var r := if podNames[i] in m then m[podNames[i]] else NO_READING;
      && (r.itlSec.None? ==> a.itl == a'.itl)
      && (r.ttftSec.None? ==> a.ttft == a'.ttft)
      && (r.occupancy.None? ==> a.occupancy == a'.occupancy)
  {
    var r := Reading(m)(podNames[i]);
    if r.None? {
      KeepSkips(podNames, i, Reading(m));
    } else {
      ContributesAlone(podNames, i, Reading(m), r.value);
    }
  }

  /** Taking a pod away leaves the sums of the metrics it does not report. */
  lemma ContributesAlone(podNames: seq<string>, i: nat, f: string -> Option<PodReading>, r: PodReading)
    requires i < |podNames| && f(podNames[i]) == Some(r)
    ensures var rs, rs' := Keep(podNames, f), Keep(podNames[..i] + podNames[i + 1..], f);
      && (r.itlSec.None? ==>
            SumOf(rs, ItlProduct) == SumOf(rs', ItlProduct) && SumOf(rs, ItlWeight) == SumOf(rs', ItlWeight))
      && (r.ttftSec.None? ==>
            SumOf(rs, TtftProduct) == SumOf(rs', TtftProduct) && SumOf(rs, TtftWeight) == SumOf(rs', TtftWeight))
      && (r.occupancy.None? ==>
            SumOf(rs, OccupancyOf) == SumOf(rs', OccupancyOf) && SumOf(rs, OccupancyWeight) == SumOf(rs', OccupancyWeight))
  {
    var rs, rs' := Keep(podNames, f), Keep(podNames[..i] + podNames[i + 1..], f);
    KeepWithout(podNames, i, f);
    KeepOne(podNames[i], f);
    SameSums(rs, rs' + [r]);
    SumsAppend(rs', r);
  }

  lemma SameSums(rs: seq<PodReading>, rs': seq<PodReading>)
    requires multiset(rs) == multiset(rs')
    ensures SumOf(rs, ThroughputOf) == SumOf(rs', ThroughputOf)
    ensures SumOf(rs, ItlProduct) == SumOf(rs', ItlProduct) && SumOf(rs, ItlWeight) == SumOf(rs', ItlWeight)
    ensures SumOf(rs, TtftProduct) == SumOf(rs', TtftProduct) && SumOf(rs, TtftWeight) == SumOf(rs', TtftWeight)
    ensures SumOf(rs, OccupancyOf) == SumOf(rs', OccupancyOf)
    ensures SumOf(rs, OccupancyWeight) == SumOf(rs', OccupancyWeight)
  {
    SumOfPermuted(rs, rs', ThroughputOf);
    SumOfPermuted(rs, rs', ItlProduct);
    SumOfPermuted(rs, rs', ItlWeight);
    SumOfPermuted(rs, rs', TtftProduct);
    SumOfPermuted(rs, rs', TtftWeight);
    SumOfPermuted(rs, rs', OccupancyOf);
    SumOfPermuted(rs, rs', OccupancyWeight);
  }

  /** The order of the pods changes none of the Deployment's figures. */
  lemma SummaryIgnoresOrder(server: Server, numReplicas: int, podNames: seq<string>, podNames': seq<string>,
                            m: map<string, PodReading>, tokens: Tokens)
    requires multiset(podNames) == multiset(podNames')
    ensures Summary(server, numReplicas, Keep(podNames, Reading(m)), tokens) ==
            Summary(server, numReplicas, Keep(podNames', Reading(m)), tokens)
  {
    KeepPermuted(podNames, podNames', Reading(m));
    SameSums(Keep(podNames, Reading(m)), Keep(podNames', Reading(m)));
  }
}
