// Model of pkg/collector/sensor_serversim.go and pkg/collector/replicaspec.go: one Deployment's
// observation, folded from the answers of its pods, and its agreement with the load emulator.
module Collector {
  import opened Basics
  import opened Reals
  import opened Aggregates
  import opened Config
  import opened LoadEmulation
  import opened Ownership

  datatype SimInput = SimInput(maxConcurrency: int, rps: real, avgInputTokens: real, avgOutputTokens: real)
  datatype SimResult = SimResult(throughput: real, avgRespTime: real, avgWaitTime: real, itl: real, ttft: real)
  datatype Envelope = Envelope(input: SimInput, result: SimResult)

  /** What GET /latest gave for a pod: an error, no result yet, or a result. */
  datatype Answer = Failed | NoResult | Latest(env: Envelope)

  datatype PodView = PodView(name: string, reply: Answer)

  /** buildReplicaSpec: a result counts only if it was produced under the allocation in force. */
  function BuildReplicaSpec(server: Server, inForce: int, pod: PodView): Option<ServerSpec> {
    if !pod.reply.Latest? || inForce <= 0 || pod.reply.env.input.maxConcurrency != inForce then None
    else
      var env := pod.reply.env;
      Some(ServerSpec(
        server.name + REPLICA_NAME_SEPARATOR + pod.name, server.className, server.model, server.maxQueueSize,
        Allocation(server.accelerator, 1, inForce, 0.0, env.result.itl, env.result.ttft,
                   InService(env.result),
                   ServerLoad(PerMinute(env.input.rps), PerMinute(env.result.throughput),
                              Truncate(env.input.avgInputTokens), Truncate(env.input.avgOutputTokens)))))
  }

  /** Occupancy by Little's law: throughput times the time spent in service, in seconds. */
  function InService(result: SimResult): real {
    result.throughput * MaxReal(result.avgRespTime - result.avgWaitTime, 0.0) / 1000.0
  }

  function PerMinute(rps: real): real {
    rps * 60.0
  }

  function SelectArrivalRate(numReporting: int, numReplicas: int, totalOffered: real, setpoint: Option<real>,
                             backup: real): real
  {
    if numReporting > 0 && numReporting == numReplicas then totalOffered
    else if setpoint.Some? && setpoint.value > 0.0 then setpoint.value
    else if numReporting > 0 then totalOffered
    else backup
  }

  // ----------------------------------------------------------------- the method

  /** The gate for one pod, as a function of the pod alone. */
  function Gate(server: Server, inForce: int): PodView -> Option<ServerSpec> {
    pod => BuildReplicaSpec(server, inForce, pod)
  }

  /** The replicas that report coherently, in listing order. */
  function Observed(server: Server, inForce: int, pods: seq<PodView>): seq<ServerSpec> {
    Keep(pods, Gate(server, inForce))
  }

  function ThroughputOf(r: ServerSpec): real { r.alloc.load.throughput }
  function ArrivalOf(r: ServerSpec): real { r.alloc.load.arrivalRate }
  function OccupancyOf(r: ServerSpec): real { r.alloc.occupancy }
  function ItlOf(r: ServerSpec): real { r.alloc.itl }
  function TtftOf(r: ServerSpec): real { r.alloc.ttft }
  function ItlProduct(r: ServerSpec): real { Times(r.alloc.itl, r.alloc.load.throughput) }
  function TtftProduct(r: ServerSpec): real { Times(r.alloc.ttft, r.alloc.load.throughput) }

  /** The figures known about a Deployment besides its pods: the rate label (None when it does
      not parse), the Prometheus rate, and the token averages. */
  datatype Backup = Backup(setpoint: Option<real>, arrivalRate: real, inTokens: real, outTokens: real)

  /** The Deployment-level figures that a list of replicas amounts to. */
  function Summary(server: Server, inForce: int, numReplicas: int, replicas: seq<ServerSpec>, b: Backup): ServerSpec {
    var throughput := SumOf(replicas, ThroughputOf);
    ServerSpec(server.name, server.className, server.model, server.maxQueueSize,
               Allocation(server.accelerator, numReplicas, inForce, 0.0,
                          Mean(SumOf(replicas, ItlProduct), throughput),
                          Mean(SumOf(replicas, TtftProduct), throughput),
                          Mean(SumOf(replicas, OccupancyOf), |replicas| as real),
                          ServerLoad(SelectArrivalRate(|replicas|, numReplicas, SumOf(replicas, ArrivalOf),
                                                       b.setpoint, b.arrivalRate),
                                     throughput, Truncate(b.inTokens), Truncate(b.outTokens))))
  }

  /** The running pods with what each answered, in listing order. */
  ghost function Views(depUID: string, rss: seq<ReplicaSet>, pods: seq<ListedPod>, latest: nat -> Answer): seq<PodView> {
    if pods == [] then []
    else
      var n := |pods| - 1;
      Views(depUID, rss, pods[..n], latest) +
      if Runs(depUID, rss, pods[n]) then [PodView(pods[n].pod.name, latest(n))] else []
  }

  ghost function Listing(depUID: string, rss: Option<seq<ReplicaSet>>, pods: Option<seq<ListedPod>>,
                         latest: nat -> Answer): Option<seq<PodView>> {
    if rss.None? || pods.None? then None else Some(Views(depUID, rss.value, pods.value, latest))
  }

  /** The selection of the pods to ask; None when listing the ReplicaSets or the pods failed. */
  method AskRunningPods(depUID: string, rss: Option<seq<ReplicaSet>>, pods: Option<seq<ListedPod>>,
                        latest: nat -> Answer)
    returns (listing: Option<seq<PodView>>)
    ensures listing == Listing(depUID, rss, pods, latest)
  {
    if rss.None? {
      return None;
    }
    var uids := OwnedReplicaSets(rss.value, depUID);
    if pods.None? {
      return None;
    }
    var views := [];
    for i := 0 to |pods.value|
      invariant views == Views(depUID, rss.value, pods.value[..i], latest)
    {
      assert pods.value[..i + 1][..i] == pods.value[..i];
      var p := pods.value[i];
      if p.pod.phase != POD_RUNNING {
        continue;
      }
      var owned := IsOwned(p.pod, uids);
      if !owned {
        continue;
      }
      if !p.started {
        continue;
      }
      views := views + [PodView(p.pod.name, latest(i))];
    }
    assert pods.value[..|pods.value|] == pods.value;
    return Some(views);
  }

  /** Sense: select the running pods, ask each, and fold the answers. `latest` is what each listed
      pod would answer. */
  method Sense(server: Server, inForce: int, specReplicas: int, depUID: string, rss: Option<seq<ReplicaSet>>,
               pods: Option<seq<ListedPod>>, latest: nat -> Answer, b: Backup)
    returns (spec: ServerSpec, replicas: seq<ServerSpec>)
    ensures var listing := Listing(depUID, rss, pods, latest);
      && replicas == Observed(server, inForce, if listing.Some? then listing.value else [])
      && spec == Summary(server, inForce, if listing.Some? then specReplicas else 0, replicas, b)
  {
    var listing := AskRunningPods(depUID, rss, pods, latest);
    spec, replicas := Fold(server, inForce, specReplicas, listing, b);
  }

  /** The aggregation part of Sense: without a listing the replica count is reported as 0. */
  method Fold(server: Server, inForce: int, specReplicas: int, listing: Option<seq<PodView>>, b: Backup)
    returns (spec: ServerSpec, replicas: seq<ServerSpec>)
    ensures replicas == Observed(server, inForce, if listing.Some? then listing.value else [])
    ensures spec == Summary(server, inForce, if listing.Some? then specReplicas else 0, replicas, b)
  {
    var itl, ttft, occ, totalThroughput, totalOffered := 0.0, 0.0, 0.0, 0.0, 0.0;
    var numReporting, numReplicas := 0, 0;
    replicas := [];
    if listing.Some? {
      var pods := listing.value;
      numReplicas := specReplicas;
      var weightedITL, weightedTTFT, sumOcc := 0.0, 0.0, 0.0;
      for i := 0 to |pods|
        invariant replicas == Observed(server, inForce, pods[..i])
        invariant numReporting == |replicas|
        invariant weightedITL == SumOf(replicas, ItlProduct) && weightedTTFT == SumOf(replicas, TtftProduct)
        invariant sumOcc == SumOf(replicas, OccupancyOf)
        invariant totalThroughput == SumOf(replicas, ThroughputOf) && totalOffered == SumOf(replicas, ArrivalOf)
      {
        assert pods[..i + 1][..i] == pods[..i];
        var observed := BuildReplicaSpec(server, inForce, pods[i]);
        if observed.None? {
          continue;
        }
        var r := observed.value;
        SumsAppend(replicas, r);
        var w := r.alloc.load.throughput;
        weightedITL := weightedITL + Times(r.alloc.itl, w);
        weightedTTFT := weightedTTFT + Times(r.alloc.ttft, w);
        sumOcc := sumOcc + r.alloc.occupancy;
        totalThroughput := totalThroughput + w;
        totalOffered := totalOffered + r.alloc.load.arrivalRate;
        numReporting := numReporting + 1;
        replicas := replicas + [r];
      }
      assert pods[..|pods|] == pods;
      if totalThroughput > 0.0 {
        itl := weightedITL / totalThroughput;
        ttft := weightedTTFT / totalThroughput;
      }
      if numReporting > 0 {
        occ := sumOcc / numReporting as real;
      }
    }
    var arrivalRate := SelectArrivalRate(numReporting, numReplicas, totalOffered, b.setpoint, b.arrivalRate);
    spec := ServerSpec(server.name, server.className, server.model, server.maxQueueSize,
                       Allocation(server.accelerator, numReplicas, inForce, 0.0, itl, ttft, occ,
                                  ServerLoad(arrivalRate, totalThroughput, Truncate(b.inTokens), Truncate(b.outTokens))));
  }

  lemma SumsAppend(rs: seq<ServerSpec>, r: ServerSpec)
    ensures SumOf(rs + [r], ItlProduct) == SumOf(rs, ItlProduct) + ItlProduct(r)
    ensures SumOf(rs + [r], TtftProduct) == SumOf(rs, TtftProduct) + TtftProduct(r)
    ensures SumOf(rs + [r], OccupancyOf) == SumOf(rs, OccupancyOf) + OccupancyOf(r)
    ensures SumOf(rs + [r], ThroughputOf) == SumOf(rs, ThroughputOf) + ThroughputOf(r)
    ensures SumOf(rs + [r], ArrivalOf) == SumOf(rs, ArrivalOf) + ArrivalOf(r)
  {
    SumOfAppend(rs, r, ItlProduct);
    SumOfAppend(rs, r, TtftProduct);
    SumOfAppend(rs, r, OccupancyOf);
    SumOfAppend(rs, r, ThroughputOf);
    SumOfAppend(rs, r, ArrivalOf);
  }

  // ------------------------------------------- which pods count, and for what

  /** The pod answered with a window produced under the allocation in force. */
  ghost predicate Coherent(inForce: int, p: PodView) {
    p.reply.Latest? && inForce > 0 && p.reply.env.input.maxConcurrency == inForce
  }

  /** The replica says of the pod what its window says: rates per minute instead of per second, and
      the throughput times the time in service, in seconds instead of milliseconds. */
  ghost predicate Shows(server: Server, inForce: int, p: PodView, r: ServerSpec)
    requires p.reply.Latest?
  {
    var seen, found, a := p.reply.env.input, p.reply.env.result, r.alloc;
    && r.name == server.name + "/" + p.name && r.className == server.className && r.model == server.model
    && r.maxQueueSize == server.maxQueueSize && a.accelerator == server.accelerator
    && a.numReplicas == 1 && a.maxBatch == inForce && a.cost == 0.0
    && a.itl == found.itl && a.ttft == found.ttft
    && 1000.0 * a.occupancy ==
       (if found.avgRespTime > found.avgWaitTime then found.throughput * (found.avgRespTime - found.avgWaitTime) else 0.0)
    && a.load.arrivalRate == 60.0 * seen.rps && a.load.throughput == 60.0 * found.throughput
    && IsWholePart(seen.avgInputTokens, a.load.avgInTokens) && IsWholePart(seen.avgOutputTokens, a.load.avgOutTokens)
  }

  lemma GateExactly(server: Server, inForce: int, p: PodView)
    ensures Gate(server, inForce)(p).Some? <==> Coherent(inForce, p)
    ensures Coherent(inForce, p) ==> Shows(server, inForce, p, Gate(server, inForce)(p).value)
  {
    if Coherent(inForce, p) {
      TruncateMeaning(p.reply.env.input.avgInputTokens);
      TruncateMeaning(p.reply.env.input.avgOutputTokens);
    }
  }

  /** The replicas are those of exactly the coherent pods, in the order listed, each showing its own. */
  lemma ObservedExactly(server: Server, inForce: int, pods: seq<PodView>) returns (idx: seq<nat>)
    ensures Increasing(idx) && forall i :: i in idx <==> 0 <= i < |pods| && Coherent(inForce, pods[i])
    ensures |Observed(server, inForce, pods)| == |idx|
    ensures forall k :: 0 <= k < |idx| ==>
              && idx[k] < |pods| && pods[idx[k]].reply.Latest?
              && Shows(server, inForce, pods[idx[k]], Observed(server, inForce, pods)[k])
  {
    idx := KeepPositions(pods, Gate(server, inForce));
    forall i | 0 <= i < |pods| ensures i in idx <==> Coherent(inForce, pods[i]) {
      GateExactly(server, inForce, pods[i]);
    }
    forall k | 0 <= k < |idx|
      ensures pods[idx[k]].reply.Latest? && Shows(server, inForce, pods[idx[k]], Observed(server, inForce, pods)[k])
    {
      GateExactly(server, inForce, pods[idx[k]]);
    }
  }

  /** The pods asked are those that run, are owned through a ReplicaSet and are past their startup
      delay, in the order listed, each with its own answer. */
  lemma {:induction false} ViewsExactly(depUID: string, rss: seq<ReplicaSet>, pods: seq<ListedPod>, latest: nat -> Answer)
    returns (idx: seq<nat>)
    ensures Increasing(idx)
    ensures forall i :: i in idx <==>
              && 0 <= i < |pods| && pods[i].pod.phase == "Running" && pods[i].started
              && HasOwner(rss, depUID, pods[i].pod.owners)
    ensures |Views(depUID, rss, pods, latest)| == |idx|
    ensures forall k :: 0 <= k < |idx| ==>
              idx[k] < |pods| && Views(depUID, rss, pods, latest)[k] == PodView(pods[idx[k]].pod.name, latest(idx[k]))
  {
    if pods == [] {
      idx := [];
    } else {
      var n := |pods| - 1;
      idx := ViewsExactly(depUID, rss, pods[..n], latest);
      RunsExactly(depUID, rss, pods[n]);
      if Runs(depUID, rss, pods[n]) {
        IncreasingAppend(idx, n);
        idx := idx + [n];
      }
    }
  }

  /** There is a listing exactly if both lists of objects can be had. */
  lemma ListingExactly(depUID: string, rss: Option<seq<ReplicaSet>>, pods: Option<seq<ListedPod>>, latest: nat -> Answer)
    ensures Listing(depUID, rss, pods, latest) ==
            if rss.Some? && pods.Some? then Some(Views(depUID, rss.value, pods.value, latest)) else None
  {
  }

  /** The latencies of the Deployment are means weighted by throughput, its occupancy is the plain
      mean, and 0 stands for a mean of nothing. */
  lemma MeansExactly(server: Server, inForce: int, numReplicas: int, rs: seq<ServerSpec>, b: Backup)
    ensures var a := Summary(server, inForce, numReplicas, rs, b).alloc;
      && a.load.throughput == SumOf(rs, (r: ServerSpec) => r.alloc.load.throughput)
      && IsMean(a.itl, SumOf(rs, (r: ServerSpec) => Times(r.alloc.itl, r.alloc.load.throughput)), a.load.throughput)
      && IsMean(a.ttft, SumOf(rs, (r: ServerSpec) => Times(r.alloc.ttft, r.alloc.load.throughput)), a.load.throughput)
      && IsMean(a.occupancy, SumOf(rs, (r: ServerSpec) => r.alloc.occupancy), |rs| as real)
  {
    SumOfSame(rs, ThroughputOf, (r: ServerSpec) => r.alloc.load.throughput);
    SumOfSame(rs, ItlProduct, (r: ServerSpec) => Times(r.alloc.itl, r.alloc.load.throughput));
    SumOfSame(rs, TtftProduct, (r: ServerSpec) => Times(r.alloc.ttft, r.alloc.load.throughput));
    SumOfSame(rs, OccupancyOf, (r: ServerSpec) => r.alloc.occupancy);
    MeanExactly(SumOf(rs, ItlProduct), SumOf(rs, ThroughputOf));
    MeanExactly(SumOf(rs, TtftProduct), SumOf(rs, ThroughputOf));
    MeanExactly(SumOf(rs, OccupancyOf), |rs| as real);
  }

  /** The arrival rate is the sum over the replicas if as many report as there are, or if some report
      and no setpoint is known; else it is the positive setpoint, else the rate given as a backup. */
  lemma ArrivalExactly(server: Server, inForce: int, numReplicas: int, rs: seq<ServerSpec>, b: Backup)
    ensures var arrival := Summary(server, inForce, numReplicas, rs, b).alloc.load.arrivalRate;
      var offered := SumOf(rs, (r: ServerSpec) => r.alloc.load.arrivalRate);
      && (rs != [] && |rs| == numReplicas ==> arrival == offered)
      && (rs == [] || |rs| != numReplicas ==>
            arrival == if b.setpoint.Some? && b.setpoint.value > 0.0 then b.setpoint.value
                       else if rs != [] then offered else b.arrivalRate)
  {
    SumOfSame(rs, ArrivalOf, (r: ServerSpec) => r.alloc.load.arrivalRate);
  }

  /** The rest of a Deployment's spec is taken over from its labels and averages. */
  lemma SpecExactly(server: Server, inForce: int, numReplicas: int, rs: seq<ServerSpec>, b: Backup)
    ensures var s := Summary(server, inForce, numReplicas, rs, b);
      && s.name == server.name && s.className == server.className && s.model == server.model
      && s.maxQueueSize == server.maxQueueSize && s.alloc.accelerator == server.accelerator
      && s.alloc.numReplicas == numReplicas && s.alloc.maxBatch == inForce && s.alloc.cost == 0.0
      && IsWholePart(b.inTokens, s.alloc.load.avgInTokens) && IsWholePart(b.outTokens, s.alloc.load.avgOutTokens)
  {
    TruncateMeaning(b.inTokens);
    TruncateMeaning(b.outTokens);
  }

  // ------------------------------------------------------------------ the means

  /** Throughputs are not negative. */
  ghost predicate Sane(pods: seq<PodView>) {
    forall p :: p in pods && p.reply.Latest? ==> p.reply.env.result.throughput >= 0.0
  }

  /** Little's law: an occupancy is never negative, however the two times compare. */
  lemma OccupancyNonNegative(server: Server, inForce: int, pods: seq<PodView>)
    requires Sane(pods)
    ensures forall r :: r in Observed(server, inForce, pods) ==> r.alloc.occupancy >= 0.0 && ThroughputOf(r) >= 0.0
  {
    forall r | r in Observed(server, inForce, pods) ensures r.alloc.occupancy >= 0.0 && ThroughputOf(r) >= 0.0 {
      var p := KeepFrom(pods, Gate(server, inForce), r);
      LittlesLaw(p.reply.env.result);
    }
  }

  lemma LittlesLaw(result: SimResult)
    requires result.throughput >= 0.0
    ensures InService(result) >= 0.0
    ensures PerMinute(result.throughput) >= 0.0
  {
    MulMono(0.0, MaxReal(result.avgRespTime - result.avgWaitTime, 0.0), result.throughput);
  }

  /** The Deployment's latencies lie between those of the replicas that completed something. */
  lemma MeansBetween(server: Server, inForce: int, numReplicas: int, pods: seq<PodView>, b: Backup, lo: real, hi: real)
    requires Sane(pods)
    ensures var rs := Observed(server, inForce, pods);
      var a := Summary(server, inForce, numReplicas, rs, b).alloc;
      && a.load.throughput >= 0.0
      && (a.load.throughput > 0.0 && (forall r :: r in rs && ThroughputOf(r) > 0.0 ==> lo <= r.alloc.itl <= hi)
          ==> lo <= a.itl <= hi)
      && (a.load.throughput > 0.0 && (forall r :: r in rs && ThroughputOf(r) > 0.0 ==> lo <= r.alloc.ttft <= hi)
          ==> lo <= a.ttft <= hi)
      && (rs != [] && (forall r :: r in rs ==> lo <= r.alloc.occupancy <= hi) ==> lo <= a.occupancy <= hi)
  {
    var rs := Observed(server, inForce, pods);
    OccupancyNonNegative(server, inForce, pods);
    SumOfNonNegative(rs, ThroughputOf);
    if SumOf(rs, ThroughputOf) > 0.0 {
      ItlBetween(rs, lo, hi);
      TtftBetween(rs, lo, hi);
    }
    OccupancyBetween(rs, lo, hi);
  }

  lemma ItlBetween(rs: seq<ServerSpec>, lo: real, hi: real)
    requires SumOf(rs, ThroughputOf) > 0.0 && forall r :: r in rs ==> ThroughputOf(r) >= 0.0
    ensures (forall r :: r in rs && ThroughputOf(r) > 0.0 ==> lo <= r.alloc.itl <= hi) ==>
              lo <= Mean(SumOf(rs, ItlProduct), SumOf(rs, ThroughputOf)) <= hi
  {
    if forall r :: r in rs && ThroughputOf(r) > 0.0 ==> lo <= r.alloc.itl <= hi {
      WeightedBounds(rs, ItlOf, ThroughputOf, ItlProduct, lo, hi);
      MeanBetween(SumOf(rs, ItlProduct), SumOf(rs, ThroughputOf), lo, hi);
    }
  }

  lemma TtftBetween(rs: seq<ServerSpec>, lo: real, hi: real)
    requires SumOf(rs, ThroughputOf) > 0.0 && forall r :: r in rs ==> ThroughputOf(r) >= 0.0
    ensures (forall r :: r in rs && ThroughputOf(r) > 0.0 ==> lo <= r.alloc.ttft <= hi) ==>
              lo <= Mean(SumOf(rs, TtftProduct), SumOf(rs, ThroughputOf)) <= hi
  {
    if forall r :: r in rs && ThroughputOf(r) > 0.0 ==> lo <= r.alloc.ttft <= hi {
      WeightedBounds(rs, TtftOf, ThroughputOf, TtftProduct, lo, hi);
      MeanBetween(SumOf(rs, TtftProduct), SumOf(rs, ThroughputOf), lo, hi);
    }
  }

  lemma OccupancyBetween(rs: seq<ServerSpec>, lo: real, hi: real)
    ensures rs != [] && (forall r :: r in rs ==> lo <= r.alloc.occupancy <= hi) ==>
              lo <= Mean(SumOf(rs, OccupancyOf), |rs| as real) <= hi
  {
    if rs != [] && forall r :: r in rs ==> lo <= r.alloc.occupancy <= hi {
      SumOfBounds(rs, OccupancyOf, lo, hi);
      MeanBetween(SumOf(rs, OccupancyOf), |rs| as real, lo, hi);
    }
  }

  // ------------------------------------------------- order and silent pods

  /** A pod that does not report coherently might as well not be there. */
  lemma SilentPodsDoNotCount(server: Server, inForce: int, pods: seq<PodView>, i: nat)
    requires i < |pods| && !Coherent(inForce, pods[i])
    ensures Observed(server, inForce, pods) == Observed(server, inForce, pods[..i] + pods[i + 1..])
  {
    KeepSkips(pods, i, Gate(server, inForce));
  }

  /** The order in which the API lists the pods does not change the Deployment's figures. */
  lemma SummaryIgnoresOrder(server: Server, inForce: int, numReplicas: int, pods: seq<PodView>, pods': seq<PodView>,
                            b: Backup)
    requires multiset(pods) == multiset(pods')
    ensures Summary(server, inForce, numReplicas, Observed(server, inForce, pods), b) ==
            Summary(server, inForce, numReplicas, Observed(server, inForce, pods'), b)
  {
    var rs, rs' := Observed(server, inForce, pods), Observed(server, inForce, pods');
    KeepPermuted(pods, pods', Gate(server, inForce));
    SumOfPermuted(rs, rs', ThroughputOf);
    SumOfPermuted(rs, rs', ArrivalOf);
    SumOfPermuted(rs, rs', OccupancyOf);
    SumOfPermuted(rs, rs', ItlProduct);
    SumOfPermuted(rs, rs', TtftProduct);
    assert |rs| == |multiset(rs)| == |multiset(rs')| == |rs'|;
  }

  // --------------------------------------------- agreement with the emulator

  function Labels(shares: seq<real>, fmt: real -> real): seq<real> {
    seq(|shares|, i requires 0 <= i < |shares| => fmt(shares[i]))
  }

  /** The pods listed are among those the load was split over (pod i is number idx[i]), and
      each that answers reports the rate on its own label. */
  ghost predicate ReportOwnLabels(pods: seq<PodView>, idx: seq<nat>, labels: seq<real>) {
    && |idx| == |pods| && Distinct(idx)
    && (forall i :: 0 <= i < |pods| ==> idx[i] < |labels|)
    && (forall i :: 0 <= i < |pods| && pods[i].reply.Latest? ==>
          PerMinute(pods[i].reply.env.input.rps) == labels[idx[i]])
  }

  ghost predicate Distinct(idx: seq<nat>) {
    forall i, j :: 0 <= i < j < |idx| ==> idx[i] != idx[j]
  }

  lemma {:induction false} RoundedSum(shares: seq<real>, fmt: real -> real)
    requires IsFormat(fmt)
    ensures Abs(Sum(Labels(shares, fmt)) - Sum(shares)) <= Times(|shares| as real, 0.00005)
  {
    if shares != [] {
      var n := |shares| - 1;
      RoundedSum(shares[..n], fmt);
      assert Labels(shares, fmt)[..n] == Labels(shares[..n], fmt);
      assert Abs(fmt(shares[n]) - shares[n]) <= 0.00005;
      OneMore(n, 0.00005);
    }
  }

  function Picked(labels: seq<real>, idx: seq<nat>): seq<real>
    requires forall i :: 0 <= i < |idx| ==> idx[i] < |labels|
  {
    seq(|idx|, i requires 0 <= i < |idx| => labels[idx[i]])
  }

  /** Distinct positions: no more than there are, and if as many, all of them. */
  lemma {:induction false} PickAll(labels: seq<real>, idx: seq<nat>)
    requires Distinct(idx) && forall i :: 0 <= i < |idx| ==> idx[i] < |labels|
    ensures |idx| <= |labels|
    ensures |idx| == |labels| ==> Sum(Picked(labels, idx)) == Sum(labels)
  {
    if idx != [] {
      var first, n := idx[0], |labels| - 1;
      assert first <= n;
      if j :| 0 <= j < |idx| && idx[j] == n {
        PickLast(labels, idx, j);
        PickAll(labels[..n], idx[..j] + idx[j + 1..]);
      } else {
        PickAll(labels[..n], idx);
      }
    }
  }

  lemma PickLast(labels: seq<real>, idx: seq<nat>, j: nat)
    requires Distinct(idx) && (forall i :: 0 <= i < |idx| ==> idx[i] < |labels|)
    requires j < |idx| && idx[j] == |labels| - 1
    ensures var n, rest := |labels| - 1, idx[..j] + idx[j + 1..];
      && Distinct(rest) && (forall i :: 0 <= i < |rest| ==> rest[i] < n)
      && Sum(Picked(labels, idx)) == labels[n] + Sum(Picked(labels[..n], rest))
  {
    var n, rest := |labels| - 1, idx[..j] + idx[j + 1..];
    forall i | 0 <= i < |rest| ensures rest[i] < n {
      assert rest[i] == idx[if i < j then i else i + 1];
    }
    assert Picked(labels[..n], rest) == Picked(labels, idx)[..j] + Picked(labels, idx)[j + 1..];
    SumOfWithout(Picked(labels, idx), j, Itself);
  }

  lemma AllObserved(server: Server, inForce: int, pods: seq<PodView>)
    ensures |Observed(server, inForce, pods)| <= |pods|
    ensures |Observed(server, inForce, pods)| == |pods| ==>
              forall i :: 0 <= i < |pods| ==>
                && pods[i].reply.Latest?
                && ArrivalOf(Observed(server, inForce, pods)[i]) == PerMinute(pods[i].reply.env.input.rps)
  {
    KeepAll(pods, Gate(server, inForce));
    forall i | |Observed(server, inForce, pods)| == |pods| && 0 <= i < |pods|
      ensures pods[i].reply.Latest?
      ensures ArrivalOf(Observed(server, inForce, pods)[i]) == PerMinute(pods[i].reply.env.input.rps)
    {
      assert Gate(server, inForce)(pods[i]) == Some(Observed(server, inForce, pods)[i]);
    }
  }

  lemma {:induction false} OfferedIsPicked(rs: seq<ServerSpec>, picked: seq<real>)
    requires |rs| == |picked| && forall i :: 0 <= i < |rs| ==> ArrivalOf(rs[i]) == picked[i]
    ensures SumOf(rs, ArrivalOf) == Sum(picked)
  {
    if rs != [] {
      OfferedIsPicked(rs[..|rs| - 1], picked[..|rs| - 1]);
    }
  }

  /** If every pod the load was split over reports, the offered total is the split total, up to rounding. */
  lemma FullReportSums(server: Server, inForce: int, pods: seq<PodView>, idx: seq<nat>, shares: seq<real>,
                       fmt: real -> real)
    requires IsFormat(fmt) && ReportOwnLabels(pods, idx, Labels(shares, fmt))
    requires |Observed(server, inForce, pods)| == |shares|
    ensures Abs(SumOf(Observed(server, inForce, pods), ArrivalOf) - Sum(shares)) <= Times(|shares| as real, 0.00005)
  {
    var labels, rs := Labels(shares, fmt), Observed(server, inForce, pods);
    PickAll(labels, idx);
    AllObserved(server, inForce, pods);
    OfferedIsPicked(rs, Picked(labels, idx));
    RoundedSum(shares, fmt);
  }

  /** The arrival rate that Sense reports for the Deployment. */
  function Reported(server: Server, inForce: int, numReplicas: int, pods: seq<PodView>, b: Backup): real {
    Summary(server, inForce, numReplicas, Observed(server, inForce, pods), b).alloc.load.arrivalRate
  }

  /** Within one rounding for each of the n pods, and one for the Deployment. */
  ghost predicate Agrees(arrival: real, setpoint: real, n: nat) {
    Abs(arrival - setpoint) <= Times((n + 1) as real, 0.00005)
  }

  lemma RoundedOnceMore(arrival: real, total: real, fmt: real -> real, n: nat)
    requires IsFormat(fmt) && Abs(arrival - total) <= Times(n as real, 0.00005)
    ensures Agrees(arrival, fmt(total), n)
  {
    assert Abs(fmt(total) - total) <= 0.00005;
    OneMore(n, 0.00005);
  }

  // ------------------------------------------------------ which pods report

  /** n distinct pods out of k. */
  ghost predicate IsPick(idx: seq<nat>, n: int, k: nat) {
    |idx| == n && Distinct(idx) && forall i :: 0 <= i < |idx| ==> idx[i] < k
  }

  lemma {:induction false} ReporterPicks(server: Server, inForce: int, pods: seq<PodView>, idx: seq<nat>, labels: seq<real>)
    returns (sub: seq<nat>)
    requires ReportOwnLabels(pods, idx, labels)
    ensures IsPick(sub, |Observed(server, inForce, pods)|, |labels|) && forall x :: x in sub ==> x in idx
    ensures SumOf(Observed(server, inForce, pods), ArrivalOf) == Sum(Picked(labels, sub))
  {
    if pods == [] {
      sub := [];
    } else {
      var n := |pods| - 1;
      sub := ReporterPicks(server, inForce, pods[..n], idx[..n], labels);
      var spec := Gate(server, inForce)(pods[n]);
      if spec.Some? {
        SumOfAppend(Observed(server, inForce, pods[..n]), spec.value, ArrivalOf);
        assert idx[n] !in idx[..n];
        PickOneMore(labels, sub, idx[n]);
        sub := sub + [idx[n]];
      }
    }
  }

  lemma PickOneMore(labels: seq<real>, sub: seq<nat>, i: nat)
    requires IsPick(sub, |sub|, |labels|) && i < |labels| && i !in sub
    ensures IsPick(sub + [i], |sub| + 1, |labels|)
    ensures Sum(Picked(labels, sub + [i])) == Sum(Picked(labels, sub)) + labels[i]
  {
    assert Picked(labels, sub + [i]) == Picked(labels, sub) + [labels[i]];
    SumOfAppend(Picked(labels, sub), labels[i], Itself);
  }

  /** Any pods can be the ones that report. */
  lemma PickReports(server: Server, inForce: int, labels: seq<real>, idx: seq<nat>) returns (pods: seq<PodView>)
    requires inForce > 0 && IsPick(idx, |idx|, |labels|)
    ensures ReportOwnLabels(pods, idx, labels) && |Observed(server, inForce, pods)| == |idx|
    ensures SumOf(Observed(server, inForce, pods), ArrivalOf) == Sum(Picked(labels, idx))
  {
    pods := seq(|idx|, j requires 0 <= j < |idx| && idx[j] < |labels| => Reporter(inForce, j, labels[idx[j]]));
    forall j | 0 <= j < |idx|
      ensures PerMinute(pods[j].reply.env.input.rps) == labels[idx[j]] && Gate(server, inForce)(pods[j]).Some?
    {
      ReporterRate(inForce, j, labels[idx[j]], server);
    }
    AllKept(pods, Gate(server, inForce));
    AllObserved(server, inForce, pods);
    OfferedIsPicked(Observed(server, inForce, pods), Picked(labels, idx));
  }

  ghost predicate AlwaysAgrees(server: Server, inForce: int, numReplicas: int, labels: seq<real>, setpoint: real,
                               b: Backup) {
    forall pods, idx :: ReportOwnLabels(pods, idx, labels) ==>
      Agrees(Reported(server, inForce, numReplicas, pods, b), setpoint, |labels|)
  }

  ghost predicate PicksAgree(labels: seq<real>, n: int, setpoint: real) {
    forall idx :: IsPick(idx, n, |labels|) ==> Agrees(Sum(Picked(labels, idx)), setpoint, |labels|)
  }

  /** Whatever rates the pods carry: every gating agrees with a positive setpoint label exactly if
      there are no replicas, or more than pods, or any numReplicas of the labels add up to it. */
  lemma AgreesIffPicksDo(server: Server, inForce: int, numReplicas: int, labels: seq<real>, setpoint: real, b: Backup)
    requires inForce > 0 && b.setpoint == Some(setpoint) && setpoint > 0.0
    ensures AlwaysAgrees(server, inForce, numReplicas, labels, setpoint, b) <==>
            numReplicas <= 0 || numReplicas > |labels| || PicksAgree(labels, numReplicas, setpoint)
  {
    if numReplicas <= 0 || numReplicas > |labels| || PicksAgree(labels, numReplicas, setpoint) {
      forall pods, idx | ReportOwnLabels(pods, idx, labels)
        ensures Agrees(Reported(server, inForce, numReplicas, pods, b), setpoint, |labels|)
      {
        GatingAgrees(server, inForce, numReplicas, pods, idx, labels, setpoint, b);
      }
    }
    if AlwaysAgrees(server, inForce, numReplicas, labels, setpoint, b) && 0 < numReplicas <= |labels| {
      forall idx | IsPick(idx, numReplicas, |labels|) ensures Agrees(Sum(Picked(labels, idx)), setpoint, |labels|) {
        var pods := PickReports(server, inForce, labels, idx);
        assert Reported(server, inForce, numReplicas, pods, b) == Sum(Picked(labels, idx));
      }
    }
  }

  lemma GatingAgrees(server: Server, inForce: int, numReplicas: int, pods: seq<PodView>, idx: seq<nat>,
                     labels: seq<real>, setpoint: real, b: Backup)
    requires ReportOwnLabels(pods, idx, labels) && b.setpoint == Some(setpoint) && setpoint > 0.0
    requires numReplicas <= 0 || numReplicas > |labels| || PicksAgree(labels, numReplicas, setpoint)
    ensures Agrees(Reported(server, inForce, numReplicas, pods, b), setpoint, |labels|)
  {
    var sub := ReporterPicks(server, inForce, pods, idx, labels);
    PickAll(labels, sub);
    TimesNonNegative((|labels| + 1) as real, 0.00005);
  }

  ghost predicate NonNegative(s: seq<real>) {
    forall x :: x in s ==> x >= 0.0
  }

  // -------------------------------------------------------- the emulator's split

  /** One split of a Deployment's load: `written` is what UpdatePodLabels wrote on each pod, None
      where the update took no effect. `was` are the rates the pods carried before, first those of
      the pods of the split, then those of pods that are in use now but were not part of it. */
  datatype Split = Split(total: real, inTokens: int, outTokens: int, draws: PodDraws, n: nat, skew: real, fmt: real -> real,
                         reply: nat -> Reply, written: seq<Option<PodLoad>>, was: seq<real>) {

    ghost predicate Valid() {
      && IsFormat(fmt) && fmt(total) > 0.0
      && 0.0 <= skew <= 1.0 && draws.Valid() && n > 0 && |was| >= n
      && AreLabelled(written, total, inTokens, outTokens, draws, n, skew, fmt, reply)
    }

    /** Every pod in use was part of the split, and every pod update took effect. */
    ghost predicate Complete() {
      |was| == |written| && forall j :: 0 <= j < |written| ==> written[j].Some?
    }

    /** The rates on the pods' labels after the update. */
    function Rates(): seq<real> {
      seq(|was|, j requires 0 <= j < |was| =>
        if j < |written| && written[j].Some? then written[j].value.rpm else was[j])
    }

    ghost function Weighted(): seq<real> {
      Weights(draws.Weights(n), skew)
    }

    /** What a pod should carry: its share, rounded, or nothing. */
    ghost function Due(): seq<real>
      requires |written| == n <= |was| && Sum(Weighted()) > 0.0
    {
      Labels(Shares(total, Weighted()), fmt) + seq(|was| - n, _ => 0.0)
    }

    /** What the pods that the split did not reach carry too much. */
    ghost function Deviations(): seq<real>
      requires |written| == n <= |was| && Sum(Weighted()) > 0.0
    {
      seq(|was|, j requires 0 <= j < |was| =>
        if j < |written| && written[j].Some? then 0.0 else was[j] - Due()[j])
    }

    lemma RatesDeviate()
      requires Valid()
      ensures Sum(Weighted()) > 0.0
      ensures Sum(Rates()) == Sum(Labels(Shares(total, Weighted()), fmt)) + Sum(Deviations())
      ensures Complete() ==> Rates() == Labels(Shares(total, Weighted()), fmt)
    {
      var labels := Labels(Shares(total, Weighted()), fmt);
      forall j | 0 <= j < |was| ensures Rates()[j] == Due()[j] + Deviations()[j] {
        if j < n {
          assert IsLabelled(written[j], labels[j], inTokens, outTokens, draws.inTok(j), draws.outTok(j), skew, reply(j));
        }
      }
      SumOfPairs(Rates(), Due(), Deviations());
      SumWithZeros(labels, |was| - n);
      if Complete() {
        assert forall j :: 0 <= j < |was| ==> Rates()[j] == labels[j];
      }
    }

    lemma WeightsNonNegative()
      requires Valid()
      ensures NonNegative(Weighted())
    {
      draws.WeightsAreDraws(n);
      WeightsInRange(draws.Weights(n), skew);
      BaseWeight(skew, n as real);
    }
  }

  lemma {:induction false} SumOfPairs(s: seq<real>, t: seq<real>, u: seq<real>)
    requires |s| == |t| == |u| && forall j :: 0 <= j < |s| ==> s[j] == t[j] + u[j]
    ensures Sum(s) == Sum(t) + Sum(u)
  {
    if s != [] {
      var n := |s| - 1;
      SumOfPairs(s[..n], t[..n], u[..n]);
    }
  }

  lemma {:induction false} SumWithZeros(s: seq<real>, n: nat)
    ensures Sum(s + seq(n, _ => 0.0)) == Sum(s)
  {
    if n == 0 {
      assert s + seq(n, _ => 0.0) == s;
    } else {
      SumWithZeros(s, n - 1);
      assert s + seq(n, _ => 0.0) == (s + seq(n - 1, _ => 0.0)) + [0.0];
      SumOfAppend(s + seq(n - 1, _ => 0.0), 0.0, Itself);
    }
  }

  /** All shares, rounded, add up to the setpoint label within one rounding each and one more. */
  lemma LabelsAddUp(total: real, weights: seq<real>, fmt: real -> real)
    requires IsFormat(fmt) && Sum(weights) > 0.0
    ensures Agrees(Sum(Labels(Shares(total, weights), fmt)), fmt(total), |weights|)
  {
    RoundedSum(Shares(total, weights), fmt);
    SplitConserves(total, weights);
    RoundedOnceMore(Sum(Labels(Shares(total, weights), fmt)), total, fmt, |weights|);
  }

  /** If the split reached every pod in use, then whichever pods are gated, the arrival rate reported
      for a Deployment agrees with its positive rate label, unless there are fewer replicas, but
      some, than pods of the split. */
  lemma ArrivalAgreement(server: Server, inForce: int, numReplicas: int, pods: seq<PodView>, idx: seq<nat>,
                         split: Split, b: Backup)
    requires split.Valid() && split.Complete() && b.setpoint == Some(split.fmt(split.total))
    requires numReplicas <= 0 || numReplicas >= split.n
    requires ReportOwnLabels(pods, idx, split.Rates())
    ensures Agrees(Reported(server, inForce, numReplicas, pods, b), split.fmt(split.total), split.n)
  {
    split.RatesDeviate();
    FullPicksAgree(split.Rates(), numReplicas, split.fmt(split.total), split.total, split.Weighted(), split.fmt);
    GatingAgrees(server, inForce, numReplicas, pods, idx, split.Rates(), split.fmt(split.total), b);
  }

  lemma FullPicksAgree(labels: seq<real>, n: int, setpoint: real, total: real, weights: seq<real>, fmt: real -> real)
    requires IsFormat(fmt) && Sum(weights) > 0.0 && labels == Labels(Shares(total, weights), fmt) && setpoint == fmt(total)
    requires n <= 0 || n >= |labels|
    ensures n <= 0 || n > |labels| || PicksAgree(labels, n, setpoint)
  {
    LabelsAddUp(total, weights, fmt);
    forall idx | IsPick(idx, |labels|, |labels|) ensures Sum(Picked(labels, idx)) == Sum(labels) {
      PickAll(labels, idx);
    }
  }

  /** Under the same premise this is the exact condition, once the load is large against the
      roundings: with an allocation in force, every gating agrees if and only if the replica count
      is not positive or reaches the number of pods of the split. */
  lemma ArrivalAgreesIff(server: Server, inForce: int, numReplicas: int, split: Split, b: Backup)
    requires split.Valid() && split.Complete() && b.setpoint == Some(split.fmt(split.total)) && inForce > 0
    requires split.total > Times(split.n as real, Times((2 * split.n + 1) as real, 0.00005))
    ensures AlwaysAgrees(server, inForce, numReplicas, split.Rates(), split.fmt(split.total), b) <==>
            numReplicas <= 0 || numReplicas >= split.n
  {
    split.RatesDeviate();
    var k := split.n;
    AgreesIffPicksDo(server, inForce, numReplicas, split.Rates(), split.fmt(split.total), b);
    if numReplicas <= 0 || numReplicas >= k {
      FullPicksAgree(split.Rates(), numReplicas, split.fmt(split.total), split.total, split.Weighted(), split.fmt);
    } else {
      split.WeightsNonNegative();
      FewPicksFall(split.total, split.Weighted(), split.fmt, numReplicas);
    }
  }

  lemma FewPicksFall(total: real, weights: seq<real>, fmt: real -> real, n: nat)
    requires IsFormat(fmt) && NonNegative(weights) && Sum(weights) > 0.0 && 0 < n < |weights|
    requires total > Times(|weights| as real, Times((2 * |weights| + 1) as real, 0.00005))
    ensures !PicksAgree(Labels(Shares(total, weights), fmt), n, fmt(total))
  {
    var k, shares := |weights|, Shares(total, weights);
    var c := Times((2 * k + 1) as real, 0.00005);
    TimesNonNegative((2 * k + 1) as real, 0.00005);
    TimesNonNegative(k as real, c);
    var i := LargeShare(total, weights, c);
    SharesNonNegative(total, weights);
    PickedLabels(shares, fmt, Others(n, i));
    OthersFallShort(shares, Others(n, i), i);
    TooLittle(Sum(Picked(Labels(shares, fmt), Others(n, i))), fmt(total), total, shares[i], n, k, fmt);
    assert IsPick(Others(n, i), n, k);
  }

  lemma OneMorePods(split: Split)
    requires split.Valid()
    ensures Times((split.n + 1) as real, 0.00005) <= Times((|split.was| + 1) as real, 0.00005)
  {
  }

  /** Pods that the split did not reach, refused or new, put the full report off by exactly what they
      carry too much; every other report, with as many replicas as pods, is the setpoint label itself. */
  lemma ArrivalDeviation(server: Server, inForce: int, pods: seq<PodView>, idx: seq<nat>, split: Split, b: Backup)
    requires split.Valid() && b.setpoint == Some(split.fmt(split.total)) && ReportOwnLabels(pods, idx, split.Rates())
    ensures Sum(split.Weighted()) > 0.0
    ensures var k, reported := |split.was|, Reported(server, inForce, |split.was|, pods, b);
      if |Observed(server, inForce, pods)| == k
      then reported == Sum(split.Rates()) && Agrees(reported, split.fmt(split.total) + Sum(split.Deviations()), k)
      else reported == split.fmt(split.total)
  {
    split.RatesDeviate();
    LabelsAddUp(split.total, split.Weighted(), split.fmt);
    OneMorePods(split);
    var sub := ReporterPicks(server, inForce, pods, idx, split.Rates());
    PickAll(split.Rates(), sub);
  }

  /** With as many replicas as pods, whichever of them the split reached, every gating agrees exactly
      if the rates now on the pods add up to the setpoint label. */
  lemma FullReportAgreesIff(server: Server, inForce: int, split: Split, b: Backup)
    requires split.Valid() && b.setpoint == Some(split.fmt(split.total)) && inForce > 0
    ensures AlwaysAgrees(server, inForce, |split.was|, split.Rates(), split.fmt(split.total), b) <==>
            Agrees(Sum(split.Rates()), split.fmt(split.total), |split.was|)
  {
    var rates, k := split.Rates(), |split.was|;
    AgreesIffPicksDo(server, inForce, k, rates, split.fmt(split.total), b);
    forall idx | IsPick(idx, k, k) ensures Sum(Picked(rates, idx)) == Sum(rates) {
      PickAll(rates, idx);
    }
    var all := seq(k, j requires 0 <= j < k => j as nat);
    assert IsPick(all, k, k);
  }

  lemma TooLittle(arrival: real, setpoint: real, total: real, share: real, n: nat, k: nat, fmt: real -> real)
    requires IsFormat(fmt) && setpoint == fmt(total) && n < k && share > Times((2 * k + 1) as real, 0.00005)
    requires arrival <= total - share + Times(n as real, 0.00005)
    ensures !Agrees(arrival, setpoint, k)
  {
    assert Abs(fmt(total) - total) <= 0.00005;
    assert Times((2 * k + 1) as real, 0.00005) >= Times((n + k + 2) as real, 0.00005);
    assert Times((n + k + 2) as real, 0.00005) == Times(n as real, 0.00005) + Times((k + 1) as real, 0.00005) + 0.00005;
  }

  /** Shares of a non-negative load are not negative, and add up to it. */
  lemma SharesNonNegative(total: real, weights: seq<real>)
    requires total >= 0.0 && NonNegative(weights) && Sum(weights) > 0.0
    ensures NonNegative(Shares(total, weights)) && Sum(Shares(total, weights)) == total
  {
    SplitConserves(total, weights);
    forall x | x in Shares(total, weights) ensures x >= 0.0 {
      var j :| 0 <= j < |weights| && Shares(total, weights)[j] == x;
      assert weights[j] in weights;
      ShareNonNegative(total, weights[j], Sum(weights));
    }
  }

  lemma ShareNonNegative(total: real, weight: real, sum: real)
    requires total >= 0.0 && weight >= 0.0 && sum > 0.0
    ensures Share(total, weight, sum) >= 0.0
  {
    TimesNonNegative(total, weight);
  }

  /** Some share is more than c, if the total is more than c for each pod. */
  lemma LargeShare(total: real, weights: seq<real>, c: real) returns (i: nat)
    requires total >= 0.0 && NonNegative(weights) && Sum(weights) > 0.0 && total > Times(|weights| as real, c)
    ensures i < |weights| && Shares(total, weights)[i] > c
  {
    var shares := Shares(total, weights);
    SharesNonNegative(total, weights);
    if forall x :: x in shares ==> x <= c {
      SumOfBounds(shares, Itself, 0.0, c);
    }
    var x :| x in shares && x > c;
    i :| 0 <= i < |shares| && shares[i] == x;
  }

  lemma {:induction false} PickSome(labels: seq<real>, idx: seq<nat>)
    requires NonNegative(labels) && Distinct(idx) && forall i :: 0 <= i < |idx| ==> idx[i] < |labels|
    ensures Sum(Picked(labels, idx)) <= Sum(labels)
  {
    if idx == [] {
      SumOfNonNegative(labels, Itself);
    } else {
      var first, n := idx[0], |labels| - 1;
      assert first <= n && labels[n] in labels && forall x :: x in labels[..n] ==> x in labels;
      if j :| 0 <= j < |idx| && idx[j] == n {
        PickLast(labels, idx, j);
        PickSome(labels[..n], idx[..j] + idx[j + 1..]);
      } else {
        PickSome(labels[..n], idx);
        assert Picked(labels[..n], idx) == Picked(labels, idx);
      }
    }
  }

  /** The first n positions other than i. */
  function Others(n: nat, i: nat): (r: seq<nat>)
    ensures Distinct(r) && |r| == n && i !in r
    ensures forall j :: 0 <= j < n ==> r[j] <= n
  {
    seq(n, j requires 0 <= j < n => if j < i then j else j + 1)
  }

  /** A pod with its own name that reports this rate under the allocation in force. */
  function Reporter(inForce: int, j: nat, rate: real): PodView {
    var input := SimInput(inForce, rate / 60.0, 0.0, 0.0);
    PodView(seq(j, _ => 'p'), Latest(Envelope(input, SimResult(0.0, 0.0, 0.0, 0.0, 0.0))))
  }

  lemma ReporterRate(inForce: int, j: nat, rate: real, server: Server)
    requires inForce > 0
    ensures var pod := Reporter(inForce, j, rate);
      PerMinute(pod.reply.env.input.rps) == rate && Gate(server, inForce)(pod).Some?
  {
  }

  lemma {:induction false} AllKept<A, B>(s: seq<A>, f: A -> Option<B>)
    requires forall i :: 0 <= i < |s| ==> f(s[i]).Some?
    ensures |Keep(s, f)| == |s|
  {
    if s != [] {
      AllKept(s[..|s| - 1], f);
    }
  }

  /** With some, but fewer, replicas than pods of the split, as after a scale-down, as many pods can
      report as there are replicas, and the share of any other pod goes missing. */
  lemma StaleSplitUndercounts(server: Server, inForce: int, numReplicas: nat, total: real, weights: seq<real>,
                              fmt: real -> real, b: Backup, i: nat)
    returns (pods: seq<PodView>, idx: seq<nat>)
    requires IsFormat(fmt) && inForce > 0 && total >= 0.0 && NonNegative(weights) && Sum(weights) > 0.0
    requires 0 < numReplicas < |weights| && i < |weights|
    ensures ReportOwnLabels(pods, idx, Labels(Shares(total, weights), fmt))
    ensures |Observed(server, inForce, pods)| == numReplicas
    ensures Reported(server, inForce, numReplicas, pods, b)
            <= total - Shares(total, weights)[i] + Times(numReplicas as real, 0.00005)
  {
    var shares := Shares(total, weights);
    idx := Others(numReplicas, i);
    pods := PickReports(server, inForce, Labels(shares, fmt), idx);
    PickedLabels(shares, fmt, idx);
    SharesNonNegative(total, weights);
    OthersFallShort(shares, idx, i);
  }

  lemma PickedLabels(shares: seq<real>, fmt: real -> real, idx: seq<nat>)
    requires IsFormat(fmt) && forall j :: 0 <= j < |idx| ==> idx[j] < |shares|
    ensures Sum(Picked(Labels(shares, fmt), idx)) <= Sum(Picked(shares, idx)) + Times(|idx| as real, 0.00005)
  {
    assert Picked(Labels(shares, fmt), idx) == Labels(Picked(shares, idx), fmt);
    RoundedSum(Picked(shares, idx), fmt);
  }

  lemma OthersFallShort(shares: seq<real>, idx: seq<nat>, i: nat)
    requires NonNegative(shares) && Distinct(idx) && i < |shares| && i !in idx
    requires forall j :: 0 <= j < |idx| ==> idx[j] < |shares|
    ensures Sum(Picked(shares, idx)) <= Sum(shares) - shares[i]
  {
    PickSome(shares, idx + [i]);
    assert Picked(shares, idx + [i]) == Picked(shares, idx) + [shares[i]];
    SumOfAppend(Picked(shares, idx), shares[i], Itself);
  }
}
