// Model of pkg/loademulator/loademulator.go: the mean-reverting walk of the
// load labels, and the split of a Deployment's load across its pods. Random
// draws are arbitrary parameters; arithmetic is over the reals.
module LoadEmulation {
  import opened Basics
  import opened Reals
  import opened Aggregates
  import opened Ownership

  const RANGE_FACTOR := 10.0
  const TOKENS_FLOOR := 1

  /** math.Ceil */
  function Ceil(x: real): int {
    -((-x).Floor)
  }

  // ------------------------------------------------------------------ one step

  function Clamp(x: real, lo: real, hi: real): real {
    MinReal(MaxReal(x, lo), hi)
  }

  /** The arrival-rate update; `noise` is the normal draw times alpha times the nominal. */
  function StepRPM(rpm: real, nominal: real, theta: real, noise: real): real {
    Clamp(rpm + Times(theta, nominal - rpm) + noise, nominal / RANGE_FACTOR, nominal * RANGE_FACTOR)
  }

  /** The phase-adjusted nominal rate. */
  function Nominal(baseline: real, multiplier: real): real {
    baseline * multiplier
  }

  function TokenMin(nominal: int): int {
    Max(Ceil(nominal as real / RANGE_FACTOR), TOKENS_FLOOR)
  }

  /** The token-count update. */
  function StepTokens(tok: int, nominal: int, theta: real, noise: real): int {
    Min(Max(Ceil(tok as real + theta * (nominal - tok) as real + noise), TokenMin(nominal)), 10 * nominal)
  }

  /** Clamping brings no rate further from its nominal exactly when the nominal is not negative:
      a negative nominal turns the clamp interval inside out. */
  lemma ClampApproachesIffNonNegative(nominal: real)
    ensures (forall x :: Approaches(x, nominal)) <==> nominal >= 0.0
  {
    if nominal < 0.0 {
      assert !Approaches(nominal, nominal);
    }
  }

  ghost predicate Approaches(x: real, nominal: real) {
    Abs(Clamp(x, nominal / RANGE_FACTOR, nominal * RANGE_FACTOR) - nominal) <= Abs(x - nominal)
  }

  /** One step contracts the distance to the nominal by 1 - theta, up to the noise. */
  lemma StepContracts(rpm: real, nominal: real, theta: real, noise: real)
    requires nominal >= 0.0 && 0.0 <= theta <= 1.0
    ensures Abs(StepRPM(rpm, nominal, theta, noise) - nominal) <= Times(1.0 - theta, Abs(rpm - nominal)) + Abs(noise)
  {
    var x := rpm + Times(theta, nominal - rpm) + noise;
    ClampApproachesIffNonNegative(nominal);
    assert Approaches(x, nominal);
    assert x - nominal == Times(1.0 - theta, rpm - nominal) + noise;
    AbsScale(1.0 - theta, rpm - nominal);
  }

  // ---------------------------------------------- one step, in the numbers alone

  /** Where the rate lands: the distance to a nominal that is not negative shrinks by exactly
      1 - theta, plus the noise, unless that leaves the band from a tenth to ten times the
      nominal, whose nearer end it then is. A negative nominal is multiplied by ten. */
  ghost predicate Walks(rpm: real, nominal: real, theta: real, noise: real, rpm': real) {
    var goal := nominal + ((1.0 - theta) * (rpm - nominal) + noise);
    if nominal < 0.0 then rpm' == 10.0 * nominal
    else if goal < nominal / 10.0 then rpm' == nominal / 10.0
    else if goal > 10.0 * nominal then rpm' == 10.0 * nominal
    else rpm' == goal
  }

  lemma StepWalks(rpm: real, nominal: real, theta: real, noise: real)
    ensures Walks(rpm, nominal, theta, noise, StepRPM(rpm, nominal, theta, noise))
  {
    assert rpm + theta * (nominal - rpm) == nominal + (1.0 - theta) * (rpm - nominal);
  }

  /** The least count allowed: a tenth of the nominal, rounded up, but at least 1. */
  ghost predicate IsFloor(nominal: int, lo: int) {
    lo >= 1 && 10 * lo >= nominal && (lo == 1 || 10 * (lo - 1) < nominal)
  }

  /** The least count that is not below the goal, or the nearer end of the band: from the floor to
      ten times the nominal; for a nominal below 1 that end is ten times the nominal. */
  ghost predicate RoundsUp(goal: real, nominal: int, tok': int) {
    if nominal < 1 then tok' == 10 * nominal
    else exists lo :: IsFloor(nominal, lo) && lo <= tok' <= 10 * nominal &&
                      (tok' > lo ==> (tok' - 1) as real < goal) && (tok' < 10 * nominal ==> goal <= tok' as real)
  }

  /** The noisy token step: the same distance law, in whole tokens. */
  ghost predicate WalksTokens(tok: int, nominal: int, theta: real, noise: real, tok': int) {
    RoundsUp(nominal as real + ((1.0 - theta) * (tok - nominal) as real + noise), nominal, tok')
  }

  lemma TokenFloor(nominal: int)
    requires nominal >= 1
    ensures IsFloor(nominal, TokenMin(nominal)) && TokenMin(nominal) <= 10 * nominal
  {
    var q := nominal as real / 10.0;
    CeilMeaning(q);
  }

  lemma CeilMeaning(x: real)
    ensures (Ceil(x) - 1) as real < x <= Ceil(x) as real
  {
  }

  lemma StepWalksTokens(tok: int, nominal: int, theta: real, noise: real)
    ensures WalksTokens(tok, nominal, theta, noise, StepTokens(tok, nominal, theta, noise))
  {
    var goal := tok as real + theta * (nominal - tok) as real + noise;
    assert goal == nominal as real + ((1.0 - theta) * (tok - nominal) as real + noise);
    CeilMeaning(goal);
    if nominal >= 1 {
      TokenFloor(nominal);
    }
  }

  /** The rate walks toward the baseline times the multiplier. */
  lemma NominalWalks(rpm: real, baseline: real, multiplier: real, theta: real, noise: real)
    ensures Walks(rpm, baseline * multiplier, theta, noise, StepRPM(rpm, Nominal(baseline, multiplier), theta, noise))
  {
    StepWalks(rpm, baseline * multiplier, theta, noise);
  }

  // -------------------------------------------------------------- the emulator

  /** The load labels of a Deployment. */
  datatype Load = Load(rpm: real, inTok: int, outTok: int, nomRPM: real, nomIn: int, nomOut: int)

  /** The three noise terms of one perturbation. */
  datatype Noise = Noise(rpm: real, inTok: real, outTok: real)

  /** "%.4f" and back: some rounding to the nearest multiple of 0.0001. */
  ghost predicate IsFormat(fmt: real -> real) {
    forall x :: Abs(fmt(x) - x) <= 0.00005
  }

  /** Rounding half up is such a format. */
  lemma RoundHalfUpIsFormat()
    ensures IsFormat((x: real) => (x * 10000.0 + 0.5).Floor as real / 10000.0)
  {
  }

  /** The labels the emulator writes on a pod. */
  datatype PodLoad = PodLoad(rpm: real, inTok: int, outTok: int)

  /** The uniform draws for the j-th running pod: for its weight and its two token counts. */
  datatype PodDraws = PodDraws(weight: nat -> real, inTok: nat -> real, outTok: nat -> real) {
    ghost predicate Valid() {
      && (forall j :: 0.0 <= weight(j) < 1.0)
      && (forall j :: 0.0 <= inTok(j) < 1.0)
      && (forall j :: 0.0 <= outTok(j) < 1.0)
    }

    function Weights(n: nat): seq<real> {
      seq(n, j requires 0 <= j < n => weight(j))
    }

    lemma WeightsAreDraws(n: nat)
      requires Valid()
      ensures AreDraws(Weights(n))
    {
      forall u | u in Weights(n) ensures 0.0 <= u < 1.0 {
        var j :| 0 <= j < n && Weights(n)[j] == u;
        assert u == weight(j);
      }
    }
  }

  datatype PodUpdate = ListFailed | NotANumber | Labelled(running: seq<nat>, labels: seq<Option<PodLoad>>)

  ghost function Runnable(depUID: string, rss: seq<ReplicaSet>, pods: seq<ListedPod>): seq<nat> {
    if pods == [] then []
    else
      var n := |pods| - 1;
      Runnable(depUID, rss, pods[..n]) + if Runs(depUID, rss, pods[n]) then [n] else []
  }

  /** Those are the positions of the pods that run, in increasing order. */
  lemma {:induction false} RunnableMeaning(depUID: string, rss: seq<ReplicaSet>, pods: seq<ListedPod>)
    ensures var r := Runnable(depUID, rss, pods);
      && (forall i :: i in r <==> 0 <= i < |pods| && Runs(depUID, rss, pods[i]))
      && (forall j, k :: 0 <= j < k < |r| ==> r[j] < r[k])
  {
    if pods != [] {
      var n := |pods| - 1;
      RunnableMeaning(depUID, rss, pods[..n]);
      AppendedRun(Runnable(depUID, rss, pods[..n]), n);
    }
  }

  lemma AppendedRun(r: seq<nat>, n: nat)
    requires (forall i :: i in r ==> i < n) && forall j, k :: 0 <= j < k < |r| ==> r[j] < r[k]
    ensures forall j, k :: 0 <= j < k < |r + [n]| ==> (r + [n])[j] < (r + [n])[k]
    ensures forall i :: i in r + [n] <==> i in r || i == n
  {
    assert forall j :: 0 <= j < |r| ==> r[j] in r;
  }

  /** A token count of one pod: the nominal itself without skew, else within the walk's band and
      within skew of the nominal, up to rounding. */
  ghost predicate IsSpread(skew: real, nominal: int, tok: int) {
    && (skew == 0.0 || nominal <= TOKENS_FLOOR ==> tok == nominal)
    && (nominal > TOKENS_FLOOR ==> TokenMin(nominal) <= tok <= 10 * nominal)
    && (nominal >= 0 ==> Abs((tok - nominal) as real) <= Times(skew, nominal as real) + 0.5)
  }

  /** The token count that a draw gives a pod: the nominal times 1 + skew (2 draw - 1), to the nearest
      whole token, or the nearer end of the band; the nominal itself without skew. */
  ghost predicate Jitters(skew: real, nominal: int, draw: real, tok: int) {
    var goal := nominal as real * (1.0 + skew * (2.0 * draw - 1.0));
    if skew == 0.0 || nominal <= 1 then tok == nominal
    else exists lo :: IsFloor(nominal, lo) && lo <= tok <= 10 * nominal &&
                      (tok > lo ==> tok as real - 0.5 <= goal) && (tok < 10 * nominal ==> goal < tok as real + 0.5)
  }

  ghost predicate IsToken(skew: real, nominal: int, draw: real, tok: int) {
    Jitters(skew, nominal, draw, tok) && IsSpread(skew, nominal, tok)
  }

  ghost predicate IsLabelled(l: Option<PodLoad>, rpm: real, inTokens: int, outTokens: int, inDraw: real, outDraw: real,
                             skew: real, reply: Reply) {
    && (l.Some? <==> reply.TookEffect())
    && (l.Some? ==>
          && l.value.rpm == rpm
          && IsToken(skew, inTokens, inDraw, l.value.inTok) && IsToken(skew, outTokens, outDraw, l.value.outTok))
  }

  ghost predicate AreLabelled(labels: seq<Option<PodLoad>>, totalRPM: real, inTokens: int, outTokens: int,
                              draws: PodDraws, n: nat, skew: real, fmt: real -> real, reply: nat -> Reply) {
    var weights := Weights(draws.Weights(n), skew);
    && |labels| == n
    && (n > 0 ==>
          && Sum(weights) > 0.0
          && forall j :: 0 <= j < n ==> IsLabelled(labels[j], fmt(Shares(totalRPM, weights)[j]), inTokens, outTokens,
                                                   draws.inTok(j), draws.outTok(j), skew, reply(j)))
  }

  ghost predicate IsPodUpdate(r: PodUpdate, depUID: string, rss: Option<seq<ReplicaSet>>, pods: Option<seq<ListedPod>>,
                              totalRPM: real, inTokens: int, outTokens: int, draws: PodDraws, skew: real,
                              fmt: real -> real, reply: nat -> Reply) {
    if rss.None? || pods.None? then r == ListFailed
    else
      var running := Runnable(depUID, rss.value, pods.value);
      if running != [] && AllZero(draws.Weights(|running|), skew) then r == NotANumber
      else
        && r.Labelled? && r.running == running
        && AreLabelled(r.labels, totalRPM, inTokens, outTokens, draws, |running|, skew, fmt, reply)
  }

  class LoadEmulator {
    const theta: real
    const skew: real
    var originalNominalRPM: map<string, real>

    ghost predicate Valid() {
      0.0 <= theta <= 1.0 && 0.0 <= skew <= 1.0
    }

    constructor (theta: real, skew: real)
      requires 0.0 <= theta <= 1.0 && 0.0 <= skew <= 1.0
      ensures Valid() && this.theta == theta && this.skew == skew && originalNominalRPM == map[]
    {
      this.theta, this.skew, this.originalNominalRPM := theta, skew, map[];
    }

    method PerturbLoad(rpm: real, inTok: int, outTok: int, nomRPM: real, nomIn: int, nomOut: int, noise: Noise)
      returns (rpm': real, inTok': int, outTok': int)
      ensures rpm' == StepRPM(rpm, nomRPM, theta, noise.rpm)
      ensures inTok' == StepTokens(inTok, nomIn, theta, noise.inTok)
      ensures outTok' == StepTokens(outTok, nomOut, theta, noise.outTok)
    {
      var newArv := rpm + theta * (nomRPM - rpm) + noise.rpm;
      rpm' := MinReal(MaxReal(newArv, nomRPM / RANGE_FACTOR), nomRPM * RANGE_FACTOR);

      var tokInMin := Max(Ceil(nomIn as real / RANGE_FACTOR), TOKENS_FLOOR);
      var newInTok := inTok as real + theta * (nomIn - inTok) as real + noise.inTok;
      inTok' := Min(Max(Ceil(newInTok), tokInMin), 10 * nomIn);

      var tokOutMin := Max(Ceil(nomOut as real / RANGE_FACTOR), TOKENS_FLOOR);
      var newOutTok := outTok as real + theta * (nomOut - outTok) as real + noise.outTok;
      outTok' := Min(Max(Ceil(newOutTok), tokOutMin), 10 * nomOut);
    }

    /** One Deployment in one cycle of Run: the baseline is captured when the Deployment is
        first seen and never again, the nominal labels are never written, and the rate walks
        toward baseline times multiplier. A refused update leaves the labels as they were.
        `total` is the unrounded rate handed on to the pods. */
    method UpdateDeployment(key: string, d: Load, multiplier: real, noise: Noise, fmt: real -> real, reply: Reply)
      returns (d': Load, total: real)
      modifies this
      ensures originalNominalRPM == if key in old(originalNominalRPM) then old(originalNominalRPM)
                                    else old(originalNominalRPM)[key := d.nomRPM]
      ensures total == StepRPM(d.rpm, Nominal(originalNominalRPM[key], multiplier), theta, noise.rpm)
      ensures d' == if reply.Refused? then d
                    else d.(rpm := fmt(total), inTok := StepTokens(d.inTok, d.nomIn, theta, noise.inTok),
                            outTok := StepTokens(d.outTok, d.nomOut, theta, noise.outTok))
    {
      if key !in originalNominalRPM {
        originalNominalRPM := originalNominalRPM[key := d.nomRPM];
      }
      var adjustedNomRPM := Nominal(originalNominalRPM[key], multiplier);
      var inTok, outTok;
      total, inTok, outTok := PerturbLoad(d.rpm, d.inTok, d.outTok, adjustedNomRPM, d.nomIn, d.nomOut, noise);
      if reply.Refused? {
        return d, total;
      }
      d' := d.(rpm := fmt(total), inTok := inTok, outTok := outTok);
    }

    /** splitLoad. With a zero weight sum Go divides 0 by 0, so every share is NaN. */
    method SplitLoad(totalRPM: real, draws: seq<real>) returns (rpms: array<real>, nan: bool)
      requires Valid() && AreDraws(draws)
      ensures fresh(rpms) && rpms.Length == |draws|
      ensures nan <==> draws != [] && AllZero(draws, skew)
      ensures !nan && draws != [] ==> Sum(Weights(draws, skew)) > 0.0 && rpms[..] == Shares(totalRPM, Weights(draws, skew))
    {
      var weights, sum := DrawWeights(draws);
      WeightSum(draws, skew);
      nan := |draws| > 0 && sum == 0.0;
      if nan || |draws| == 0 {
        rpms := new real[|draws|];
      } else {
        rpms := ShareOut(totalRPM, weights, sum);
      }
    }

    method ShareOut(totalRPM: real, weights: array<real>, sum: real) returns (rpms: array<real>)
      requires sum > 0.0 && sum == Sum(weights[..])
      ensures fresh(rpms) && rpms[..] == Shares(totalRPM, weights[..])
    {
      rpms := new real[weights.Length];
      for i := 0 to weights.Length
        invariant forall k :: 0 <= k < i ==> rpms[k] == Share(totalRPM, weights[k], sum)
      {
        rpms[i] := Share(totalRPM, weights[i], sum);
      }
    }

    method DrawWeights(draws: seq<real>) returns (weights: array<real>, sum: real)
      ensures fresh(weights) && weights[..] == Weights(draws, skew) && sum == Sum(weights[..])
    {
      var n := |draws|;
      weights := new real[n];
      sum := 0.0;
      for i := 0 to n
        invariant forall k :: 0 <= k < i ==> weights[k] == Weight(draws[k], n, skew)
        invariant sum == Sum(weights[..i])
      {
        weights[i] := Weight(draws[i], n, skew);
        assert weights[..i + 1][..i] == weights[..i];
        sum := sum + weights[i];
      }
      assert weights[..n] == weights[..];
    }

    /** One pod's labels; None if their update takes no effect. */
    method LabelPod(rpm: real, inTokens: int, outTokens: int, inDraw: real, outDraw: real, reply: Reply)
      returns (l: Option<PodLoad>)
      requires Valid() && 0.0 <= inDraw < 1.0 && 0.0 <= outDraw < 1.0
      ensures IsLabelled(l, rpm, inTokens, outTokens, inDraw, outDraw, skew, reply)
    {
      var inTok := PerturbReplicaToken(inTokens, inDraw);
      var outTok := PerturbReplicaToken(outTokens, outDraw);
      l := if reply.TookEffect() then Some(PodLoad(rpm, inTok, outTok)) else None;
    }

    method LabelEach(rpms: seq<real>, inTokens: int, outTokens: int, draws: PodDraws, fmt: real -> real,
                     reply: nat -> Reply)
      returns (labels: seq<Option<PodLoad>>)
      requires Valid() && draws.Valid()
      ensures |labels| == |rpms|
      ensures forall j :: 0 <= j < |rpms| ==> IsLabelled(labels[j], fmt(rpms[j]), inTokens, outTokens,
                                                         draws.inTok(j), draws.outTok(j), skew, reply(j))
    {
      labels := [];
      for j := 0 to |rpms|
        invariant |labels| == j
        invariant forall k :: 0 <= k < j ==> IsLabelled(labels[k], fmt(rpms[k]), inTokens, outTokens,
                                                        draws.inTok(k), draws.outTok(k), skew, reply(k))
      {
        var l := LabelPod(fmt(rpms[j]), inTokens, outTokens, draws.inTok(j), draws.outTok(j), reply(j));
        labels := labels + [l];
      }
    }

    /** The split and the loop over the running pods: pod j gets its own share, rounded, and tokens
        of its own; an update that took no effect (None) leaves that pod alone and stops no other. */
    method LabelPods(totalRPM: real, inTokens: int, outTokens: int, draws: PodDraws, n: nat, fmt: real -> real,
                     reply: nat -> Reply)
      returns (labels: seq<Option<PodLoad>>, nan: bool)
      requires Valid() && draws.Valid()
      ensures nan <==> n > 0 && AllZero(draws.Weights(n), skew)
      ensures !nan ==> AreLabelled(labels, totalRPM, inTokens, outTokens, draws, n, skew, fmt, reply)
    {
      labels := [];
      if n == 0 {
        return [], false;
      }
      var podRPMs;
      draws.WeightsAreDraws(n);
      podRPMs, nan := SplitLoad(totalRPM, draws.Weights(n));
      if nan {
        return;
      }
      labels := LabelEach(podRPMs[..], inTokens, outTokens, draws, fmt, reply);
    }

    /** The selection of the pods to label, in listing order. */
    method RunningPods(depUID: string, rss: seq<ReplicaSet>, pods: seq<ListedPod>) returns (running: seq<nat>)
      ensures running == Runnable(depUID, rss, pods)
    {
      var uids := OwnedReplicaSets(rss, depUID);
      running := [];
      for i := 0 to |pods|
        invariant running == Runnable(depUID, rss, pods[..i])
      {
        assert pods[..i + 1][..i] == pods[..i];
        var p := pods[i];
        if p.pod.phase != POD_RUNNING {
          continue;
        }
        var owned := IsOwned(p.pod, uids);
        if !owned {
          continue;
        }
        if !p.started {
          continue;
        }
        running := running + [i];
      }
      assert pods[..|pods|] == pods;
    }

    /** updatePodLabels: the running pods share the total; a failed listing labels none. */
    method UpdatePodLabels(depUID: string, rss: Option<seq<ReplicaSet>>, pods: Option<seq<ListedPod>>,
                           totalRPM: real, inTokens: int, outTokens: int, draws: PodDraws, fmt: real -> real,
                           reply: nat -> Reply)
      returns (r: PodUpdate)
      requires Valid() && draws.Valid()
      ensures IsPodUpdate(r, depUID, rss, pods, totalRPM, inTokens, outTokens, draws, skew, fmt, reply)
    {
      if rss.None? || pods.None? {
        return ListFailed;
      }
      var running := RunningPods(depUID, rss.value, pods.value);
      var labels, nan := LabelPods(totalRPM, inTokens, outTokens, draws, |running|, fmt, reply);
      r := if nan then NotANumber else Labelled(running, labels);
    }

    /** One Deployment in one cycle of Run, pods included: they are labelled with the split of the
        rate that the Deployment's own label rounds, and only if that label is known to be written. */
    method EmulateDeployment(key: string, d: Load, multiplier: real, noise: Noise, fmt: real -> real, reply: Reply,
                             depUID: string, rss: Option<seq<ReplicaSet>>, pods: Option<seq<ListedPod>>,
                             draws: PodDraws, podReply: nat -> Reply)
      returns (d': Load, update: Option<PodUpdate>)
      requires Valid() && draws.Valid()
      modifies this
      ensures originalNominalRPM == if key in old(originalNominalRPM) then old(originalNominalRPM)
                                    else old(originalNominalRPM)[key := d.nomRPM]
      ensures update.Some? <==> reply == Served
      ensures var total := StepRPM(d.rpm, Nominal(originalNominalRPM[key], multiplier), theta, noise.rpm);
        && d' == (if reply.Refused? then d
                  else d.(rpm := fmt(total), inTok := StepTokens(d.inTok, d.nomIn, theta, noise.inTok),
                          outTok := StepTokens(d.outTok, d.nomOut, theta, noise.outTok)))
        && (update.Some? ==>
              IsPodUpdate(update.value, depUID, rss, pods, total, d'.inTok, d'.outTok, draws, skew, fmt, podReply))
    {
      var total;
      d', total := UpdateDeployment(key, d, multiplier, noise, fmt, reply);
      if reply != Served {
        return d', None;
      }
      var u := UpdatePodLabels(depUID, rss, pods, total, d'.inTok, d'.outTok, draws, fmt, podReply);
      update := Some(u);
    }

    /** perturbReplicaToken; `draw` is the uniform draw from [0, 1). */
    method PerturbReplicaToken(nominal: int, draw: real) returns (tok: int)
      requires Valid() && 0.0 <= draw < 1.0
      ensures IsToken(skew, nominal, draw, tok)
    {
      if nominal >= 0 {
        TimesNonNegative(skew, nominal as real);
      }
      if skew <= 0.0 || nominal <= TOKENS_FLOOR {
        return nominal;
      }
      var x := Jittered(nominal as real, draw, skew);
      tok := Min(Max(Round(x), TokenMin(nominal)), 10 * nominal);
      TokenJitters(x, nominal, draw, skew);
      JitterBound(nominal as real, draw, skew);
      ClampedToken(x, nominal, Times(skew, nominal as real));
    }
  }

  /** math.Round, for x >= 0 */
  function Round(x: real): int {
    (x + 0.5).Floor
  }

  lemma ClampedToken(x: real, nominal: int, slack: real)
    requires nominal > TOKENS_FLOOR && Abs(x - nominal as real) <= slack
    ensures var tok := Min(Max(Round(x), TokenMin(nominal)), 10 * nominal);
      TokenMin(nominal) <= tok <= 10 * nominal && Abs((tok - nominal) as real) <= slack + 0.5
  {
    TokenMinBelow(nominal);
  }

  lemma TokenJitters(x: real, nominal: int, draw: real, skew: real)
    requires nominal > TOKENS_FLOOR && skew != 0.0 && x == Jittered(nominal as real, draw, skew)
    ensures Jitters(skew, nominal, draw, Min(Max(Round(x), TokenMin(nominal)), 10 * nominal))
  {
    TokenFloor(nominal);
  }

  function Jittered(nominal: real, draw: real, skew: real): real {
    nominal * (1.0 + Times(skew, 2.0 * draw - 1.0))
  }

  lemma JitterBound(nominal: real, draw: real, skew: real)
    requires 0.0 <= draw < 1.0 && 0.0 <= skew <= 1.0 && nominal >= 0.0
    ensures Abs(Jittered(nominal, draw, skew) - nominal) <= Times(skew, nominal)
  {
    var d := 2.0 * draw - 1.0;
    var j := Times(skew, d);
    AbsScale(skew, d);
    TimesMono(skew, Abs(d), 1.0);
    PartOfNominal(nominal, j, skew);
  }

  lemma PartOfNominal(nominal: real, j: real, skew: real)
    requires nominal >= 0.0 && Abs(j) <= skew
    ensures Abs(nominal * (1.0 + j) - nominal) <= Times(skew, nominal)
  {
    AbsScale(nominal, j);
    MulMono(Abs(j), skew, nominal);
    assert nominal * (1.0 + j) - nominal == nominal * j;
  }

  /** What the pods are labelled with, from the draws: nothing if a list fails; not a number if there are
      pods, skew is 1 and every draw is 0; else each pod that runs, in listing order, gets the rounded
      share for its own draw and the two token counts for its own draws, unless its update is refused. */
  lemma PodUpdateExactly(r: PodUpdate, depUID: string, rss: Option<seq<ReplicaSet>>, pods: Option<seq<ListedPod>>,
                         totalRPM: real, inTokens: int, outTokens: int, draws: PodDraws, skew: real,
                         fmt: real -> real, reply: nat -> Reply)
    requires IsPodUpdate(r, depUID, rss, pods, totalRPM, inTokens, outTokens, draws, skew, fmt, reply)
    ensures rss == None || pods == None <==> r == ListFailed
    ensures r.NotANumber? ==> skew == 1.0
    ensures r.Labelled? ==>
              && |r.labels| == |r.running| && r.running == Runnable(depUID, rss.value, pods.value)
              && forall j :: 0 <= j < |r.labels| ==>
                   && (r.labels[j] == None <==> reply(j) == Refused)
                   && (r.labels[j].Some? ==>
                         GivesPod(r.labels[j].value, j, |r.labels|, totalRPM, inTokens, outTokens, draws, skew, fmt))
  {
    if r.Labelled? {
      var n := |r.labels|;
      forall j | 0 <= j < n && r.labels[j].Some?
        ensures GivesPod(r.labels[j].value, j, n, totalRPM, inTokens, outTokens, draws, skew, fmt)
      {
        PodGiven(r.labels[j], j, n, totalRPM, inTokens, outTokens, draws, skew, fmt, reply(j));
      }
    }
  }

  lemma PodGiven(l: Option<PodLoad>, j: nat, n: nat, totalRPM: real, inTokens: int, outTokens: int, draws: PodDraws,
                 skew: real, fmt: real -> real, reply: Reply)
    requires j < n && l.Some? && Sum(Weights(draws.Weights(n), skew)) > 0.0
    requires IsLabelled(l, fmt(Shares(totalRPM, Weights(draws.Weights(n), skew))[j]), inTokens, outTokens,
                        draws.inTok(j), draws.outTok(j), skew, reply)
    ensures GivesPod(l.value, j, n, totalRPM, inTokens, outTokens, draws, skew, fmt)
  {
    ShareExactly(totalRPM, draws.Weights(n), skew, j);
  }

  /** Pod j of n, with draw u: the share that is to the total as (1 - s) / n + s u to 1 - s plus s times the
      sum of all draws. */
  ghost predicate GivesPod(l: PodLoad, j: nat, n: nat, totalRPM: real, inTokens: int, outTokens: int, draws: PodDraws,
                           skew: real, fmt: real -> real)
    requires n > 0
  {
    && (exists x :: l.rpm == fmt(x) &&
          IsShare(x, totalRPM, (1.0 - skew) / n as real + skew * draws.weight(j),
                  (1.0 - skew) + skew * Sum(draws.Weights(n))))
    && Jitters(skew, inTokens, draws.inTok(j), l.inTok) && Jitters(skew, outTokens, draws.outTok(j), l.outTok)
  }

  /** x is to the total as the weight is to the sum. */
  ghost predicate IsShare(x: real, total: real, weight: real, sum: real) {
    x * sum == total * weight
  }

  // ------------------------------------------------------------------ the split

  function Weight(u: real, n: int, skew: real): real
    requires n > 0
  {
    (1.0 - skew) / n as real + skew * u
  }

  function Weights(draws: seq<real>, skew: real): seq<real> {
    seq(|draws|, i requires 0 <= i < |draws| => Weight(draws[i], |draws|, skew))
  }

  function Share(total: real, weight: real, sum: real): real
    requires sum != 0.0
  {
    total * weight / sum
  }

  function Shares(total: real, weights: seq<real>): seq<real>
    requires Sum(weights) > 0.0
  {
    seq(|weights|, i requires 0 <= i < |weights| => Share(total, weights[i], Sum(weights)))
  }

  ghost predicate AreDraws(draws: seq<real>) {
    forall u :: u in draws ==> 0.0 <= u < 1.0
  }

  /** The one case in which every weight vanishes. */
  ghost predicate AllZero(draws: seq<real>, skew: real) {
    skew == 1.0 && forall u :: u in draws ==> u == 0.0
  }

  lemma WeightRange(draws: seq<real>, skew: real, i: nat)
    requires i < |draws| && 0.0 <= skew <= 1.0 && 0.0 <= draws[i] < 1.0
    ensures var a := (1.0 - skew) / |draws| as real; 0.0 <= a <= Weights(draws, skew)[i] <= a + skew
  {
    MulMono(draws[i], 1.0, skew);
    MulMono(0.0, draws[i], skew);
  }

  /** The weights cannot all vanish unless the skew is 1 and every draw is 0. */
  lemma WeightSum(draws: seq<real>, skew: real)
    requires 0.0 <= skew <= 1.0 && AreDraws(draws)
    ensures draws != [] ==>
              (Sum(Weights(draws, skew)) > 0.0 <==> !AllZero(draws, skew))
    ensures Sum(Weights(draws, skew)) >= 0.0
  {
    var ws := Weights(draws, skew);
    if draws != [] {
      WeightsInRange(draws, skew);
      BaseWeight(skew, |draws| as real);
    }
    SumOfNonNegative(ws, Itself);
    if draws != [] {
      if AllZero(draws, skew) {
        forall w | w in ws ensures 0.0 <= w <= 0.0 {
          var i :| 0 <= i < |ws| && ws[i] == w;
          assert draws[i] in draws;
        }
        SumOfBounds(ws, Itself, 0.0, 0.0);
      } else {
        var i := PositiveWeight(draws, skew);
        SumOfWithout(ws, i, Itself);
        var r := ws[..i] + ws[i + 1..];
        assert forall w :: w in r ==> w in ws;
        SumOfNonNegative(r, Itself);
      }
    }
  }

  lemma BaseWeight(skew: real, n: real)
    requires 0.0 <= skew <= 1.0 && n >= 1.0
    ensures (1.0 - skew) / n >= 0.0 && (skew < 1.0 ==> (1.0 - skew) / n > 0.0)
  {
  }

  lemma PositiveWeight(draws: seq<real>, skew: real) returns (i: nat)
    requires draws != [] && 0.0 <= skew <= 1.0 && AreDraws(draws)
    requires !AllZero(draws, skew)
    ensures i < |draws| && Weights(draws, skew)[i] > 0.0
  {
    i := 0;
    if skew < 1.0 {
      assert draws[0] in draws;
      BaseWeight(skew, |draws| as real);
      WeightRange(draws, skew, 0);
    } else {
      var u :| u in draws && u != 0.0;
      i :| 0 <= i < |draws| && draws[i] == u;
    }
  }

  /** The shares add up to the total, whatever the weights. */
  lemma SplitConserves(total: real, weights: seq<real>)
    requires Sum(weights) > 0.0
    ensures Sum(Shares(total, weights)) == total
  {
    var s := Sum(weights);
    var f := total / s;
    forall i | 0 <= i < |weights| ensures Shares(total, weights)[i] == Times(f, weights[i]) {
      assert total * weights[i] / s == total / s * weights[i];
    }
    SumScaled(weights, f, Shares(total, weights));
    assert f * s == total;
  }

  /** Each share is to the total as the weight (1 - s) / n + s u of its draw u is to the sum of all n
      of them, 1 - s plus s times the sum of the draws. */
  lemma ShareExactly(total: real, draws: seq<real>, skew: real, i: nat)
    requires i < |draws| && Sum(Weights(draws, skew)) > 0.0
    ensures IsShare(Shares(total, Weights(draws, skew))[i], total, (1.0 - skew) / |draws| as real + skew * draws[i],
                    (1.0 - skew) + skew * Sum(draws))
  {
    var a, ws := (1.0 - skew) / |draws| as real, Weights(draws, skew);
    SumAffine(draws, a, skew, ws);
    assert |draws| as real * a == 1.0 - skew;
    WholeTimesPart(total, ws[i], Sum(ws));
  }

  lemma WholeTimesPart(total: real, weight: real, sum: real)
    requires sum != 0.0
    ensures Share(total, weight, sum) * sum == total * weight
  {
  }

  lemma {:induction false} SumAffine(us: seq<real>, a: real, s: real, ws: seq<real>)
    requires |ws| == |us| && forall i :: 0 <= i < |us| ==> ws[i] == a + s * us[i]
    ensures Sum(ws) == |us| as real * a + s * Sum(us)
  {
    if us != [] {
      var n := |us| - 1;
      SumAffine(us[..n], a, s, ws[..n]);
      AffineStep(n, a, s, Sum(us[..n]), us[n]);
    }
  }

  lemma AffineStep(n: nat, a: real, s: real, sum: real, u: real)
    ensures n as real * a + s * sum + (a + s * u) == (n + 1) as real * a + s * (sum + u)
  {
  }

  /** A part of a whole grows with the part and shrinks with the rest. */
  lemma PartMonotone(w: real, r: real, w': real, r': real)
    requires 0.0 <= w <= w' && 0.0 <= r' <= r && w + r > 0.0 && w' + r' > 0.0
    ensures w / (w + r) <= w' / (w' + r')
  {
    MulMono(w, w', r);
    MulMono(r', r, w);
    assert w * (w' + r') == w * w' + w * r';
    assert w' * (w + r) == w' * w + w' * r;
    CrossMultiply(w, w + r, w', w' + r');
  }

  /** With n pods and base weight a = (1 - skew) / n, the extreme wholes. */
  lemma ExtremeWholes(n: real, a: real, skew: real)
    requires n * a == 1.0 - skew
    ensures a + Times(n - 1.0, a + skew) == (1.0 - skew) + (n - 1.0) * skew
    ensures (a + skew) + Times(n - 1.0, a) == 1.0
  {
    assert (n - 1.0) * (a + skew) == (n - 1.0) * a + (n - 1.0) * skew;
    assert (n - 1.0) * a == n * a - a;
  }

  /** A weight w and the sum r of the n - 1 others, all between a and a + skew. */
  ghost predicate Spread(n: real, a: real, skew: real, w: real, r: real) {
    a <= w <= a + skew && Times(n - 1.0, a) <= r <= Times(n - 1.0, a + skew)
  }

  lemma OtherWeights(draws: seq<real>, skew: real, i: nat) returns (rest: real)
    requires 0.0 <= skew <= 1.0 && i < |draws| && AreDraws(draws)
    ensures Sum(Weights(draws, skew)) == Weights(draws, skew)[i] + rest
    ensures Spread(|draws| as real, (1.0 - skew) / |draws| as real, skew, Weights(draws, skew)[i], rest)
  {
    WeightsInRange(draws, skew);
    rest := OthersSpread(Weights(draws, skew), (1.0 - skew) / |draws| as real, skew, i);
  }

  lemma WeightsInRange(draws: seq<real>, skew: real)
    requires draws != [] && 0.0 <= skew <= 1.0 && AreDraws(draws)
    ensures var a := (1.0 - skew) / |draws| as real;
      forall w :: w in Weights(draws, skew) ==> a <= w <= a + skew
  {
    var ws, a := Weights(draws, skew), (1.0 - skew) / |draws| as real;
    forall w | w in ws ensures a <= w <= a + skew {
      var j :| 0 <= j < |ws| && ws[j] == w;
      assert draws[j] in draws;
      WeightRange(draws, skew, j);
    }
  }

  lemma OthersSpread(ws: seq<real>, a: real, skew: real, i: nat) returns (rest: real)
    requires i < |ws| && forall w :: w in ws ==> a <= w <= a + skew
    ensures Sum(ws) == ws[i] + rest && Spread(|ws| as real, a, skew, ws[i], rest)
  {
    var others := ws[..i] + ws[i + 1..];
    assert ws[i] in ws && forall w :: w in others ==> w in ws;
    SumOfWithout(ws, i, Itself);
    SumOfBounds(others, Itself, a, a + skew);
    rest := Sum(others);
    SpreadOf(|ws| as real, |others| as real, a, skew, ws[i], rest);
  }

  lemma SpreadOf(n: real, others: real, a: real, skew: real, w: real, rest: real)
    requires others == n - 1.0 && a <= w <= a + skew && Times(others, a) <= rest <= Times(others, a + skew)
    ensures Spread(n, a, skew, w, rest)
  {
  }

  /** The least and greatest part of the total that one of n pods can be given. */
  function LeastPart(n: real, skew: real): real
    requires n >= 1.0 && 0.0 <= skew < 1.0
  {
    MulMono(0.0, n - 1.0, skew);
    (1.0 - skew) / n / ((1.0 - skew) + (n - 1.0) * skew)
  }

  function GreatestPart(n: real, skew: real): real
    requires n >= 1.0
  {
    (1.0 - skew) / n + skew
  }

  /** How far one share can be from an equal one: the two extremes of a skewed split. */
  lemma SplitBounds(total: real, draws: seq<real>, skew: real, i: nat)
    requires total >= 0.0 && 0.0 <= skew < 1.0 && i < |draws| && AreDraws(draws)
    ensures Sum(Weights(draws, skew)) > 0.0
    ensures total * LeastPart(|draws| as real, skew)
            <= Shares(total, Weights(draws, skew))[i]
            <= total * GreatestPart(|draws| as real, skew)
  {
    PartBounds(draws, skew, i);
    var n := |draws| as real;
    ShareOfPart(total, Weights(draws, skew)[i], Sum(Weights(draws, skew)), LeastPart(n, skew), GreatestPart(n, skew));
  }

  lemma PartBounds(draws: seq<real>, skew: real, i: nat)
    requires 0.0 <= skew < 1.0 && i < |draws| && AreDraws(draws)
    ensures Sum(Weights(draws, skew)) > 0.0
    ensures LeastPart(|draws| as real, skew)
            <= Weights(draws, skew)[i] / Sum(Weights(draws, skew))
            <= GreatestPart(|draws| as real, skew)
  {
    WeightSum(draws, skew);
    var w := Weights(draws, skew)[i];
    var rest := OtherWeights(draws, skew, i);
    PartOfWhole(|draws| as real, skew, w, rest);
  }

  lemma PartOfWhole(n: real, skew: real, w: real, rest: real)
    requires n >= 1.0 && 0.0 <= skew < 1.0 && w + rest > 0.0 && Spread(n, (1.0 - skew) / n, skew, w, rest)
    ensures LeastPart(n, skew) <= w / (w + rest) <= GreatestPart(n, skew)
  {
    BaseWeight(skew, n);
    WholeBounds(n, (1.0 - skew) / n, skew, w, rest);
  }

  lemma WholeBounds(n: real, a: real, skew: real, w: real, r: real)
    requires n >= 1.0 && a > 0.0 && 0.0 <= skew < 1.0 && n * a == 1.0 - skew
    requires w + r > 0.0 && Spread(n, a, skew, w, r)
    ensures (1.0 - skew) + (n - 1.0) * skew > 0.0
    ensures a / ((1.0 - skew) + (n - 1.0) * skew) <= w / (w + r) <= a + skew
  {
    var least, most := Times(n - 1.0, a), Times(n - 1.0, a + skew);
    ExtremeWholes(n, a, skew);
    TimesNonNegative(n - 1.0, a);
    PartMonotone(a, most, w, r);
    PartMonotone(w, r, a + skew, least);
  }

  lemma ShareOfPart(total: real, w: real, s: real, lo: real, hi: real)
    requires total >= 0.0 && s > 0.0 && lo <= w / s <= hi
    ensures total * lo <= Share(total, w, s) <= total * hi
  {
    ShareFraction(total, w, s);
    MulMono(lo, w / s, total);
    MulMono(w / s, hi, total);
  }

  lemma ShareFraction(total: real, w: real, s: real)
    requires s != 0.0
    ensures Share(total, w, s) == w / s * total
  {
  }

  // The two extremes are the best possible.

  /** One draw of its own for pod i, the same for the n - 1 others. */
  function OneApart(n: nat, i: nat, own: real, other: real): (draws: seq<real>)
    ensures 0.0 <= own < 1.0 && 0.0 <= other < 1.0 ==> AreDraws(draws)
  {
    seq(n, j => if j == i then own else other)
  }

  lemma OneApartSum(n: nat, i: nat, own: real, other: real, skew: real)
    requires i < n
    requires 0.0 <= skew < 1.0 && 0.0 <= own < 1.0 && 0.0 <= other < 1.0
    ensures var ws := Weights(OneApart(n, i, own, other), skew);
      && ws[i] == Weight(own, n, skew) && Sum(ws) == ws[i] + Times(n as real - 1.0, Weight(other, n, skew))
      && Sum(ws) > 0.0
  {
    WeightSum(OneApart(n, i, own, other), skew);
    var ws, w := Weights(OneApart(n, i, own, other), skew), Weight(other, n, skew);
    SumOfWithout(ws, i, Itself);
    var others := ws[..i] + ws[i + 1..];
    assert forall x :: x in others ==> w <= Itself(x) <= w;
    SumOfBounds(others, Itself, w, w);
  }

  /** A positive number, at most 1, that k times stays below eps. */
  function Small(eps: real, k: real): (d: real)
    requires eps > 0.0 && k >= 0.0
    ensures 0.0 < d <= 1.0 && Times(k, d) < eps
  {
    var d := eps / (eps + k);
    assert d * (eps + k) == eps;
    SmallIs(eps, k, d);
    d
  }

  lemma MulStrict(x: real, y: real, z: real)
    requires x < y && z > 0.0
    ensures x * z < y * z
  {
  }

  lemma SmallIs(eps: real, k: real, d: real)
    requires eps > 0.0 && k >= 0.0 && d * (eps + k) == eps
    ensures 0.0 < d <= 1.0 && Times(k, d) < eps
  {
    if d <= 0.0 {
      MulMono(d, 0.0, eps + k);
    }
    if d > 1.0 {
      MulStrict(1.0, d, eps + k);
    }
    assert d * (eps + k) == d * eps + k * d;
    assert d * eps > 0.0;
  }

  /** Any bound below the upper extreme is exceeded: pod i draws almost 1, the others 0. */
  lemma GreatestReached(total: real, n: nat, skew: real, i: nat, hi: real) returns (draws: seq<real>)
    requires total >= 0.0 && 0.0 <= skew < 1.0 && i < n && hi < total * GreatestPart(n as real, skew)
    ensures |draws| == n && AreDraws(draws) && Sum(Weights(draws, skew)) > 0.0
    ensures Shares(total, Weights(draws, skew))[i] > hi
  {
    var d := Small(total * GreatestPart(n as real, skew) - hi, total);
    draws := OneApart(n, i, 1.0 - d, 0.0);
    OneApartSum(n, i, 1.0 - d, 0.0, skew);
    GreatestShare(total, n, skew, d, Weights(draws, skew)[i], Sum(Weights(draws, skew)), hi);
  }

  lemma GreatestShare(total: real, n: nat, skew: real, d: real, w: real, sum: real, hi: real)
    requires total >= 0.0 && 0.0 <= skew < 1.0 && n >= 1 && 0.0 < d <= 1.0 && sum > 0.0
    requires w == Weight(1.0 - d, n, skew) && sum == w + Times(n as real - 1.0, Weight(0.0, n, skew))
    requires Times(total, d) < total * GreatestPart(n as real, skew) - hi
    ensures Share(total, w, sum) > hi
  {
    BaseWeight(skew, n as real);
    var y := AlmostAllParts(n as real, (1.0 - skew) / n as real, skew, d, w, sum);
    AlmostAll(total, GreatestPart(n as real, skew), d, y, w, sum, hi);
  }

  lemma Shrunk(skew: real, d: real) returns (y: real)
    requires 0.0 <= skew < 1.0 && d > 0.0
    ensures y == skew * d && 0.0 <= y <= d
  {
    y := skew * d;
    MulMono(skew, 1.0, d);
    MulMono(0.0, skew, d);
  }

  lemma AlmostAllParts(n: real, a: real, skew: real, d: real, w: real, sum: real) returns (y: real)
    requires a >= 0.0 && 0.0 <= skew < 1.0 && n * a == 1.0 - skew && 0.0 < d <= 1.0
    requires w == a + skew * (1.0 - d) && sum == w + Times(n - 1.0, a)
    ensures 0.0 <= y <= d && 0.0 <= w == a + skew - y && sum == 1.0 - y
  {
    y := Shrunk(skew, d);
    TimesNonNegative(skew, 1.0 - d);
    assert skew * (1.0 - d) == skew - y;
    assert Times(n - 1.0, a) == n * a - a;
  }

  lemma AlmostAll(total: real, most: real, d: real, y: real, w: real, sum: real, hi: real)
    requires total >= 0.0 && 0.0 <= y <= d && 0.0 <= w == most - y && sum == 1.0 - y > 0.0
    requires Times(total, d) < total * most - hi
    ensures Share(total, w, sum) > hi
  {
    PartOfLess(w, sum);
    ShareFraction(total, w, sum);
    TimesMono(total, most, w / sum + d);
    TimesSum(total, w / sum, d);
  }

  lemma PartOfLess(w: real, sum: real)
    requires 0.0 <= w && 0.0 < sum <= 1.0
    ensures w / sum >= w
  {
    var x := w / sum;
    assert x * sum == w;
    MulMono(sum, 1.0, x);
  }

  /** Any bound above the lower extreme is undercut: pod i draws 0, the others almost 1. */
  lemma LeastReached(total: real, n: nat, skew: real, i: nat, lo: real) returns (draws: seq<real>)
    requires total >= 0.0 && 0.0 <= skew < 1.0 && i < n && lo > total * LeastPart(n as real, skew)
    ensures |draws| == n && AreDraws(draws) && Sum(Weights(draws, skew)) > 0.0
    ensures Shares(total, Weights(draws, skew))[i] < lo
  {
    var a, x := LeastRoom(total, n as real, skew, lo);
    var d := Small(lo * (1.0 - skew + x) - total * a, Times(lo, x));
    draws := OneApart(n, i, 0.0, 1.0 - d);
    OneApartSum(n, i, 0.0, 1.0 - d, skew);
    LessInAll(n, a, skew, d, Weights(draws, skew)[i], Sum(Weights(draws, skew)), x);
    AlmostNone(total, x, a, d, Sum(Weights(draws, skew)), lo, 1.0 - skew + x);
  }

  /** With x for (n - 1) skew. */
  lemma LeastRoom(total: real, n: real, skew: real, lo: real) returns (a: real, x: real)
    requires total >= 0.0 && n >= 1.0 && 0.0 <= skew < 1.0 && lo > total * LeastPart(n, skew)
    ensures a == (1.0 - skew) / n && x == Times(n - 1.0, skew) >= 0.0
    ensures lo * (1.0 - skew + x) - total * a > 0.0 && Times(lo, x) >= 0.0
  {
    a, x := (1.0 - skew) / n, Times(n - 1.0, skew);
    BaseWeight(skew, n);
    TimesNonNegative(n - 1.0, skew);
    AboveQuotient(total, a, 1.0 - skew + x, lo);
    TimesNonNegative(lo, x);
  }

  lemma LessInAll(n: nat, a: real, skew: real, d: real, w: real, sum: real, x: real)
    requires n >= 1 && a == (1.0 - skew) / n as real && x == Times(n as real - 1.0, skew)
    requires w == Weight(0.0, n, skew) && sum == w + Times(n as real - 1.0, Weight(1.0 - d, n, skew))
    ensures w == a && sum == 1.0 - skew + x - x * d
  {
    OthersInAll(n as real, a, skew, d, x);
  }

  lemma OthersInAll(n: real, a: real, skew: real, d: real, x: real)
    requires n * a == 1.0 - skew && x == Times(n - 1.0, skew)
    ensures a + Times(n - 1.0, a + skew * (1.0 - d)) == 1.0 - skew + x - x * d
  {
    TimesSum(n - 1.0, a, skew * (1.0 - d));
    assert Times(n - 1.0, a) == n * a - a;
    assert Times(n - 1.0, skew * (1.0 - d)) == x * (1.0 - d);
  }

  lemma AboveQuotient(total: real, a: real, whole: real, lo: real)
    requires total >= 0.0 && a >= 0.0 && whole > 0.0 && lo > total * (a / whole)
    ensures lo > 0.0 && lo * whole > total * a
  {
    var part := a / whole;
    assert part * whole == a;
    TimesNonNegative(total, part);
    MulStrict(total * part, lo, whole);
    assert total * part * whole == total * a;
  }

  lemma AlmostNone(total: real, x: real, a: real, d: real, sum: real, lo: real, whole: real)
    requires sum == whole - x * d && sum > 0.0 && Times(Times(lo, x), d) < lo * whole - total * a
    ensures Share(total, a, sum) < lo
  {
    assert lo * (x * d) == Times(Times(lo, x), d);
    assert lo * sum > total * a;
    BelowQuotient(total * a, sum, lo);
  }

  lemma BelowQuotient(x: real, y: real, z: real)
    requires y > 0.0 && x < z * y
    ensures x / y < z
  {
    var q := x / y;
    assert q * y == x;
    if q >= z {
      MulMono(z, q, y);
    }
  }

  /** Whatever the draws, pod i of n is given between lo and hi. */
  ghost predicate AlwaysWithin(total: real, n: nat, skew: real, i: nat, lo: real, hi: real)
    requires i < n
  {
    forall draws :: |draws| == n && AreDraws(draws) && Sum(Weights(draws, skew)) > 0.0 ==>
      lo <= Shares(total, Weights(draws, skew))[i] <= hi
  }

  ghost predicate HoldsExtremes(total: real, n: real, skew: real, lo: real, hi: real)
    requires n >= 1.0 && 0.0 <= skew < 1.0
  {
    lo <= total * LeastPart(n, skew) && total * GreatestPart(n, skew) <= hi
  }

  lemma ShareWithin(total: real, draws: seq<real>, skew: real, i: nat, lo: real, hi: real)
    requires total >= 0.0 && 0.0 <= skew < 1.0 && i < |draws| && AreDraws(draws)
    requires HoldsExtremes(total, |draws| as real, skew, lo, hi) && Sum(Weights(draws, skew)) > 0.0
    ensures lo <= Shares(total, Weights(draws, skew))[i] <= hi
  {
    SplitBounds(total, draws, skew, i);
  }

  lemma WithinExtremes(total: real, n: nat, skew: real, i: nat, lo: real, hi: real)
    requires total >= 0.0 && 0.0 <= skew < 1.0 && i < n
    requires HoldsExtremes(total, n as real, skew, lo, hi)
    ensures AlwaysWithin(total, n, skew, i, lo, hi)
  {
    forall draws | |draws| == n && AreDraws(draws) && Sum(Weights(draws, skew)) > 0.0
      ensures lo <= Shares(total, Weights(draws, skew))[i] <= hi
    {
      ShareWithin(total, draws, skew, i, lo, hi);
    }
  }

  lemma LeastNeeded(total: real, n: nat, skew: real, i: nat, lo: real, hi: real)
    requires total >= 0.0 && 0.0 <= skew < 1.0 && i < n && AlwaysWithin(total, n, skew, i, lo, hi)
    ensures lo <= total * LeastPart(n as real, skew)
  {
    if lo > total * LeastPart(n as real, skew) {
      var draws := LeastReached(total, n, skew, i, lo);
    }
  }

  lemma GreatestNeeded(total: real, n: nat, skew: real, i: nat, lo: real, hi: real)
    requires total >= 0.0 && 0.0 <= skew < 1.0 && i < n && AlwaysWithin(total, n, skew, i, lo, hi)
    ensures total * GreatestPart(n as real, skew) <= hi
  {
    if hi < total * GreatestPart(n as real, skew) {
      var draws := GreatestReached(total, n, skew, i, hi);
    }
  }

  /** No smaller interval will do: the shares always lie in one exactly if it holds both extremes. */
  lemma SplitBoundsAreBest(total: real, n: nat, skew: real, i: nat, lo: real, hi: real)
    requires total >= 0.0 && 0.0 <= skew < 1.0 && i < n
    ensures AlwaysWithin(total, n, skew, i, lo, hi) <==> HoldsExtremes(total, n as real, skew, lo, hi)
  {
    if HoldsExtremes(total, n as real, skew, lo, hi) {
      WithinExtremes(total, n, skew, i, lo, hi);
    } else if AlwaysWithin(total, n, skew, i, lo, hi) {
      LeastNeeded(total, n, skew, i, lo, hi);
      GreatestNeeded(total, n, skew, i, lo, hi);
    }
  }

  /** Without skew the split is equal. */
  lemma NoSkewSplitsEqually(total: real, draws: seq<real>, i: nat)
    requires total >= 0.0 && i < |draws| && AreDraws(draws)
    ensures Sum(Weights(draws, 0.0)) > 0.0
    ensures Shares(total, Weights(draws, 0.0))[i] == total / |draws| as real
  {
    SplitBounds(total, draws, 0.0, i);
    var n := |draws| as real;
    assert 1.0 / n / 1.0 == 1.0 / n;
    assert total * (1.0 / n) == total / n;
  }

  // ------------------------------------------------------------- token counts

  function TokenWalk(tok: int, nominal: int, theta: real, steps: nat): int
    decreases steps
  {
    if steps == 0 then tok else TokenWalk(StepTokens(tok, nominal, theta, 0.0), nominal, theta, steps - 1)
  }

  lemma TokenMinBelow(nominal: int)
    requires nominal >= 1
    ensures 1 <= TokenMin(nominal) <= nominal
  {
  }

  /** From below, a noise-free step gains at least one token and does not overshoot. */
  lemma TokenStepUp(tok: int, nominal: int, theta: real)
    requires nominal >= 1 && 0.0 < theta <= 1.0 && tok < nominal
    ensures tok < StepTokens(tok, nominal, theta, 0.0) <= nominal
  {
    TokenMinBelow(nominal);
    var push := PushUp(tok, nominal, theta);
    CeilAbove(tok as real + push + 0.0, tok, nominal);
  }

  lemma PushUp(tok: int, nominal: int, theta: real) returns (push: real)
    requires 0.0 < theta <= 1.0 && tok < nominal
    ensures push == theta * (nominal - tok) as real && 0.0 < push <= (nominal - tok) as real
  {
    var gap := (nominal - tok) as real;
    push := theta * gap;
    MulMono(theta, 1.0, gap);
  }

  lemma CeilAbove(x: real, lo: int, hi: int)
    requires lo as real < x <= hi as real
    ensures lo < Ceil(x) <= hi
  {
  }

  /** From above, a noise-free step never rises and never undershoots; it stands still exactly
      within the clamp range and less than 1/theta above the nominal. */
  lemma TokenStepDown(tok: int, nominal: int, theta: real)
    requires nominal >= 1 && 0.0 < theta <= 1.0 && tok >= nominal
    ensures nominal <= StepTokens(tok, nominal, theta, 0.0) <= tok
    ensures StepTokens(tok, nominal, theta, 0.0) == tok <==> tok <= 10 * nominal && theta * (tok - nominal) as real < 1.0
  {
    TokenMinBelow(nominal);
    var pull := PullDown(tok, nominal, theta);
    CeilBetween(tok as real - pull + 0.0, nominal, tok);
  }

  lemma PullDown(tok: int, nominal: int, theta: real) returns (pull: real)
    requires 0.0 < theta <= 1.0 && tok >= nominal
    ensures pull == theta * (tok - nominal) as real && theta * (nominal - tok) as real == -pull
    ensures 0.0 <= pull <= (tok - nominal) as real
  {
    var gap := (tok - nominal) as real;
    pull := theta * gap;
    MulMono(theta, 1.0, gap);
    assert (nominal - tok) as real == -gap;
  }

  lemma CeilBetween(x: real, lo: int, hi: int)
    requires lo as real <= x <= hi as real
    ensures lo <= Ceil(x) <= hi
    ensures Ceil(x) == hi <==> x > hi as real - 1.0
  {
  }

  /** The rest points of the noise-free walk. */
  lemma TokenRestPoints(tok: int, nominal: int, theta: real)
    requires nominal >= 1 && 0.0 < theta <= 1.0
    ensures StepTokens(tok, nominal, theta, 0.0) == tok <==>
            nominal <= tok <= 10 * nominal && theta * (tok - nominal) as real < 1.0
  {
    if tok < nominal {
      TokenStepUp(tok, nominal, theta);
    } else {
      TokenStepDown(tok, nominal, theta);
    }
  }

  /** From below the walk is at its nominal after at most nominal - tok steps, for good. */
  lemma {:induction false} TokenWalkReachesNominal(tok: int, nominal: int, theta: real, steps: nat)
    requires nominal >= 1 && 0.0 < theta <= 1.0 && tok <= nominal && steps >= nominal - tok
    ensures TokenWalk(tok, nominal, theta, steps) == nominal
    decreases steps
  {
    if steps > 0 {
      if tok < nominal {
        TokenStepUp(tok, nominal, theta);
      } else {
        TokenRestPoints(tok, nominal, theta);
      }
      TokenWalkReachesNominal(StepTokens(tok, nominal, theta, 0.0), nominal, theta, steps - 1);
    }
  }

  /** From above it is at a rest point after at most tok - nominal steps, never below the nominal. */
  lemma {:induction false} TokenWalkSettles(tok: int, nominal: int, theta: real, steps: nat)
    requires nominal >= 1 && 0.0 < theta <= 1.0 && tok >= nominal && steps >= tok - nominal
    ensures var t := TokenWalk(tok, nominal, theta, steps);
      nominal <= t <= tok && StepTokens(t, nominal, theta, 0.0) == t
    decreases steps
  {
    TokenStepDown(tok, nominal, theta);
    var next := StepTokens(tok, nominal, theta, 0.0);
    if next == tok {
      TokenWalkRests(tok, nominal, theta, steps);
    } else {
      TokenWalkSettles(next, nominal, theta, steps - 1);
    }
  }

  lemma {:induction false} TokenWalkRests(tok: int, nominal: int, theta: real, steps: nat)
    requires StepTokens(tok, nominal, theta, 0.0) == tok
    ensures TokenWalk(tok, nominal, theta, steps) == tok
  {
    if steps > 0 {
      TokenWalkRests(tok, nominal, theta, steps - 1);
    }
  }
}
