// The walk of one Deployment's rate label over a whole run of the emulator: how far it
// can be from its moving nominal, in the presence of noise, label rounding and failed updates.
module RateTracking {
  import opened Basics
  import opened Reals
  import opened Phases
  import opened LoadEmulation

  /** One cycle: the nominal the walk is drawn to, the noise added, and whether the
      Deployment update took effect. */
  datatype Tick = Tick(nominal: real, noise: real, ok: bool)

  function After(rpm: real, t: Tick, theta: real, fmt: real -> real): real {
    if t.ok then fmt(StepRPM(rpm, t.nominal, theta, t.noise)) else rpm
  }

  /** The rate label after a run. */
  function Rate(rpm: real, ticks: seq<Tick>, theta: real, fmt: real -> real): real {
    if ticks == [] then rpm
    else After(Rate(rpm, ticks[..|ticks| - 1], theta, fmt), ticks[|ticks| - 1], theta, fmt)
  }

  // ------------------------------------------------------- runs of the emulator

  /** What the emulator meets in one cycle: the nominal label as it reads now, the phase
      multiplier, the draws, and the outcome of the update. */
  datatype Cycle = Cycle(nomLabel: real, multiplier: real, noise: Noise, reply: Reply)

  function Ticks(cycles: seq<Cycle>, baseline: real): seq<Tick> {
    seq(|cycles|, i requires 0 <= i < |cycles| =>
      Tick(Nominal(baseline, cycles[i].multiplier), cycles[i].noise.rpm, cycles[i].reply.TookEffect()))
  }

  /** The run of one Deployment through consecutive cycles. The nominal label only matters
      the first time the Deployment is seen: later edits of it leave the walk alone. */
  method RunDeployment(e: LoadEmulator, key: string, d: Load, cycles: seq<Cycle>, fmt: real -> real)
    returns (d': Load)
    modifies e
    ensures var seen := old(e.originalNominalRPM);
      cycles != [] ==>
        var baseline := if key in seen then seen[key] else cycles[0].nomLabel;
        && e.originalNominalRPM == seen[key := baseline]
        && d'.rpm == Rate(d.rpm, Ticks(cycles, baseline), e.theta, fmt)
  {
    d' := d;
    ghost var seen := e.originalNominalRPM;
    ghost var baseline := if key in seen then seen[key] else if cycles == [] then 0.0 else cycles[0].nomLabel;
    ghost var ticks := Ticks(cycles, baseline);
    for i := 0 to |cycles|
      invariant i == 0 ==> e.originalNominalRPM == seen
      invariant i > 0 ==> e.originalNominalRPM == seen[key := baseline]
      invariant d'.rpm == Rate(d.rpm, ticks[..i], e.theta, fmt)
    {
      var c := cycles[i];
      var total;
      d', total := e.UpdateDeployment(key, d'.(nomRPM := c.nomLabel), c.multiplier, c.noise, fmt, c.reply);
      assert ticks[..i + 1][..i] == ticks[..i];
      assert ticks[i] == Tick(Nominal(baseline, c.multiplier), c.noise.rpm, c.reply.TookEffect());
    }
    assert ticks[..|cycles|] == ticks;
  }

  /** A tick without effect leaves the rate; another one walks toward its nominal, and is rounded. */
  lemma RateExactly(rpm: real, ticks: seq<Tick>, t: Tick, theta: real, fmt: real -> real)
    ensures Rate(rpm, [], theta, fmt) == rpm
    ensures var before, after := Rate(rpm, ticks, theta, fmt), Rate(rpm, ticks + [t], theta, fmt);
      if t.ok then WalksRounded(before, t, theta, fmt, after) else after == before
  {
    assert (ticks + [t])[..|ticks|] == ticks;
    StepWalks(Rate(rpm, ticks, theta, fmt), t.nominal, theta, t.noise);
    assert t.ok ==> After(Rate(rpm, ticks, theta, fmt), t, theta, fmt) ==
                    fmt(StepRPM(Rate(rpm, ticks, theta, fmt), t.nominal, theta, t.noise));
  }

  ghost predicate WalksRounded(before: real, t: Tick, theta: real, fmt: real -> real, after: real) {
    exists x :: Walks(before, t.nominal, theta, t.noise, x) && after == fmt(x)
  }

  /** The ticks of a run: baseline times multiplier, the noise, and whether the update took effect. */
  lemma TicksExactly(cycles: seq<Cycle>, baseline: real)
    ensures |Ticks(cycles, baseline)| == |cycles|
    ensures forall i :: 0 <= i < |cycles| ==>
              Ticks(cycles, baseline)[i] ==
              Tick(baseline * cycles[i].multiplier, cycles[i].noise.rpm, cycles[i].reply != Refused)
  {
  }

  // ----------------------------------------------------------------- the bound

  function Pow(x: real, n: nat): real {
    if n == 0 then 1.0 else Times(x, Pow(x, n - 1))
  }

  /** How many of the updates succeeded. */
  function Successes(ticks: seq<Tick>): (n: nat)
    ensures n <= |ticks|
  {
    if ticks == [] then 0
    else Successes(ticks[..|ticks| - 1]) + if ticks[|ticks| - 1].ok then 1 else 0
  }

  function LastNominal(nominal: real, ticks: seq<Tick>): real {
    if ticks == [] then nominal else ticks[|ticks| - 1].nominal
  }

  /** The nominal is never negative and moves at most `drift` between ticks. */
  ghost predicate Drifts(nominal: real, ticks: seq<Tick>, drift: real) {
    forall i :: 0 <= i < |ticks| ==>
      ticks[i].nominal >= 0.0 && Abs(ticks[i].nominal - LastNominal(nominal, ticks[..i])) <= drift
  }

  /** Noise and label rounding together stay within `disturbance`. */
  ghost predicate Disturbs(ticks: seq<Tick>, disturbance: real) {
    forall t :: t in ticks ==> Abs(t.noise) + 0.00005 <= disturbance
  }

  /** The error bound, tick by tick: an update shrinks it by q = 1 - theta, a failed one lets it drift. */
  function ErrorAfter(e: real, ok: bool, q: real, drift: real, disturbance: real): real {
    if ok then Times(q, e + drift) + disturbance else e + drift
  }

  function RunningError(e0: real, ticks: seq<Tick>, q: real, drift: real, disturbance: real): real {
    if ticks == [] then e0
    else
      var n := |ticks| - 1;
      ErrorAfter(RunningError(e0, ticks[..n], q, drift, disturbance), ticks[n].ok, q, drift, disturbance)
  }

  /** One update, when the error before it was at most e. */
  lemma UpdateError(rpm: real, t: Tick, theta: real, fmt: real -> real, before: real, drift: real, disturbance: real,
                    e: real)
    requires IsFormat(fmt) && 0.0 < theta <= 1.0 && t.nominal >= 0.0
    requires Abs(t.nominal - before) <= drift && Abs(t.noise) + 0.00005 <= disturbance && Abs(rpm - before) <= e
    ensures Abs(fmt(StepRPM(rpm, t.nominal, theta, t.noise)) - t.nominal) <= Times(1.0 - theta, e + drift) + disturbance
  {
    var x := StepRPM(rpm, t.nominal, theta, t.noise);
    StepContracts(rpm, t.nominal, theta, t.noise);
    TimesMono(1.0 - theta, Abs(rpm - t.nominal), e + drift);
    assert Abs(fmt(x) - x) <= 0.00005;
  }

  lemma TickError(rpm: real, t: Tick, theta: real, fmt: real -> real, before: real, drift: real, disturbance: real,
                  e: real)
    requires IsFormat(fmt) && 0.0 < theta <= 1.0 && t.nominal >= 0.0
    requires Abs(t.nominal - before) <= drift && Abs(t.noise) + 0.00005 <= disturbance && Abs(rpm - before) <= e
    ensures Abs(After(rpm, t, theta, fmt) - t.nominal) <= ErrorAfter(e, t.ok, 1.0 - theta, drift, disturbance)
  {
    UpdateError(rpm, t, theta, fmt, before, drift, disturbance, e);
  }

  lemma {:induction false} ErrorRuns(rpm: real, nominal: real, ticks: seq<Tick>, theta: real, fmt: real -> real,
                                     drift: real, disturbance: real)
    requires 0.0 < theta <= 1.0 && IsFormat(fmt)
    requires Drifts(nominal, ticks, drift) && Disturbs(ticks, disturbance)
    ensures Abs(Rate(rpm, ticks, theta, fmt) - LastNominal(nominal, ticks))
            <= RunningError(Abs(rpm - nominal), ticks, 1.0 - theta, drift, disturbance)
  {
    if ticks != [] {
      var init, t := ticks[..|ticks| - 1], ticks[|ticks| - 1];
      SplitLast(nominal, ticks, drift, disturbance);
      ErrorRuns(rpm, nominal, init, theta, fmt, drift, disturbance);
      TickError(Rate(rpm, init, theta, fmt), t, theta, fmt, LastNominal(nominal, init), drift, disturbance,
                RunningError(Abs(rpm - nominal), init, 1.0 - theta, drift, disturbance));
    }
  }

  lemma SplitLast(nominal: real, ticks: seq<Tick>, drift: real, disturbance: real)
    requires ticks != [] && Drifts(nominal, ticks, drift) && Disturbs(ticks, disturbance)
    ensures var init, t := ticks[..|ticks| - 1], ticks[|ticks| - 1];
      && Drifts(nominal, init, drift) && Disturbs(init, disturbance)
      && t.nominal >= 0.0 && Abs(t.nominal - LastNominal(nominal, init)) <= drift
      && Abs(t.noise) + 0.00005 <= disturbance
  {
    var init := ticks[..|ticks| - 1];
    assert forall i :: 0 <= i < |init| ==> init[..i] == ticks[..i];
    assert forall t :: t in init ==> t in ticks;
    assert ticks[|ticks| - 1] in ticks;
  }

  /** The error that a long run keeps: drift and disturbance, summed over a geometric series. */
  function Residue(theta: real, drift: real, disturbance: real): real
    requires theta > 0.0
  {
    ((1.0 - theta) * drift + disturbance) / theta
  }

  /** The residue is what one more update reproduces. */
  lemma ResidueIsFixed(theta: real, drift: real, disturbance: real)
    requires 0.0 < theta <= 1.0 && drift >= 0.0 && disturbance >= 0.0
    ensures var r := Residue(theta, drift, disturbance);
      r >= 0.0 && Times(1.0 - theta, r + drift) + disturbance == r
  {
    var r := Residue(theta, drift, disturbance);
    MulMono(0.0, 1.0 - theta, drift);
    assert theta * r == Times(1.0 - theta, drift) + disturbance;
    assert Times(1.0 - theta, r) == r - theta * r;
    TimesSum(1.0 - theta, r, drift);
  }

  /** After successes that shrank by p in all, and f failures. */
  function ClosedForm(p: real, e0: real, residue: real, f: int, drift: real): real {
    p * e0 + residue + f as real * drift
  }

  lemma UpdateClosed(e: real, q: real, drift: real, disturbance: real, p: real, e0: real, r: real, f: nat)
    requires 0.0 <= q <= 1.0 && drift >= 0.0 && Times(q, r + drift) + disturbance == r
    requires e <= ClosedForm(p, e0, r, f, drift)
    ensures Times(q, e + drift) + disturbance <= ClosedForm(Times(q, p), e0, r, f, drift)
  {
    var x, y := p * e0, f as real * drift;
    MulMono(0.0, f as real, drift);
    Split(q, e, drift, disturbance, x, r, y);
    assert Times(q, p) * e0 == Times(q, x);
  }

  lemma Split(q: real, e: real, drift: real, disturbance: real, x: real, r: real, y: real)
    requires 0.0 <= q <= 1.0 && y >= 0.0 && Times(q, r + drift) + disturbance == r && e <= x + r + y
    ensures Times(q, e + drift) + disturbance <= Times(q, x) + r + y
  {
    TimesMono(q, e + drift, x + (r + drift) + y);
    TimesSum(q, x + (r + drift), y);
    TimesSum(q, x, r + drift);
    MulMono(q, 1.0, y);
  }

  lemma FailureClosed(e: real, drift: real, p: real, e0: real, r: real, f: nat)
    requires e <= ClosedForm(p, e0, r, f, drift)
    ensures e + drift <= ClosedForm(p, e0, r, f + 1, drift)
  {
    assert (f + 1) as real * drift == f as real * drift + drift;
  }

  /** The bound in closed form. */
  lemma {:induction false} ErrorClosedForm(e0: real, ticks: seq<Tick>, q: real, drift: real, disturbance: real, r: real)
    requires 0.0 <= q <= 1.0 && drift >= 0.0 && r >= 0.0 && Times(q, r + drift) + disturbance == r
    ensures RunningError(e0, ticks, q, drift, disturbance)
            <= ClosedForm(Pow(q, Successes(ticks)), e0, r, |ticks| - Successes(ticks), drift)
  {
    if ticks != [] {
      var init, t := ticks[..|ticks| - 1], ticks[|ticks| - 1];
      ErrorClosedForm(e0, init, q, drift, disturbance, r);
      var e, s := RunningError(e0, init, q, drift, disturbance), Successes(init);
      if t.ok {
        UpdateClosed(e, q, drift, disturbance, Pow(q, s), e0, r, |init| - s);
      } else {
        FailureClosed(e, drift, Pow(q, s), e0, r, |init| - s);
      }
    }
  }

  /** Tracking over a whole run, with any pattern of failed updates. */
  lemma TrackingBound(rpm: real, nominal: real, ticks: seq<Tick>, theta: real, fmt: real -> real,
                      drift: real, disturbance: real)
    requires 0.0 < theta <= 1.0 && IsFormat(fmt) && drift >= 0.0 && disturbance >= 0.0
    requires Drifts(nominal, ticks, drift) && Disturbs(ticks, disturbance)
    ensures Abs(Rate(rpm, ticks, theta, fmt) - LastNominal(nominal, ticks))
            <= ClosedForm(Pow(1.0 - theta, Successes(ticks)), Abs(rpm - nominal), Residue(theta, drift, disturbance),
                      |ticks| - Successes(ticks), drift)
  {
    ErrorRuns(rpm, nominal, ticks, theta, fmt, drift, disturbance);
    ResidueIsFixed(theta, drift, disturbance);
    ErrorClosedForm(Abs(rpm - nominal), ticks, 1.0 - theta, drift, disturbance, Residue(theta, drift, disturbance));
  }

  // ------------------------------------------------------ rare failures, long runs

  /** How many updates have failed since the last one that took effect. */
  function Trailing(ticks: seq<Tick>): (n: nat)
    ensures n <= |ticks| - Successes(ticks)
  {
    if ticks == [] || ticks[|ticks| - 1].ok then 0 else Trailing(ticks[..|ticks| - 1]) + 1
  }

  /** Never more than g failures in a row. */
  ghost predicate ShortOutages(ticks: seq<Tick>, g: nat) {
    forall i :: 0 <= i <= |ticks| ==> Trailing(ticks[..i]) <= g
  }

  lemma ShortOutagesLast(ticks: seq<Tick>, g: nat)
    requires ticks != [] && ShortOutages(ticks, g)
    ensures ShortOutages(ticks[..|ticks| - 1], g) && Trailing(ticks[..|ticks| - 1]) <= g
  {
    var init := ticks[..|ticks| - 1];
    assert forall i :: 0 <= i <= |init| ==> init[..i] == ticks[..i];
  }

  lemma LongerOutage(c: nat, g: nat, drift: real)
    requires c <= g && drift >= 0.0
    ensures Times((c + 1) as real, drift) <= Times((g + 1) as real, drift)
  {
    MulMono((c + 1) as real, (g + 1) as real, drift);
  }

  lemma UpdateSteady(e: real, q: real, drift: real, disturbance: real, p: real, e0: real, r: real, c: nat, more: real)
    requires 0.0 <= q <= 1.0 && Times((c + 1) as real, drift) <= more && Times(q, r + more) + disturbance == r
    requires e <= ClosedForm(p, e0, r, c, drift)
    ensures Times(q, e + drift) + disturbance <= ClosedForm(Times(q, p), e0, r, 0, drift)
  {
    var x := p * e0;
    assert Times((c + 1) as real, drift) == c as real * drift + drift;
    TimesMono(q, e + drift, x + (r + more));
    TimesSum(q, x, r + more);
    assert Times(q, p) * e0 == Times(q, x);
  }

  /** Only the failures since the last success count, if there are never more than g in a row. */
  lemma {:induction false} SteadyError(e0: real, ticks: seq<Tick>, q: real, drift: real, disturbance: real, r: real,
                                       g: nat, more: real)
    requires 0.0 <= q <= 1.0 && drift >= 0.0 && r >= 0.0 && ShortOutages(ticks, g)
    requires more == Times((g + 1) as real, drift) && Times(q, r + more) + disturbance == r
    ensures RunningError(e0, ticks, q, drift, disturbance)
            <= ClosedForm(Pow(q, Successes(ticks)), e0, r, Trailing(ticks), drift)
  {
    if ticks != [] {
      var init, t := ticks[..|ticks| - 1], ticks[|ticks| - 1];
      ShortOutagesLast(ticks, g);
      SteadyError(e0, init, q, drift, disturbance, r, g, more);
      var e, s := RunningError(e0, init, q, drift, disturbance), Successes(init);
      if t.ok {
        LongerOutage(Trailing(init), g, drift);
        UpdateSteady(e, q, drift, disturbance, Pow(q, s), e0, r, Trailing(init), more);
      } else {
        FailureClosed(e, drift, Pow(q, s), e0, r, Trailing(init));
      }
    }
  }

  /** However long the run and however many updates fail in all: if never more than g fail in a row,
      the walk stays within the forgotten start, a residue for g + 1 drifts, and the drifts since
      the last success. */
  lemma SteadyTracking(rpm: real, nominal: real, ticks: seq<Tick>, theta: real, fmt: real -> real,
                       drift: real, disturbance: real, g: nat)
    requires 0.0 < theta <= 1.0 && IsFormat(fmt) && drift >= 0.0 && disturbance >= 0.0
    requires Drifts(nominal, ticks, drift) && Disturbs(ticks, disturbance) && ShortOutages(ticks, g)
    ensures Abs(Rate(rpm, ticks, theta, fmt) - LastNominal(nominal, ticks))
            <= ClosedForm(Pow(1.0 - theta, Successes(ticks)), Abs(rpm - nominal),
                          Residue(theta, Times((g + 1) as real, drift), disturbance), Trailing(ticks), drift)
  {
    var more := Times((g + 1) as real, drift);
    TimesNonNegative((g + 1) as real, drift);
    ErrorRuns(rpm, nominal, ticks, theta, fmt, drift, disturbance);
    ResidueIsFixed(theta, more, disturbance);
    SteadyError(Abs(rpm - nominal), ticks, 1.0 - theta, drift, disturbance, Residue(theta, more, disturbance), g, more);
  }

  // ------------------------------------------------------------- under phases

  /** The clock readings of consecutive cycles: from `start` on, at most `gap` apart. */
  ghost predicate Clocked(times: seq<int>, start: nat, gap: nat) {
    forall i :: 0 <= i < |times| ==> Before(times, start, i) <= times[i] <= Before(times, start, i) + gap
  }

  function Before(times: seq<int>, start: nat, i: nat): int
    requires i < |times|
  {
    if i == 0 then start else times[i - 1]
  }

  /** How far the nominal can move between two cycles. */
  function PhaseDrift(baseline: real, ps: seq<Phase>, gap: nat): real {
    Times(baseline, Times(MaxSlope(ps, 1.0), gap as real))
  }

  /** Under a phase sequence the nominal moves, between two cycles, by at most the baseline
      times the steepest phase slope times the gap; so the walk tracks it from whatever time on. */
  lemma PhaseTracking(rpm: real, baseline: real, ps: seq<Phase>, start: nat, times: seq<int>, gap: nat,
                      nominal: real, ticks: seq<Tick>, theta: real, fmt: real -> real, disturbance: real)
    requires nominal == Nominal(baseline, Mult(ps, start, 1.0))
    requires ValidPhases(ps) && baseline >= 0.0 && 0.0 < theta <= 1.0 && IsFormat(fmt)
    requires Clocked(times, start, gap) && Disturbs(ticks, disturbance) && disturbance >= 0.0
    requires FollowPhases(baseline, ps, times, ticks)
    ensures Abs(Rate(rpm, ticks, theta, fmt) - LastNominal(nominal, ticks))
            <= ClosedForm(Pow(1.0 - theta, Successes(ticks)), Abs(rpm - nominal),
                          Residue(theta, PhaseDrift(baseline, ps, gap), disturbance),
                          |ticks| - Successes(ticks), PhaseDrift(baseline, ps, gap))
  {
    PhasesDrift(baseline, ps, start, times, gap, nominal, ticks);
    TrackingBound(rpm, nominal, ticks, theta, fmt, PhaseDrift(baseline, ps, gap), disturbance);
  }

  /** The same over long runs with short outages. */
  lemma SteadyPhaseTracking(rpm: real, baseline: real, ps: seq<Phase>, start: nat, times: seq<int>, gap: nat,
                            nominal: real, ticks: seq<Tick>, theta: real, fmt: real -> real, disturbance: real, g: nat)
    requires nominal == Nominal(baseline, Mult(ps, start, 1.0))
    requires ValidPhases(ps) && baseline >= 0.0 && 0.0 < theta <= 1.0 && IsFormat(fmt)
    requires Clocked(times, start, gap) && Disturbs(ticks, disturbance) && disturbance >= 0.0
    requires FollowPhases(baseline, ps, times, ticks) && ShortOutages(ticks, g)
    ensures Abs(Rate(rpm, ticks, theta, fmt) - LastNominal(nominal, ticks))
            <= ClosedForm(Pow(1.0 - theta, Successes(ticks)), Abs(rpm - nominal),
                          Residue(theta, Times((g + 1) as real, PhaseDrift(baseline, ps, gap)), disturbance),
                          Trailing(ticks), PhaseDrift(baseline, ps, gap))
  {
    PhasesDrift(baseline, ps, start, times, gap, nominal, ticks);
    SteadyTracking(rpm, nominal, ticks, theta, fmt, PhaseDrift(baseline, ps, gap), disturbance, g);
  }

  ghost predicate FollowPhases(baseline: real, ps: seq<Phase>, times: seq<int>, ticks: seq<Tick>) {
    && |ticks| == |times|
    && forall i :: 0 <= i < |ticks| ==> ticks[i].nominal == Nominal(baseline, Mult(ps, times[i], 1.0))
  }

  lemma PhasesDrift(baseline: real, ps: seq<Phase>, start: nat, times: seq<int>, gap: nat, nominal: real,
                    ticks: seq<Tick>)
    requires nominal == Nominal(baseline, Mult(ps, start, 1.0))
    requires ValidPhases(ps) && baseline >= 0.0 && Clocked(times, start, gap) && FollowPhases(baseline, ps, times, ticks)
    ensures PhaseDrift(baseline, ps, gap) >= 0.0
    ensures Drifts(nominal, ticks, PhaseDrift(baseline, ps, gap))
  {
    NominalStep(baseline, ps, 0, 0, gap);
    forall i | 0 <= i < |ticks|
      ensures ticks[i].nominal >= 0.0
      ensures Abs(ticks[i].nominal - LastNominal(nominal, ticks[..i])) <= PhaseDrift(baseline, ps, gap)
    {
      ClockNonNegative(times, start, gap, i);
      NominalStep(baseline, ps, Before(times, start, i), times[i], gap);
    }
  }

  lemma {:induction false} ClockNonNegative(times: seq<int>, start: nat, gap: nat, i: nat)
    requires Clocked(times, start, gap) && i < |times|
    ensures 0 <= Before(times, start, i) <= times[i]
  {
    if i > 0 {
      ClockNonNegative(times, start, gap, i - 1);
    }
  }

  lemma NominalStep(baseline: real, ps: seq<Phase>, t: int, t': int, gap: nat)
    requires ValidPhases(ps) && baseline >= 0.0 && 0 <= t <= t' <= t + gap
    ensures Nominal(baseline, Mult(ps, t', 1.0)) >= 0.0
    ensures 0.0 <= Abs(Nominal(baseline, Mult(ps, t', 1.0)) - Nominal(baseline, Mult(ps, t, 1.0)))
                <= PhaseDrift(baseline, ps, gap)
  {
    MultPositive(ps, t');
    MultStep(ps, t, t', gap);
    ScaledStep(baseline, Mult(ps, t, 1.0), Mult(ps, t', 1.0), Times(MaxSlope(ps, 1.0), gap as real));
  }

  lemma MultStep(ps: seq<Phase>, t: int, t': int, gap: nat)
    requires ValidPhases(ps) && 0 <= t <= t' <= t + gap
    ensures Abs(Mult(ps, t', 1.0) - Mult(ps, t, 1.0)) <= Times(MaxSlope(ps, 1.0), gap as real)
  {
    LipschitzAt(ps, t, t', 1.0, MaxSlope(ps, 1.0));
    MaxSlopeNonNegative(ps, 1.0);
    WiderGap(Mult(ps, t, 1.0), Mult(ps, t', 1.0), MaxSlope(ps, 1.0), t' - t, gap);
  }

  lemma WiderGap(x: real, y: real, slope: real, n: nat, gap: nat)
    requires slope >= 0.0 && n <= gap && Within(x, y, slope, n)
    ensures Abs(y - x) <= Times(slope, gap as real)
  {
    TimesMono(slope, n as real, gap as real);
  }

  lemma ScaledStep(baseline: real, x: real, y: real, step: real)
    requires baseline >= 0.0 && y > 0.0 && Abs(y - x) <= step
    ensures Nominal(baseline, y) >= 0.0
    ensures Abs(Nominal(baseline, y) - Nominal(baseline, x)) <= Times(baseline, step)
  {
    AbsScale(baseline, y - x);
    TimesMono(baseline, Abs(y - x), step);
    TimesMono(baseline, 0.0, y);
    assert Nominal(baseline, y) - Nominal(baseline, x) == baseline * (y - x);
  }
}
