// Model of pkg/loademulator/phases.go: a piecewise-linear load multiplier that
// chains the ratios of its phases. Times are whole ticks of the clock.
module Phases {
  import opened Basics
  import opened Reals

  /** duration 0 means: hold forever. */
  datatype Phase = Phase(duration: int, ratio: real)

  ghost predicate ValidPhases(ps: seq<Phase>) {
    forall i :: 0 <= i < |ps| ==>
      && ps[i].duration >= 0
      && (ps[i].duration == 0 ==> i == |ps| - 1)
      && (ps[i].duration > 0 ==> ps[i].ratio > 0.0)
  }

  // ------------------------------------------------------------- configuration

  /** An entry of the phase file; the duration is None when it does not parse. */
  datatype Entry = Entry(duration: Option<int>, ratio: real)

  function PhaseOf(e: Entry): Phase
    requires e.duration.Some?
  {
    Phase(e.duration.value, e.ratio)
  }

  function Parsed(entries: seq<Entry>): seq<Phase> {
    seq(|entries|, i requires 0 <= i < |entries| =>
      if entries[i].duration.Some? then PhaseOf(entries[i]) else Phase(-1, 0.0))
  }

  /** The checks of LoadPhasesFromFile accept exactly the non-empty valid configurations. */
  method LoadPhases(entries: seq<Entry>) returns (r: Option<seq<Phase>>)
    ensures r.Some? <==> entries != [] && (forall e :: e in entries ==> e.duration.Some?) && ValidPhases(Parsed(entries))
    ensures r.Some? ==> r.value == Parsed(entries)
  {
    if |entries| == 0 {
      return None;
    }
    var phases: seq<Phase> := [];
    for i := 0 to |entries|
      invariant phases == Parsed(entries)[..i]
      invariant forall k :: 0 <= k < i ==>
                  && entries[k].duration.Some?
                  && phases[k].duration >= 0 && (phases[k].duration == 0 ==> k == |entries| - 1)
                  && (phases[k].duration > 0 ==> phases[k].ratio > 0.0)
    {
      var e := entries[i];
      assert e in entries;
      ghost var parsed := Parsed(entries)[i];
      if e.duration.None? {
        return None;
      }
      var d := e.duration.value;
      if d < 0 {
        return None;
      }
      if d == 0 && i != |entries| - 1 {
        return None;
      }
      if d > 0 && e.ratio <= 0.0 {
        return None;
      }
      phases := phases + [Phase(d, e.ratio)];
    }
    return Some(phases);
  }

  /** What is accepted: durations that parse and are not negative, 0 only at the end, a positive ratio
      for every timed phase; and what is loaded then. */
  lemma LoadsExactly(entries: seq<Entry>)
    ensures (forall e :: e in entries ==> e.duration.Some?) && ValidPhases(Parsed(entries)) <==>
            forall i :: 0 <= i < |entries| ==>
              && entries[i].duration.Some? && entries[i].duration.value >= 0
              && (entries[i].duration == Some(0) ==> i == |entries| - 1)
              && (entries[i].duration == Some(0) || entries[i].ratio > 0.0)
    ensures |Parsed(entries)| == |entries|
    ensures forall i :: 0 <= i < |entries| && entries[i].duration.Some? ==>
              Parsed(entries)[i] == Phase(entries[i].duration.value, entries[i].ratio)
  {
    var ps := Parsed(entries);
    if (forall e :: e in entries ==> e.duration.Some?) && ValidPhases(ps) {
      forall i | 0 <= i < |entries|
        ensures entries[i].duration.Some? && ps[i] == Phase(entries[i].duration.value, entries[i].ratio)
      {
        assert entries[i] in entries;
      }
    }
  }

  // ---------------------------------------------------------------- the curve

  function Fraction(t: int, d: int): real
    requires d > 0
  {
    t as real / d as real
  }

  /** The multiplier at the end of a phase entered at `cum`. */
  function Next(cum: real, p: Phase): real {
    cum * p.ratio
  }

  function Inside(from: real, to: real, t: int, d: int): real
    requires d > 0
  {
    from + Fraction(t, d) * (to - from)
  }

  /** The multiplier `t` after the start of the phases `ps`, entered at multiplier `cum`. */
  function Mult(ps: seq<Phase>, t: int, cum: real): real {
    if ps == [] || ps[0].duration <= 0 then cum
    else if t < ps[0].duration then Inside(cum, Next(cum, ps[0]), t, ps[0].duration)
    else Mult(ps[1..], t - ps[0].duration, Next(cum, ps[0]))
  }

  /** The 1-based index of the active phase; the last one once all are over. */
  function Index(ps: seq<Phase>, t: int): int {
    if ps == [] then 0
    else if ps[0].duration <= 0 || t < ps[0].duration then 1
    else 1 + Index(ps[1..], t - ps[0].duration)
  }

  lemma ValidTail(ps: seq<Phase>)
    requires ps != [] && ValidPhases(ps)
    ensures ValidPhases(ps[1..])
    ensures ps[0].duration == 0 ==> ps[1..] == []
  {
    forall i | 0 <= i < |ps[1..]|
      ensures ps[1..][i].duration >= 0 && (ps[1..][i].duration == 0 ==> i == |ps[1..]| - 1)
      ensures ps[1..][i].duration > 0 ==> ps[1..][i].ratio > 0.0
    {
      assert ps[1..][i] == ps[i + 1];
    }
  }

  lemma MultAtStart(ps: seq<Phase>, cum: real)
    ensures Mult(ps, 0, cum) == cum
  {
  }

  // ------------------------------------------------------------ Lipschitz bound

  /** How fast the multiplier moves inside a phase entered at `cum`. */
  function Slope(p: Phase, cum: real): real
    requires p.duration > 0
  {
    cum * Abs(p.ratio - 1.0) / p.duration as real
  }

  /** max over the timed phases of cum_i * |ratio_i - 1| / duration_i */
  function MaxSlope(ps: seq<Phase>, cum: real): real {
    if ps == [] || ps[0].duration <= 0 then 0.0
    else MaxReal(Slope(ps[0], cum), MaxSlope(ps[1..], Next(cum, ps[0])))
  }

  ghost predicate Lipschitz(ps: seq<Phase>, cum: real, bound: real) {
    forall t: nat, t': nat :: t <= t' ==> Within(Mult(ps, t, cum), Mult(ps, t', cum), bound, t' - t)
  }

  lemma LinearPiece(x: real, d: real, delta: real, bound: real)
    requires x >= 0.0 && d > 0.0 && Abs(delta) <= bound * d
    ensures Abs(x / d * delta) <= bound * x
  {
    var f := x / d;
    assert f * d == x && f >= 0.0;
    assert Abs(f * delta) == f * Abs(delta);
    MulMono(Abs(delta), bound * d, f);
    assert Abs(delta) * f <= bound * d * f;
    assert bound * d * f == bound * (f * d);
  }

  lemma SlopeBounds(p: Phase, cum: real, bound: real)
    requires p.duration > 0 && cum > 0.0
    ensures Slope(p, cum) <= bound <==> Abs(cum * p.ratio - cum) <= bound * p.duration as real
  {
    var d := p.duration as real;
    var r := p.ratio - 1.0;
    assert cum * p.ratio - cum == cum * r;
    assert Abs(cum * r) == cum * Abs(r);
    var s := Slope(p, cum);
    assert s * d == cum * Abs(r);
    if s <= bound {
      MulMono(s, bound, d);
    } else {
      assert (s - bound) * d > 0.0;
    }
  }

  lemma InsidePhase(p: Phase, t: int, t': int, cum: real, next: real, bound: real)
    requires 0 <= t <= t' && p.duration > 0 && cum > 0.0 && next == Next(cum, p) && Slope(p, cum) <= bound
    ensures Abs(Inside(cum, next, t', p.duration) - Inside(cum, next, t, p.duration)) <= bound * (t' - t) as real
  {
    SlopeBounds(p, cum, bound);
    var d, delta := p.duration as real, next - cum;
    var x := (t' - t) as real;
    assert Fraction(t', p.duration) - Fraction(t, p.duration) == x / d;
    LinearPiece(x, d, delta, bound);
    assert Fraction(t', p.duration) * delta - Fraction(t, p.duration) * delta == x / d * delta;
  }

  lemma AddTimes(bound: real, a: int, b: int)
    ensures bound * a as real + bound * b as real == bound * (a + b) as real
  {
    assert (a + b) as real == a as real + b as real;
  }

  lemma InsideEnds(from: real, to: real, d: int)
    requires d > 0
    ensures Inside(from, to, 0, d) == from && Inside(from, to, d, d) == to
  {
    assert Fraction(d, d) == 1.0;
  }

  lemma NonNegative(x: real, n: int)
    requires x >= 0.0 && n >= 0
    ensures x * n as real >= 0.0
  {
  }

  lemma PositiveNext(p: Phase, cum: real) returns (next: real)
    requires cum > 0.0 && p.ratio > 0.0
    ensures next == Next(cum, p) > 0.0
  {
    next := Next(cum, p);
  }

  lemma MultInside(ps: seq<Phase>, t: int, cum: real)
    requires ps != [] && 0 <= t < ps[0].duration
    ensures Mult(ps, t, cum) == Inside(cum, Next(cum, ps[0]), t, ps[0].duration)
  {
  }

  lemma MultBeyond(ps: seq<Phase>, t: int, cum: real)
    requires ps != [] && 0 < ps[0].duration <= t
    ensures Mult(ps, t, cum) == Mult(ps[1..], t - ps[0].duration, Next(cum, ps[0]))
  {
  }

  /** From inside the first phase to beyond it: the pieces meet at its end. */
  lemma CrossingPhase(p: Phase, t: int, t': int, cum: real, next: real, bound: real, after: real)
    requires 0 <= t < p.duration <= t' && cum > 0.0 && next == Next(cum, p) && Slope(p, cum) <= bound
    requires Abs(after - next) <= bound * (t' - p.duration) as real
    ensures Abs(after - Inside(cum, next, t, p.duration)) <= bound * (t' - t) as real
  {
    InsidePhase(p, t, p.duration, cum, next, bound);
    InsideEnds(cum, next, p.duration);
    AddTimes(bound, p.duration - t, t' - p.duration);
  }

  ghost predicate Within(x: real, y: real, bound: real, n: int) {
    Abs(y - x) <= bound * n as real
  }

  lemma BoundInside(ps: seq<Phase>, t: int, t': int, cum: real, bound: real)
    requires ps != [] && cum > 0.0 && 0 <= t <= t' < ps[0].duration && Slope(ps[0], cum) <= bound
    ensures Within(Mult(ps, t, cum), Mult(ps, t', cum), bound, t' - t)
  {
    InsidePhase(ps[0], t, t', cum, Next(cum, ps[0]), bound);
    MultInside(ps, t, cum);
    MultInside(ps, t', cum);
  }

  lemma BoundAcross(ps: seq<Phase>, t: int, t': int, cum: real, bound: real)
    requires ps != [] && cum > 0.0 && 0 <= t < ps[0].duration <= t' && Slope(ps[0], cum) <= bound
    requires var next := Next(cum, ps[0]);
      Within(next, Mult(ps[1..], t' - ps[0].duration, next), bound, t' - ps[0].duration)
    ensures Within(Mult(ps, t, cum), Mult(ps, t', cum), bound, t' - t)
  {
    MultInside(ps, t, cum);
    MultBeyond(ps, t', cum);
    CrossingPhase(ps[0], t, t', cum, Next(cum, ps[0]), bound, Mult(ps, t', cum));
  }

  /** Across phase boundaries, too: the pieces meet, so their bounds add up. */
  lemma {:induction false} LipschitzAt(ps: seq<Phase>, t: int, t': int, cum: real, bound: real)
    requires ValidPhases(ps) && cum > 0.0 && 0 <= t <= t' && bound >= MaxSlope(ps, cum)
    ensures Within(Mult(ps, t, cum), Mult(ps, t', cum), bound, t' - t)
    decreases |ps|
  {
    MaxSlopeNonNegative(ps, cum);
    if ps == [] || ps[0].duration <= 0 {
      NonNegative(bound, t' - t);
    } else if t' < ps[0].duration {
      BoundInside(ps, t, t', cum, bound);
    } else {
      var d := ps[0].duration;
      var next := PositiveNext(ps[0], cum);
      ValidTail(ps);
      LipschitzAt(ps[1..], if t >= d then t - d else 0, t' - d, next, bound);
      MultBeyond(ps, t', cum);
      if t >= d {
        MultBeyond(ps, t, cum);
      } else {
        MultAtStart(ps[1..], next);
        BoundAcross(ps, t, t', cum, bound);
      }
    }
  }

  lemma {:induction false} MaxSlopeNonNegative(ps: seq<Phase>, cum: real)
    requires ValidPhases(ps) && cum > 0.0
    ensures MaxSlope(ps, cum) >= 0.0
    decreases |ps|
  {
    if ps != [] && ps[0].duration > 0 {
      ValidTail(ps);
      MaxSlopeNonNegative(ps[1..], Next(cum, ps[0]));
    }
  }

  lemma FirstSlopeNeeded(ps: seq<Phase>, cum: real, bound: real)
    requires ps != [] && ps[0].duration > 0 && cum > 0.0
    requires Within(Mult(ps, 0, cum), Mult(ps, ps[0].duration, cum), bound, ps[0].duration)
    ensures Slope(ps[0], cum) <= bound
  {
    MultAtStart(ps, cum);
    MultAtStart(ps[1..], Next(cum, ps[0]));
    MultBeyond(ps, ps[0].duration, cum);
    SlopeBounds(ps[0], cum, bound);
  }

  lemma LipschitzTail(ps: seq<Phase>, cum: real, bound: real)
    requires ps != [] && ps[0].duration > 0 && Lipschitz(ps, cum, bound)
    ensures Lipschitz(ps[1..], Next(cum, ps[0]), bound)
  {
    var d, next := ps[0].duration, Next(cum, ps[0]);
    forall t: nat, t': nat | t <= t' ensures Within(Mult(ps[1..], t, next), Mult(ps[1..], t', next), bound, t' - t) {
      MultBeyond(ps, t + d, cum);
      MultBeyond(ps, t' + d, cum);
      assert Within(Mult(ps, t + d, cum), Mult(ps, t' + d, cum), bound, (t' + d) - (t + d));
    }
  }

  /** No smaller constant will do: each phase attains its own slope over its whole length. */
  lemma {:induction false} LipschitzNeeds(ps: seq<Phase>, cum: real, bound: real)
    requires ValidPhases(ps) && cum > 0.0 && bound >= 0.0 && Lipschitz(ps, cum, bound)
    ensures bound >= MaxSlope(ps, cum)
    decreases |ps|
  {
    if ps != [] && ps[0].duration > 0 {
      ValidTail(ps);
      var next := PositiveNext(ps[0], cum);
      assert Within(Mult(ps, 0, cum), Mult(ps, ps[0].duration, cum), bound, ps[0].duration - 0);
      FirstSlopeNeeded(ps, cum, bound);
      LipschitzTail(ps, cum, bound);
      LipschitzNeeds(ps[1..], next, bound);
    }
  }

  /** The multiplier is Lipschitz in elapsed time, and the best constant is the largest slope. */
  lemma BestLipschitzConstant(ps: seq<Phase>, bound: real)
    requires ValidPhases(ps) && bound >= 0.0
    ensures Lipschitz(ps, 1.0, bound) <==> bound >= MaxSlope(ps, 1.0)
  {
    if bound >= MaxSlope(ps, 1.0) {
      forall t: nat, t': nat | t <= t'
        ensures Within(Mult(ps, t, 1.0), Mult(ps, t', 1.0), bound, t' - t)
      {
        LipschitzAt(ps, t, t', 1.0, bound);
      }
    }
    if Lipschitz(ps, 1.0, bound) {
      LipschitzNeeds(ps, 1.0, bound);
    }
  }

  // ------------------------------------------------------------- range and ends

  /** The multipliers at the phase boundaries: start, and the end of each timed phase. */
  function Boundaries(ps: seq<Phase>, cum: real): seq<real> {
    if ps == [] || ps[0].duration <= 0 then [cum]
    else [cum] + Boundaries(ps[1..], Next(cum, ps[0]))
  }

  function TotalTime(ps: seq<Phase>): int {
    if ps == [] || ps[0].duration <= 0 then 0
    else ps[0].duration + TotalTime(ps[1..])
  }

  lemma PartOf(f: real, d: real)
    requires 0.0 <= f <= 1.0
    ensures 0.0 <= d ==> 0.0 <= f * d <= d
    ensures d <= 0.0 ==> d <= f * d <= 0.0
  {
    if d >= 0.0 {
      MulMono(0.0, f, d);
      MulMono(f, 1.0, d);
    } else {
      MulMono(0.0, f, -d);
      MulMono(f, 1.0, -d);
    }
  }

  lemma FractionRange(t: int, d: int)
    requires 0 <= t <= d && d > 0
    ensures 0.0 <= Fraction(t, d) <= 1.0
  {
    CrossMultiply(t as real, d as real, 1.0, 1.0);
  }

  lemma InsideBetween(from: real, to: real, t: int, d: int)
    requires 0 <= t < d
    ensures var x := Inside(from, to, t, d); (from <= x <= to || to <= x <= from)
  {
    FractionRange(t, d);
    PartOf(Fraction(t, d), to - from);
  }

  /** The multiplier stays between the least and the greatest boundary multiplier. */
  lemma {:induction false} MultInRange(ps: seq<Phase>, t: int, cum: real, lo: real, hi: real)
    requires ValidPhases(ps) && t >= 0
    requires forall b :: b in Boundaries(ps, cum) ==> lo <= b <= hi
    ensures lo <= Mult(ps, t, cum) <= hi
    decreases |ps|
  {
    assert Boundaries(ps, cum)[0] == cum;
    if ps != [] && ps[0].duration > 0 {
      var p := ps[0];
      var next := Next(cum, p);
      var rest := Boundaries(ps[1..], next);
      assert Boundaries(ps, cum) == [cum] + rest && rest[0] == next;
      assert rest[0] in rest;
      assert cum in Boundaries(ps, cum) && forall b :: b in rest ==> b in Boundaries(ps, cum);
      ValidTail(ps);
      if t < p.duration {
        InsideBetween(cum, next, t, p.duration);
        MultInside(ps, t, cum);
      } else {
        MultInRange(ps[1..], t - p.duration, next, lo, hi);
      }
    } else {
      assert cum in Boundaries(ps, cum);
    }
  }

  lemma {:induction false} BoundariesPositive(ps: seq<Phase>, cum: real)
    requires ValidPhases(ps) && cum > 0.0
    ensures forall b :: b in Boundaries(ps, cum) ==> b > 0.0
    decreases |ps|
  {
    if ps != [] && ps[0].duration > 0 {
      ValidTail(ps);
      BoundariesPositive(ps[1..], Next(cum, ps[0]));
    }
  }

  lemma {:induction false} LeastBoundary(s: seq<real>) returns (lo: real)
    requires s != []
    ensures lo in s && forall b :: b in s ==> lo <= b
  {
    lo := s[0];
    if |s| > 1 {
      lo := LeastBoundary(s[1..]);
      if s[0] < lo {
        lo := s[0];
      }
      assert s == [s[0]] + s[1..];
    }
  }

  /** The multiplier is always positive. */
  lemma MultPositive(ps: seq<Phase>, t: int)
    requires ValidPhases(ps) && t >= 0
    ensures Mult(ps, t, 1.0) > 0.0
  {
    BoundariesPositive(ps, 1.0);
    var bs := Boundaries(ps, 1.0);
    var lo := LeastBoundary(bs);
    var neg := seq(|bs|, i requires 0 <= i < |bs| => -bs[i]);
    var hi := LeastBoundary(neg);
    forall b | b in bs ensures b <= -hi {
      var i :| 0 <= i < |bs| && bs[i] == b;
      assert neg[i] in neg;
    }
    MultInRange(ps, t, 1.0, lo, -hi);
  }

  /** Once the timed phases are over the multiplier holds at the last boundary. */
  lemma {:induction false} HoldsAtEnd(ps: seq<Phase>, t: int, cum: real)
    requires ValidPhases(ps) && t >= TotalTime(ps)
    ensures var bs := Boundaries(ps, cum); Mult(ps, t, cum) == bs[|bs| - 1]
    ensures Index(ps, t) == |ps|
    decreases |ps|
  {
    if ps != [] {
      ValidTail(ps);
      if ps[0].duration > 0 {
        TotalTimeNonNegative(ps[1..]);
        HoldsAtEnd(ps[1..], t - ps[0].duration, Next(cum, ps[0]));
      }
    }
  }

  lemma {:induction false} TotalTimeNonNegative(ps: seq<Phase>)
    ensures TotalTime(ps) >= 0
    decreases |ps|
  {
    if ps != [] && ps[0].duration > 0 {
      TotalTimeNonNegative(ps[1..]);
    }
  }

  /** The time at which the first `i` phases are over. */
  function BoundaryTime(ps: seq<Phase>, i: nat): int
    requires i <= |ps|
  {
    if i == 0 then 0 else BoundaryTime(ps, i - 1) + ps[i - 1].duration
  }

  lemma {:induction false} BoundaryTimeTail(ps: seq<Phase>, i: nat)
    requires 0 < i <= |ps|
    ensures BoundaryTime(ps, i) == ps[0].duration + BoundaryTime(ps[1..], i - 1)
  {
    if i > 1 {
      BoundaryTimeTail(ps, i - 1);
    }
  }

  lemma {:induction false} BoundaryTimeNonNegative(ps: seq<Phase>, i: nat)
    requires ValidPhases(ps) && i <= |ps|
    ensures BoundaryTime(ps, i) >= 0
  {
    if i > 0 {
      BoundaryTimeNonNegative(ps, i - 1);
    }
  }

  /** One phase later, the multiplier at the boundary has been multiplied by that phase's ratio. */
  lemma {:induction false} BoundaryMult(ps: seq<Phase>, i: nat, cum: real)
    requires ValidPhases(ps) && i < |ps|
    ensures Mult(ps, BoundaryTime(ps, i + 1), cum) ==
            var before := Mult(ps, BoundaryTime(ps, i), cum);
            if ps[i].duration > 0 then Next(before, ps[i]) else before
    decreases i
  {
    ValidTail(ps);
    if i == 0 {
      MultAtStart(ps, cum);
      assert BoundaryTime(ps, 1) == ps[0].duration;
      if ps[0].duration > 0 {
        MultAtStart(ps[1..], Next(cum, ps[0]));
      }
    } else {
      BoundaryTimeTail(ps, i);
      BoundaryTimeTail(ps, i + 1);
      BoundaryTimeNonNegative(ps[1..], i - 1);
      BoundaryTimeNonNegative(ps[1..], i);
      MultBeyond(ps, BoundaryTime(ps, i), cum);
      MultBeyond(ps, BoundaryTime(ps, i + 1), cum);
      BoundaryMult(ps[1..], i - 1, Next(cum, ps[0]));
    }
  }

  /** The product of the ratios of the first k phases. */
  function RatioProduct(ps: seq<Phase>, k: nat): real
    requires k <= |ps|
  {
    if k == 0 then 1.0 else ps[0].ratio * RatioProduct(ps[1..], k - 1)
  }

  lemma {:induction false} MultOnPhase(ps: seq<Phase>, k: nat, x: nat, cum: real, start: real)
    requires ValidPhases(ps) && k < |ps| && (x < ps[k].duration || ps[k].duration == 0)
    requires start == cum * RatioProduct(ps, k)
    ensures Mult(ps, BoundaryTime(ps, k) + x, cum) ==
            if ps[k].duration == 0 then start else Inside(start, Next(start, ps[k]), x, ps[k].duration)
    decreases k
  {
    if k == 0 {
      assert start == cum;
    } else {
      ValidTail(ps);
      BoundaryTimeTail(ps, k);
      BoundaryTimeNonNegative(ps[1..], k - 1);
      ProductFirst(cum, ps[0], RatioProduct(ps[1..], k - 1));
      MultOnPhase(ps[1..], k - 1, x, Next(cum, ps[0]), start);
      MultBeyond(ps, BoundaryTime(ps, k) + x, cum);
    }
  }

  lemma ProductFirst(cum: real, p: Phase, rest: real)
    ensures cum * (p.ratio * rest) == Next(cum, p) * rest
  {
  }

  /** y stands x parts in d of the way from one value to the other. */
  ghost predicate OnLine(y: real, from: real, to: real, x: int, d: int) {
    d as real * (y - from) == x as real * (to - from)
  }

  lemma InsideOnLine(from: real, to: real, x: int, d: int)
    requires d > 0
    ensures OnLine(Inside(from, to, x, d), from, to, x, d)
  {
    var f := Fraction(x, d);
    assert d as real * f == x as real;
    assert d as real * (f * (to - from)) == x as real * (to - from);
  }

  /** x ticks into phase k the multiplier is on the straight line from the product of the ratios
      before it to that product times its own ratio; a final phase without end holds its start. */
  lemma MultExactly(ps: seq<Phase>, k: nat, x: nat)
    requires ValidPhases(ps) && k < |ps| && (x < ps[k].duration || ps[k].duration == 0)
    ensures var mult := Mult(ps, BoundaryTime(ps, k) + x, 1.0);
      if ps[k].duration == 0 then mult == RatioProduct(ps, k)
      else OnLine(mult, RatioProduct(ps, k), RatioProduct(ps, k) * ps[k].ratio, x, ps[k].duration)
  {
    MultOnPhase(ps, k, x, 1.0, RatioProduct(ps, k));
    if ps[k].duration > 0 {
      InsideOnLine(RatioProduct(ps, k), Next(RatioProduct(ps, k), ps[k]), x, ps[k].duration);
    }
  }

  lemma {:induction false} MultBeyondAll(ps: seq<Phase>, t: int, cum: real, end: real)
    requires ValidPhases(ps) && (forall p :: p in ps ==> p.duration > 0) && t >= BoundaryTime(ps, |ps|)
    requires end == cum * RatioProduct(ps, |ps|)
    ensures Mult(ps, t, cum) == end
    decreases |ps|
  {
    if ps == [] {
      assert end == cum;
    } else {
      TimedTail(ps);
      ProductFirst(cum, ps[0], RatioProduct(ps[1..], |ps| - 1));
      MultBeyondAll(ps[1..], t - ps[0].duration, Next(cum, ps[0]), end);
      MultBeyond(ps, t, cum);
    }
  }

  lemma TimedTail(ps: seq<Phase>)
    requires ps != [] && ValidPhases(ps) && forall p :: p in ps ==> p.duration > 0
    ensures ValidPhases(ps[1..]) && (forall p :: p in ps[1..] ==> p.duration > 0)
    ensures 0 < ps[0].duration <= BoundaryTime(ps, |ps|) == ps[0].duration + BoundaryTime(ps[1..], |ps| - 1)
  {
    ValidTail(ps);
    BoundaryTimeTail(ps, |ps|);
    BoundaryTimeNonNegative(ps[1..], |ps| - 1);
    assert ps[0] in ps && forall p :: p in ps[1..] ==> p in ps;
  }

  lemma {:induction false} IndexBeyondAll(ps: seq<Phase>, t: int)
    requires ValidPhases(ps) && (forall p :: p in ps ==> p.duration > 0) && t >= BoundaryTime(ps, |ps|)
    ensures Index(ps, t) == |ps|
    decreases |ps|
  {
    if ps != [] {
      TimedTail(ps);
      IndexBeyondAll(ps[1..], t - ps[0].duration);
    }
  }

  /** Once all phases are over, the multiplier is the product of all ratios, and the index the last one. */
  lemma EndsExactly(ps: seq<Phase>, t: int)
    requires ValidPhases(ps) && (forall p :: p in ps ==> p.duration > 0) && t >= BoundaryTime(ps, |ps|)
    ensures Mult(ps, t, 1.0) == RatioProduct(ps, |ps|) && Index(ps, t) == |ps|
  {
    MultBeyondAll(ps, t, 1.0, RatioProduct(ps, |ps|));
    IndexBeyondAll(ps, t);
  }

  // -------------------------------------------------------------- phase index

  /** The index is that of the phase, counted from 1, in whose time t falls; a final phase without end
      has all the time that is left. */
  lemma {:induction false} IndexExactly(ps: seq<Phase>, k: nat, x: nat)
    requires ValidPhases(ps) && k < |ps| && (x < ps[k].duration || ps[k].duration == 0)
    ensures Index(ps, BoundaryTime(ps, k) + x) == k + 1
    decreases k
  {
    if k > 0 {
      ValidTail(ps);
      BoundaryTimeTail(ps, k);
      BoundaryTimeNonNegative(ps[1..], k - 1);
      IndexExactly(ps[1..], k - 1, x);
    }
  }

  lemma {:induction false} IndexRange(ps: seq<Phase>, t: int)
    ensures 0 <= Index(ps, t) <= |ps| && (ps != [] ==> Index(ps, t) >= 1)
    decreases |ps|
  {
    if ps != [] && ps[0].duration > 0 && t >= ps[0].duration {
      IndexRange(ps[1..], t - ps[0].duration);
    }
  }

  lemma {:induction false} IndexMonotone(ps: seq<Phase>, t: int, t': int)
    requires t <= t'
    ensures Index(ps, t) <= Index(ps, t')
    decreases |ps|
  {
    if ps != [] && ps[0].duration > 0 {
      var d := ps[0].duration;
      if t >= d {
        IndexMonotone(ps[1..], t - d, t' - d);
      } else if t' >= d {
        IndexRange(ps[1..], t' - d);
      }
    }
  }

  // -------------------------------------------------------------- the tracker

  /** PhaseTracker. `lines` counts the transition lines printed so far, `clock` is the
      latest reading of the monotonic clock. */
  class PhaseTracker {
    const phases: seq<Phase>
    var startTime: int
    var started: bool
    var lastPhase: int
    ghost var lines: nat
    ghost var clock: int

    ghost predicate Valid()
      reads this
    {
      && ValidPhases(phases) && phases != []
      && lines <= lastPhase <= |phases|
      && if started then startTime <= clock && lastPhase == Index(phases, clock - startTime) else lastPhase == 0
    }

    constructor (phases: seq<Phase>, now: int)
      requires ValidPhases(phases) && phases != []
      ensures Valid() && !started && this.phases == phases && clock == now && lines == 0
    {
      this.phases := phases;
      startTime, started, lastPhase := 0, false, 0;
      lines, clock := 0, now;
    }

    /** The multiplier follows the curve from the first call on. A call prints a line iff
        the phase changed; by Valid, a tracker never prints more lines than it has phases. */
    method GetMultiplier(now: int) returns (mult: real, phase: int)
      requires Valid() && clock <= now
      modifies this
      ensures Valid() && clock == now && started
      ensures startTime == if old(started) then old(startTime) else now
      ensures mult == Mult(phases, now - startTime, 1.0)
      ensures phase == lastPhase == Index(phases, now - startTime) >= old(lastPhase)
      ensures lines == old(lines) + if phase != old(lastPhase) then 1 else 0
    {
      if !started {
        startTime := now;
        started := true;
      }
      var elapsed := now - startTime;
      IndexRange(phases, elapsed);
      if old(started) {
        IndexMonotone(phases, old(clock) - startTime, elapsed);
      }
      clock := now;

      var cumMult := 1.0;
      var cumTime := 0;
      for i := 0 to |phases|
        invariant elapsed >= cumTime
        invariant Mult(phases, elapsed, 1.0) == Mult(phases[i..], elapsed - cumTime, cumMult)
        invariant Index(phases, elapsed) == i + Index(phases[i..], elapsed - cumTime)
        invariant lastPhase == old(lastPhase) && lines == old(lines)
      {
        var p := phases[i];
        var phaseNum := i + 1;
        assert phases[i..][0] == p && phases[i..][1..] == phases[i + 1..];
        if p.duration == 0 {
          LogTransition(phaseNum);
          return cumMult, phaseNum;
        }
        var phaseEnd := cumTime + p.duration;
        if elapsed < phaseEnd {
          LogTransition(phaseNum);
          var endMult := Next(cumMult, p);
          return Inside(cumMult, endMult, elapsed - cumTime, p.duration), phaseNum;
        }
        cumMult := Next(cumMult, p);
        cumTime := phaseEnd;
      }
      assert phases[|phases|..] == [];
      var finalPhase := |phases|;
      LogTransition(finalPhase);
      return cumMult, finalPhase;
    }

    method LogTransition(phaseNum: int)
      requires lines <= lastPhase <= phaseNum
      modifies this`lastPhase, this`lines
      ensures lastPhase == phaseNum
      ensures lines == old(lines) + if phaseNum != old(lastPhase) then 1 else 0
      ensures lines <= lastPhase
    {
      if phaseNum != lastPhase {
        lines := lines + 1;
        lastPhase := phaseNum;
      }
    }

    /** LogConfig prints, for each phase, the multipliers the tracker returns when that phase
        starts and when it ends; a terminal phase shows the multiplier it holds. */
    method LogConfig() returns (printed: seq<(real, real)>)
      requires Valid()
      ensures |printed| == |phases|
      ensures forall i :: 0 <= i < |phases| ==>
                && printed[i].0 == Mult(phases, BoundaryTime(phases, i), 1.0)
                && printed[i].1 == Mult(phases, BoundaryTime(phases, i + 1), 1.0)
    {
      printed := [];
      var cumMult := 1.0;
      MultAtStart(phases, 1.0);
      for i := 0 to |phases|
        invariant |printed| == i
        invariant cumMult == Mult(phases, BoundaryTime(phases, i), 1.0)
        invariant forall k :: 0 <= k < i ==>
                    && printed[k].0 == Mult(phases, BoundaryTime(phases, k), 1.0)
                    && printed[k].1 == Mult(phases, BoundaryTime(phases, k + 1), 1.0)
      {
        var p := phases[i];
        BoundaryMult(phases, i, 1.0);
        if p.duration == 0 {
          printed := printed + [(cumMult, cumMult)];
        } else {
          var endMult := Next(cumMult, p);
          printed := printed + [(cumMult, endMult)];
          cumMult := endMult;
        }
      }
    }
  }
}
