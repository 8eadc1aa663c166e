// Sums and weighted means over lists of observations.
module Aggregates {
  import opened Basics
  import opened Reals

  function SumOf<T>(s: seq<T>, f: T -> real): real {
    if s == [] then 0.0 else SumOf(s[..|s| - 1], f) + f(s[|s| - 1])
  }

  lemma SumOfAppend<T>(s: seq<T>, x: T, f: T -> real)
    ensures SumOf(s + [x], f) == SumOf(s, f) + f(x)
  {
    assert (s + [x])[..|s|] == s;
  }

  lemma {:induction false} SumOfWithout<T>(s: seq<T>, i: nat, f: T -> real)
    requires i < |s|
    ensures SumOf(s, f) == f(s[i]) + SumOf(s[..i] + s[i + 1..], f)
  {
    var n := |s| - 1;
    if i == n {
      assert s[..i] + s[i + 1..] == s[..n];
    } else {
      SumOfWithout(s[..n], i, f);
      assert s[..i] + s[i + 1..] == (s[..n][..i] + s[..n][i + 1..]) + [s[n]];
      SumOfAppend(s[..n][..i] + s[..n][i + 1..], s[n], f);
    }
  }

  /** Where a permutation puts the last element. */
  lemma Removed<T>(s: seq<T>, t: seq<T>) returns (i: nat)
    requires s != [] && multiset(s) == multiset(t)
    ensures i < |t| && t[i] == s[|s| - 1]
    ensures multiset(s[..|s| - 1]) == multiset(t[..i] + t[i + 1..])
  {
    var x := s[|s| - 1];
    assert x in multiset(s);
    i :| 0 <= i < |t| && t[i] == x;
    TakenOut(s, |s| - 1);
    TakenOut(t, i);
    assert s[..|s| - 1] + s[|s|..] == s[..|s| - 1];
  }

  lemma TakenOut<T>(s: seq<T>, i: nat)
    requires i < |s|
    ensures multiset(s[..i] + s[i + 1..]) == multiset(s) - multiset{s[i]}
  {
    assert s == s[..i] + [s[i]] + s[i + 1..];
  }

  /** A sum does not depend on the order of its terms. */
  lemma {:induction false} SumOfPermuted<T>(s: seq<T>, t: seq<T>, f: T -> real)
    requires multiset(s) == multiset(t)
    ensures SumOf(s, f) == SumOf(t, f)
  {
    if s == [] {
      assert |multiset(t)| == 0;
    } else {
      var i := Removed(s, t);
      SumOfPermuted(s[..|s| - 1], t[..i] + t[i + 1..], f);
      SumOfWithout(t, i, f);
    }
  }

  lemma {:induction false} SumOfBounds<T>(s: seq<T>, f: T -> real, lo: real, hi: real)
    requires forall x :: x in s ==> lo <= f(x) <= hi
    ensures Times(|s| as real, lo) <= SumOf(s, f) <= Times(|s| as real, hi)
  {
    if s != [] {
      var n := |s| - 1;
      assert s[n] in s && forall x :: x in s[..n] ==> x in s;
      SumOfBounds(s[..n], f, lo, hi);
      OneMore(n, lo);
      OneMore(n, hi);
    }
  }

  lemma {:induction false} SumOfNonNegative<T>(s: seq<T>, f: T -> real)
    requires forall x :: x in s ==> f(x) >= 0.0
    ensures SumOf(s, f) >= 0.0
  {
    if s != [] {
      var n := |s| - 1;
      assert s[n] in s && forall x :: x in s[..n] ==> x in s;
      SumOfNonNegative(s[..n], f);
    }
  }

  lemma OneMore(n: nat, x: real)
    ensures Times((n + 1) as real, x) == Times(n as real, x) + x
  {
  }

  // ------------------------------------------------------------ filtering

  /** The images, in order, of the elements that f maps to something. */
  function Keep<A, B>(s: seq<A>, f: A -> Option<B>): seq<B> {
    if s == [] then []
    else
      var rest := Keep(s[..|s| - 1], f);
      match f(s[|s| - 1])
      case Some(y) => rest + [y]
      case None => rest
  }

  lemma {:induction false} KeepConcat<A, B>(s: seq<A>, t: seq<A>, f: A -> Option<B>)
    ensures Keep(s + t, f) == Keep(s, f) + Keep(t, f)
  {
    if t == [] {
      assert s + t == s;
    } else {
      assert (s + t)[..|s + t| - 1] == s + t[..|t| - 1];
      KeepConcat(s, t[..|t| - 1], f);
    }
  }

  lemma KeepOne<A, B>(x: A, f: A -> Option<B>)
    ensures Keep([x], f) == match f(x) case Some(y) => [y] case None => []
  {
    assert [x][..0] == [];
  }

  /** An element that f maps to nothing might as well not be there. */
  lemma KeepSkips<A, B>(s: seq<A>, i: nat, f: A -> Option<B>)
    requires i < |s| && f(s[i]).None?
    ensures Keep(s, f) == Keep(s[..i] + s[i + 1..], f)
  {
    SplitAt(s, i);
    KeepSkipsMiddle(s[..i], s[i], s[i + 1..], f);
  }

  lemma KeepSkipsMiddle<A, B>(a: seq<A>, x: A, b: seq<A>, f: A -> Option<B>)
    requires f(x).None?
    ensures Keep(a + [x] + b, f) == Keep(a + b, f)
  {
    KeepConcat3(a, [x], b, f);
    KeepOne(x, f);
    KeepConcat(a, b, f);
  }

  lemma KeepAround<A, B>(s: seq<A>, i: nat, f: A -> Option<B>)
    requires i < |s|
    ensures Keep(s, f) == Keep(s[..i], f) + Keep([s[i]], f) + Keep(s[i + 1..], f)
  {
    SplitAt(s, i);
    KeepConcat3(s[..i], [s[i]], s[i + 1..], f);
  }

  lemma SplitAt<A>(s: seq<A>, i: nat)
    requires i < |s|
    ensures s == s[..i] + [s[i]] + s[i + 1..]
  {
  }

  lemma KeepConcat3<A, B>(a: seq<A>, b: seq<A>, c: seq<A>, f: A -> Option<B>)
    ensures Keep(a + b + c, f) == Keep(a, f) + Keep(b, f) + Keep(c, f)
  {
    KeepConcat(a + b, c, f);
    KeepConcat(a, b, f);
  }

  lemma KeepWithout<A, B>(s: seq<A>, i: nat, f: A -> Option<B>)
    requires i < |s|
    ensures multiset(Keep(s, f)) == multiset(Keep(s[..i] + s[i + 1..], f)) + multiset(Keep([s[i]], f))
  {
    KeepAround(s, i, f);
    KeepConcat(s[..i], s[i + 1..], f);
  }

  lemma {:induction false} KeepPermuted<A, B>(s: seq<A>, t: seq<A>, f: A -> Option<B>)
    requires multiset(s) == multiset(t)
    ensures multiset(Keep(s, f)) == multiset(Keep(t, f))
  {
    if s == [] {
      assert |multiset(t)| == 0;
    } else {
      var i := Removed(s, t);
      var n := |s| - 1;
      KeepPermuted(s[..n], t[..i] + t[i + 1..], f);
      KeepWithout(t, i, f);
      KeepWithout(s, n, f);
      assert s[..n] + s[n + 1..] == s[..n];
    }
  }

  lemma {:induction false} KeepFrom<A, B>(s: seq<A>, f: A -> Option<B>, y: B) returns (x: A)
    requires y in Keep(s, f)
    ensures x in s && f(x) == Some(y)
  {
    var n := |s| - 1;
    x := s[n];
    if f(x) != Some(y) {
      x := KeepFrom(s[..n], f, y);
    }
  }

  /** If nothing is dropped, each element is kept in its place. */
  lemma {:induction false} KeepAll<A, B>(s: seq<A>, f: A -> Option<B>)
    ensures |Keep(s, f)| <= |s|
    ensures |Keep(s, f)| == |s| ==> forall i :: 0 <= i < |s| ==> f(s[i]) == Some(Keep(s, f)[i])
  {
    if s != [] {
      KeepAll(s[..|s| - 1], f);
    }
  }

  /** Positions in increasing order. */
  ghost predicate Increasing(idx: seq<nat>) {
    forall j, k :: 0 <= j < k < |idx| ==> idx[j] < idx[k]
  }

  lemma IncreasingAppend(idx: seq<nat>, n: nat)
    requires Increasing(idx) && forall i :: i in idx ==> i < n
    ensures Increasing(idx + [n])
  {
    assert forall j :: 0 <= j < |idx| ==> idx[j] in idx;
  }

  /** These are the positions of the elements that f maps to something. */
  ghost predicate Selects<A, B>(s: seq<A>, f: A -> Option<B>, idx: seq<nat>) {
    Increasing(idx) && forall i :: i in idx <==> 0 <= i < |s| && f(s[i]).Some?
  }

  lemma SelectsAppend<A, B>(s: seq<A>, f: A -> Option<B>, idx: seq<nat>)
    requires s != [] && Selects(s[..|s| - 1], f, idx)
    ensures Selects(s, f, if f(s[|s| - 1]).Some? then idx + [|s| - 1] else idx)
  {
    var n := |s| - 1;
    forall i | i in idx ensures i < n && s[i] == s[..n][i] {
    }
    if f(s[n]).Some? {
      IncreasingAppend(idx, n);
      assert forall i :: i in idx + [n] <==> i in idx || i == n;
    }
  }

  /** The k-th image is that of the element at position idx[k]. */
  ghost predicate StandsAt<A, B>(s: seq<A>, f: A -> Option<B>, idx: seq<nat>) {
    |Keep(s, f)| == |idx| && forall k :: 0 <= k < |idx| ==> idx[k] < |s| && f(s[idx[k]]) == Some(Keep(s, f)[k])
  }

  lemma StandsAppend<A, B>(s: seq<A>, f: A -> Option<B>, idx: seq<nat>)
    requires s != [] && StandsAt(s[..|s| - 1], f, idx)
    ensures StandsAt(s, f, if f(s[|s| - 1]).Some? then idx + [|s| - 1] else idx)
  {
    var n := |s| - 1;
    forall k | 0 <= k < |idx| ensures idx[k] < |s| && s[idx[k]] == s[..n][idx[k]] {
    }
  }

  /** Which elements are kept, and where their images stand. */
  lemma {:induction false} KeepPositions<A, B>(s: seq<A>, f: A -> Option<B>) returns (idx: seq<nat>)
    ensures Selects(s, f, idx) && StandsAt(s, f, idx)
  {
    if s == [] {
      idx := [];
    } else {
      var n := |s| - 1;
      idx := KeepPositions(s[..n], f);
      SelectsAppend(s, f, idx);
      StandsAppend(s, f, idx);
      if f(s[n]).Some? {
        idx := idx + [n];
      }
    }
  }

  lemma {:induction false} SumOfSame<T>(s: seq<T>, f: T -> real, g: T -> real)
    requires forall x :: x in s ==> f(x) == g(x)
    ensures SumOf(s, f) == SumOf(s, g)
  {
    if s != [] {
      assert s[|s| - 1] in s && forall x :: x in s[..|s| - 1] ==> x in s;
      SumOfSame(s[..|s| - 1], f, g);
    }
  }

  // --------------------------------------------------------- sums and means

  function Itself(x: real): real {
    x
  }

  function Sum(s: seq<real>): real {
    SumOf(s, Itself)
  }

  lemma {:induction false} SumScaled(ws: seq<real>, f: real, scaled: seq<real>)
    requires |scaled| == |ws| && forall i :: 0 <= i < |ws| ==> scaled[i] == Times(f, ws[i])
    ensures Sum(scaled) == Times(f, Sum(ws))
  {
    if ws != [] {
      var n := |ws| - 1;
      SumScaled(ws[..n], f, scaled[..n]);
      TimesSum(f, Sum(ws[..n]), ws[n]);
    }
  }

  /** sum / weight, or 0 when nothing weighs in. */
  function Mean(sum: real, weight: real): real {
    if weight > 0.0 then sum / weight else 0.0
  }

  /** mean times weight is the sum, and 0 stands for a mean of nothing. */
  ghost predicate IsMean(mean: real, sum: real, weight: real) {
    if weight > 0.0 then mean * weight == sum else mean == 0.0
  }

  lemma MeanExactly(sum: real, weight: real)
    ensures IsMean(Mean(sum, weight), sum, weight)
  {
  }

  /** With `product` the value times the weight, and no weight negative, a weighted sum lies
      between the extremes of the values that carry weight. */
  lemma {:induction false} WeightedBounds<T>(s: seq<T>, value: T -> real, weight: T -> real, product: T -> real,
                                             lo: real, hi: real)
    requires forall x :: x in s ==> Weighs(value(x), weight(x), product(x), lo, hi)
    ensures Times(lo, SumOf(s, weight)) <= SumOf(s, product) <= Times(hi, SumOf(s, weight))
    ensures SumOf(s, weight) >= 0.0
  {
    if s != [] {
      var n := |s| - 1;
      var x := s[n];
      assert x in s && forall y :: y in s[..n] ==> y in s;
      WeightedBounds(s[..n], value, weight, product, lo, hi);
      TimesSum(lo, SumOf(s[..n], weight), weight(x));
      TimesSum(hi, SumOf(s[..n], weight), weight(x));
      WeighsBounds(value(x), weight(x), product(x), lo, hi);
    }
  }

  ghost predicate Weighs(value: real, weight: real, product: real, lo: real, hi: real) {
    && weight >= 0.0 && product == Times(value, weight)
    && (weight > 0.0 ==> lo <= value <= hi)
  }

  lemma WeighsBounds(value: real, weight: real, product: real, lo: real, hi: real)
    requires Weighs(value, weight, product, lo, hi)
    ensures Times(lo, weight) <= product <= Times(hi, weight)
  {
    if weight > 0.0 {
      MulMono(lo, value, weight);
      MulMono(value, hi, weight);
    }
  }

  lemma MeanBetween(sum: real, weight: real, lo: real, hi: real)
    requires weight > 0.0 && Times(lo, weight) <= sum <= Times(hi, weight)
    ensures lo <= Mean(sum, weight) <= hi
  {
    var m := sum / weight;
    assert sum == m * weight;
    Cancel(m - lo, weight);
    Cancel(hi - m, weight);
  }
}
