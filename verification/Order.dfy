// The order that sort.Slice uses on pod names: Go's `<` on strings, which
// compares character by character and puts a proper prefix first.
module Order {

  predicate LexLess(a: string, b: string)
    decreases |a|
  {
    b != "" &&
    (a == "" || a[0] < b[0] || (a[0] == b[0] && LexLess(a[1..], b[1..])))
  }

  lemma {:induction false} LexIrreflexive(a: string)
    ensures !LexLess(a, a)
    decreases |a|
  {
    if a != "" {
      LexIrreflexive(a[1..]);
    }
  }

  lemma {:induction false} LexTransitive(a: string, b: string, c: string)
    requires LexLess(a, b) && LexLess(b, c)
    ensures LexLess(a, c)
    decreases |a|
  {
    if a != "" && a[0] == b[0] == c[0] {
      LexTransitive(a[1..], b[1..], c[1..]);
    }
  }

  lemma {:induction false} LexTotal(a: string, b: string)
    ensures a == b || LexLess(a, b) || LexLess(b, a)
    decreases |a|
  {
    if a != "" && b != "" && a[0] == b[0] {
      LexTotal(a[1..], b[1..]);
      if a[1..] == b[1..] {
        assert a == [a[0]] + a[1..] == b;
      }
    }
  }

  /** a is a proper prefix of b, or has the smaller character where they first differ. */
  ghost predicate Precedes(a: string, b: string) {
    exists k :: 0 <= k <= |a| && k < |b| && a[..k] == b[..k] && (k == |a| || a[k] < b[k])
  }

  lemma SameStart(a: string, b: string)
    requires Precedes(a, b)
    ensures b != "" && (a == "" || a[0] <= b[0])
  {
    var k :| 0 <= k <= |a| && k < |b| && a[..k] == b[..k] && (k == |a| || a[k] < b[k]);
    assert k > 0 ==> a[0] == a[..k][0] && b[0] == b[..k][0];
  }

  /** That is what the comparison amounts to. */
  lemma {:induction false} LexMeaning(a: string, b: string)
    ensures LexLess(a, b) <==> Precedes(a, b)
    decreases |a|
  {
    if a != "" && b != "" && a[0] == b[0] {
      LexMeaning(a[1..], b[1..]);
      if Precedes(a[1..], b[1..]) {
        var k :| 0 <= k <= |a[1..]| && k < |b[1..]| && a[1..][..k] == b[1..][..k] &&
                 (k == |a[1..]| || a[1..][k] < b[1..][k]);
        assert a[..k + 1] == [a[0]] + a[1..][..k] && b[..k + 1] == [b[0]] + b[1..][..k];
      }
      if Precedes(a, b) {
        var k :| 0 <= k <= |a| && k < |b| && a[..k] == b[..k] && (k == |a| || a[k] < b[k]);
        assert k > 0 && a[1..][..k - 1] == a[..k][1..] && b[1..][..k - 1] == b[..k][1..];
      }
    } else if b != "" && (a == "" || a[0] < b[0]) {
      assert a[..0] == b[..0];
    } else if Precedes(a, b) {
      SameStart(a, b);
    }
  }
}
