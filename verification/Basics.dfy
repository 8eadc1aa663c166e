// Vocabulary shared by the modules of this project.
module Basics {

  datatype Option<+T> = None | Some(value: T)

  /** How a call ends: served, refused without effect, or served with the reply lost, which
      is an error to the caller all the same. */
  datatype Reply = Served | Refused | Lost {
    predicate TookEffect() {
      !Refused?
    }
  }

  function Min(a: int, b: int): int {
    if a <= b then a else b
  }

  function Max(a: int, b: int): int {
    if a >= b then a else b
  }

  /** A set and its image under a function that is injective on it have the same size. */
  lemma {:induction false} InjectiveImage<A, B>(s: set<A>, f: A -> B, t: set<B>)
    requires forall x, y :: x in s && y in s && f(x) == f(y) ==> x == y
    requires forall x :: x in s ==> f(x) in t
    requires forall b :: b in t ==> exists x :: x in s && f(x) == b
    ensures |s| == |t|
  {
    if s == {} {
      assert t == {};
    } else {
      var x :| x in s;
      var s', t' := s - {x}, t - {f(x)};
      forall b | b in t' ensures exists y :: y in s' && f(y) == b {
        var y :| y in s && f(y) == b;
        assert y in s';
      }
      InjectiveImage(s', f, t');
    }
  }

  /** The elements of a sequence without repetitions form a set as large as the sequence. */
  lemma {:induction false} DistinctSeqSize<A>(s: seq<A>, t: set<A>)
    requires forall i, j :: 0 <= i < j < |s| ==> s[i] != s[j]
    requires forall x :: x in t <==> x in s
    ensures |t| == |s|
  {
    if s == [] {
      assert t == {};
    } else {
      var n := |s| - 1;
      DistinctSeqSize(s[..n], t - {s[n]});
    }
  }
}
