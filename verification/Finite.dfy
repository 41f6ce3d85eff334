/** Counting facts about sequences without repetition and finite sets. */
module Finite {

  lemma {:induction false} DistinctSize<T>(s: seq<T>)
    requires forall i, j | 0 <= i < j < |s| :: s[i] != s[j]
    ensures |set x | x in s| == |s|
  {
    if s != [] {
      var front, last := s[..|s| - 1], s[|s| - 1];
      DistinctSize(front);
      assert (set x | x in s) == (set x | x in front) + {last};
    }
  }

  lemma {:induction false} SubsetOfSameSize<T>(a: set<T>, b: set<T>)
    requires a <= b
    ensures |a| <= |b|
    ensures |a| == |b| ==> a == b
  {
    if a != {} {
      var x :| x in a;
      SubsetOfSameSize(a - {x}, b - {x});
      assert a == (a - {x}) + {x} && b == (b - {x}) + {x};
    }
  }

  /** More elements than the set holds: one of them is outside. */
  lemma {:induction false} OneOutside<T>(s: seq<T>, a: set<T>) returns (k: nat)
    requires forall i, j | 0 <= i < j < |s| :: s[i] != s[j]
    requires |a| < |s|
    ensures k < |s| && s[k] !in a
  {
    k := |s| - 1;
    if s[k] in a {
      var last := s[k];
      k := OneOutside(s[..k], a - {last});
    }
  }

  /** A finite set in some order. */
  lemma {:induction false} Enumerate<T>(a: set<T>) returns (s: seq<T>)
    ensures forall x :: x in s <==> x in a
    ensures forall i, j | 0 <= i < j < |s| :: s[i] != s[j]
  {
    if a == {} {
      s := [];
    } else {
      var x :| x in a;
      var rest := Enumerate(a - {x});
      s := rest + [x];
    }
  }
}
