/** Small vocabulary shared by the other modules. */
module Basics {

  /** Clock readings and durations, in seconds. */
  type Time = real

  datatype Option<+T> = None | Some(value: T) {
    function GetOr(other: T): T {
      if Some? then value else other
    }
  }

  lemma {:induction false} SubsetCardinality<T>(a: set<T>, b: set<T>)
    requires a <= b
    ensures |a| <= |b|
    decreases |a|
  {
    if a != {} {
      var x :| x in a;
      SubsetCardinality(a - {x}, b - {x});
    }
  }

  /** An injective image is as large as its source. */
  lemma {:induction false} InjectiveImageCardinality<S, T>(a: set<S>, f: S -> T, b: set<T>)
    requires forall x :: x in a ==> f(x) in b
    requires forall x, y :: x in a && y in a && f(x) == f(y) ==> x == y
    ensures |a| <= |b|
    decreases |a|
  {
    if a != {} {
      var x :| x in a;
      InjectiveImageCardinality(a - {x}, f, b - {f(x)});
    }
  }

  /** The numbers below `n`. */
  function UpTo(n: nat): set<int> {
    if n == 0 then {} else UpTo(n - 1) + {n - 1}
  }

  lemma {:induction false} UpToCounts(n: nat)
    ensures |UpTo(n)| == n
    ensures forall s :: s in UpTo(n) <==> 0 <= s < n
  {
    if n > 0 {
      UpToCounts(n - 1);
    }
  }
}
