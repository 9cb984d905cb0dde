/** Sizes of finite sets. */
module FiniteSets {

  lemma {:induction false} ProperSubsetSmaller<T>(a: set<T>, b: set<T>)
    requires a < b
    ensures |a| < |b|
  {
    if a != {} {
      var x :| x in a;
      ProperSubsetSmaller(a - {x}, b - {x});
    }
  }

  lemma SubsetSmaller<T>(a: set<T>, b: set<T>)
    requires a <= b
    ensures |a| <= |b|
  {
    if a != b { ProperSubsetSmaller(a, b); }
  }
}
