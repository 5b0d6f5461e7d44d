/** Majorities of a finite set intersect. */
module Quorum {

  predicate Majority<T>(members: set<T>, q: set<T>) {
    q <= members && |members| < 2 * |q|
  }

  lemma {:induction false} SubsetSize<T>(a: set<T>, b: set<T>)
    requires a <= b
    ensures |a| <= |b|
    decreases |a|
  {
    if a != {} {
      var x :| x in a;
      SubsetSize(a - {x}, b - {x});
    }
  }

  lemma MajoritiesMeet<T>(members: set<T>, a: set<T>, b: set<T>) returns (x: T)
    requires Majority(members, a) && Majority(members, b)
    ensures x in a && x in b
  {
    SubsetSize(a + b, members);
    assert |a + b| == |a| + |b| - |a * b|;
    x :| x in a * b;
  }

  lemma LargerIsMajority<T>(members: set<T>, a: set<T>, b: set<T>)
    requires Majority(members, a) && a <= b <= members
    ensures Majority(members, b)
  {
    SubsetSize(a, b);
  }
}
