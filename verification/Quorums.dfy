/** Majorities of a cluster of `n` servers numbered `0..n`. */
module Quorums {
  import opened FiniteSets

  ghost predicate Quorum(n: nat, q: set<nat>) {
    (forall v :: v in q ==> v < n) && |q| > n / 2
  }

  /** Any two majorities, of any cluster size, share a server. */
  lemma QuorumsMeet(n: nat, a: set<nat>, b: set<nat>) returns (v: nat)
    requires Quorum(n, a) && Quorum(n, b)
    ensures v in a && v in b
  {
    SubsetSize(a + b, Below(n));
    assert |a + b| + |a * b| == |a| + |b|;
    v :| v in a * b;
  }
}
