/** What the elections of both implementations rest on: majorities, and replies that arrive in time. */
module ElectionBasics {

  /** Replica ids are never negative: -1 means "no vote". */
  predicate GoodMembers(members: set<int>) {
    forall n :: n in members ==> n >= 0
  }

  predicate Majority(members: set<int>, q: set<int>) {
    q <= members && |q| * 2 > |members|
  }

  /** Any two majorities of the same members share one. */
  lemma QuorumsMeet(members: set<int>, a: set<int>, b: set<int>) returns (v: int)
    requires Majority(members, a) && Majority(members, b)
    ensures v in a && v in b
  {
    SubsetSize(a + b, members);
    assert |a + b| == |a| + |b| - |a * b|;
    if forall v :: v in a ==> v !in b {
      assert false;
    }
    v :| v in a && v in b;
  }

  lemma SubsetSize(a: set<int>, b: set<int>)
    requires a <= b
    ensures |a| <= |b|
  {
    assert b == a + (b - a);
  }

  /** A reply is timely when its request's term is still current, or when it carries a term
      above both. */
  predicate Timely(current: int, saved: int, replyTerm: int) {
    saved == current || (replyTerm > saved && replyTerm > current)
  }
}
