/** Finite sets. */
module Sets {
  lemma SubsetCounts<T>(a: set<T>, b: set<T>)
    requires a <= b
    ensures |a| <= |b|
  {
    assert b == a + (b - a);
  }

  lemma ProperSubsetCounts<T>(a: set<T>, b: set<T>)
    requires a < b
    ensures |a| < |b|
  {
    assert b == a + (b - a);
  }

  /** There is always another number. */
  lemma {:induction false} Fresh(ids: set<nat>) returns (id: nat)
    ensures id !in ids && forall d :: d in ids ==> d < id
    decreases |ids|
  {
    id := 0;
    if ids != {} {
      var d :| d in ids;
      var other := Fresh(ids - {d});
      id := if d < other then other else d + 1;
      assert forall e :: e in ids ==> e == d || e in ids - {d};
    }
  }
}
