/** Sizes of sets and their subsets. */
module SetSizes {
  lemma SubsetSize<T>(a: set<T>, b: set<T>)
    requires a <= b
    ensures |a| <= |b|
  {
    if a != b {
      assert b == a + (b - a) && a !! (b - a);
    }
  }

  lemma SubsetSizes<T>(a: set<T>, b: set<T>, c: set<T>)
    requires a <= b + c
    ensures |a| <= |b| + |c|
  {
    SubsetSize(a, b + c);
    assert b + c == b + (c - b) && b !! (c - b);
    SubsetSize(c - b, c);
  }
}
