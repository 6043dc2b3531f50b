/** Facts about sequences shared by the modules: distinct elements, and
    sub-multisets of a sequence without repetitions. */
module Collections {

  predicate NoDuplicates<T(==)>(s: seq<T>) {
    forall i, j :: 0 <= i < j < |s| ==> s[i] != s[j]
  }

  /** Positions drawn without replacement from a sequence without
      repetitions hold no repetitions either. */
  lemma DistinctSubMultiset<T>(r: seq<T>, xs: seq<T>)
    requires NoDuplicates(xs)
    requires multiset(r) <= multiset(xs)
    ensures NoDuplicates(r)
  {
    forall i, j | 0 <= i < j < |r|
      ensures r[i] != r[j]
    {
      if r[i] == r[j] {
        var x := r[i];
        assert multiset(r[..j])[x] >= 1 by {
          assert r[..j][i] == x;
        }
        assert r == r[..j] + [x] + r[j + 1..];
        assert multiset(r)[x] >= 2;
        OnceInDistinct(xs, x);
        assert false;
      }
    }
  }

  /** In a sequence without repetitions every element occurs at most once. */
  lemma {:induction false} OnceInDistinct<T>(xs: seq<T>, x: T)
    requires NoDuplicates(xs)
    ensures multiset(xs)[x] <= 1
  {
    if xs != [] {
      var init := xs[..|xs| - 1];
      assert xs == init + [xs[|xs| - 1]];
      OnceInDistinct(init, x);
      if xs[|xs| - 1] == x {
        forall k | 0 <= k < |init|
          ensures init[k] != x
        {
          assert init[k] == xs[k];
        }
      }
    }
  }
}
