/** The `random` module as an explicit generator. Its numbers come from a
    linear congruential step; callers rely only on the promises of `Below`,
    `Choice` and `Sample`, which hold for any generator. */
module Randomness {

  class Rng {
    var state: nat

    constructor (seed: nat)
      ensures state == seed
    {
      state := seed;
    }

    /** A number in `[0, n)`. */
    method Below(n: nat) returns (k: nat)
      requires n > 0
      modifies this
      ensures k < n
    {
      state := (state * 1103515245 + 12345) % 0x8000_0000;
      k := state % n;
    }

    /** `random.choice(xs)`: an element of the non-empty `xs`. */
    method Choice<T>(xs: seq<T>) returns (x: T)
      requires xs != []
      modifies this
      ensures x in xs
    {
      var i := Below(|xs|);
      x := xs[i];
    }

    /** `random.sample(xs, k)`: `k` elements taken from distinct positions
        of `xs`, so a sub-multiset of it. */
    method Sample<T>(xs: seq<T>, k: nat) returns (r: seq<T>)
      requires k <= |xs|
      modifies this
      ensures |r| == k
      ensures multiset(r) <= multiset(xs)
    {
      r := [];
      var pool := xs;
      while |r| < k
        invariant |r| <= k && |r| + |pool| == |xs|
        invariant multiset(r) + multiset(pool) == multiset(xs)
        decreases k - |r|
      {
        var i := Below(|pool|);
        assert pool == pool[..i] + [pool[i]] + pool[i + 1..];
        r := r + [pool[i]];
        pool := pool[..i] + pool[i + 1..];
      }
    }
  }
}
