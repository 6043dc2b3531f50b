/** Python's counting idiom `counts[k] = counts.get(k, 0) + 1` over a dict,
    which keeps its keys in insertion order, and `max(counts.items(),
    key=lambda x: x[1])`, which returns the first entry of maximal count. */
module Tally {
  import opened Collections

  /** The items of a `Dict[str, int]` of counts, in insertion order. */
  type Counts = seq<(string, nat)>

  function Keys(t: Counts): (r: seq<string>)
    ensures |r| == |t|
    ensures forall k :: 0 <= k < |t| ==> r[k] == t[k].0
  {
    if t == [] then [] else [t[0].0] + Keys(t[1..])
  }

  /** `counts.get(k, 0)`. */
  function CountOf(t: Counts, k: string): nat {
    if t == [] then 0 else if t[0].0 == k then t[0].1 else CountOf(t[1..], k)
  }

  /** `sum(counts.values())`. */
  function SumCounts(t: Counts): nat {
    if t == [] then 0 else t[0].1 + SumCounts(t[1..])
  }

  /** `counts[k] = counts.get(k, 0) + 1`: an existing key keeps its place,
      a new one goes last. */
  function Bump(t: Counts, k: string): Counts {
    if t == [] then [(k, 1)]
    else if t[0].0 == k then [(k, t[0].1 + 1)] + t[1..]
    else [t[0]] + Bump(t[1..], k)
  }

  /** The counts after bumping every element of `xs` in order. */
  function Count(xs: seq<string>): Counts {
    if xs == [] then [] else Bump(Count(xs[..|xs| - 1]), xs[|xs| - 1])
  }

  lemma CountAppend(xs: seq<string>, x: string)
    ensures Count(xs + [x]) == Bump(Count(xs), x)
  {
    assert (xs + [x])[..|xs|] == xs;
  }

  /** Bumping adds one to the bumped key's count and to the total, and
      leaves every other count alone. */
  lemma {:induction false} BumpCounts(t: Counts, x: string, k: string)
    ensures CountOf(Bump(t, x), k) == CountOf(t, k) + (if k == x then 1 else 0)
    ensures SumCounts(Bump(t, x)) == SumCounts(t) + 1
  {
    if t != [] && t[0].0 != x {
      BumpCounts(t[1..], x, k);
      assert Bump(t, x)[1..] == Bump(t[1..], x);
    }
  }

  /** Bumping a key already present keeps the keys; a new key is appended. */
  lemma {:induction false} BumpKeys(t: Counts, x: string)
    ensures Keys(Bump(t, x)) == if x in Keys(t) then Keys(t) else Keys(t) + [x]
  {
    if t != [] && t[0].0 != x {
      BumpKeys(t[1..], x);
      assert Bump(t, x)[1..] == Bump(t[1..], x);
      assert Keys(t) == [t[0].0] + Keys(t[1..]);
    }
  }

  /** The keys are exactly the distinct elements of `xs`, each counted as
      often as it occurs, and the counts add up to `|xs|`. */
  lemma {:induction false} CountSpec(xs: seq<string>)
    ensures NoDuplicates(Keys(Count(xs)))
    ensures forall k :: k in Keys(Count(xs)) <==> k in xs
    ensures forall k :: CountOf(Count(xs), k) == multiset(xs)[k]
    ensures SumCounts(Count(xs)) == |xs|
  {
    if xs != [] {
      var init, x := xs[..|xs| - 1], xs[|xs| - 1];
      assert xs == init + [x];
      CountSpec(init);
      BumpKeys(Count(init), x);
      forall k ensures CountOf(Count(xs), k) == multiset(xs)[k] {
        BumpCounts(Count(init), x, k);
      }
      BumpCounts(Count(init), x, x);
    }
  }

  /** The position `max(counts.items(), key=...)` picks: a maximal count,
      and the first one, because `max` replaces its candidate only on a
      strictly greater count. */
  function FirstMaxIndex(t: Counts): (i: nat)
    requires t != []
    ensures i < |t|
    ensures forall j :: 0 <= j < |t| ==> t[j].1 <= t[i].1
    ensures forall j :: 0 <= j < i ==> t[j].1 < t[i].1
  {
    if |t| == 1 then 0
    else
      var m := FirstMaxIndex(t[..|t| - 1]);
      if t[|t| - 1].1 > t[m].1 then |t| - 1 else m
  }
}
