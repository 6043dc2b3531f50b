/** Python's `list.sort(key=..., reverse=True)` and `sorted(..., reverse=True)`:
    a stable sort into non-increasing key order. The key comparison is given
    as `atLeast(a, b)`, "the key of `a` is at least the key of `b`". */
module StableSort {

  /** `atLeast` compares keys: every two elements are comparable and the
      comparison is transitive. */
  ghost predicate TotalPreorder<T(!new)>(atLeast: (T, T) -> bool) {
    && (forall a, b :: atLeast(a, b) || atLeast(b, a))
    && (forall a, b, c :: atLeast(a, b) && atLeast(b, c) ==> atLeast(a, c))
  }

  ghost predicate SortedDesc<T>(s: seq<T>, atLeast: (T, T) -> bool) {
    forall i, j :: 0 <= i < j < |s| ==> atLeast(s[i], s[j])
  }

  predicate SameKey<T>(a: T, b: T, atLeast: (T, T) -> bool) {
    atLeast(a, b) && atLeast(b, a)
  }

  /** The elements of `s` whose key equals the key of `x`, in their order in `s`. */
  function Tied<T>(s: seq<T>, x: T, atLeast: (T, T) -> bool): seq<T> {
    if s == [] then []
    else (if SameKey(s[0], x, atLeast) then [s[0]] else []) + Tied(s[1..], x, atLeast)
  }

  lemma {:induction false} TiedAppend<T>(s: seq<T>, t: seq<T>, x: T, atLeast: (T, T) -> bool)
    ensures Tied(s + t, x, atLeast) == Tied(s, x, atLeast) + Tied(t, x, atLeast)
  {
    if s != [] {
      assert (s + t)[1..] == s[1..] + t;
      TiedAppend(s[1..], t, x, atLeast);
    } else {
      assert s + t == t;
    }
  }

  /** Places `x` after every element whose key is at least that of `x`. */
  function Insert<T>(s: seq<T>, x: T, atLeast: (T, T) -> bool): seq<T> {
    if s == [] then [x]
    else if atLeast(s[0], x) then [s[0]] + Insert(s[1..], x, atLeast)
    else [x] + s
  }

  lemma {:induction false} InsertPermutes<T>(s: seq<T>, x: T, atLeast: (T, T) -> bool)
    ensures multiset(Insert(s, x, atLeast)) == multiset(s) + multiset{x}
  {
    if s != [] && atLeast(s[0], x) {
      InsertPermutes(s[1..], x, atLeast);
      assert s == [s[0]] + s[1..];
    }
  }

  lemma {:induction false} InsertSorted<T(!new)>(s: seq<T>, x: T, atLeast: (T, T) -> bool)
    requires TotalPreorder(atLeast)
    requires SortedDesc(s, atLeast)
    ensures SortedDesc(Insert(s, x, atLeast), atLeast)
  {
    if s != [] && atLeast(s[0], x) {
      InsertSorted(s[1..], x, atLeast);
      var r := Insert(s[1..], x, atLeast);
      InsertPermutes(s[1..], x, atLeast);
      forall j | 0 <= j < |r| ensures atLeast(s[0], r[j]) {
        assert r[j] in multiset(r);
        if r[j] != x {
          assert r[j] in multiset(s[1..]);
          var k :| 0 <= k < |s[1..]| && s[1..][k] == r[j];
          assert s[k + 1] == r[j];
        }
      }
    }
  }

  /** Inserting `x` adds it at the end of the run of elements that share its key. */
  lemma {:induction false} InsertTied<T(!new)>(s: seq<T>, x: T, z: T, atLeast: (T, T) -> bool)
    requires TotalPreorder(atLeast)
    requires SortedDesc(s, atLeast)
    ensures Tied(Insert(s, x, atLeast), z, atLeast)
         == Tied(s, z, atLeast) + (if SameKey(x, z, atLeast) then [x] else [])
  {
    if s == [] {
    } else if atLeast(s[0], x) {
      var r := Insert(s[1..], x, atLeast);
      InsertTied(s[1..], x, z, atLeast);
      assert ([s[0]] + r)[1..] == r;
      assert Tied([s[0]] + r, z, atLeast)
          == (if SameKey(s[0], z, atLeast) then [s[0]] else []) + Tied(r, z, atLeast);
    } else {
      assert ([x] + s)[1..] == s;
      if SameKey(x, z, atLeast) {
        NoneTied(s, x, z, atLeast);
      }
    }
  }

  /** When `x` ranks strictly above the head of a sorted `s`, nothing in `s` shares a key with `x`. */
  lemma {:induction false} NoneTied<T(!new)>(s: seq<T>, x: T, z: T, atLeast: (T, T) -> bool)
    requires TotalPreorder(atLeast)
    requires SortedDesc(s, atLeast)
    requires s != [] && !atLeast(s[0], x)
    requires SameKey(x, z, atLeast)
    ensures Tied(s, z, atLeast) == []
  {
    if |s| > 1 {
      assert atLeast(s[0], s[1]);
      NoneTied(s[1..], x, z, atLeast);
    }
  }

  /** The stable descending sort, by insertion from the left. */
  function SortDesc<T(!new)>(s: seq<T>, atLeast: (T, T) -> bool): (r: seq<T>)
    requires TotalPreorder(atLeast)
    ensures multiset(r) == multiset(s)
    ensures SortedDesc(r, atLeast)
    ensures forall z :: Tied(r, z, atLeast) == Tied(s, z, atLeast)
  {
    if s == [] then []
    else
      var init, last := s[..|s| - 1], s[|s| - 1];
      var sorted := SortDesc(init, atLeast);
      InsertPermutes(sorted, last, atLeast);
      InsertSorted(sorted, last, atLeast);
      assert s == init + [last];
      assert forall z :: Tied(Insert(sorted, last, atLeast), z, atLeast) == Tied(s, z, atLeast) by {
        forall z ensures Tied(Insert(sorted, last, atLeast), z, atLeast) == Tied(s, z, atLeast) {
          InsertTied(sorted, last, z, atLeast);
          TiedAppend(init, [last], z, atLeast);
        }
      }
      Insert(sorted, last, atLeast)
  }

  /** Python's `xs[:n]`. */
  function Take<T>(s: seq<T>, n: nat): (r: seq<T>)
    ensures |r| == if |s| <= n then |s| else n
    ensures r == s[..|r|]
  {
    if |s| <= n then s else s[..n]
  }

  /** The first `n` elements of a sorted sequence are its top `n`: no element
      left out ranks above the last one kept. */
  lemma TakeSortedIsTop<T>(s: seq<T>, n: nat, atLeast: (T, T) -> bool)
    requires n > 0
    requires SortedDesc(s, atLeast)
    ensures var r := Take(s, n);
            && multiset(r) <= multiset(s)
            && forall c :: c in multiset(s) - multiset(r) ==> atLeast(r[|r| - 1], c)
  {
    var r := Take(s, n);
    var rest := s[|r|..];
    assert s == r + rest;
    forall c | c in multiset(s) - multiset(r) ensures atLeast(r[|r| - 1], c) {
      assert c in multiset(rest);
      var k :| 0 <= k < |rest| && rest[k] == c;
      assert s[|r| + k] == c;
    }
  }

  /** A prefix keeps the relative order of the tied elements it holds. */
  lemma {:induction false} TiedPrefix<T>(s: seq<T>, n: nat, z: T, atLeast: (T, T) -> bool)
    requires n <= |s|
    ensures Tied(s, z, atLeast) == Tied(s[..n], z, atLeast) + Tied(s[n..], z, atLeast)
  {
    assert s == s[..n] + s[n..];
    TiedAppend(s[..n], s[n..], z, atLeast);
  }
}
