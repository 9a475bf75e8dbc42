/** Grouping a list by a key, the way `reduce` into an object (JavaScript) or
    a dict filled in a loop (Python) does it: the groups appear in order of
    their key's first occurrence and each keeps the input order. */
module Grouping {
  import opened Common

  /** The keys of `xs` in order of first occurrence (an object's or dict's
      insertion order). */
  function DistinctKeys<T, K(==)>(xs: seq<T>, key: T -> K): (r: seq<K>)
    ensures forall i :: 0 <= i < |xs| ==> key(xs[i]) in r
    ensures forall k :: k in r ==> exists i :: 0 <= i < |xs| && key(xs[i]) == k
    ensures forall i, j :: 0 <= i < j < |r| ==> r[i] != r[j]
  {
    if xs == [] then []
    else
      var init := DistinctKeys(xs[..|xs| - 1], key);
      var k := key(xs[|xs| - 1]);
      assert forall i :: 0 <= i < |xs| - 1 ==> xs[..|xs| - 1][i] == xs[i];
      if k in init then init else init + [k]
  }

  /** The elements with key `k`, in input order. */
  function GroupOf<T, K(==)>(xs: seq<T>, key: T -> K, k: K): (r: seq<T>)
    ensures |r| <= |xs|
    ensures forall y :: y in r ==> y in xs && key(y) == k
  {
    if xs == [] then []
    else
      var init := GroupOf(xs[..|xs| - 1], key, k);
      var x := xs[|xs| - 1];
      if key(x) == k then init + [x] else init
  }

  lemma {:induction false} GroupOfAppend<T, K>(a: seq<T>, b: seq<T>, key: T -> K, k: K)
    ensures GroupOf(a + b, key, k) == GroupOf(a, key, k) + GroupOf(b, key, k)
    decreases |b|
  {
    if b == [] {
      assert a + b == a;
    } else {
      var b' := b[..|b| - 1];
      assert (a + b)[..|a + b| - 1] == a + b';
      GroupOfAppend(a, b', key, k);
    }
  }

  /** Each group holds every occurrence of the elements with its key and nothing
      else, so every element lands in exactly one group. */
  lemma {:induction false} GroupCount<T, K>(xs: seq<T>, key: T -> K, k: K, x: T)
    ensures multiset(GroupOf(xs, key, k))[x] == if key(x) == k then multiset(xs)[x] else 0
    decreases |xs|
  {
    if xs != [] {
      var init := xs[..|xs| - 1];
      assert xs == init + [xs[|xs| - 1]];
      GroupCount(init, key, k, x);
    }
  }

  /** A key that no element carries has an empty group. */
  lemma {:induction false} GroupOfAbsent<T, K>(xs: seq<T>, key: T -> K, k: K)
    requires k !in DistinctKeys(xs, key)
    ensures GroupOf(xs, key, k) == []
    decreases |xs|
  {
    if xs != [] {
      GroupOfAbsent(xs[..|xs| - 1], key, k);
    }
  }

  /** `sum(f(x) for x in xs)`, added left to right. */
  function SumOf<T>(xs: seq<T>, f: T -> real): real
  {
    if xs == [] then 0.0 else SumOf(xs[..|xs| - 1], f) + f(xs[|xs| - 1])
  }

  lemma {:induction false} SumOfAppend<T>(a: seq<T>, b: seq<T>, f: T -> real)
    ensures SumOf(a + b, f) == SumOf(a, f) + SumOf(b, f)
    decreases |b|
  {
    if b == [] {
      assert a + b == a;
    } else {
      var b' := b[..|b| - 1];
      assert (a + b)[..|a + b| - 1] == a + b';
      SumOfAppend(a, b', f);
    }
  }

  /** The group totals for the given keys, added in key order. */
  function SumGroups<T, K(==)>(keys: seq<K>, xs: seq<T>, key: T -> K, f: T -> real): real
  {
    if keys == [] then 0.0
    else SumGroups(keys[..|keys| - 1], xs, key, f) + SumOf(GroupOf(xs, key, keys[|keys| - 1]), f)
  }

  lemma {:induction false} SumGroupsExtend<T, K>(keys: seq<K>, xs: seq<T>, x: T, key: T -> K, f: T -> real)
    requires forall i, j :: 0 <= i < j < |keys| ==> keys[i] != keys[j]
    ensures SumGroups(keys, xs + [x], key, f)
            == SumGroups(keys, xs, key, f) + (if key(x) in keys then f(x) else 0.0)
    decreases |keys|
  {
    if keys != [] {
      var init := keys[..|keys| - 1];
      var last := keys[|keys| - 1];
      assert (xs + [x])[..|xs + [x]| - 1] == xs;
      SumGroupsExtend(init, xs, x, key, f);
      if key(x) == last {
        assert key(x) !in init by {
          forall i | 0 <= i < |init| ensures init[i] != key(x) {
            assert keys[i] != keys[|keys| - 1];
          }
        }
      }
    }
  }

  /** Adding the last element's value to the groups of the keys `keys`. */
  lemma SumGroupsLast<T, K>(keys: seq<K>, xs: seq<T>, key: T -> K, f: T -> real)
    requires xs != []
    requires forall i, j :: 0 <= i < j < |keys| ==> keys[i] != keys[j]
    ensures SumGroups(keys, xs, key, f)
            == SumGroups(keys, xs[..|xs| - 1], key, f) + (if key(xs[|xs| - 1]) in keys then f(xs[|xs| - 1]) else 0.0)
  {
    var init := xs[..|xs| - 1];
    assert xs == init + [xs[|xs| - 1]];
    SumGroupsExtend(keys, init, xs[|xs| - 1], key, f);
  }

  lemma SumGroupsSnocKey<T, K>(d: seq<K>, k: K, xs: seq<T>, key: T -> K, f: T -> real)
    ensures SumGroups(d + [k], xs, key, f) == SumGroups(d, xs, key, f) + SumOf(GroupOf(xs, key, k), f)
  {
    assert (d + [k])[..|d + [k]| - 1] == d;
  }

  /** The last element, when its key is new, is its whole group. */
  lemma NewKeyGroup<T, K>(xs: seq<T>, key: T -> K, f: T -> real)
    requires xs != [] && key(xs[|xs| - 1]) !in DistinctKeys(xs[..|xs| - 1], key)
    ensures SumOf(GroupOf(xs, key, key(xs[|xs| - 1])), f) == f(xs[|xs| - 1])
  {
    var x := xs[|xs| - 1];
    GroupOfAbsent(xs[..|xs| - 1], key, key(x));
    assert GroupOf(xs, key, key(x)) == [x];
    assert [x][..0] == [];
  }

  /** Splitting into groups loses nothing: the group totals add up to the
      total over the whole list. */
  lemma {:induction false} SumGroupsTotal<T, K>(xs: seq<T>, key: T -> K, f: T -> real)
    ensures SumGroups(DistinctKeys(xs, key), xs, key, f) == SumOf(xs, f)
    decreases |xs|
  {
    if xs != [] {
      var init := xs[..|xs| - 1];
      var d := DistinctKeys(init, key);
      SumGroupsTotal(init, key, f);
      SumGroupsLast(d, xs, key, f);
      if key(xs[|xs| - 1]) !in d {
        SumGroupsSnocKey(d, key(xs[|xs| - 1]), xs, key, f);
        NewKeyGroup(xs, key, f);
      }
    }
  }

  /** `[x for x in xs if p(x)]`: the elements satisfying `p`, in input order. */
  function Where<T>(xs: seq<T>, p: T -> bool): (r: seq<T>)
    ensures |r| <= |xs|
    ensures forall x :: x in r ==> x in xs && p(x)
    ensures forall x :: x in xs && p(x) ==> x in r
  {
    if xs == [] then []
    else
      var init := Where(xs[..|xs| - 1], p);
      var x := xs[|xs| - 1];
      assert forall y :: y in xs ==> y in xs[..|xs| - 1] || y == x by {
        assert xs == xs[..|xs| - 1] + [x];
      }
      if p(x) then init + [x] else init
  }

  /** `xs` can be read off `ys` by skipping elements: matched greedily from
      the back. */
  predicate SubsequenceOf<T(==)>(xs: seq<T>, ys: seq<T>)
    decreases |ys|
  {
    if xs == [] then true
    else if ys == [] then false
    else if xs[|xs| - 1] == ys[|ys| - 1] then SubsequenceOf(xs[..|xs| - 1], ys[..|ys| - 1])
    else SubsequenceOf(xs, ys[..|ys| - 1])
  }

  /** Filtering keeps the kept elements in their input order. */
  lemma {:induction false} WhereSubsequence<T>(xs: seq<T>, p: T -> bool)
    ensures SubsequenceOf(Where(xs, p), xs)
    decreases |xs|
  {
    if xs != [] {
      var init := xs[..|xs| - 1];
      WhereSubsequence(init, p);
      var w := Where(init, p);
      if !p(xs[|xs| - 1]) && w != [] {
        assert w[|w| - 1] in w;
      }
    }
  }

  /** Filtering a list ordered by a strictly ascending key keeps it so; in
      particular no kept element appears twice. */
  lemma {:induction false} WhereAscending<T>(xs: seq<T>, p: T -> bool, key: T -> int)
    requires forall i, j :: 0 <= i < j < |xs| ==> key(xs[i]) < key(xs[j])
    ensures forall i, j :: 0 <= i < j < |Where(xs, p)| ==> key(Where(xs, p)[i]) < key(Where(xs, p)[j])
    decreases |xs|
  {
    if xs != [] {
      var init := xs[..|xs| - 1];
      var x := xs[|xs| - 1];
      WhereAscending(init, p, key);
      var w := Where(init, p);
      if p(x) {
        forall i | 0 <= i < |w| ensures key(w[i]) < key(x) {
          assert w[i] in init;
          var k :| 0 <= k < |init| && init[k] == w[i];
          assert init[k] == xs[k];
        }
      }
    }
  }

  /** Filtering keeps every copy of a passing element and no copy of any
      other. */
  lemma {:induction false} WhereCount<T>(xs: seq<T>, p: T -> bool, x: T)
    ensures multiset(Where(xs, p))[x] == if p(x) then multiset(xs)[x] else 0
    decreases |xs|
  {
    if xs != [] {
      var init := xs[..|xs| - 1];
      assert xs == init + [xs[|xs| - 1]];
      WhereCount(init, p, x);
    }
  }

  /** A group keeps its elements in their input order. */
  lemma {:induction false} GroupOfSubsequence<T, K>(xs: seq<T>, key: T -> K, k: K)
    ensures SubsequenceOf(GroupOf(xs, key, k), xs)
    decreases |xs|
  {
    if xs != [] {
      var init := xs[..|xs| - 1];
      GroupOfSubsequence(init, key, k);
      var g := GroupOf(init, key, k);
      if key(xs[|xs| - 1]) != k && g != [] {
        assert g[|g| - 1] in g;
      }
    }
  }

  /** When every element passes, filtering changes nothing. */
  lemma {:induction false} WhereAll<T>(xs: seq<T>, p: T -> bool)
    requires forall i :: 0 <= i < |xs| ==> p(xs[i])
    ensures Where(xs, p) == xs
    decreases |xs|
  {
    if xs != [] {
      var init := xs[..|xs| - 1];
      WhereAll(init, p);
      assert xs == init + [xs[|xs| - 1]];
    }
  }

  lemma {:induction false} SumGroupsOfNothing<T, K>(keys: seq<K>, key: T -> K, f: T -> real)
    ensures SumGroups(keys, [], key, f) == 0.0
    decreases |keys|
  {
    if keys != [] {
      SumGroupsOfNothing(keys[..|keys| - 1], key, f);
    }
  }

  /** Adding up the groups of distinct keys adds up exactly the elements
      whose key is one of them (`p` is that test). */
  lemma {:induction false} SumGroupsCovered<T, K>(keys: seq<K>, xs: seq<T>, key: T -> K, f: T -> real, p: T -> bool)
    requires forall i, j :: 0 <= i < j < |keys| ==> keys[i] != keys[j]
    requires forall x :: x in xs ==> (p(x) <==> key(x) in keys)
    ensures SumGroups(keys, xs, key, f) == SumOf(Where(xs, p), f)
    decreases |xs|
  {
    if xs == [] {
      SumGroupsOfNothing(keys, key, f);
    } else {
      var init := xs[..|xs| - 1];
      var x := xs[|xs| - 1];
      assert xs == init + [x];
      assert x in xs;
      assert forall y :: y in init ==> y in xs;
      SumGroupsCovered(keys, init, key, f, p);
      SumGroupsExtend(keys, init, x, key, f);
      var w := Where(init, p);
      if p(x) {
        assert (w + [x])[..|w|] == w;
      }
    }
  }

  /** With non-negative values, a selection adds up to between zero and the
      whole. */
  lemma {:induction false} WhereSumBound<T>(xs: seq<T>, p: T -> bool, f: T -> real)
    requires forall x :: x in xs ==> f(x) >= 0.0
    ensures 0.0 <= SumOf(Where(xs, p), f) <= SumOf(xs, f)
    decreases |xs|
  {
    if xs != [] {
      var init := xs[..|xs| - 1];
      var x := xs[|xs| - 1];
      assert forall y :: y in init ==> y in xs;
      assert x in xs;
      WhereSumBound(init, p, f);
      var w := Where(init, p);
      if p(x) {
        assert (w + [x])[..|w|] == w;
      }
    }
  }

  /** A test and its negation split a total in two. */
  lemma {:induction false} WhereSplit<T>(xs: seq<T>, p: T -> bool, q: T -> bool, f: T -> real)
    requires forall x :: x in xs ==> (q(x) <==> !p(x))
    ensures SumOf(xs, f) == SumOf(Where(xs, p), f) + SumOf(Where(xs, q), f)
    decreases |xs|
  {
    if xs != [] {
      var init := xs[..|xs| - 1];
      var x := xs[|xs| - 1];
      assert forall y :: y in init ==> y in xs;
      assert x in xs;
      WhereSplit(init, p, q, f);
      var wp, wq := Where(init, p), Where(init, q);
      assert (wp + [x])[..|wp|] == wp;
      assert (wq + [x])[..|wq|] == wq;
    }
  }

  /** A common factor comes out of a sum. */
  lemma {:induction false} SumOfScaled<T>(xs: seq<T>, f: T -> real, g: T -> real, c: real)
    requires forall x :: x in xs ==> g(x) == f(x) * c
    ensures SumOf(xs, g) == SumOf(xs, f) * c
    decreases |xs|
  {
    if xs != [] {
      var init := xs[..|xs| - 1];
      var x := xs[|xs| - 1];
      assert forall y :: y in init ==> y in xs;
      assert x in xs;
      SumOfScaled(init, f, g, c);
      var a := SumOf(init, f);
      assert (a + f(x)) * c == a * c + f(x) * c;
    }
  }

  /** Sums over two sequences agree when they agree position by position. */
  lemma {:induction false} SumOfPointwise<T, U>(xs: seq<T>, f: T -> real, ys: seq<U>, g: U -> real)
    requires |xs| == |ys|
    requires forall i :: 0 <= i < |xs| ==> f(xs[i]) == g(ys[i])
    ensures SumOf(xs, f) == SumOf(ys, g)
    decreases |xs|
  {
    if xs != [] {
      var n := |xs| - 1;
      SumOfPointwise(xs[..n], f, ys[..n], g);
    }
  }

  /** The total of the group with key `k`, as a function of the key. */
  function GroupSum<T, K(==)>(xs: seq<T>, key: T -> K, f: T -> real): K -> real
  {
    (k: K) => SumOf(GroupOf(xs, key, k), f)
  }

  /** The group totals added in key order are a sum over the keys. */
  lemma {:induction false} SumGroupsAsSum<T, K>(keys: seq<K>, xs: seq<T>, key: T -> K, f: T -> real)
    ensures SumGroups(keys, xs, key, f) == SumOf(keys, GroupSum(xs, key, f))
    decreases |keys|
  {
    if keys != [] {
      SumGroupsAsSum(keys[..|keys| - 1], xs, key, f);
    }
  }
}
