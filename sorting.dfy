/** `ORDER BY key DESC` over rows fetched in id order: an insertion sort,
    newest (largest key) first. */
module Sorting {
  predicate Descending<T>(xs: seq<T>, key: T -> int)
  {
    forall i, j :: 0 <= i < j < |xs| ==> key(xs[i]) >= key(xs[j])
  }

  lemma SortedHead<T>(xs: seq<T>, key: T -> int)
    requires Descending(xs, key) && xs != []
    ensures forall y :: y in xs[1..] ==> key(xs[0]) >= key(y)
  {
    forall y | y in xs[1..] ensures key(xs[0]) >= key(y) {
      var k :| 0 <= k < |xs[1..]| && xs[1..][k] == y;
      assert xs[k + 1] == y;
    }
  }

  lemma ConsSorted<T>(a: T, rest: seq<T>, key: T -> int)
    requires Descending(rest, key)
    requires forall y :: y in rest ==> key(a) >= key(y)
    ensures Descending([a] + rest, key)
  {
    var s := [a] + rest;
    forall i, j | 0 <= i < j < |s| ensures key(s[i]) >= key(s[j]) {
      assert s[j] == rest[j - 1];
      if i > 0 {
        assert s[i] == rest[i - 1];
      } else {
        assert rest[j - 1] in rest;
      }
    }
  }

  /** Places `x` after every element whose key is at least its own. */
  function InsertDesc<T>(x: T, xs: seq<T>, key: T -> int): (r: seq<T>)
    requires Descending(xs, key)
    ensures Descending(r, key)
    ensures multiset(r) == multiset(xs) + multiset{x}
    ensures forall y :: y in r ==> y in xs || y == x
  {
    if xs == [] then [x]
    else if key(xs[0]) >= key(x) then
      assert Descending(xs[1..], key);
      var rest := InsertDesc(x, xs[1..], key);
      assert xs == [xs[0]] + xs[1..];
      SortedHead(xs, key);
      ConsSorted(xs[0], rest, key);
      [xs[0]] + rest
    else
      SortedHead(xs, key);
      ConsSorted(x, xs, key);
      [x] + xs
  }

  /** Largest key first, a permutation of the input. */
  function SortDesc<T>(xs: seq<T>, key: T -> int): (r: seq<T>)
    ensures Descending(r, key)
    ensures multiset(r) == multiset(xs)
  {
    if xs == [] then []
    else
      assert xs == xs[..|xs| - 1] + [xs[|xs| - 1]];
      InsertDesc(xs[|xs| - 1], SortDesc(xs[..|xs| - 1], key), key)
  }

  /** The sort keeps exactly the input's elements. */
  lemma SortDescMembers<T>(xs: seq<T>, key: T -> int)
    ensures forall x :: x in SortDesc(xs, key) <==> x in xs
  {
    var r := SortDesc(xs, key);
    forall x ensures x in r <==> x in xs {
      assert x in r <==> x in multiset(r);
      assert x in xs <==> x in multiset(xs);
    }
  }

  /** An element found at two positions occurs at least twice. */
  lemma TwiceCounted<T>(ys: seq<T>, i: int, j: int)
    requires 0 <= i < j < |ys| && ys[i] == ys[j]
    ensures multiset(ys)[ys[i]] >= 2
  {
    assert ys == ys[..j] + ys[j..];
    assert ys[i] in ys[..j];
    assert ys[j] in ys[j..];
  }

  /** An element occurring at least twice is found at two positions. */
  lemma TwicePlaced<T>(xs: seq<T>, y: T) returns (i: int, j: int)
    requires multiset(xs)[y] >= 2
    ensures 0 <= i < j < |xs| && xs[i] == y && xs[j] == y
  {
    assert y in multiset(xs);
    var k :| 0 <= k < |xs| && xs[k] == y;
    assert xs == xs[..k] + [y] + xs[k + 1..];
    assert multiset(xs)[y] == multiset(xs[..k])[y] + 1 + multiset(xs[k + 1..])[y];
    if y in xs[..k] {
      var m :| 0 <= m < k && xs[..k][m] == y;
      i, j := m, k;
    } else {
      var m :| 0 <= m < |xs| - k - 1 && xs[k + 1..][m] == y;
      i, j := k, k + 1 + m;
    }
  }

  /** A reordering of rows with pairwise distinct ids still has pairwise
      distinct ids: sorting never repeats a row. */
  lemma DistinctIdsPermuted<T>(xs: seq<T>, ys: seq<T>, id: T -> int)
    requires multiset(ys) == multiset(xs)
    requires forall i, j :: 0 <= i < j < |xs| ==> id(xs[i]) != id(xs[j])
    ensures forall i, j :: 0 <= i < j < |ys| ==> id(ys[i]) != id(ys[j])
  {
    forall i, j | 0 <= i < j < |ys| ensures id(ys[i]) != id(ys[j]) {
      if id(ys[i]) == id(ys[j]) {
        assert ys[i] in multiset(xs) && ys[j] in multiset(xs);
        var a :| 0 <= a < |xs| && xs[a] == ys[i];
        var b :| 0 <= b < |xs| && xs[b] == ys[j];
        assert a == b;
        TwiceCounted(ys, i, j);
        var p, q := TwicePlaced(xs, ys[i]);
        assert false;
      }
    }
  }
}
