/** The array pipeline steps the views use: `filter`, a stable `sort` by a numeric
    key, `slice(0, n)` and a `reduce` that adds a numeric field. */
module Sequences {

  /** `Array.prototype.filter`. */
  function Filter<T(!new)>(s: seq<T>, keep: T -> bool): (r: seq<T>)
    ensures |r| <= |s|
    ensures forall i :: 0 <= i < |r| ==> keep(r[i])
  {
    if s == [] then []
    else
      var rest := Filter(s[1..], keep);
      if keep(s[0]) then
        assert ([s[0]] + rest)[1..] == rest;
        [s[0]] + rest
      else rest
  }

  /** The filter keeps exactly the elements satisfying `keep`, each as often as in `s`. */
  lemma {:induction false} FilterContents<T(!new)>(s: seq<T>, keep: T -> bool)
    ensures forall x :: multiset(Filter(s, keep))[x] == if keep(x) then multiset(s)[x] else 0
  {
    if s != [] {
      assert s == [s[0]] + s[1..];
      FilterContents(s[1..], keep);
    }
  }

  lemma {:induction false} FilterAppend<T(!new)>(a: seq<T>, b: seq<T>, keep: T -> bool)
    ensures Filter(a + b, keep) == Filter(a, keep) + Filter(b, keep)
  {
    if a == [] {
      assert a + b == b;
    } else {
      assert (a + b)[0] == a[0];
      assert (a + b)[1..] == a[1..] + b;
      FilterAppend(a[1..], b, keep);
    }
  }

  /** The kept elements sit at strictly increasing positions of `s`. */
  lemma {:induction false} FilterPositions<T(!new)>(s: seq<T>, keep: T -> bool) returns (pos: seq<nat>)
    ensures |pos| == |Filter(s, keep)|
    ensures forall i :: 0 <= i < |pos| ==> pos[i] < |s| && Filter(s, keep)[i] == s[pos[i]]
    ensures forall i, j :: 0 <= i < j < |pos| ==> pos[i] < pos[j]
  {
    if s == [] {
      return [];
    }
    var r, rest := Filter(s, keep), Filter(s[1..], keep);
    var tail := FilterPositions(s[1..], keep);
    var shifted := Shift(tail);
    forall i | 0 <= i < |shifted|
      ensures shifted[i] < |s| && rest[i] == s[shifted[i]]
    {
      assert s[1..][tail[i]] == s[tail[i] + 1];
    }
    if keep(s[0]) {
      assert r == [s[0]] + rest;
      pos := [0] + shifted;
      forall i | 0 <= i < |pos|
        ensures pos[i] < |s| && r[i] == s[pos[i]]
      {
        if i > 0 {
          assert pos[i] == shifted[i - 1] && r[i] == rest[i - 1];
        }
      }
      forall i, j | 0 <= i < j < |pos|
        ensures pos[i] < pos[j]
      {
        assert pos[j] == shifted[j - 1];
        if i > 0 {
          assert pos[i] == shifted[i - 1];
        }
      }
    } else {
      assert r == rest;
      pos := shifted;
    }
  }

  /** Every position moved one place right. */
  function Shift(pos: seq<nat>): (r: seq<nat>)
    ensures |r| == |pos|
    ensures forall i :: 0 <= i < |r| ==> r[i] == pos[i] + 1
  {
    if pos == [] then [] else [pos[0] + 1] + Shift(pos[1..])
  }

  /** Keeping every element is the identity. */
  lemma {:induction false} FilterKeepsAll<T(!new)>(s: seq<T>, keep: T -> bool)
    requires forall i :: 0 <= i < |s| ==> keep(s[i])
    ensures Filter(s, keep) == s
  {
    if s != [] {
      FilterKeepsAll(s[1..], keep);
    }
  }

  /** `slice(0, n)`: the first `n` elements, or all of them when there are fewer. */
  function Take<T>(s: seq<T>, n: nat): (r: seq<T>)
    ensures |r| == if |s| < n then |s| else n
    ensures r == s[..|r|]
  {
    if |s| <= n then s else s[..n]
  }

  ghost predicate SortedBy<T>(s: seq<T>, key: T -> int)
  {
    forall i, j :: 0 <= i < j < |s| ==> key(s[i]) <= key(s[j])
  }

  /** Inserts `x` before the first element whose key is not smaller, so that `x`
      stays ahead of the equal elements that followed it. */
  function Insert<T>(x: T, s: seq<T>, key: T -> int): (r: seq<T>)
    ensures multiset(r) == multiset(s) + multiset{x}
  {
    if s == [] || key(x) <= key(s[0]) then [x] + s
    else
      assert s == [s[0]] + s[1..];
      [s[0]] + Insert(x, s[1..], key)
  }

  /** Inserting into a sorted sequence keeps it sorted. */
  lemma {:induction false} InsertSorted<T>(x: T, s: seq<T>, key: T -> int)
    requires SortedBy(s, key)
    ensures SortedBy(Insert(x, s, key), key)
  {
    if s == [] || key(x) <= key(s[0]) {
      var r := [x] + s;
      forall i, j | 0 <= i < j < |r|
        ensures key(r[i]) <= key(r[j])
      {
        assert r[j] == s[j - 1];
        if i > 0 {
          assert r[i] == s[i - 1];
        }
      }
    } else {
      var rest := Insert(x, s[1..], key);
      InsertSorted(x, s[1..], key);
      forall j | 0 <= j < |rest|
        ensures key(s[0]) <= key(rest[j])
      {
        assert rest[j] in multiset(rest);
        if rest[j] != x {
          assert rest[j] in multiset(s[1..]);
          var k :| 0 <= k < |s[1..]| && s[1..][k] == rest[j];
          assert s[k + 1] == rest[j];
        }
      }
      var r := [s[0]] + rest;
      forall i, j | 0 <= i < j < |r|
        ensures key(r[i]) <= key(r[j])
      {
        assert r[j] == rest[j - 1];
        if i > 0 {
          assert r[i] == rest[i - 1];
        }
      }
    }
  }

  /** A stable sort in ascending order of `key` (the engine's `Array.prototype.sort`
      with a comparator that subtracts keys). */
  function SortBy<T>(s: seq<T>, key: T -> int): (r: seq<T>)
    ensures multiset(r) == multiset(s)
    ensures |r| == |s|
    ensures SortedBy(r, key)
  {
    if s == [] then []
    else
      assert s == [s[0]] + s[1..];
      var r := Insert(s[0], SortBy(s[1..], key), key);
      InsertSorted(s[0], SortBy(s[1..], key), key);
      assert |r| == |multiset(r)|;
      r
  }

  /** The first `n` elements of a sorted sequence are sorted, come from it, and none
      of them has a larger key than an element that was left out. */
  lemma TakeSorted<T>(s: seq<T>, key: T -> int, n: nat)
    requires SortedBy(s, key)
    ensures SortedBy(Take(s, n), key)
    ensures multiset(Take(s, n)) <= multiset(s)
    ensures forall x :: x in s && x !in Take(s, n) ==>
              forall i :: 0 <= i < |Take(s, n)| ==> key(Take(s, n)[i]) <= key(x)
  {
    var r := Take(s, n);
    var rest := s[|r|..];
    assert s == r + rest;
    assert multiset(s) == multiset(r) + multiset(rest);
    forall x | x in s && x !in r
      ensures forall i :: 0 <= i < |r| ==> key(r[i]) <= key(x)
    {
      assert x in multiset(s) && x !in multiset(r);
      assert x in multiset(rest);
      var j :| 0 <= j < |rest| && rest[j] == x;
      assert s[|r| + j] == x;
    }
  }

  /** The first `n` after sorting: at most `n` elements of `s`, in key order, and no
      element left out has a smaller key than one that was taken. */
  lemma TopBy<T>(s: seq<T>, key: T -> int, n: nat)
    ensures var r := Take(SortBy(s, key), n);
            && |r| == (if |s| < n then |s| else n)
            && SortedBy(r, key)
            && multiset(r) <= multiset(s)
            && (forall x :: x in s && x !in r ==> forall i :: 0 <= i < |r| ==> key(r[i]) <= key(x))
  {
    var sorted := SortBy(s, key);
    TakeSorted(sorted, key, n);
    forall x | x in s
      ensures x in sorted
    {
      assert x in multiset(sorted);
    }
  }

  /** `findIndex`-style search: the position of the first element satisfying `p`,
      or `|s|` when there is none. */
  function FirstWhere<T>(s: seq<T>, p: T -> bool): (r: nat)
    ensures r <= |s| && (r < |s| ==> p(s[r]))
    ensures forall i :: 0 <= i < r ==> !p(s[i])
  {
    if s == [] || p(s[0]) then 0 else 1 + FirstWhere(s[1..], p)
  }

  /** One element left out by sort-then-slice: no taken element has a larger key. */
  lemma TopByLeftOut<T>(s: seq<T>, key: T -> int, n: nat, x: T)
    requires x in s && x !in Take(SortBy(s, key), n)
    ensures forall i :: 0 <= i < |Take(SortBy(s, key), n)| ==> key(Take(SortBy(s, key), n)[i]) <= key(x)
  {
    var sorted := SortBy(s, key);
    assert x in multiset(s);
    assert x in sorted;
    TakeSorted(sorted, key, n);
  }

  /** `reduce((total, x) => total + value(x), 0)`: a left fold. */
  function SumOf<T>(s: seq<T>, value: T -> int): int
  {
    if s == [] then 0 else SumOf(s[..|s| - 1], value) + value(s[|s| - 1])
  }

  /** A sum of values that are never negative is not negative. */
  lemma {:induction false} SumOfNonNegative<T>(s: seq<T>, value: T -> int)
    requires forall i :: 0 <= i < |s| ==> value(s[i]) >= 0
    ensures SumOf(s, value) >= 0
  {
    if s != [] {
      var init := s[..|s| - 1];
      forall i | 0 <= i < |init| ensures value(init[i]) >= 0 {
        assert init[i] == s[i];
      }
      SumOfNonNegative(init, value);
    }
  }

  lemma {:induction false} SumOfAppend<T>(a: seq<T>, b: seq<T>, value: T -> int)
    ensures SumOf(a + b, value) == SumOf(a, value) + SumOf(b, value)
  {
    if b != [] {
      assert (a + b)[..|a + b| - 1] == a + b[..|b| - 1];
      SumOfAppend(a, b[..|b| - 1], value);
    } else {
      assert a + b == a;
    }
  }

  /** Taking one element out of the fold subtracts exactly its value. */
  lemma {:induction false} SumOfWithout<T>(b: seq<T>, i: nat, value: T -> int)
    requires i < |b|
    ensures SumOf(b, value) == SumOf(b[..i] + b[i + 1..], value) + value(b[i])
  {
    var p, x, q := b[..i], b[i], b[i + 1..];
    assert b == p + ([x] + q);
    SumOfAppend(p, [x] + q, value);
    SumOfAppend([x], q, value);
    SumOfAppend(p, q, value);
    assert SumOf([x], value) == SumOf([], value) + value(x) by {
      assert [x][..0] == [];
    }
  }

  /** Removing the last element of `a` and an equal element of `b` keeps two permutations permutations. */
  lemma RemoveMatching<T>(a: seq<T>, b: seq<T>, i: nat)
    requires a != [] && i < |b| && b[i] == a[|a| - 1]
    requires multiset(a) == multiset(b)
    ensures multiset(a[..|a| - 1]) == multiset(b[..i] + b[i + 1..])
  {
    var x := a[|a| - 1];
    assert a == a[..|a| - 1] + [x];
    assert b == b[..i] + [x] + b[i + 1..];
    var ma, mb := multiset(a[..|a| - 1]), multiset(b[..i] + b[i + 1..]);
    assert ma + multiset{x} == mb + multiset{x};
    forall y
      ensures ma[y] == mb[y]
    {
      assert (ma + multiset{x})[y] == (mb + multiset{x})[y];
    }
    assert ma == mb;
  }

  /** The fold does not depend on the order of the elements. */
  lemma {:induction false} SumOfPermutation<T>(a: seq<T>, b: seq<T>, value: T -> int)
    requires multiset(a) == multiset(b)
    ensures SumOf(a, value) == SumOf(b, value)
    decreases |a|
  {
    if a == [] {
      assert |b| == |multiset(b)| == 0;
    } else {
      var x := a[|a| - 1];
      assert x in multiset(b) by {
        assert x in multiset(a);
      }
      var i :| 0 <= i < |b| && b[i] == x;
      RemoveMatching(a, b, i);
      SumOfPermutation(a[..|a| - 1], b[..i] + b[i + 1..], value);
      SumOfWithout(b, i, value);
    }
  }
}
