/**
 * `Array.prototype.sort` with a comparator `(a, b) => key(b) - key(a)`:
 * a stable sort into descending key order (ECMAScript 2019 requires the
 * sort to be stable).  The engine's own algorithm is not part of the
 * source; it is modelled by insertion sort on a sequence.
 */
module Sorting {

  /** The elements of `s` whose key is `v`, in their order in `s`. */
  function WithKey<T>(s: seq<T>, key: T -> int, v: int): (r: seq<T>)
    ensures |r| <= |s|
    ensures forall i :: 0 <= i < |r| ==> key(r[i]) == v
  {
    if s == [] then [] else (if key(s[0]) == v then [s[0]] else []) + WithKey(s[1..], key, v)
  }

  lemma {:induction false} WithKeyAppend<T>(a: seq<T>, b: seq<T>, key: T -> int, v: int)
    ensures WithKey(a + b, key, v) == WithKey(a, key, v) + WithKey(b, key, v)
  {
    if a == [] {
      assert a + b == b;
    } else {
      assert (a + b)[1..] == a[1..] + b;
      WithKeyAppend(a[1..], b, key, v);
    }
  }

  predicate SortedDesc<T>(s: seq<T>, key: T -> int) {
    forall i, j :: 0 <= i < j < |s| ==> key(s[i]) >= key(s[j])
  }

  /** Puts `x` in front of the first element of `s` whose key is not larger than that of `x`. */
  function InsertDesc<T>(x: T, s: seq<T>, key: T -> int): (r: seq<T>)
    ensures multiset(r) == multiset(s) + multiset{x}
    ensures |r| == |s| + 1
  {
    if s == [] || key(x) >= key(s[0]) then [x] + s
    else
      assert s == [s[0]] + s[1..];
      [s[0]] + InsertDesc(x, s[1..], key)
  }

  lemma {:induction false} InsertDescSorted<T>(x: T, s: seq<T>, key: T -> int)
    requires SortedDesc(s, key)
    ensures SortedDesc(InsertDesc(x, s, key), key)
  {
    if s != [] && key(x) < key(s[0]) {
      var t := InsertDesc(x, s[1..], key);
      InsertDescSorted(x, s[1..], key);
      forall i | 0 <= i < |s[1..]| ensures key(s[1..][i]) <= key(s[0]) {
        assert s[1..][i] == s[i + 1];
      }
      InsertDescBounded(x, s[1..], key, key(s[0]));
      var r := [s[0]] + t;
      assert InsertDesc(x, s, key) == r;
      forall i, j | 0 <= i < j < |r| ensures key(r[i]) >= key(r[j]) {
        assert r[j] == t[j - 1];
        if i > 0 {
          assert r[i] == t[i - 1];
        }
      }
    }
  }

  /** Inserting an element no larger than `m` among elements no larger than `m`. */
  lemma {:induction false} InsertDescBounded<T>(x: T, s: seq<T>, key: T -> int, m: int)
    requires key(x) <= m && forall i :: 0 <= i < |s| ==> key(s[i]) <= m
    ensures forall i :: 0 <= i < |InsertDesc(x, s, key)| ==> key(InsertDesc(x, s, key)[i]) <= m
  {
    if s != [] && key(x) < key(s[0]) {
      var t := InsertDesc(x, s[1..], key);
      InsertDescBounded(x, s[1..], key, m);
      var r := [s[0]] + t;
      forall i | 0 <= i < |r| ensures key(r[i]) <= m {
        if i > 0 {
          assert r[i] == t[i - 1];
        }
      }
    }
  }

  /** The stable descending sort of `s` by `key`. */
  function SortDesc<T>(s: seq<T>, key: T -> int): (r: seq<T>)
    ensures multiset(r) == multiset(s) && |r| == |s|
    ensures SortedDesc(r, key)
  {
    if s == [] then [] else
      assert s == [s[0]] + s[1..];
      var t := SortDesc(s[1..], key);
      InsertDescSorted(s[0], t, key);
      InsertDesc(s[0], t, key)
  }

  lemma {:induction false} InsertDescWithKey<T>(x: T, s: seq<T>, key: T -> int, v: int)
    ensures WithKey(InsertDesc(x, s, key), key, v) == (if key(x) == v then [x] else []) + WithKey(s, key, v)
  {
    if s == [] || key(x) >= key(s[0]) {
      assert ([x] + s)[1..] == s;
    } else {
      var t := InsertDesc(x, s[1..], key);
      assert ([s[0]] + t)[1..] == t;
      InsertDescWithKey(x, s[1..], key, v);
    }
  }

  /** Stability: for every key value, the elements with that key keep their relative order. */
  lemma {:induction false} SortDescStable<T>(s: seq<T>, key: T -> int, v: int)
    ensures WithKey(SortDesc(s, key), key, v) == WithKey(s, key, v)
  {
    if s != [] {
      SortDescStable(s[1..], key, v);
      InsertDescWithKey(s[0], SortDesc(s[1..], key), key, v);
    }
  }

  /**
   * Taking the first `k` elements of the sorted sequence: each taken element's
   * key is at least that of every element left out, and among elements with
   * equal keys the ones taken are the earliest in `s`.
   */
  lemma TopOfSortDesc<T>(s: seq<T>, key: T -> int, k: nat, v: int)
    requires k <= |s|
    ensures forall i, j :: 0 <= i < k <= j < |s| ==> key(SortDesc(s, key)[i]) >= key(SortDesc(s, key)[j])
    ensures var top := WithKey(SortDesc(s, key)[..k], key, v);
      |top| <= |WithKey(s, key, v)| && top == WithKey(s, key, v)[..|top|]
  {
    var r := SortDesc(s, key);
    assert r == r[..k] + r[k..];
    WithKeyAppend(r[..k], r[k..], key, v);
    SortDescStable(s, key, v);
  }
  /** The first element with key `v` in `s` is the head of `WithKey(s, key, v)`. */
  lemma {:induction false} WithKeyHead<T>(s: seq<T>, key: T -> int, v: int)
    requires WithKey(s, key, v) != []
    ensures exists i ::
      && 0 <= i < |s| && s[i] == WithKey(s, key, v)[0] && key(s[i]) == v
      && (forall j :: 0 <= j < i ==> key(s[j]) != v)
  {
    if key(s[0]) != v {
      WithKeyHead(s[1..], key, v);
      var i :| 0 <= i < |s[1..]| && s[1..][i] == WithKey(s[1..], key, v)[0] && key(s[1..][i]) == v &&
        (forall j :: 0 <= j < i ==> key(s[1..][j]) != v);
      assert s[i + 1] == WithKey(s, key, v)[0];
    }
  }

  /**
   * `sort(...)[0]`: the head of the sorted sequence is the element of `s` at
   * some index `i` with the largest key, and no earlier element has that key.
   */
  lemma SortDescHead<T>(s: seq<T>, key: T -> int) returns (i: nat)
    requires s != []
    ensures i < |s| && s[i] == SortDesc(s, key)[0]
    ensures forall j :: 0 <= j < |s| ==> key(s[j]) <= key(s[i])
    ensures forall j :: 0 <= j < i ==> key(s[j]) < key(s[i])
  {
    var r := SortDesc(s, key);
    var m := key(r[0]);
    forall j | 0 <= j < |s| ensures key(s[j]) <= m {
      assert s[j] in multiset(r);
      var k :| 0 <= k < |r| && r[k] == s[j];
      assert k == 0 || key(r[0]) >= key(r[k]);
    }
    assert WithKey(r, key, m) != [] && WithKey(r, key, m)[0] == r[0];
    SortDescStable(s, key, m);
    WithKeyHead(s, key, m);
    i :| 0 <= i < |s| && s[i] == WithKey(s, key, m)[0] && key(s[i]) == m &&
      (forall j :: 0 <= j < i ==> key(s[j]) != m);
  }
}
