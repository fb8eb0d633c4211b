/**
 * `Array.prototype.sort` with a numeric comparator, as the lists of the
 * application use it: the sort is stable (ECMAScript 2019 onwards), so it is
 * modelled as an insertion sort on an integer key.  A comparator
 * `(a, b) => f(a) - f(b)` orders by `f` ascending, `(a, b) => f(b) - f(a)`
 * by `f` descending, and a comparator that always answers 0 is a constant key.
 */
module Sorting {
  import opened Text

  /** Keys never decrease along `s`. */
  predicate Ascending<T>(s: seq<T>, key: T -> int) {
    forall i, j :: 0 <= i < j < |s| ==> key(s[i]) <= key(s[j])
  }

  /** Keys never increase along `s`. */
  predicate Descending<T>(s: seq<T>, key: T -> int) {
    forall i, j :: 0 <= i < j < |s| ==> key(s[i]) >= key(s[j])
  }

  /**
   * Puts `x` in front of the first element whose key is not smaller, so
   * `x` stays before elements of equal key that follow it in the input.
   */
  function Insert<T(==)>(x: T, s: seq<T>, key: T -> int): (r: seq<T>)
    requires Ascending(s, key)
    ensures Ascending(r, key)
    ensures |r| == |s| + 1 && multiset(r) == multiset(s) + multiset{x}
    ensures r[0] == x || (s != [] && r[0] == s[0])
  {
    if s == [] || key(x) <= key(s[0]) then
      [x] + s
    else
      assert s == [s[0]] + s[1..];
      [s[0]] + Insert(x, s[1..], key)
  }

  /** A stable sort of `s` by `key`, smallest key first. */
  function SortAsc<T(==)>(s: seq<T>, key: T -> int): (r: seq<T>)
    ensures Ascending(r, key)
    ensures |r| == |s| && multiset(r) == multiset(s)
  {
    if s == [] then
      []
    else
      assert s == [s[0]] + s[1..];
      Insert(s[0], SortAsc(s[1..], key), key)
  }

  /** The key a descending comparator `(a, b) => key(b) - key(a)` sorts by ascending. */
  function Negated<T>(key: T -> int): T -> int {
    x => -key(x)
  }

  /** A stable sort of `s` by `key`, largest key first. */
  function SortDesc<T(==)>(s: seq<T>, key: T -> int): (r: seq<T>)
    ensures Descending(r, key)
    ensures |r| == |s| && multiset(r) == multiset(s)
  {
    SortAsc(s, Negated(key))
  }

  /** A sequence that is already in order is left as it is: the sort is stable. */
  lemma {:induction false} SortAscFixed<T>(s: seq<T>, key: T -> int)
    requires Ascending(s, key)
    ensures SortAsc(s, key) == s
  {
    if s != [] {
      assert Ascending(s[1..], key);
      SortAscFixed(s[1..], key);
    }
  }

  /** A sequence already in descending order is left as it is. */
  lemma SortDescFixed<T>(s: seq<T>, key: T -> int)
    requires Descending(s, key)
    ensures SortDesc(s, key) == s
  {
    SortAscFixed(s, Negated(key));
  }

  /** A comparator that answers 0 for every pair leaves the order of the input alone. */
  lemma SortConstantKey<T>(s: seq<T>, key: T -> int)
    requires forall x, y :: key(x) == key(y)
    ensures SortAsc(s, key) == s && SortDesc(s, key) == s
  {
    SortAscFixed(s, key);
    SortDescFixed(s, key);
  }

  /** Everything behind position `m` of a descending sequence is no larger than anything before it. */
  lemma PrefixDominates<T>(t: seq<T>, m: nat, key: T -> int)
    requires Descending(t, key) && m <= |t|
    ensures multiset(t) - multiset(t[..m]) == multiset(t[m..])
    ensures forall x, y :: x in multiset(t[..m]) && y in multiset(t[m..]) ==> key(y) <= key(x)
  {
    assert t == t[..m] + t[m..];
    forall x, y | x in multiset(t[..m]) && y in multiset(t[m..]) ensures key(y) <= key(x) {
      var i :| 0 <= i < m && t[..m][i] == x;
      var k :| 0 <= k < |t| - m && t[m..][k] == y;
      assert t[i] == x && t[m + k] == y;
    }
  }

  /**
   * `[...s].sort(desc by key).slice(0, n)`: the `n` elements of largest key, in
   * descending order; nothing left out has a larger key than anything kept.
   */
  function Top<T(==)>(s: seq<T>, n: nat, key: T -> int): (r: seq<T>)
    ensures |r| == Min(n, |s|)
    ensures Descending(r, key)
    ensures multiset(r) <= multiset(s)
    ensures forall x, y :: x in multiset(r) && y in multiset(s) - multiset(r) ==> key(y) <= key(x)
  {
    var t := SortDesc(s, key);
    PrefixDominates(t, Min(n, |s|), key);
    t[..Min(n, |s|)]
  }
}
