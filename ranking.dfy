/** Ranking by a numeric key, highest first: what
    `list.sort((a, b) => key(b) - key(a))` does. `Array.prototype.sort` is
    stable, and so is this insertion sort (`SortIsStable`): the elements
    sharing a key keep their input order. */
module Ranking {

  predicate SortedDesc<T>(s: seq<T>, key: T -> int) {
    forall i, j :: 0 <= i < j < |s| ==> key(s[i]) >= key(s[j])
  }

  /** No element occurs twice. */
  predicate NoDuplicates<T(==)>(s: seq<T>) {
    forall i, j :: 0 <= i < j < |s| ==> s[i] != s[j]
  }

  /** `x` placed in front of the first element whose key is not above its own. */
  function Insert<T(==,!new)>(x: T, s: seq<T>, key: T -> int): (r: seq<T>)
    requires SortedDesc(s, key)
    ensures SortedDesc(r, key)
    ensures |r| == |s| + 1 && multiset(r) == multiset(s) + multiset{x}
    ensures forall y :: y in r <==> y == x || y in s
  {
    if s == [] || key(s[0]) <= key(x) then [x] + s
    else
      var rest := Insert(x, s[1..], key);
      assert s == [s[0]] + s[1..];
      assert forall j :: 0 <= j < |rest| ==> key(rest[j]) <= key(s[0]) by {
        forall j | 0 <= j < |rest| ensures key(rest[j]) <= key(s[0]) {
          assert rest[j] in rest;
        }
      }
      [s[0]] + rest
  }

  lemma {:induction false} InsertKeepsDistinct<T(!new)>(x: T, s: seq<T>, key: T -> int)
    requires SortedDesc(s, key) && x !in s && NoDuplicates(s)
    ensures NoDuplicates(Insert(x, s, key))
  {
    if s == [] || key(s[0]) <= key(x) {
      assert forall j :: 0 <= j < |s| ==> ([x] + s)[j + 1] == s[j];
    } else {
      var rest := Insert(x, s[1..], key);
      InsertKeepsDistinct(x, s[1..], key);
      assert s[0] !in rest by {
        assert s[0] != x && s[0] !in s[1..];
      }
      assert forall j :: 0 <= j < |rest| ==> ([s[0]] + rest)[j + 1] == rest[j];
    }
  }

  /** The list ordered by `key`, highest first. */
  function SortDesc<T(==,!new)>(s: seq<T>, key: T -> int): (r: seq<T>)
    ensures SortedDesc(r, key)
    ensures |r| == |s| && multiset(r) == multiset(s)
    ensures forall y :: y in r <==> y in s
  {
    if s == [] then []
    else
      assert s == [s[0]] + s[1..];
      Insert(s[0], SortDesc(s[1..], key), key)
  }

  /** Ranking a list without repetitions repeats nothing. */
  lemma {:induction false} SortKeepsDistinct<T(!new)>(s: seq<T>, key: T -> int)
    requires NoDuplicates(s)
    ensures NoDuplicates(SortDesc(s, key))
  {
    if s != [] {
      SortKeepsDistinct(s[1..], key);
      assert s[0] !in s[1..];
      InsertKeepsDistinct(s[0], SortDesc(s[1..], key), key);
    }
  }

  /** `list.slice(0, n)` of a ranking is the `n` highest, still ranked. */
  lemma TopOfRanking<T>(s: seq<T>, key: T -> int, n: nat)
    requires SortedDesc(s, key) && n <= |s|
    ensures SortedDesc(s[..n], key)
    ensures forall i, j :: 0 <= i < n <= j < |s| ==> key(s[i]) >= key(s[j])
  {
  }

  /** The elements whose key is `k`, in their order. */
  function WithKey<T>(s: seq<T>, key: T -> int, k: int): seq<T> {
    if s == [] then []
    else (if key(s[0]) == k then [s[0]] else []) + WithKey(s[1..], key, k)
  }

  /** Inserting into a ranking puts `x` in front of the elements that share
      its key. */
  lemma {:induction false} InsertWithKey<T(!new)>(x: T, s: seq<T>, key: T -> int, k: int)
    requires SortedDesc(s, key)
    ensures WithKey(Insert(x, s, key), key, k) == (if key(x) == k then [x] else []) + WithKey(s, key, k)
  {
    if s == [] || key(s[0]) <= key(x) {
      assert Insert(x, s, key) == [x] + s;
      assert ([x] + s)[1..] == s;
    } else {
      var rest := Insert(x, s[1..], key);
      assert Insert(x, s, key) == [s[0]] + rest;
      InsertWithKey(x, s[1..], key, k);
      assert ([s[0]] + rest)[1..] == rest;
      assert WithKey([s[0]] + rest, key, k) == (if key(s[0]) == k then [s[0]] else []) + WithKey(rest, key, k);
      assert WithKey(s, key, k) == (if key(s[0]) == k then [s[0]] else []) + WithKey(s[1..], key, k);
    }
  }

  /** Stability: for every key, the elements with that key appear in the
      ranking in the same order as in the input. */
  lemma {:induction false} SortIsStable<T(!new)>(s: seq<T>, key: T -> int, k: int)
    ensures WithKey(SortDesc(s, key), key, k) == WithKey(s, key, k)
  {
    if s != [] {
      SortIsStable(s[1..], key, k);
      InsertWithKey(s[0], SortDesc(s[1..], key), key, k);
    }
  }
}
