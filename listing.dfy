/** The table-and-query layer the services sit on: a table is a map from id to
    row, and a derived query such as `findByCategoryOrderByDisplayOrderAsc`
    lists the rows that satisfy a filter, ordered by a key. */
module Listing {

  /** No value occurs twice in `s`. */
  ghost predicate Distinct<T(!new)>(s: seq<T>) {
    forall x :: multiset(s)[x] <= 1
  }

  /** `s` is ordered by `key`, smallest first. */
  ghost predicate Ascending<T(!new)>(s: seq<T>, key: T -> int) {
    forall i, j :: 0 <= i < j < |s| ==> key(s[i]) <= key(s[j])
  }

  /** `s` is strictly ordered by `key`, so no key occurs twice. */
  ghost predicate StrictlyAscending<T(!new)>(s: seq<T>, key: T -> int) {
    forall i, j :: 0 <= i < j < |s| ==> key(s[i]) < key(s[j])
  }

  /** Every row is stored under its own id. */
  ghost predicate Keyed<T(!new)>(m: map<nat, T>, id: T -> nat) {
    forall k :: k in m ==> id(m[k]) == k
  }

  /** No two ids hold the same row. */
  ghost predicate Injective<T(!new)>(m: map<nat, T>) {
    forall a, b :: a in m && b in m && m[a] == m[b] ==> a == b
  }

  /** `r` lists every row of `m` that satisfies `keep`, each exactly once, and nothing else. */
  ghost predicate ListsExactly<T(!new)>(r: seq<T>, m: map<nat, T>, keep: T -> bool) {
    forall x :: multiset(r)[x] == if x in m.Values && keep(x) then 1 else 0
  }

  /** `r` is `s` with some elements left out and the rest in their original order. */
  ghost predicate Subsequence<T(!new)>(r: seq<T>, s: seq<T>)
    decreases |s|
  {
    if r == [] then true
    else if s == [] then false
    else (r[0] == s[0] && Subsequence(r[1..], s[1..])) || Subsequence(r, s[1..])
  }

  /** Updating a key of a union is updating it in the right-hand map. */
  lemma UnionUpdate<T>(a: map<nat, T>, b: map<nat, T>, k: nat, v: T)
    ensures (a + b)[k := v] == a + b[k := v]
  {
  }

  lemma KeyedIsInjective<T(!new)>(m: map<nat, T>, id: T -> nat)
    requires Keyed(m, id)
    ensures Injective(m)
  {
  }

  /** The smallest element of a non-empty set of ids. */
  ghost function Least(s: set<nat>): (k: nat)
    requires s != {}
    ensures k in s && forall j :: j in s ==> k <= j
  {
    var x :| x in s;
    var rest := s - {x};
    if rest == {} then
      assert forall j :: j in s ==> j == x || j in rest;
      x
    else
      var m := Least(rest);
      assert forall j :: j in s ==> j == x || j in rest;
      if x < m then x else m
  }

  /** The smallest id in a non-empty table. */
  function MinKey<T(==, !new)>(m: map<nat, T>): (k: nat)
    requires m != map[]
    ensures k in m && forall j :: j in m ==> k <= j
  {
    assert m.Keys != {} by { var j :| j in m; }
    assert Least(m.Keys) in m;
    var k :| k in m && forall j :: j in m ==> k <= j; k
  }

  /** The rows of a table, in ascending id order. */
  function Rows<T(==, !new)>(m: map<nat, T>): (r: seq<T>)
    ensures |r| == |m|
    ensures forall x :: x in r <==> x in m.Values
    ensures Injective(m) ==> forall x :: multiset(r)[x] == if x in m.Values then 1 else 0
    decreases |m|
  {
    if m == map[] then []
    else
      var k := MinKey(m);
      var rest := m - {k};
      assert rest.Keys == m.Keys - {k};
      assert m.Values == rest.Values + {m[k]} by {
        forall x | x in m.Values ensures x in rest.Values + {m[k]} {
          var j :| j in m && m[j] == x;
          if j != k { assert rest[j] == x; }
        }
      }
      assert Injective(m) ==> m[k] !in rest.Values by {
        if Injective(m) {
          forall j | j in rest ensures rest[j] != m[k] {
            assert rest[j] == m[j];
          }
        }
      }
      assert Injective(m) ==> Injective(rest);
      [m[k]] + Rows(rest)
  }

  /** The elements of `s` that satisfy `keep`, in the order of `s` (JavaScript's `Array.filter`). */
  function Filter<T(==, !new)>(s: seq<T>, keep: T -> bool): (r: seq<T>)
    ensures forall x :: multiset(r)[x] == if keep(x) then multiset(s)[x] else 0
    ensures |r| <= |s|
  {
    if s == [] then []
    else
      assert s == [s[0]] + s[1..];
      if keep(s[0]) then [s[0]] + Filter(s[1..], keep) else Filter(s[1..], keep)
  }

  /** `Filter` keeps the relative order of what it keeps. */
  lemma {:induction false} FilterKeepsOrder<T(!new)>(s: seq<T>, keep: T -> bool)
    ensures Subsequence(Filter(s, keep), s)
  {
    if s != [] {
      FilterKeepsOrder(s[1..], keep);
    }
  }

  /** Everything in a subsequence of `s` is in `s`. */
  lemma {:induction false} SubsequenceMembers<T(!new)>(r: seq<T>, s: seq<T>)
    requires Subsequence(r, s)
    ensures forall x :: x in r ==> x in s
    decreases |s|
  {
    if r != [] {
      if r[0] == s[0] && Subsequence(r[1..], s[1..]) {
        SubsequenceMembers(r[1..], s[1..]);
        forall x | x in r ensures x in s {
          if x != r[0] {
            assert r == [r[0]] + r[1..];
            assert x in r[1..];
          }
        }
      } else {
        SubsequenceMembers(r, s[1..]);
      }
    }
  }

  /** Leaving elements out of a strictly ordered sequence keeps it strictly ordered. */
  lemma {:induction false} SubsequenceKeepsStrictOrder<T(!new)>(r: seq<T>, s: seq<T>, key: T -> int)
    requires Subsequence(r, s) && StrictlyAscending(s, key)
    ensures StrictlyAscending(r, key)
    decreases |s|
  {
    if r != [] {
      var tail := s[1..];
      assert StrictlyAscending(tail, key) by {
        forall i, j | 0 <= i < j < |tail| ensures key(tail[i]) < key(tail[j]) {
          assert tail[i] == s[i + 1] && tail[j] == s[j + 1];
        }
      }
      if r[0] == s[0] && Subsequence(r[1..], tail) {
        SubsequenceKeepsStrictOrder(r[1..], tail, key);
        SubsequenceMembers(r[1..], tail);
        forall i, j | 0 <= i < j < |r| ensures key(r[i]) < key(r[j]) {
          assert r[j] == r[1..][j - 1];
          if i == 0 {
            assert r[j] in tail;
            var k :| 0 <= k < |tail| && tail[k] == r[j];
            assert s[k + 1] == r[j];
          } else {
            assert r[i] == r[1..][i - 1];
          }
        }
      } else {
        SubsequenceKeepsStrictOrder(r, tail, key);
      }
    }
  }

  /** Inserts `x` into the sorted `s` ahead of every element with a key at least as large. */
  function InsertBy<T(==, !new)>(x: T, s: seq<T>, key: T -> int): (r: seq<T>)
    requires Ascending(s, key)
    ensures multiset(r) == multiset(s) + multiset{x}
    ensures Ascending(r, key)
    ensures |r| == |s| + 1
    ensures r[0] == x || (|s| > 0 && r[0] == s[0])
  {
    if s == [] then [x]
    else if key(x) <= key(s[0]) then
      AscendingCons(x, s, key);
      [x] + s
    else
      var t := InsertBy(x, s[1..], key);
      assert s == [s[0]] + s[1..];
      assert key(s[0]) <= key(t[0]);
      AscendingCons(s[0], t, key);
      [s[0]] + t
  }

  /** Putting an element no larger than the head in front of an ascending sequence keeps it ascending. */
  lemma AscendingCons<T(!new)>(h: T, t: seq<T>, key: T -> int)
    requires Ascending(t, key)
    requires |t| > 0 ==> key(h) <= key(t[0])
    ensures Ascending([h] + t, key)
  {
    var r := [h] + t;
    forall i, j | 0 <= i < j < |r| ensures key(r[i]) <= key(r[j]) {
      if i == 0 {
        assert r[j] == t[j - 1];
        if j > 1 {
          assert key(t[0]) <= key(t[j - 1]);
        }
      } else {
        assert r[i] == t[i - 1] && r[j] == t[j - 1];
      }
    }
  }

  /** `s` ordered by `key`, smallest first; elements with equal keys keep their relative order. */
  function SortBy<T(==, !new)>(s: seq<T>, key: T -> int): (r: seq<T>)
    ensures multiset(r) == multiset(s)
    ensures Ascending(r, key)
  {
    if s == [] then []
    else
      assert s == [s[0]] + s[1..];
      InsertBy(s[0], SortBy(s[1..], key), key)
  }

  /** A derived query `findBy<keep>OrderBy<key>Asc` over a table whose rows carry their own id. */
  function Query<T(==, !new)>(m: map<nat, T>, id: T -> nat, keep: T -> bool, key: T -> int): (r: seq<T>)
    requires Keyed(m, id)
    ensures ListsExactly(r, m, keep)
    ensures Ascending(r, key)
  {
    KeyedIsInjective(m, id);
    SortBy(Filter(Rows(m), keep), key)
  }

  /** A listing is duplicate-free, and membership in it is exactly "stored and kept". */
  lemma {:induction false} ListsExactlyMembers<T(!new)>(r: seq<T>, m: map<nat, T>, keep: T -> bool)
    requires ListsExactly(r, m, keep)
    ensures Distinct(r)
    ensures forall x :: x in r <==> x in m.Values && keep(x)
  {
    forall x ensures x in r <==> x in m.Values && keep(x) {
      assert x in r <==> multiset(r)[x] > 0;
    }
  }
}
