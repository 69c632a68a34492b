/** Stable sorting by a total preorder, as the standard library's `sort_by`, and what it determines. */
module Sorting {

  ghost predicate Preorder<T(!new)>(le: (T, T) -> bool) {
    (forall a, b :: le(a, b) || le(b, a)) && (forall a, b, c :: le(a, b) && le(b, c) ==> le(a, c))
  }

  predicate Sorted<T>(s: seq<T>, le: (T, T) -> bool) {
    forall i, j :: 0 <= i < j < |s| ==> le(s[i], s[j])
  }

  function Inserted<T>(x: T, s: seq<T>, le: (T, T) -> bool): seq<T> {
    if s == [] || le(x, s[0]) then [x] + s else [s[0]] + Inserted(x, s[1..], le)
  }

  function Sort<T>(s: seq<T>, le: (T, T) -> bool): seq<T> {
    if s == [] then [] else Inserted(s[0], Sort(s[1..], le), le)
  }

  lemma {:induction false} InsertedContents<T>(x: T, s: seq<T>, le: (T, T) -> bool)
    ensures multiset(Inserted(x, s, le)) == multiset(s) + multiset{x}
  {
    if s != [] && !le(x, s[0]) {
      InsertedContents(x, s[1..], le);
      assert s == [s[0]] + s[1..];
    }
  }

  lemma {:induction false} InsertedSorted<T(!new)>(x: T, s: seq<T>, le: (T, T) -> bool)
    requires Preorder(le) && Sorted(s, le)
    ensures Sorted(Inserted(x, s, le), le)
  {
    if s == [] {
    } else if le(x, s[0]) {
      var r := [x] + s;
      forall j | 0 < j < |r| ensures le(x, r[j]) { assert r[j] == s[j - 1]; }
    } else {
      InsertedSorted(x, s[1..], le);
      InsertedContents(x, s[1..], le);
      var r := Inserted(x, s[1..], le);
      forall i | 0 <= i < |r| ensures le(s[0], r[i]) {
        assert r[i] in multiset(r);
        assert r[i] == x || r[i] in s[1..];
      }
    }
  }

  lemma {:induction false} SortContents<T>(s: seq<T>, le: (T, T) -> bool)
    ensures multiset(Sort(s, le)) == multiset(s)
  {
    if s != [] {
      SortContents(s[1..], le);
      InsertedContents(s[0], Sort(s[1..], le), le);
      assert s == [s[0]] + s[1..];
    }
  }

  lemma {:induction false} SortSorts<T(!new)>(s: seq<T>, le: (T, T) -> bool)
    requires Preorder(le)
    ensures Sorted(Sort(s, le), le)
  {
    if s != [] {
      SortSorts(s[1..], le);
      InsertedSorted(s[0], Sort(s[1..], le), le);
    }
  }

  lemma SortMembers<T>(s: seq<T>, le: (T, T) -> bool)
    ensures |Sort(s, le)| == |s| && forall x :: x in Sort(s, le) <==> x in s
  {
    SortContents(s, le);
    assert |multiset(Sort(s, le))| == |multiset(s)|;
    forall x ensures x in Sort(s, le) <==> x in s {
      assert x in multiset(Sort(s, le)) <==> x in multiset(s);
    }
  }

  /** Two elements that are equal for the order are the same element. */
  ghost predicate Antisymmetric<T(!new)>(s: seq<T>, le: (T, T) -> bool) {
    forall x, y :: x in s && y in s && le(x, y) && le(y, x) ==> x == y
  }

  /** A multiset has only one sorted arrangement. */
  lemma {:induction false} SortedIsUnique<T(!new)>(a: seq<T>, b: seq<T>, le: (T, T) -> bool)
    requires Sorted(a, le) && Sorted(b, le) && multiset(a) == multiset(b) && Antisymmetric(a, le) && Preorder(le)
    ensures a == b
  {
    assert |multiset(a)| == |multiset(b)|;
    if a != [] {
      SameHead(a, b, le);
      SameTail(a, b);
      assert forall x :: x in a[1..] ==> x in a;
      SortedIsUnique(a[1..], b[1..], le);
      assert a == [a[0]] + a[1..] && b == [b[0]] + b[1..];
    }
  }

  lemma SameTail<T>(a: seq<T>, b: seq<T>)
    requires a != [] && b != [] && a[0] == b[0] && multiset(a) == multiset(b)
    ensures multiset(a[1..]) == multiset(b[1..])
  {
    assert a == [a[0]] + a[1..] && b == [b[0]] + b[1..];
    assert multiset(a[1..]) == multiset(a) - multiset{a[0]};
    assert multiset(b[1..]) == multiset(b) - multiset{b[0]};
  }

  lemma SameHead<T(!new)>(a: seq<T>, b: seq<T>, le: (T, T) -> bool)
    requires a != [] && b != [] && Sorted(a, le) && Sorted(b, le) && multiset(a) == multiset(b)
    requires Antisymmetric(a, le) && Preorder(le)
    ensures a[0] == b[0]
  {
    assert a[0] in multiset(b) && b[0] in multiset(a);
    var i :| 0 <= i < |b| && b[i] == a[0];
    var j :| 0 <= j < |a| && a[j] == b[0];
    assert le(b[0], a[0]) by { if i == 0 { assert le(a[0], a[0]); } }
    assert le(a[0], b[0]) by { if j == 0 { assert le(a[0], a[0]); } }
  }

  // ---- Replacing an element by one of the same rank ----

  ghost predicate SameRank<T(!new)>(x: T, x': T, le: (T, T) -> bool) {
    forall y :: le(x, y) == le(x', y) && le(y, x) == le(y, x')
  }

  predicate ReplacedAt<T(==)>(s: seq<T>, s': seq<T>, m: int, x: T, x': T) {
    0 <= m < |s| && s[m] == x && s' == s[m := x']
  }

  lemma {:induction false} InsertReplaced<T(!new)>(x: T, x': T, s: seq<T>, le: (T, T) -> bool) returns (m: nat)
    requires SameRank(x, x', le)
    ensures ReplacedAt(Inserted(x, s, le), Inserted(x', s, le), m, x, x')
  {
    if s == [] || le(x, s[0]) {
      m := 0;
      assert ([x] + s)[0 := x'] == [x'] + s;
    } else {
      var n := InsertReplaced(x, x', s[1..], le);
      m := n + 1;
      var r := Inserted(x, s[1..], le);
      assert ([s[0]] + r)[m := x'] == [s[0]] + r[n := x'];
    }
  }

  lemma {:induction false} InsertAround<T(!new)>(y: T, s: seq<T>, m: nat, x: T, x': T, le: (T, T) -> bool)
    returns (n: nat)
    requires SameRank(x, x', le) && m < |s| && s[m] == x
    ensures ReplacedAt(Inserted(y, s, le), Inserted(y, s[m := x'], le), n, x, x')
  {
    var s' := s[m := x'];
    assert le(y, s[0]) == le(y, s'[0]);
    if le(y, s[0]) {
      n := m + 1;
      assert ([y] + s)[n := x'] == [y] + s';
    } else if m == 0 {
      n := 0;
      assert s'[1..] == s[1..];
      assert ([x] + Inserted(y, s[1..], le))[0 := x'] == [x'] + Inserted(y, s[1..], le);
    } else {
      assert s'[1..] == s[1..][m - 1 := x'];
      var k := InsertAround(y, s[1..], m - 1, x, x', le);
      n := k + 1;
      var r := Inserted(y, s[1..], le);
      assert ([s[0]] + r)[n := x'] == [s[0]] + r[k := x'];
    }
  }

  /** The sorted list changes in one place only. */
  lemma {:induction false} SortReplaced<T(!new)>(s: seq<T>, i: nat, x': T, le: (T, T) -> bool) returns (m: nat)
    requires i < |s| && SameRank(s[i], x', le)
    ensures ReplacedAt(Sort(s, le), Sort(s[i := x'], le), m, s[i], x')
  {
    var s' := s[i := x'];
    if i == 0 {
      assert s'[1..] == s[1..];
      m := InsertReplaced(s[0], x', Sort(s[1..], le), le);
    } else {
      assert s'[1..] == s[1..][i - 1 := x'];
      var k := SortReplaced(s[1..], i - 1, x', le);
      m := InsertAround(s[0], Sort(s[1..], le), k, s[i], x', le);
    }
  }
}
