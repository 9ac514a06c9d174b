/**
 * Python's `list.sort(key=..., reverse=...)` on keys that are strings: a
 * stable sort, ascending or descending, where equal keys keep their input
 * order in both directions. Strings compare as Python compares `str` values.
 */
module Sorting {

  /** Python's `a < b` on str: code point by code point, and a proper prefix first. */
  predicate StrLess(a: string, b: string)
    decreases |a|
  {
    if |a| == 0 then |b| > 0
    else if |b| == 0 then false
    else a[0] < b[0] || (a[0] == b[0] && StrLess(a[1..], b[1..]))
  }

  lemma {:induction false} StrLessIrreflexive(a: string)
    ensures !StrLess(a, a)
    decreases |a|
  {
    if |a| > 0 {
      StrLessIrreflexive(a[1..]);
    }
  }

  lemma {:induction false} StrLessTransitive(a: string, b: string, c: string)
    requires StrLess(a, b) && StrLess(b, c)
    ensures StrLess(a, c)
    decreases |a|
  {
    if |a| > 0 && |b| > 0 && |c| > 0 && a[0] == b[0] && b[0] == c[0] {
      StrLessTransitive(a[1..], b[1..], c[1..]);
    }
  }

  lemma {:induction false} StrLessTotal(a: string, b: string)
    ensures a == b || StrLess(a, b) || StrLess(b, a)
    decreases |a|
  {
    if |a| > 0 && |b| > 0 && a[0] == b[0] {
      StrLessTotal(a[1..], b[1..]);
      if a[1..] == b[1..] {
        assert a == [a[0]] + a[1..] && b == [b[0]] + b[1..];
      }
    }
  }

  /** Key `a` goes strictly before key `b`: ascending order, or descending when `desc`. */
  predicate Before(a: string, b: string, desc: bool) {
    if desc then StrLess(b, a) else StrLess(a, b)
  }

  lemma BeforeIrreflexive(a: string, desc: bool)
    ensures !Before(a, a, desc)
  {
    StrLessIrreflexive(a);
  }

  lemma BeforeTransitive(a: string, b: string, c: string, desc: bool)
    requires Before(a, b, desc) && Before(b, c, desc)
    ensures Before(a, c, desc)
  {
    if desc { StrLessTransitive(c, b, a); } else { StrLessTransitive(a, b, c); }
  }

  lemma BeforeTotal(a: string, b: string, desc: bool)
    ensures a == b || Before(a, b, desc) || Before(b, a, desc)
  {
    StrLessTotal(a, b);
  }

  /** No element of `s` goes strictly after a later one. */
  ghost predicate Ordered<T>(s: seq<T>, key: T -> string, desc: bool) {
    forall i, j :: 0 <= i < j < |s| ==> !Before(key(s[j]), key(s[i]), desc)
  }

  /** No element of `s` has a key strictly before `k`. */
  ghost predicate NoneBefore<T>(s: seq<T>, key: T -> string, desc: bool, k: string) {
    forall i :: 0 <= i < |s| ==> !Before(key(s[i]), k, desc)
  }

  /** Place `x` after every element whose key it does not strictly precede. */
  function Insert<T>(x: T, s: seq<T>, key: T -> string, desc: bool): seq<T>
    decreases |s|
  {
    if s == [] then [x]
    else if Before(key(x), key(s[0]), desc) then [x] + s
    else [s[0]] + Insert(x, s[1..], key, desc)
  }

  /** `sorted(s, key=key, reverse=desc)`: insertion sort, element by element from the front. */
  function SortBy<T>(s: seq<T>, key: T -> string, desc: bool): seq<T>
    decreases |s|
  {
    if s == [] then [] else Insert(s[|s| - 1], SortBy(s[..|s| - 1], key, desc), key, desc)
  }

  /** The elements of `s` whose key is `k`, in order. */
  function Filter<T>(s: seq<T>, key: T -> string, k: string): seq<T>
    decreases |s|
  {
    if s == [] then [] else (if key(s[0]) == k then [s[0]] else []) + Filter(s[1..], key, k)
  }

  lemma {:induction false} FilterAppend<T>(a: seq<T>, b: seq<T>, key: T -> string, k: string)
    ensures Filter(a + b, key, k) == Filter(a, key, k) + Filter(b, key, k)
    decreases |a|
  {
    if a != [] {
      assert (a + b)[1..] == a[1..] + b;
      FilterAppend(a[1..], b, key, k);
    } else {
      assert a + b == b;
    }
  }

  lemma {:induction false} FilterNone<T>(s: seq<T>, key: T -> string, k: string)
    requires forall i :: 0 <= i < |s| ==> key(s[i]) != k
    ensures Filter(s, key, k) == []
    decreases |s|
  {
    if s != [] {
      FilterNone(s[1..], key, k);
    }
  }

  lemma {:induction false} InsertMultiset<T>(x: T, s: seq<T>, key: T -> string, desc: bool)
    ensures multiset(Insert(x, s, key, desc)) == multiset(s) + multiset{x}
    decreases |s|
  {
    if s != [] && !Before(key(x), key(s[0]), desc) {
      InsertMultiset(x, s[1..], key, desc);
      assert s == [s[0]] + s[1..];
    }
  }

  lemma {:induction false} InsertNoneBefore<T>(x: T, s: seq<T>, key: T -> string, desc: bool, k: string)
    requires NoneBefore(s, key, desc, k) && !Before(key(x), k, desc)
    ensures NoneBefore(Insert(x, s, key, desc), key, desc, k)
    decreases |s|
  {
    if s != [] && !Before(key(x), key(s[0]), desc) {
      InsertNoneBefore(x, s[1..], key, desc, k);
    }
  }

  lemma {:induction false} InsertOrdered<T>(x: T, s: seq<T>, key: T -> string, desc: bool)
    requires Ordered(s, key, desc)
    ensures Ordered(Insert(x, s, key, desc), key, desc)
    decreases |s|
  {
    if s == [] {
    } else if Before(key(x), key(s[0]), desc) {
      var r := [x] + s;
      forall i, j | 0 <= i < j < |r|
        ensures !Before(key(r[j]), key(r[i]), desc)
      {
        if i == 0 && Before(key(s[j - 1]), key(x), desc) {
          BeforeTransitive(key(s[j - 1]), key(x), key(s[0]), desc);
          if j == 1 { BeforeIrreflexive(key(s[0]), desc); }
        }
      }
    } else {
      var t := Insert(x, s[1..], key, desc);
      InsertOrdered(x, s[1..], key, desc);
      InsertNoneBefore(x, s[1..], key, desc, key(s[0]));
      var r := [s[0]] + t;
      forall i, j | 0 <= i < j < |r|
        ensures !Before(key(r[j]), key(r[i]), desc)
      {
        if i > 0 {
          assert r[i] == t[i - 1] && r[j] == t[j - 1];
        }
      }
    }
  }

  /** A key strictly before the first of an ordered list is the key of none of its elements. */
  lemma OrderedAfter<T>(s: seq<T>, key: T -> string, desc: bool, k: string)
    requires Ordered(s, key, desc) && s != [] && Before(k, key(s[0]), desc)
    ensures forall i :: 0 <= i < |s| ==> key(s[i]) != k
  {
    forall i | 0 <= i < |s| ensures key(s[i]) != k {
      if i == 0 {
        BeforeIrreflexive(key(s[0]), desc);
      } else {
        assert !Before(key(s[i]), key(s[0]), desc);
      }
    }
  }

  lemma {:induction false} InsertFilter<T>(x: T, s: seq<T>, key: T -> string, desc: bool, k: string)
    requires Ordered(s, key, desc)
    ensures Filter(Insert(x, s, key, desc), key, k) == Filter(s, key, k) + (if key(x) == k then [x] else [])
    decreases |s|
  {
    if s == [] {
      FilterCons(x, [], key, k);
    } else if Before(key(x), key(s[0]), desc) {
      assert Insert(x, s, key, desc) == [x] + s;
      FilterCons(x, s, key, k);
      if key(x) == k {
        OrderedAfter(s, key, desc, k);
        FilterNone(s, key, k);
      }
    } else {
      OrderedTail(s, key, desc);
      InsertFilter(x, s[1..], key, desc, k);
      InsertFilterBehind(x, s, key, desc, k);
    }
  }

  /** The step of InsertFilter where `x` goes behind the head of `s`. */
  lemma InsertFilterBehind<T>(x: T, s: seq<T>, key: T -> string, desc: bool, k: string)
    requires s != [] && !Before(key(x), key(s[0]), desc)
    requires Filter(Insert(x, s[1..], key, desc), key, k) == Filter(s[1..], key, k) + (if key(x) == k then [x] else [])
    ensures Filter(Insert(x, s, key, desc), key, k) == Filter(s, key, k) + (if key(x) == k then [x] else [])
  {
    var rest := Insert(x, s[1..], key, desc);
    var h := if key(s[0]) == k then [s[0]] else [];
    var t := if key(x) == k then [x] else [];
    assert Insert(x, s, key, desc) == [s[0]] + rest;
    FilterCons(s[0], rest, key, k);
    assert Filter(s, key, k) == h + Filter(s[1..], key, k);
    assert h + (Filter(s[1..], key, k) + t) == (h + Filter(s[1..], key, k)) + t;
  }

  /** Filtering a list with a known head. */
  lemma FilterCons<T>(y: T, t: seq<T>, key: T -> string, k: string)
    ensures Filter([y] + t, key, k) == (if key(y) == k then [y] else []) + Filter(t, key, k)
  {
    assert ([y] + t)[1..] == t;
  }

  lemma OrderedTail<T>(s: seq<T>, key: T -> string, desc: bool)
    requires Ordered(s, key, desc) && s != []
    ensures Ordered(s[1..], key, desc)
  {
    forall i, j | 0 <= i < j < |s| - 1 ensures !Before(key(s[1..][j]), key(s[1..][i]), desc) {
      assert s[1..][j] == s[j + 1] && s[1..][i] == s[i + 1];
    }
  }

  /** The sorted list is in order. */
  lemma {:induction false} SortByOrdered<T>(s: seq<T>, key: T -> string, desc: bool)
    ensures Ordered(SortBy(s, key, desc), key, desc)
    decreases |s|
  {
    if s != [] {
      SortByOrdered(s[..|s| - 1], key, desc);
      InsertOrdered(s[|s| - 1], SortBy(s[..|s| - 1], key, desc), key, desc);
    }
  }

  /** The sorted list is a permutation of the input. */
  lemma {:induction false} SortByPermutation<T>(s: seq<T>, key: T -> string, desc: bool)
    ensures multiset(SortBy(s, key, desc)) == multiset(s)
    ensures |SortBy(s, key, desc)| == |s|
    decreases |s|
  {
    if s != [] {
      SortByPermutation(s[..|s| - 1], key, desc);
      InsertMultiset(s[|s| - 1], SortBy(s[..|s| - 1], key, desc), key, desc);
      assert s == s[..|s| - 1] + [s[|s| - 1]];
    }
    assert |SortBy(s, key, desc)| == |multiset(SortBy(s, key, desc))|;
  }

  /** Stability: the elements sharing any one key keep their input order. */
  lemma {:induction false} SortByStable<T>(s: seq<T>, key: T -> string, desc: bool, k: string)
    ensures Filter(SortBy(s, key, desc), key, k) == Filter(s, key, k)
    decreases |s|
  {
    if s != [] {
      var init := s[..|s| - 1];
      SortByStable(init, key, desc, k);
      SortByOrdered(init, key, desc);
      InsertFilter(s[|s| - 1], SortBy(init, key, desc), key, desc, k);
      assert s == init + [s[|s| - 1]];
      FilterAppend(init, [s[|s| - 1]], key, k);
      assert [s[|s| - 1]][1..] == [];
    }
  }

  /** The kept elements are elements of the list with the wanted key. */
  lemma {:induction false} FilterMembers<T>(s: seq<T>, key: T -> string, k: string)
    ensures forall x :: x in Filter(s, key, k) ==> x in s && key(x) == k
    decreases |s|
  {
    if s != [] {
      FilterMembers(s[1..], key, k);
    }
  }

  /** Filtering keeps every occurrence of an element with the wanted key and none of the others. */
  lemma {:induction false} FilterMultiset<T>(s: seq<T>, key: T -> string, k: string)
    ensures forall x :: multiset(Filter(s, key, k))[x] == if key(x) == k then multiset(s)[x] else 0
    decreases |s|
  {
    if s != [] {
      FilterMultiset(s[1..], key, k);
      assert s == [s[0]] + s[1..];
      assert multiset(s) == multiset{s[0]} + multiset(s[1..]);
    }
  }

  /** Keeping the elements with one key leaves a list ordered by any other key ordered. */
  lemma {:induction false} FilterOrdered<T>(s: seq<T>, key: T -> string, k: string, order: T -> string, desc: bool)
    requires Ordered(s, order, desc)
    ensures Ordered(Filter(s, key, k), order, desc)
    decreases |s|
  {
    if s != [] {
      var rest := Filter(s[1..], key, k);
      FilterOrdered(s[1..], key, k, order, desc);
      if key(s[0]) == k {
        FilterMembers(s[1..], key, k);
        var r := [s[0]] + rest;
        forall i, j | 0 <= i < j < |r| ensures !Before(order(r[j]), order(r[i]), desc) {
          if i == 0 {
            assert r[j] in s[1..];
            var m :| 0 <= m < |s[1..]| && s[1..][m] == r[j];
            assert s[m + 1] == r[j];
          } else {
            assert r[i] == rest[i - 1] && r[j] == rest[j - 1];
          }
        }
      }
    }
  }

  /** A prefix of an ordered list is ordered. */
  lemma PrefixOrdered<T>(s: seq<T>, n: nat, order: T -> string, desc: bool)
    requires Ordered(s, order, desc) && n <= |s|
    ensures Ordered(s[..n], order, desc)
  {
    forall i, j | 0 <= i < j < n ensures !Before(order(s[..n][j]), order(s[..n][i]), desc) {
      assert s[..n][i] == s[i] && s[..n][j] == s[j];
    }
  }
}
