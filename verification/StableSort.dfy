/** Stable sorting by a key, the meaning of the language's built-in `sort` with a
    comparator that subtracts keys. */
module StableSort {
  function Insert<T>(key: T -> real, s: seq<T>, x: T): seq<T> {
    if s == [] || key(s[|s| - 1]) <= key(x) then s + [x]
    else Insert(key, s[..|s| - 1], x) + [s[|s| - 1]]
  }

  function Sort<T>(key: T -> real, s: seq<T>): seq<T> {
    if s == [] then [] else Insert(key, Sort(key, s[..|s| - 1]), s[|s| - 1])
  }

  ghost predicate Sorted<T>(key: T -> real, s: seq<T>) {
    forall i, j :: 0 <= i < j < |s| ==> key(s[i]) <= key(s[j])
  }

  /** The elements of one key, in order. */
  function Class<T>(key: T -> real, s: seq<T>, v: real): seq<T> {
    if s == [] then []
    else Class(key, s[..|s| - 1], v) + (if key(s[|s| - 1]) == v then [s[|s| - 1]] else [])
  }

  lemma ClassSnoc<T>(key: T -> real, s: seq<T>, x: T, v: real)
    ensures Class(key, s + [x], v) == Class(key, s, v) + (if key(x) == v then [x] else [])
  {
    assert (s + [x])[..|s|] == s;
  }

  lemma {:induction false} InsertKeepsClass<T>(key: T -> real, s: seq<T>, x: T, v: real)
    ensures Class(key, Insert(key, s, x), v) == Class(key, s, v) + (if key(x) == v then [x] else [])
  {
    if s == [] || key(s[|s| - 1]) <= key(x) {
      ClassSnoc(key, s, x, v);
    } else {
      var p, l := s[..|s| - 1], s[|s| - 1];
      InsertKeepsClass(key, p, x, v);
      ClassSnoc(key, Insert(key, p, x), l, v);
    }
  }

  lemma {:induction false} InsertElements<T>(key: T -> real, s: seq<T>, x: T)
    ensures multiset(Insert(key, s, x)) == multiset(s) + multiset{x}
    ensures |Insert(key, s, x)| == |s| + 1
  {
    if !(s == [] || key(s[|s| - 1]) <= key(x)) {
      InsertElements(key, s[..|s| - 1], x);
      assert s == s[..|s| - 1] + [s[|s| - 1]];
    }
  }

  lemma {:induction false} InsertBound<T>(key: T -> real, s: seq<T>, x: T, m: real)
    requires key(x) <= m && forall i :: 0 <= i < |s| ==> key(s[i]) <= m
    ensures forall i :: 0 <= i < |Insert(key, s, x)| ==> key(Insert(key, s, x)[i]) <= m
  {
    if !(s == [] || key(s[|s| - 1]) <= key(x)) { InsertBound(key, s[..|s| - 1], x, m); }
  }

  lemma {:induction false} InsertSorts<T>(key: T -> real, s: seq<T>, x: T)
    requires Sorted(key, s)
    ensures Sorted(key, Insert(key, s, x))
  {
    if !(s == [] || key(s[|s| - 1]) <= key(x)) {
      var p, l := s[..|s| - 1], s[|s| - 1];
      InsertSorts(key, p, x);
      InsertBound(key, p, x, key(l));
    }
  }

  /** The result is sorted and has the same elements. */
  lemma {:induction false} SortSorts<T>(key: T -> real, s: seq<T>)
    ensures Sorted(key, Sort(key, s)) && |Sort(key, s)| == |s|
    ensures multiset(Sort(key, s)) == multiset(s)
  {
    if s != [] {
      var p, l := s[..|s| - 1], s[|s| - 1];
      assert s == p + [l];
      SortSorts(key, p);
      InsertElements(key, Sort(key, p), l);
      InsertSorts(key, Sort(key, p), l);
    }
  }

  /** The elements of each key keep their order, so no element is lost or repeated. */
  lemma {:induction false} SortIsStable<T>(key: T -> real, s: seq<T>, v: real)
    ensures Class(key, Sort(key, s), v) == Class(key, s, v)
  {
    if s != [] {
      var p, l := s[..|s| - 1], s[|s| - 1];
      SortIsStable(key, p, v);
      InsertKeepsClass(key, Sort(key, p), l, v);
    }
  }

  lemma {:induction false} ClassHas<T>(key: T -> real, s: seq<T>, k: nat)
    requires k < |s|
    ensures Class(key, s, key(s[k])) != []
  {
    if k < |s| - 1 { ClassHas(key, s[..|s| - 1], k); }
  }

  lemma {:induction false} ClassWitness<T>(key: T -> real, s: seq<T>, v: real) returns (k: nat)
    requires Class(key, s, v) != []
    ensures k < |s| && key(s[k]) == v
  {
    if key(s[|s| - 1]) == v { k := |s| - 1; } else { k := ClassWitness(key, s[..|s| - 1], v); }
  }

  ghost predicate SameClasses<T>(key: T -> real, a: seq<T>, b: seq<T>) {
    forall v :: Class(key, a, v) == Class(key, b, v)
  }

  lemma {:induction false} ClassBound<T>(key: T -> real, s: seq<T>, v: real)
    requires s != [] && Sorted(key, s) && Class(key, s, v) != []
    ensures v <= key(s[|s| - 1])
  {
    var k := ClassWitness(key, s, v);
  }

  lemma LastKeysAgree<T>(key: T -> real, a: seq<T>, b: seq<T>)
    requires a != [] && b != [] && Sorted(key, a) && Sorted(key, b) && SameClasses(key, a, b)
    ensures key(a[|a| - 1]) == key(b[|b| - 1])
  {
    var v, w := key(a[|a| - 1]), key(b[|b| - 1]);
    ClassHas(key, a, |a| - 1);
    ClassHas(key, b, |b| - 1);
    assert Class(key, a, v) == Class(key, b, v) && Class(key, a, w) == Class(key, b, w);
    ClassBound(key, b, v);
    ClassBound(key, a, w);
  }

  lemma LastsAgree<T>(key: T -> real, a: seq<T>, b: seq<T>)
    requires a != [] && b != [] && Sorted(key, a) && Sorted(key, b) && SameClasses(key, a, b)
    ensures a[|a| - 1] == b[|b| - 1]
  {
    var x, y := a[|a| - 1], b[|b| - 1];
    var p, q := a[..|a| - 1], b[..|b| - 1];
    LastKeysAgree(key, a, b);
    var c, d := Class(key, p, key(x)) + [x], Class(key, q, key(x)) + [y];
    assert Class(key, a, key(x)) == c && Class(key, b, key(x)) == d;
    assert c[|c| - 1] == x && d[|d| - 1] == y;
  }

  lemma InitsAgree<T>(key: T -> real, p: seq<T>, q: seq<T>, x: T)
    requires SameClasses(key, p + [x], q + [x])
    ensures SameClasses(key, p, q)
  {
    forall v ensures Class(key, p, v) == Class(key, q, v) {
      ClassSnoc(key, p, x, v);
      ClassSnoc(key, q, x, v);
      assert Class(key, p + [x], v) == Class(key, q + [x], v);
      var tail := if key(x) == v then [x] else [];
      assert Class(key, p, v) == (Class(key, p, v) + tail)[..|Class(key, p, v)|];
      assert Class(key, q, v) == (Class(key, q, v) + tail)[..|Class(key, q, v)|];
    }
  }

  lemma BothNonEmpty<T>(key: T -> real, a: seq<T>, b: seq<T>)
    requires SameClasses(key, a, b) && a != []
    ensures b != []
  {
    ClassHas(key, a, 0);
    assert Class(key, a, key(a[0])) == Class(key, b, key(a[0]));
  }

  /** There is only one stable sort: sorted lists with the same classes are equal. */
  lemma {:induction false} StableSortIsUnique<T>(key: T -> real, a: seq<T>, b: seq<T>)
    requires Sorted(key, a) && Sorted(key, b) && SameClasses(key, a, b)
    ensures a == b
  {
    if a == [] || b == [] {
      if a != [] { BothNonEmpty(key, a, b); }
      if b != [] { BothNonEmpty(key, b, a); }
    } else {
      LastsAgree(key, a, b);
      var x, p, q := a[|a| - 1], a[..|a| - 1], b[..|b| - 1];
      assert a == p + [x] && b == q + [x];
      InitsAgree(key, p, q, x);
      StableSortIsUnique(key, p, q);
    }
  }

  lemma SortOfSorted<T>(key: T -> real, s: seq<T>)
    requires Sorted(key, s)
    ensures Sort(key, s) == s
  {
    SortSorts(key, s);
    forall v ensures Class(key, Sort(key, s), v) == Class(key, s, v) { SortIsStable(key, s, v); }
    StableSortIsUnique(key, Sort(key, s), s);
  }

  /** Sorting again after an append is inserting. */
  lemma SortAfterAppend<T>(key: T -> real, s: seq<T>, x: T)
    requires Sorted(key, s)
    ensures Sort(key, s + [x]) == Insert(key, s, x)
  {
    assert (s + [x])[..|s|] == s;
    SortOfSorted(key, s);
  }
}
