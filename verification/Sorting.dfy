/** Stable sorting by a preorder, in the sense of Python's `sorted`. */
module Sorting {

  ghost predicate TotalPreorder<T(!new)>(leq: (T, T) -> bool) {
    && (forall a, b :: leq(a, b) || leq(b, a))
    && (forall a, b, c :: leq(a, b) && leq(b, c) ==> leq(a, c))
  }

  ghost predicate Sorted<T>(s: seq<T>, leq: (T, T) -> bool) {
    forall i, j :: 0 <= i < j < |s| ==> leq(s[i], s[j])
  }

  /** Ties occur only between equal elements of `s`. */
  ghost predicate TieFree<T>(s: seq<T>, leq: (T, T) -> bool) {
    forall a, b :: a in s && b in s && leq(a, b) && leq(b, a) ==> a == b
  }

  ghost predicate Distinct<T>(s: seq<T>) {
    forall i, j :: 0 <= i < j < |s| ==> s[i] != s[j]
  }

  function Insert<T>(x: T, s: seq<T>, leq: (T, T) -> bool): (r: seq<T>)
    ensures multiset(r) == multiset([x] + s)
  {
    if s == [] || leq(x, s[0]) then [x] + s
    else
      assert s == [s[0]] + s[1..];
      [s[0]] + Insert(x, s[1..], leq)
  }

  function Sort<T>(s: seq<T>, leq: (T, T) -> bool): (r: seq<T>)
    ensures multiset(r) == multiset(s)
    ensures |r| == |s|
  {
    if s == [] then [] else
      assert s == [s[0]] + s[1..];
      var r := Insert(s[0], Sort(s[1..], leq), leq);
      assert |multiset(r)| == |multiset(s)|;
      r
  }

  lemma SameElements<T>(a: seq<T>, b: seq<T>)
    requires multiset(a) == multiset(b)
    ensures forall x :: x in a <==> x in b
    ensures |a| == |b|
  {
    assert forall x :: x in a <==> x in multiset(a);
    assert forall x :: x in b <==> x in multiset(b);
    assert |multiset(a)| == |a| && |multiset(b)| == |b|;
  }

  /** One element taken out of a listing. */
  lemma TakenOut<T>(s: seq<T>, i: nat)
    requires i < |s|
    ensures s == s[..i] + [s[i]] + s[i + 1..]
    ensures multiset(s[..i] + s[i + 1..]) == multiset(s) - multiset{s[i]}
  {
    assert s == s[..i] + [s[i]] + s[i + 1..];
  }

  lemma {:induction false} InsertSorted<T(!new)>(x: T, s: seq<T>, leq: (T, T) -> bool)
    requires TotalPreorder(leq) && Sorted(s, leq)
    ensures Sorted(Insert(x, s, leq), leq)
  {
    if s != [] && !leq(x, s[0]) {
      InsertSorted(x, s[1..], leq);
      var t := Insert(x, s[1..], leq);
      SameElements(t, [x] + s[1..]);
      assert forall y :: y in t ==> y == x || y in s[1..];
      assert forall i :: 0 <= i < |t| ==> t[i] in t;
      assert forall i :: 0 <= i < |t| ==> leq(s[0], t[i]);
    } else if s != [] {
      assert forall i :: 0 <= i < |s| ==> leq(x, s[i]);
    }
  }

  lemma {:induction false} SortSorted<T(!new)>(s: seq<T>, leq: (T, T) -> bool)
    requires TotalPreorder(leq)
    ensures Sorted(Sort(s, leq), leq)
  {
    if s != [] {
      SortSorted(s[1..], leq);
      InsertSorted(s[0], Sort(s[1..], leq), leq);
    }
  }

  lemma SortedAppend<T>(a: seq<T>, b: seq<T>, leq: (T, T) -> bool)
    requires Sorted(a, leq) && Sorted(b, leq)
    requires forall x, y :: x in a && y in b ==> leq(x, y)
    ensures Sorted(a + b, leq)
  {
    forall i, j | 0 <= i < j < |a + b| ensures leq((a + b)[i], (a + b)[j]) {
      if i < |a| <= j {
        assert a[i] in a && b[j - |a|] in b;
      }
    }
  }

  lemma SortedHeads<T(!new)>(a: seq<T>, b: seq<T>, leq: (T, T) -> bool)
    requires TotalPreorder(leq)
    requires Sorted(a, leq) && Sorted(b, leq) && TieFree(a, leq)
    requires multiset(a) == multiset(b) && a != []
    ensures b != [] && a[0] == b[0]
  {
    SameElements(a, b);
    assert a[0] in b && b[0] in a;
    var i :| 0 <= i < |b| && b[i] == a[0];
    var j :| 0 <= j < |a| && a[j] == b[0];
    assert leq(a[0], b[0]) && leq(b[0], a[0]);
  }

  /** A sorted listing without real ties is determined by its elements. */
  lemma {:induction false} SortedUnique<T(!new)>(a: seq<T>, b: seq<T>, leq: (T, T) -> bool)
    requires TotalPreorder(leq)
    requires Sorted(a, leq) && Sorted(b, leq) && TieFree(a, leq)
    requires multiset(a) == multiset(b)
    ensures a == b
  {
    if a == [] {
      SameElements(a, b);
    } else {
      SortedHeads(a, b, leq);
      assert a == [a[0]] + a[1..] && b == [b[0]] + b[1..];
      assert multiset(a[1..]) == multiset(a) - multiset{a[0]};
      assert TieFree(a[1..], leq) by {
        assert forall x :: x in a[1..] ==> x in a;
      }
      SortedUnique(a[1..], b[1..], leq);
    }
  }

  /** Sorting forgets the input order when ties are only between equal elements. */
  lemma SortForgetsOrder<T(!new)>(a: seq<T>, b: seq<T>, leq: (T, T) -> bool)
    requires TotalPreorder(leq)
    requires multiset(a) == multiset(b)
    requires TieFree(a, leq)
    ensures Sort(a, leq) == Sort(b, leq)
  {
    SortSorted(a, leq);
    SortSorted(b, leq);
    SameElements(a, Sort(a, leq));
    SortedUnique(Sort(a, leq), Sort(b, leq), leq);
  }

  lemma SortedFixed<T(!new)>(s: seq<T>, leq: (T, T) -> bool)
    requires TotalPreorder(leq) && Sorted(s, leq) && TieFree(s, leq)
    ensures Sort(s, leq) == s
  {
    SortSorted(s, leq);
    SortedUnique(s, Sort(s, leq), leq);
  }

  /** The first elements of a sorted listing are below all the others. */
  lemma FirstAreLeast<T(!new)>(s: seq<T>, leq: (T, T) -> bool, n: nat)
    requires TotalPreorder(leq) && Distinct(s) && n <= |s|
    ensures var first := Sort(s, leq)[..n];
            && Distinct(first) && (forall x :: x in first ==> x in s)
            && forall x, y :: x in first && y in s && y !in first ==> leq(x, y)
  {
    var sorted := Sort(s, leq);
    SortSorted(s, leq);
    DistinctByCount(s, sorted);
    SameElements(s, sorted);
    forall x, y | x in sorted[..n] && y in s && y !in sorted[..n] ensures leq(x, y) {
      SplitSorted(sorted, leq, n, x, y);
    }
  }

  lemma SplitSorted<T(!new)>(s: seq<T>, leq: (T, T) -> bool, n: nat, x: T, y: T)
    requires Sorted(s, leq) && n <= |s| && x in s[..n] && y in s && y !in s[..n]
    ensures leq(x, y)
  {
    assert s == s[..n] + s[n..];
    var i :| 0 <= i < n && s[i] == x;
    var j :| n <= j < |s| && s[j] == y;
  }

  /** The first occurrence of every element. */
  function Dedup<T(==)>(s: seq<T>): seq<T> {
    if s == [] then []
    else
      var before := Dedup(s[..|s| - 1]);
      if s[|s| - 1] in before then before else before + [s[|s| - 1]]
  }

  lemma {:induction false} DedupMembers<T>(s: seq<T>)
    ensures Distinct(Dedup(s)) && forall x :: x in Dedup(s) <==> x in s
  {
    if s != [] {
      DedupMembers(s[..|s| - 1]);
      assert s == s[..|s| - 1] + [s[|s| - 1]];
    }
  }

  function Filter<T>(s: seq<T>, keep: T -> bool): seq<T> {
    if s == [] then [] else (if keep(s[0]) then [s[0]] else []) + Filter(s[1..], keep)
  }

  lemma {:induction false} FilterAppend<T>(a: seq<T>, b: seq<T>, keep: T -> bool)
    ensures Filter(a + b, keep) == Filter(a, keep) + Filter(b, keep)
  {
    if a == [] {
      assert a + b == b;
    } else {
      var head := if keep(a[0]) then [a[0]] else [];
      FilterAppend(a[1..], b, keep);
      assert (a + b)[1..] == a[1..] + b;
      assert Filter(a + b, keep) == head + (Filter(a[1..], keep) + Filter(b, keep));
    }
  }

  lemma {:induction false} FilterMembers<T(!new)>(s: seq<T>, keep: T -> bool)
    ensures forall x :: x in Filter(s, keep) <==> x in s && keep(x)
  {
    if s != [] {
      FilterMembers(s[1..], keep);
      assert s == [s[0]] + s[1..];
    }
  }

  lemma {:induction false} FilterAll<T>(s: seq<T>, keep: T -> bool)
    requires forall x :: x in s ==> keep(x)
    ensures Filter(s, keep) == s
  {
    if s != [] {
      FilterAll(s[1..], keep);
    }
  }

  lemma {:induction false} FilterNone<T>(s: seq<T>, keep: T -> bool)
    requires forall x :: x in s ==> !keep(x)
    ensures Filter(s, keep) == []
  {
    if s != [] {
      FilterNone(s[1..], keep);
    }
  }

  lemma {:induction false} FilterSame<T>(s: seq<T>, keep: T -> bool, other: T -> bool)
    requires forall x :: x in s ==> keep(x) == other(x)
    ensures Filter(s, keep) == Filter(s, other)
  {
    if s != [] {
      FilterSame(s[1..], keep, other);
    }
  }

  lemma FilterLast<T>(s: seq<T>, keep: T -> bool)
    requires s != []
    ensures var n := |s| - 1;
            Filter(s, keep) == Filter(s[..n], keep) + if keep(s[n]) then [s[n]] else []
  {
    var n := |s| - 1;
    assert s == s[..n] + [s[n]];
    FilterAppend(s[..n], [s[n]], keep);
  }

  lemma {:induction false} InsertStable<T(!new)>(x: T, s: seq<T>, leq: (T, T) -> bool, keep: T -> bool)
    requires forall a, b :: keep(a) && keep(b) ==> leq(a, b)
    ensures Filter(Insert(x, s, leq), keep) == Filter([x] + s, keep)
  {
    assert ([x] + s)[1..] == s;
    if s != [] && !leq(x, s[0]) {
      InsertStable(x, s[1..], leq, keep);
      var t := Insert(x, s[1..], leq);
      assert ([s[0]] + t)[1..] == t;
      assert ([x] + s[1..])[1..] == s[1..];
    }
  }

  /** Stability: elements that tie with one another keep their input order. */
  lemma {:induction false} SortStable<T(!new)>(s: seq<T>, leq: (T, T) -> bool, keep: T -> bool)
    requires forall a, b :: keep(a) && keep(b) ==> leq(a, b)
    ensures Filter(Sort(s, leq), keep) == Filter(s, keep)
  {
    if s != [] {
      SortStable(s[1..], leq, keep);
      var t := Sort(s[1..], leq);
      InsertStable(s[0], t, leq, keep);
      assert ([s[0]] + t)[1..] == t;
    }
  }

  lemma DistinctByCount<T>(a: seq<T>, b: seq<T>)
    requires multiset(a) == multiset(b) && Distinct(a)
    ensures Distinct(b)
  {
    forall i, j | 0 <= i < j < |b| ensures b[i] != b[j] {
      if b[i] == b[j] {
        assert b == b[..i] + [b[i]] + b[i + 1..j] + [b[j]] + b[j + 1..];
        assert multiset(b)[b[i]] >= 2;
        CountAtMostOne(a, b[i]);
      }
    }
  }

  lemma {:induction false} CountAtMostOne<T>(a: seq<T>, x: T)
    requires Distinct(a)
    ensures multiset(a)[x] <= 1
  {
    if a != [] {
      assert a == [a[0]] + a[1..];
      CountAtMostOne(a[1..], x);
      if a[0] == x {
        assert x !in a[1..];
      }
    }
  }

  lemma {:induction false} SameMembersSameCounts<T>(a: seq<T>, b: seq<T>)
    requires Distinct(a) && Distinct(b)
    requires forall x :: x in a <==> x in b
    ensures multiset(a) == multiset(b)
  {
    forall x ensures multiset(a)[x] == multiset(b)[x] {
      CountAtMostOne(a, x);
      CountAtMostOne(b, x);
      assert x in a <==> multiset(a)[x] > 0;
      assert x in b <==> multiset(b)[x] > 0;
    }
  }

  /** Lexicographic order on strings, by code point. */
  predicate StringLeq(a: string, b: string) {
    a == [] || (b != [] && (a[0] < b[0] || (a[0] == b[0] && StringLeq(a[1..], b[1..]))))
  }

  lemma {:induction false} StringOrder(a: string, b: string, c: string)
    ensures StringLeq(a, b) || StringLeq(b, a)
    ensures StringLeq(a, b) && StringLeq(b, a) ==> a == b
    ensures StringLeq(a, b) && StringLeq(b, c) ==> StringLeq(a, c)
    decreases |a|
  {
    if a != [] && b != [] {
      StringOrder(a[1..], b[1..], if c == [] then [] else c[1..]);
      assert a == [a[0]] + a[1..] && b == [b[0]] + b[1..];
    }
  }
}
