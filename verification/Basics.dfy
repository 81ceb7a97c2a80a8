/** Shared vocabulary: optional values, sorting by contract, and the order on names. */
module Basics {

  datatype Option<+T> = None | Some(value: T)

  /** Matches any state in a hook pattern; reserved as a state name. */
  const WILDCARD := "*"

  /** `xs` lists exactly the members of `s`, without repetition. */
  ghost predicate Lists<T>(xs: seq<T>, s: set<T>) {
    && (forall x | x in s :: x in xs) && (forall x | x in xs :: x in s)
    && forall i, j :: 0 <= i < j < |xs| ==> xs[i] != xs[j]
  }

  /** Collects a set in some order; callers may rely on no particular one. */
  method Collect<T(==,!new)>(s: set<T>) returns (xs: seq<T>)
    ensures Lists(xs, s)
  {
    xs := [];
    var rest := s;
    while rest != {}
      invariant rest <= s && Lists(xs, s - rest)
      decreases rest
    {
      var x :| x in rest;
      xs := xs + [x];
      rest := rest - {x};
    }
    assert s - rest == s;
  }

  lemma MultisetMembers<T(!new)>(xs: seq<T>, ys: seq<T>)
    requires multiset(xs) == multiset(ys)
    ensures |xs| == |ys|
    ensures forall x :: x in xs <==> x in ys
  {
    assert |multiset(xs)| == |multiset(ys)|;
    forall x ensures x in xs <==> x in ys {
      assert x in xs <==> x in multiset(xs);
      assert x in ys <==> x in multiset(ys);
    }
  }
}

/** The order of state names, and sorting as the standard library promises it. */
module Sorting {
  import opened Basics

  /** Go compares strings byte by byte; on code points this is the same order. */
  predicate StrLess(a: string, b: string) {
    b != [] && (a == [] || a[0] < b[0] || (a[0] == b[0] && StrLess(a[1..], b[1..])))
  }

  predicate StrLeq(a: string, b: string) { a == b || StrLess(a, b) }

  /** At place `k` the two differ for the first time, and there `a` ends or is smaller. */
  predicate LessAt(a: string, b: string, k: nat) {
    && k <= |a| && k < |b| && a[..k] == b[..k]
    && (k == |a| || a[k] < b[k])
  }

  lemma SameStart(a: string, b: string)
    requires a != [] && b != []
    ensures forall k: nat :: LessAt(a, b, k) && k > 0 ==> a[0] == b[0]
  {
    forall k: nat | LessAt(a, b, k) && k > 0 ensures a[0] == b[0] { assert a[..k][0] == b[..k][0]; }
  }

  /** Dictionary order: a proper prefix, or smaller at the first place that differs. */
  lemma {:induction false} StrLessExactly(a: string, b: string)
    ensures StrLess(a, b) <==> exists k: nat :: LessAt(a, b, k)
  {
    if b == [] || a == [] {
      if b != [] { assert LessAt(a, b, 0); }
    } else if a[0] != b[0] {
      if a[0] < b[0] { assert LessAt(a, b, 0); }
      SameStart(a, b);
    } else {
      StrLessExactly(a[1..], b[1..]);
      forall k: nat | LessAt(a[1..], b[1..], k) ensures LessAt(a, b, k + 1) {
        assert a[..k + 1] == [a[0]] + a[1..][..k] && b[..k + 1] == [b[0]] + b[1..][..k];
      }
      forall k: nat | LessAt(a, b, k) ensures k > 0 && LessAt(a[1..], b[1..], k - 1) {
        assert a[1..][..k - 1] == a[..k][1..] && b[1..][..k - 1] == b[..k][1..];
      }
      if k: nat :| LessAt(a, b, k) { assert LessAt(a[1..], b[1..], k - 1); }
      if k: nat :| LessAt(a[1..], b[1..], k) { assert LessAt(a, b, k + 1); }
    }
  }

  lemma {:induction false} StrLessIrreflexive(a: string)
    ensures !StrLess(a, a)
  {
    if a != [] { StrLessIrreflexive(a[1..]); }
  }

  lemma {:induction false} StrLessTransitive(a: string, b: string, c: string)
    requires StrLess(a, b) && StrLess(b, c)
    ensures StrLess(a, c)
  {
    if a != [] && a[0] == b[0] && b[0] == c[0] {
      StrLessTransitive(a[1..], b[1..], c[1..]);
    }
  }

  lemma {:induction false} StrLessTotal(a: string, b: string)
    ensures a == b || StrLess(a, b) || StrLess(b, a)
  {
    if a != [] && b != [] && a[0] == b[0] {
      StrLessTotal(a[1..], b[1..]);
      assert a == [a[0]] + a[1..] && b == [b[0]] + b[1..];
    }
  }

  ghost predicate SortedBy<T>(leq: (T, T) -> bool, xs: seq<T>) {
    forall i, j :: 0 <= i < j < |xs| ==> leq(xs[i], xs[j])
  }

  ghost predicate TotalPreorder<T(!new)>(leq: (T, T) -> bool) {
    && (forall x, y :: leq(x, y) || leq(y, x))
    && (forall x, y, z :: leq(x, y) && leq(y, z) ==> leq(x, z))
  }

  /** Some sorted rearrangement. The contract leaves the order of equal keys open,
      as `slices.Sort` and `slices.SortFunc` do. */
  method Sort<T(!new)>(xs: seq<T>, leq: (T, T) -> bool) returns (ys: seq<T>)
    requires TotalPreorder(leq)
    ensures multiset(ys) == multiset(xs)
    ensures SortedBy(leq, ys)
  {
    ys := [];
    var i := 0;
    while i < |xs|
      invariant 0 <= i <= |xs|
      invariant multiset(ys) == multiset(xs[..i])
      invariant SortedBy(leq, ys)
    {
      ys := Insert(ys, xs[i], leq);
      assert xs[..i + 1] == xs[..i] + [xs[i]];
      i := i + 1;
    }
    assert xs[..i] == xs;
  }

  method Insert<T(!new)>(ys: seq<T>, x: T, leq: (T, T) -> bool) returns (zs: seq<T>)
    requires TotalPreorder(leq) && SortedBy(leq, ys)
    ensures multiset(zs) == multiset(ys) + multiset{x}
    ensures SortedBy(leq, zs)
  {
    var k := 0;
    while k < |ys| && leq(ys[k], x)
      invariant 0 <= k <= |ys|
      invariant forall i :: 0 <= i < k ==> leq(ys[i], x)
    {
      k := k + 1;
    }
    zs := ys[..k] + [x] + ys[k..];
    assert ys == ys[..k] + ys[k..];
    InsertedSorted(ys, x, leq, k);
  }

  lemma InsertedSorted<T(!new)>(ys: seq<T>, x: T, leq: (T, T) -> bool, k: nat)
    requires TotalPreorder(leq) && SortedBy(leq, ys) && k <= |ys|
    requires (forall i :: 0 <= i < k ==> leq(ys[i], x)) && (k < |ys| ==> !leq(ys[k], x))
    ensures SortedBy(leq, ys[..k] + [x] + ys[k..])
  {
    forall j | k <= j < |ys| ensures leq(x, ys[j]) {
      assert leq(x, ys[k]);
      assert j > k ==> leq(ys[k], ys[j]);
    }
  }

  lemma StringOrder()
    ensures TotalPreorder(StrLeq)
  {
    forall x, y ensures StrLeq(x, y) || StrLeq(y, x) { StrLessTotal(x, y); }
    forall x, y, z | StrLeq(x, y) && StrLeq(y, z) ensures StrLeq(x, z) {
      if x != y && y != z { StrLessTransitive(x, y, z); }
    }
  }

  /** `xs` is the strictly ascending list of exactly the members of `s`. */
  ghost predicate Ascending(xs: seq<string>, s: set<string>) {
    && (forall x :: x in s <==> x in xs)
    && forall i, j :: 0 <= i < j < |xs| ==> StrLess(xs[i], xs[j])
  }

  /** A set of names has one ascending list, so equal views can be compared by set. */
  lemma {:induction false} AscendingUnique(xs: seq<string>, ys: seq<string>, s: set<string>)
    requires Ascending(xs, s) && Ascending(ys, s)
    ensures xs == ys
    decreases |xs|
  {
    AscendingEmpty(xs, s);
    AscendingEmpty(ys, s);
    if s != {} {
      HeadIsLeast(xs, ys, s);
      HeadIsLeast(ys, xs, s);
      if xs[0] != ys[0] {
        StrLessTransitive(xs[0], ys[0], xs[0]);
        StrLessIrreflexive(xs[0]);
      }
      AscendingTail(xs, s);
      AscendingTail(ys, s);
      AscendingUnique(xs[1..], ys[1..], s - {xs[0]});
      assert xs == [xs[0]] + xs[1..] && ys == [ys[0]] + ys[1..];
    }
  }

  lemma AscendingEmpty(xs: seq<string>, s: set<string>)
    requires Ascending(xs, s)
    ensures xs == [] <==> s == {}
  {
    if xs != [] { assert xs[0] in xs; }
  }

  lemma HeadIsLeast(xs: seq<string>, ys: seq<string>, s: set<string>)
    requires Ascending(xs, s) && Ascending(ys, s) && xs != [] && ys != []
    ensures xs[0] == ys[0] || StrLess(xs[0], ys[0])
  {
    assert ys[0] in ys;
    assert ys[0] in xs;
    var k :| 0 <= k < |xs| && xs[k] == ys[0];
  }

  lemma AscendingTail(xs: seq<string>, s: set<string>)
    requires Ascending(xs, s) && xs != []
    ensures Ascending(xs[1..], s - {xs[0]})
  {
    StrLessIrreflexive(xs[0]);
    forall x ensures x in s - {xs[0]} <==> x in xs[1..] {
      if x in xs[1..] {
        var k :| 0 <= k < |xs[1..]| && xs[1..][k] == x;
        assert xs[k + 1] == x && StrLess(xs[0], xs[k + 1]);
      }
      if x in s && x != xs[0] {
        var k :| 0 <= k < |xs| && xs[k] == x;
        assert xs[1..][k - 1] == x;
      }
    }
    forall i, j | 0 <= i < j < |xs[1..]| ensures StrLess(xs[1..][i], xs[1..][j]) {
      assert xs[1..][i] == xs[i + 1] && xs[1..][j] == xs[j + 1];
    }
  }

  /** Sorting a duplicate-free collection of names gives the ascending list. */
  method SortNames(xs: seq<string>, ghost s: set<string>) returns (ys: seq<string>)
    requires Lists(xs, s)
    ensures Ascending(ys, s)
  {
    StringOrder();
    ys := Sort(xs, StrLeq);
    MultisetMembers(xs, ys);
    forall i, j | 0 <= i < j < |ys| ensures StrLess(ys[i], ys[j]) {
      assert StrLeq(ys[i], ys[j]);
      NoRepeats(xs, ys[i]);
      RepeatCounts(ys, i, j);
    }
  }

  lemma {:induction false} NoRepeats<T>(xs: seq<T>, x: T)
    requires forall i, j :: 0 <= i < j < |xs| ==> xs[i] != xs[j]
    ensures multiset(xs)[x] <= 1
  {
    if xs != [] {
      var n := |xs| - 1;
      assert xs == xs[..n] + [xs[n]];
      NoRepeats(xs[..n], x);
      assert x in multiset(xs[..n]) <==> x in xs[..n];
    }
  }

  lemma RepeatCounts<T>(xs: seq<T>, i: nat, j: nat)
    requires i < j < |xs|
    ensures xs[i] == xs[j] ==> multiset(xs)[xs[i]] >= 2
  {
    assert xs == xs[..j] + [xs[j]] + xs[j + 1..];
    assert xs[..j] == xs[..i] + [xs[i]] + xs[i + 1..j];
  }
}
