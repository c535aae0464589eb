/**
  Orders and sorting. `Sort` stands for the standard library's stable sort; what the
  rest of the project uses of it is that its result is ordered and a permutation, and
  that such a result is unique as soon as no two elements tie.
 */
module Ordering {

  /** The byte order on strings. */
  predicate StringLess(a: string, b: string) {
    b != [] && (a == [] || a[0] < b[0] || (a[0] == b[0] && StringLess(a[1..], b[1..])))
  }

  /** A strict weak order: what a comparator must be for sorting to make sense. */
  ghost predicate StrictWeak<T(!new)>(less: (T, T) -> bool) {
    && (forall a, b :: less(a, b) ==> !less(b, a))
    && (forall a, b, c :: less(a, c) ==> less(a, b) || less(b, c))
  }

  lemma {:induction false} StringLessLaws(a: string, b: string, c: string)
    ensures StringLess(a, b) ==> !StringLess(b, a)
    ensures StringLess(a, c) ==> StringLess(a, b) || StringLess(b, c)
    ensures a == b || StringLess(a, b) || StringLess(b, a)
  {
    if a != [] && b != [] {
      var tail := if c == [] then [] else c[1..];
      StringLessLaws(a[1..], b[1..], tail);
      assert a == [a[0]] + a[1..] && b == [b[0]] + b[1..];
    }
  }

  /** One string is less than another if it is a proper prefix of it or has the smaller character
      where they first differ. */
  lemma {:induction false} StringLessIff(a: string, b: string)
    ensures StringLess(a, b) <==> exists i :: 0 <= i < |b| && i <= |a| && a[..i] == b[..i] && (i == |a| || a[i] < b[i])
  {
    if a != [] && b != [] && a[0] == b[0] {
      StringLessIff(a[1..], b[1..]);
      if i :| 0 <= i < |b| - 1 && i <= |a| - 1 && a[1..][..i] == b[1..][..i] && (i == |a| - 1 || a[1..][i] < b[1..][i]) {
        assert a[..i + 1] == [a[0]] + a[1..][..i] == b[..i + 1];
      }
      if i :| 0 <= i < |b| && i <= |a| && a[..i] == b[..i] && (i == |a| || a[i] < b[i]) {
        assert i > 0 && a[1..][..i - 1] == a[..i][1..] == b[..i][1..] == b[1..][..i - 1];
      }
    } else if b != [] {
      assert a[..0] == b[..0];
      assert forall i | 0 < i <= |a| && i <= |b| :: a[..i][0] == a[0] && b[..i][0] == b[0];
    }
  }

  /** No element stands before one that is less. */
  ghost predicate Sorted<T>(less: (T, T) -> bool, xs: seq<T>) {
    forall i, j | 0 <= i < j < |xs| :: !less(xs[j], xs[i])
  }

  ghost predicate StrictlySorted<T>(less: (T, T) -> bool, xs: seq<T>) {
    forall i, j | 0 <= i < j < |xs| :: less(xs[i], xs[j])
  }

  /** x goes after every element it does not precede. */
  function Insert<T>(less: (T, T) -> bool, x: T, xs: seq<T>): (r: seq<T>)
    ensures multiset(r) == multiset(xs) + multiset{x}
    ensures |r| == |xs| + 1
  {
    if xs == [] || !less(x, xs[|xs| - 1]) then xs + [x]
    else
      assert xs == xs[..|xs| - 1] + [xs[|xs| - 1]];
      Insert(less, x, xs[..|xs| - 1]) + [xs[|xs| - 1]]
  }

  function Sort<T>(less: (T, T) -> bool, xs: seq<T>): (r: seq<T>)
    ensures multiset(r) == multiset(xs)
    ensures |r| == |xs|
  {
    if xs == [] then []
    else
      assert xs == xs[..|xs| - 1] + [xs[|xs| - 1]];
      Insert(less, xs[|xs| - 1], Sort(less, xs[..|xs| - 1]))
  }

  lemma {:induction false} InsertSorts<T(!new)>(less: (T, T) -> bool, x: T, xs: seq<T>)
    requires StrictWeak(less) && Sorted(less, xs)
    ensures Sorted(less, Insert(less, x, xs))
  {
    if xs != [] {
      var rest, last := xs[..|xs| - 1], xs[|xs| - 1];
      if less(x, last) {
        InsertSorts(less, x, rest);
        var r := Insert(less, x, rest);
        forall i | 0 <= i < |r| ensures !less(last, r[i]) {
          assert r[i] in multiset(rest) + multiset{x};
        }
      } else {
        forall i | 0 <= i < |xs| ensures !less(x, xs[i]) {
          assert i == |xs| - 1 || !less(last, xs[i]);
        }
      }
    }
  }

  lemma {:induction false} SortSorts<T(!new)>(less: (T, T) -> bool, xs: seq<T>)
    requires StrictWeak(less)
    ensures Sorted(less, Sort(less, xs))
  {
    if xs != [] {
      SortSorts(less, xs[..|xs| - 1]);
      InsertSorts(less, xs[|xs| - 1], Sort(less, xs[..|xs| - 1]));
    }
  }

  /** No two positions hold elements that tie. */
  ghost predicate TieFree<T>(less: (T, T) -> bool, xs: seq<T>) {
    forall i, j | 0 <= i < j < |xs| :: less(xs[i], xs[j]) || less(xs[j], xs[i])
  }

  lemma {:induction false} TieFreePermutation<T(!new)>(less: (T, T) -> bool, xs: seq<T>, ys: seq<T>)
    requires TieFree(less, xs) && multiset(xs) == multiset(ys)
    requires StrictWeak(less)
    ensures TieFree(less, ys)
  {
    forall i, j | 0 <= i < j < |ys| ensures less(ys[i], ys[j]) || less(ys[j], ys[i]) {
      assert ys == ys[..i] + [ys[i]] + ys[i + 1..j] + [ys[j]] + ys[j + 1..];
      assert multiset{ys[i], ys[j]} <= multiset(xs);
      DistinctPositions(xs, ys[i], ys[j]);
    }
  }

  /** Two elements of a sequence's multiset sit at two different positions. */
  lemma DistinctPositions<T>(xs: seq<T>, a: T, b: T)
    requires multiset{a, b} <= multiset(xs)
    ensures exists i, j :: 0 <= i < |xs| && 0 <= j < |xs| && i != j && xs[i] == a && xs[j] == b
  {
    assert a in multiset(xs);
    var i :| 0 <= i < |xs| && xs[i] == a;
    WithoutPosition(xs, i);
    var rest := xs[..i] + xs[i + 1..];
    assert b in multiset(rest);
    var j :| 0 <= j < |rest| && rest[j] == b;
    if j < i {
      assert xs[j] == b;
    } else {
      assert xs[j + 1] == b;
    }
  }

  lemma WithoutPosition<T>(xs: seq<T>, i: nat)
    requires i < |xs|
    ensures multiset(xs[..i] + xs[i + 1..]) == multiset(xs) - multiset{xs[i]}
  {
    assert xs == xs[..i] + [xs[i]] + xs[i + 1..];
  }

  lemma SameHead<T(!new)>(less: (T, T) -> bool, xs: seq<T>, ys: seq<T>)
    requires forall a, b :: less(a, b) ==> !less(b, a)
    requires StrictlySorted(less, xs) && StrictlySorted(less, ys)
    requires xs != [] && ys != [] && ys[0] in xs && xs[0] in ys
    ensures xs[0] == ys[0]
  {
    var i :| 0 <= i < |xs| && xs[i] == ys[0];
    var j :| 0 <= j < |ys| && ys[j] == xs[0];
    assert 0 < i ==> less(xs[0], xs[i]);
    assert 0 < j ==> less(ys[0], ys[j]);
  }

  /** With no ties there is only one ordered arrangement of given elements. */
  lemma {:induction false} SortedUnique<T(!new)>(less: (T, T) -> bool, xs: seq<T>, ys: seq<T>)
    requires forall a, b :: less(a, b) ==> !less(b, a)
    requires StrictlySorted(less, xs) && StrictlySorted(less, ys)
    requires forall x :: x in xs <==> x in ys
    ensures xs == ys
    decreases |xs|
  {
    assert xs != [] ==> xs[0] in ys;
    assert ys != [] ==> ys[0] in xs;
    if xs != [] {
      SameHead(less, xs, ys);
      Tail(less, xs);
      Tail(less, ys);
      SortedUnique(less, xs[1..], ys[1..]);
      assert xs == [xs[0]] + xs[1..];
    }
  }

  lemma Tail<T(!new)>(less: (T, T) -> bool, xs: seq<T>)
    requires forall a, b :: less(a, b) ==> !less(b, a)
    requires xs != [] && StrictlySorted(less, xs)
    ensures StrictlySorted(less, xs[1..])
    ensures forall x :: x in xs[1..] <==> x in xs && x != xs[0]
    ensures xs == [xs[0]] + xs[1..]
  {
    forall x | x in xs && x != xs[0] ensures x in xs[1..] {
      var i :| 0 <= i < |xs| && xs[i] == x;
      assert x == xs[1..][i - 1];
    }
    forall x | x in xs[1..] ensures x != xs[0] {
      var i :| 0 <= i < |xs| - 1 && xs[1..][i] == x;
      assert less(xs[0], xs[i + 1]);
    }
  }

  lemma SortStrictly<T(!new)>(less: (T, T) -> bool, xs: seq<T>)
    requires StrictWeak(less) && TieFree(less, xs)
    ensures StrictlySorted(less, Sort(less, xs))
  {
    SortSorts(less, xs);
    TieFreePermutation(less, xs, Sort(less, xs));
  }

  // ---------------------------------------------------------------------------
  // Sums
  // ---------------------------------------------------------------------------

  function SumBy<T>(f: T -> int, xs: seq<T>): int {
    if xs == [] then 0 else SumBy(f, xs[..|xs| - 1]) + f(xs[|xs| - 1])
  }

  lemma SumByStep<T>(f: T -> int, xs: seq<T>, x: T)
    ensures SumBy(f, xs + [x]) == SumBy(f, xs) + f(x)
  {
    assert (xs + [x])[..|xs|] == xs;
  }

  lemma {:induction false} SumByConcat<T>(f: T -> int, xs: seq<T>, ys: seq<T>)
    ensures SumBy(f, xs + ys) == SumBy(f, xs) + SumBy(f, ys)
  {
    if ys == [] {
      assert xs + ys == xs;
    } else {
      SumByConcat(f, xs, ys[..|ys| - 1]);
      assert xs + ys == (xs + ys[..|ys| - 1]) + [ys[|ys| - 1]];
      SumByStep(f, xs + ys[..|ys| - 1], ys[|ys| - 1]);
    }
  }

  lemma {:induction false} SumByInsert<T>(f: T -> int, less: (T, T) -> bool, x: T, xs: seq<T>)
    ensures SumBy(f, Insert(less, x, xs)) == SumBy(f, xs) + f(x)
  {
    if xs == [] || !less(x, xs[|xs| - 1]) {
      SumByStep(f, xs, x);
    } else {
      SumByInsert(f, less, x, xs[..|xs| - 1]);
      SumByStep(f, Insert(less, x, xs[..|xs| - 1]), xs[|xs| - 1]);
    }
  }

  lemma {:induction false} SumBySort<T>(f: T -> int, less: (T, T) -> bool, xs: seq<T>)
    ensures SumBy(f, Sort(less, xs)) == SumBy(f, xs)
  {
    if xs != [] {
      SumBySort(f, less, xs[..|xs| - 1]);
      SumByInsert(f, less, xs[|xs| - 1], Sort(less, xs[..|xs| - 1]));
    }
  }
}
