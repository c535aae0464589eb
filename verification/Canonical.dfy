/**
  When a sorted list does not depend on the order its elements came in: exactly when any
  two elements that tie look the same.
 */
module Canonical {
  import opened Ordering

  function Map<T, U>(f: T -> U, xs: seq<T>): (r: seq<U>)
    ensures |r| == |xs|
    ensures forall i | 0 <= i < |xs| :: r[i] == f(xs[i])
  {
    seq(|xs|, i requires 0 <= i < |xs| => f(xs[i]))
  }

  predicate Ties<T>(less: (T, T) -> bool, a: T, b: T) {
    !less(a, b) && !less(b, a)
  }

  /** Elements that tie are shown alike. */
  ghost predicate TiesLookAlike<T(!new), U>(less: (T, T) -> bool, look: T -> U, xs: seq<T>) {
    forall a, b | a in xs && b in xs && Ties(less, a, b) :: look(a) == look(b)
  }

  /** Two ordered arrangements of the same elements look the same if ties look alike. */
  lemma {:induction false} ArrangementsLookAlike<T(!new), U(!new)>(less: (T, T) -> bool, look: T -> U, xs: seq<T>, ys: seq<T>)
    requires StrictWeak(less) && Sorted(less, xs) && Sorted(less, ys) && multiset(xs) == multiset(ys)
    requires TiesLookAlike(less, look, xs)
    ensures Map(look, xs) == Map(look, ys)
    decreases |xs|
  {
    assert |xs| == |multiset(xs)| == |multiset(ys)| == |ys|;
    if xs != [] {
      var n := |xs| - 1;
      var p := LastTies(less, xs, ys);
      var rest := ys[..p] + ys[p + 1..];
      WithoutPosition(ys, p);
      WithoutPosition(xs, n);
      assert xs[..n] + xs[n + 1..] == xs[..n];
      StillSorted(less, ys, p);
      assert TiesLookAlike(less, look, xs[..n]);
      ArrangementsLookAlike(less, look, xs[..n], rest);
      forall k | p <= k < |ys| ensures look(ys[k]) == look(xs[n]) {
        assert ys[k] in multiset(xs);
      }
      hide StrictWeak, Sorted, TiesLookAlike;
      LookShifted(look, xs, ys, p);
    }
  }

  lemma StillSorted<T>(less: (T, T) -> bool, ys: seq<T>, p: nat)
    requires Sorted(less, ys) && p < |ys|
    ensures Sorted(less, ys[..p] + ys[p + 1..])
  {
    var rest := ys[..p] + ys[p + 1..];
    forall i, j | 0 <= i < j < |rest| ensures !less(rest[j], rest[i]) {
      assert rest[i] == ys[if i < p then i else i + 1];
      assert rest[j] == ys[if j < p then j else j + 1];
    }
  }

  lemma LookShifted<T, U>(look: T -> U, xs: seq<T>, ys: seq<T>, p: nat)
    requires p < |ys| == |xs|
    requires Map(look, xs[..|xs| - 1]) == Map(look, ys[..p] + ys[p + 1..])
    requires forall k | p <= k < |ys| :: look(ys[k]) == look(xs[|xs| - 1])
    ensures Map(look, xs) == Map(look, ys)
  {
    var n, rest := |xs| - 1, ys[..p] + ys[p + 1..];
    forall k | 0 <= k < |xs| ensures look(xs[k]) == look(ys[k]) {
      if k < n {
        assert look(xs[k]) == Map(look, xs[..n])[k] == look(rest[k]);
        assert rest[k] == ys[if k < p then k else k + 1];
      }
    }
  }

  /** The last element of one arrangement is somewhere in the other, and everything from there on ties with it. */
  lemma LastTies<T(!new)>(less: (T, T) -> bool, xs: seq<T>, ys: seq<T>) returns (p: nat)
    requires Sorted(less, xs) && Sorted(less, ys) && multiset(xs) == multiset(ys) && xs != []
    requires StrictWeak(less)
    ensures p < |ys| && ys[p] == xs[|xs| - 1]
    ensures forall k | p <= k < |ys| :: Ties(less, ys[k], xs[|xs| - 1])
  {
    var last := xs[|xs| - 1];
    assert last in multiset(ys);
    p :| 0 <= p < |ys| && ys[p] == last;
    forall k | p <= k < |ys| ensures Ties(less, ys[k], last) {
      assert ys[k] in multiset(xs);
      var i :| 0 <= i < |xs| && xs[i] == ys[k];
    }
  }

  // ---------------------------------------------------------------------------
  // Stability
  // ---------------------------------------------------------------------------

  /** The elements that tie with x, in order. */
  function TiedWith<T>(less: (T, T) -> bool, x: T, xs: seq<T>): seq<T> {
    if xs == [] then []
    else
      var n := |xs| - 1;
      TiedWith(less, x, xs[..n]) + if Ties(less, x, xs[n]) then [xs[n]] else []
  }

  lemma TiedWithStep<T>(less: (T, T) -> bool, x: T, xs: seq<T>, y: T)
    ensures TiedWith(less, x, xs + [y]) == TiedWith(less, x, xs) + if Ties(less, x, y) then [y] else []
  {
    assert (xs + [y])[..|xs|] == xs;
  }

  lemma {:induction false} InsertIsStable<T(!new)>(less: (T, T) -> bool, x: T, z: T, xs: seq<T>)
    requires StrictWeak(less)
    ensures TiedWith(less, x, Insert(less, z, xs)) == TiedWith(less, x, xs) + if Ties(less, x, z) then [z] else []
  {
    if xs == [] || !less(z, xs[|xs| - 1]) {
      TiedWithStep(less, x, xs, z);
    } else {
      var rest, last := xs[..|xs| - 1], xs[|xs| - 1];
      InsertIsStable(less, x, z, rest);
      TiedWithStep(less, x, Insert(less, z, rest), last);
    }
  }

  /** Sorting keeps tied elements in the order they came in. */
  lemma {:induction false} SortIsStable<T(!new)>(less: (T, T) -> bool, x: T, xs: seq<T>)
    requires StrictWeak(less)
    ensures TiedWith(less, x, Sort(less, xs)) == TiedWith(less, x, xs)
  {
    hide Insert, StrictWeak;
    if xs != [] {
      SortIsStable(less, x, xs[..|xs| - 1]);
      InsertIsStable(less, x, xs[|xs| - 1], Sort(less, xs[..|xs| - 1]));
    }
  }

  /** A sequence with an element put in at a position. */
  function PutIn<T>(xs: seq<T>, p: nat, x: T): (r: seq<T>)
    requires p <= |xs|
    ensures |r| == |xs| + 1 && r[p] == x
    ensures forall k | 0 <= k < p :: r[k] == xs[k]
    ensures forall k | p < k < |r| :: r[k] == xs[k - 1]
  {
    xs[..p] + [x] + xs[p..]
  }

  lemma InsertStep<T>(less: (T, T) -> bool, x: T, xs: seq<T>)
    ensures Insert(less, x, xs)
         == if xs != [] && less(x, xs[|xs| - 1]) then Insert(less, x, xs[..|xs| - 1]) + [xs[|xs| - 1]] else xs + [x]
  {
  }

  /** Inserting puts x at a place: what comes behind it is what it precedes. */
  lemma {:induction false} InsertPlace<T>(less: (T, T) -> bool, x: T, xs: seq<T>) returns (p: nat)
    ensures p <= |xs| && Insert(less, x, xs) == PutIn(xs, p, x)
    ensures forall k | p <= k < |xs| :: less(x, xs[k])
  {
    hide Insert, PutIn;
    InsertStep(less, x, xs);
    p := |xs|;
    if xs != [] && less(x, xs[|xs| - 1]) {
      var n := |xs| - 1;
      p := InsertPlace(less, x, xs[..n]);
      PutInBefore(xs, p, x);
    } else {
      PutInLast(xs, x);
    }
  }

  lemma PutInBefore<T>(xs: seq<T>, p: nat, x: T)
    requires p < |xs|
    ensures PutIn(xs[..|xs| - 1], p, x) + [xs[|xs| - 1]] == PutIn(xs, p, x)
  {
    hide PutIn;
  }

  lemma PutInLast<T>(xs: seq<T>, x: T)
    ensures PutIn(xs, |xs|, x) == xs + [x]
  {
    hide PutIn;
  }

  /** A rearrangement of positions that sorts, with elements that tie in the order they had. */
  ghost predicate Rearranges<T>(less: (T, T) -> bool, xs: seq<T>, perm: seq<nat>, sorted: seq<T>) {
    && |perm| == |xs| == |sorted|
    && (forall k | 0 <= k < |perm| :: perm[k] < |xs| && sorted[k] == xs[perm[k]])
    && (forall x: nat | x < |xs| :: x in perm)
    && (forall j, k | 0 <= j < k < |perm| :: perm[j] != perm[k])
    && (forall j, k | 0 <= j < k < |perm| :: less(sorted[j], sorted[k]) || perm[j] < perm[k])
  }

  lemma {:induction false} SortPermutation<T(!new)>(less: (T, T) -> bool, xs: seq<T>) returns (perm: seq<nat>)
    ensures Rearranges(less, xs, perm, Sort(less, xs))
  {
    hide Insert, Rearranges;
    perm := [];
    if xs == [] {
      NothingRearranged(less);
    } else {
      var n := |xs| - 1;
      perm := SortPermutation(less, xs[..n]);
      var sorted := Sort(less, xs[..n]);
      SortStep(less, xs);
      hide Sort, PutIn;
      var p := InsertPlace(less, xs[n], sorted);
      OneMoreRearranged(less, xs, perm, sorted, p);
      perm := PutIn(perm, p, n);
    }
  }

  lemma NothingRearranged<T>(less: (T, T) -> bool)
    ensures Rearranges(less, [], [], Sort(less, []))
  {
  }

  lemma OneMoreRearranged<T>(less: (T, T) -> bool, xs: seq<T>, perm: seq<nat>, sorted: seq<T>, p: nat)
    requires xs != [] && p <= |sorted| && Rearranges(less, xs[..|xs| - 1], perm, sorted)
    requires forall k | p <= k < |sorted| :: less(xs[|xs| - 1], sorted[k])
    ensures |perm| == |sorted|
    ensures Rearranges(less, xs, PutIn(perm, p, |xs| - 1), PutIn(sorted, p, xs[|xs| - 1]))
  {
    hide PutIn;
    var n := |xs| - 1;
    var perm', sorted' := PutIn(perm, p, n), PutIn(sorted, p, xs[n]);
    forall x: nat | x < |xs| ensures x in perm' {
      assert x < n ==> x < |xs[..n]| && x in perm;
      PutInKeeps(perm, p, n, x);
    }
    forall j, k | 0 <= j < k < |perm'|
      ensures perm'[j] != perm'[k] && (less(sorted'[j], sorted'[k]) || perm'[j] < perm'[k])
    {
      OneMorePair(less, xs, perm, sorted, p, j, k);
    }
  }

  lemma OneMorePair<T>(less: (T, T) -> bool, xs: seq<T>, perm: seq<nat>, sorted: seq<T>, p: nat, j: nat, k: nat)
    requires xs != [] && p <= |sorted| == |perm| && j < k <= |perm|
    requires forall i | 0 <= i < |perm| :: perm[i] < |xs| - 1
    requires forall i, l | 0 <= i < l < |perm| :: perm[i] != perm[l] && (less(sorted[i], sorted[l]) || perm[i] < perm[l])
    requires forall i | p <= i < |sorted| :: less(xs[|xs| - 1], sorted[i])
    ensures var perm', sorted' := PutIn(perm, p, |xs| - 1), PutIn(sorted, p, xs[|xs| - 1]);
            perm'[j] != perm'[k] && (less(sorted'[j], sorted'[k]) || perm'[j] < perm'[k])
  {
    hide PutIn;
    var j', k' := if j < p then j else j - 1, if k < p then k else k - 1;
    assert j != p && k != p ==> 0 <= j' < k' < |perm|;
  }

  lemma PutInKeeps<T>(xs: seq<T>, p: nat, x: T, y: T)
    requires p <= |xs|
    ensures y in PutIn(xs, p, x) <==> y in xs || y == x
  {
    assert xs == xs[..p] + xs[p..];
  }

  // ---------------------------------------------------------------------------
  // The first of a sequence goes right after the elements less than it
  // ---------------------------------------------------------------------------

  function Below<T>(less: (T, T) -> bool, x: T): T -> int {
    y => if less(y, x) then 1 else 0
  }

  function Rank<T>(less: (T, T) -> bool, x: T, xs: seq<T>): int {
    SumBy(Below(less, x), xs)
  }

  lemma {:induction false} InsertKeepsPlace<T(!new)>(less: (T, T) -> bool, z: T, xs: seq<T>, p: nat)
    requires StrictWeak(less) && Sorted(less, xs) && p < |xs|
    ensures if less(z, xs[p]) then Insert(less, z, xs)[p + 1] == xs[p] else Insert(less, z, xs)[p] == xs[p]
  {
    var n := |xs| - 1;
    if p < n {
      if less(z, xs[n]) {
        InsertKeepsPlace(less, z, xs[..n], p);
      } else {
        assert !less(z, xs[p]);
      }
    }
  }

  lemma {:induction false} FirstLandsAtRank<T(!new)>(less: (T, T) -> bool, xs: seq<T>)
    requires StrictWeak(less) && xs != []
    ensures 0 <= Rank(less, xs[0], xs) < |xs|
    ensures Sort(less, xs)[Rank(less, xs[0], xs)] == xs[0]
  {
    hide Sort, Insert, Rank, Sorted;
    var n, x := |xs| - 1, xs[0];
    RankStep(less, x, xs);
    SortStep(less, xs);
    if n == 0 {
      assert xs[..0] == [] && !less(x, x);
      FirstAlone(less, x);
    } else {
      assert xs[..n][0] == x;
      FirstLandsAtRank(less, xs[..n]);
      SortSorts(less, xs[..n]);
      InsertKeepsPlace(less, xs[n], Sort(less, xs[..n]), Rank(less, x, xs[..n]));
    }
  }

  lemma SortStep<T>(less: (T, T) -> bool, xs: seq<T>)
    requires xs != []
    ensures Sort(less, xs) == Insert(less, xs[|xs| - 1], Sort(less, xs[..|xs| - 1]))
  {
    hide Insert;
  }

  lemma FirstAlone<T>(less: (T, T) -> bool, x: T)
    ensures Insert(less, x, Sort(less, [])) == [x] && Rank(less, x, []) == 0
  {
  }

  lemma RankStep<T>(less: (T, T) -> bool, x: T, xs: seq<T>)
    requires xs != []
    ensures Rank(less, x, xs) == Rank(less, x, xs[..|xs| - 1]) + if less(xs[|xs| - 1], x) then 1 else 0
  {
  }

  lemma {:induction false} TiedRanks<T(!new)>(less: (T, T) -> bool, a: T, b: T, xs: seq<T>)
    requires StrictWeak(less) && Ties(less, a, b)
    ensures Rank(less, a, xs) == Rank(less, b, xs)
  {
    if xs != [] {
      TiedRanks(less, a, b, xs[..|xs| - 1]);
    }
  }

  /** The sequence with the element at a position moved to the front. */
  function ToFront<T>(xs: seq<T>, i: nat): seq<T>
    requires i < |xs|
  {
    [xs[i]] + (xs[..i] + xs[i + 1..])
  }

  lemma ToFrontPermutes<T>(xs: seq<T>, i: nat)
    requires i < |xs|
    ensures multiset(ToFront(xs, i)) == multiset(xs)
  {
    assert xs == xs[..i] + [xs[i]] + xs[i + 1..];
  }

  lemma {:induction false} SumByPermutation<T>(f: T -> int, xs: seq<T>, ys: seq<T>)
    requires multiset(xs) == multiset(ys)
    ensures SumBy(f, xs) == SumBy(f, ys)
  {
    if xs == [] {
      assert |multiset(ys)| == 0;
    } else {
      var n, last := |xs| - 1, xs[|xs| - 1];
      assert last in multiset(ys);
      var p :| 0 <= p < |ys| && ys[p] == last;
      WithoutPosition(ys, p);
      WithoutPosition(xs, n);
      assert xs[..n] + xs[n + 1..] == xs[..n];
      SumByPermutation(f, xs[..n], ys[..p] + ys[p + 1..]);
      SumWithout(f, ys, p);
    }
  }

  lemma SumWithout<T>(f: T -> int, ys: seq<T>, p: nat)
    requires p < |ys|
    ensures SumBy(f, ys) == SumBy(f, ys[..p] + ys[p + 1..]) + f(ys[p])
  {
    hide SumBy;
    SumByConcat(f, ys[..p], ys[p + 1..]);
    SumByConcat(f, [ys[p]], ys[p + 1..]);
    SumByConcat(f, ys[..p], [ys[p]] + ys[p + 1..]);
    SumOne(f, ys[p]);
    assert ys == ys[..p] + ([ys[p]] + ys[p + 1..]);
  }

  lemma SumOne<T>(f: T -> int, x: T)
    ensures SumBy(f, [x]) == f(x)
  {
    assert [x][..0] == [];
  }

  /** Which of two tied elements came first shows if they look different. */
  lemma FirstShows<T(!new), U(!new)>(less: (T, T) -> bool, look: T -> U, xs: seq<T>, ys: seq<T>)
    requires StrictWeak(less) && xs != [] && ys != [] && multiset(xs) == multiset(ys)
    requires Ties(less, xs[0], ys[0]) && look(xs[0]) != look(ys[0])
    ensures Map(look, Sort(less, xs)) != Map(look, Sort(less, ys))
  {
    FirstLandsAtRank(less, xs);
    FirstLandsAtRank(less, ys);
    SumByPermutation(Below(less, ys[0]), xs, ys);
    TiedRanks(less, xs[0], ys[0], xs);
    var p := Rank(less, xs[0], xs);
    assert Rank(less, ys[0], ys) == p;
    hide Sort, Rank;
    assert Map(look, Sort(less, xs))[p] == look(xs[0]);
    assert Map(look, Sort(less, ys))[p] == look(ys[0]);
  }

  ghost predicate OrderIndependent<T(!new), U(!new)>(less: (T, T) -> bool, look: T -> U, xs: seq<T>) {
    forall ys | multiset(ys) == multiset(xs) :: Map(look, Sort(less, ys)) == Map(look, Sort(less, xs))
  }

  /** The sorted list looks the same for every order of arrival if and only if ties look alike. */
  lemma OrderIndependentIff<T(!new), U(!new)>(less: (T, T) -> bool, look: T -> U, xs: seq<T>)
    requires StrictWeak(less)
    ensures OrderIndependent(less, look, xs) <==> TiesLookAlike(less, look, xs)
  {
    if TiesLookAlike(less, look, xs) {
      forall ys | multiset(ys) == multiset(xs) ensures Map(look, Sort(less, ys)) == Map(look, Sort(less, xs)) {
        SortSorts(less, xs);
        SortSorts(less, ys);
        forall a | a in Sort(less, xs) ensures a in xs {
          assert a in multiset(Sort(less, xs));
        }
        ArrangementsLookAlike(less, look, Sort(less, xs), Sort(less, ys));
      }
    } else {
      var a, b :| a in xs && b in xs && Ties(less, a, b) && look(a) != look(b);
      var i :| 0 <= i < |xs| && xs[i] == a;
      var j :| 0 <= j < |xs| && xs[j] == b;
      ToFrontPermutes(xs, i);
      ToFrontPermutes(xs, j);
      FirstShows(less, look, ToFront(xs, i), ToFront(xs, j));
    }
  }
}
