/**
  Invoice explainability: an invoice's fees are filtered by type, sorted and paged, and the
  whole sorted list goes into a digest. Decoding the payload and hashing are left to the
  libraries: the model starts from decoded fees and ends at the digest's input.
 */
module Explainability {
  import opened Common
  import opened Text
  import opened Ordering
  import opened Canonical

  // ---------------------------------------------------------------------------
  // Data
  // ---------------------------------------------------------------------------

  /** A decoded fee; `details` stands for everything that is only displayed. */
  datatype Fee = Fee(
    id: string, itemType: string, createdAt: Time,
    amountCents: int64, taxesAmountCents: int64, totalAmountCents: int64, details: string)

  datatype Line = Line(
    feeId: string, feeType: string,
    amountCents: int64, taxesAmountCents: int64, totalAmountCents: int64, details: string)

  datatype Row = Row(line: Line, createdAt: Time)

  datatype SortMode = AmountAsc | AmountDesc | CreatedAsc | CreatedDesc

  datatype Options = Options(feeTypes: set<string>, sort: SortMode, page: int64, limit: int64)

  datatype Invoice = Invoice(
    id: string, number: string, status: string, currency: string, totalAmountCents: int64, fees: seq<Fee>)

  datatype Head = Head(invoiceId: string, number: string, status: string, currency: string, totalAmountCents: int64)

  /** A slice expression out of bounds panics. */
  datatype Page = Page(lines: seq<Line>) | Panic

  datatype Explanation = Explanation(head: Head, count: nat, page: Page, digested: seq<Line>)

  // ---------------------------------------------------------------------------
  // Options and filtering
  // ---------------------------------------------------------------------------

  function ParseSort(raw: string): Result<SortMode> {
    var name := Trim(Lower(raw));
    if name == "" || name == "created_at_asc" then Ok(CreatedAsc)
    else if name == "created_at_desc" then Ok(CreatedDesc)
    else if name == "amount_cents_asc" then Ok(AmountAsc)
    else if name == "amount_cents_desc" then Ok(AmountDesc)
    else Err
  }

  /** Lower-casing and trimming commute, so every normalization in the services agrees. */
  lemma {:induction false} TrimLower(s: string)
    ensures Trim(Lower(s)) == Normal(s)
  {
    var l := Lower(s);
    if s != "" {
      if IsSpace(s[0]) {
        assert l[1..] == Lower(s[1..]);
        TrimLower(s[1..]);
      } else if IsSpace(s[|s| - 1]) {
        assert l[..|l| - 1] == Lower(s[..|s| - 1]);
        TrimLower(s[..|s| - 1]);
      }
    }
  }

  lemma SortNames(raw: string)
    ensures var name, mode := Trim(Lower(raw)), ParseSort(raw);
            && (mode.Ok? <==> name in {"", "created_at_asc", "created_at_desc", "amount_cents_asc", "amount_cents_desc"})
            && (name in {"", "created_at_asc"} ==> mode == Ok(CreatedAsc))
            && (name == "created_at_desc" ==> mode == Ok(CreatedDesc))
            && (name == "amount_cents_asc" ==> mode == Ok(AmountAsc))
            && (name == "amount_cents_desc" ==> mode == Ok(AmountDesc))
  {
    hide Trim, Lower;
    var asc, desc, low, high := "created_at_asc", "created_at_desc", "amount_cents_asc", "amount_cents_desc";
    assert |asc| == 14 && |desc| == 15 && |low| == 16 && |high| == 17;
  }

  /** The requested types, normalized, without the blank ones. */
  method NewInvoiceExplainabilityOptions(feeTypes: seq<string>, lineItemSort: string, page: int64, limit: int64)
      returns (r: Result<Options>)
    ensures var name := Normal(lineItemSort);
            && (r.Ok? <==>
                  && name in {"", "created_at_asc", "created_at_desc", "amount_cents_asc", "amount_cents_desc"}
                  && page >= 0 && limit >= 0)
            && (r.Ok? ==>
                  && (name in {"", "created_at_asc"} ==> r.value.sort == CreatedAsc)
                  && (name == "created_at_desc" ==> r.value.sort == CreatedDesc)
                  && (name == "amount_cents_asc" ==> r.value.sort == AmountAsc)
                  && (name == "amount_cents_desc" ==> r.value.sort == AmountDesc))
    ensures r.Ok? ==>
              && r.value.page == page && r.value.limit == limit
              && forall t :: t in r.value.feeTypes <==> t != "" && exists i :: 0 <= i < |feeTypes| && Normal(feeTypes[i]) == t
  {
    TrimLower(lineItemSort);
    hide Trim, Lower, Normal;
    var mode := ParseSort(lineItemSort);
    SortNames(lineItemSort);
    hide ParseSort;
    if mode.Err? || page < 0 || limit < 0 {
      return Err;
    }
    var types: set<string> := {};
    for i := 0 to |feeTypes|
      invariant forall t :: t in types <==> t != "" && exists k :: 0 <= k < i && Normal(feeTypes[k]) == t
    {
      var v := Trim(Lower(feeTypes[i]));
      TrimLower(feeTypes[i]);
      if v != "" {
        types := types + {v};
      }
    }
    return Ok(Options(types, mode.value, page, limit));
  }

  predicate MatchesFeeType(types: set<string>, feeType: string) {
    types == {} || Normal(feeType) in types
  }

  /** A fee's own total stands unless it is zero while an amount or a tax is not. */
  function TotalOf(fee: Fee): int64 {
    if fee.totalAmountCents == 0 && (fee.amountCents != 0 || fee.taxesAmountCents != 0)
    then Wrap64(fee.amountCents + fee.taxesAmountCents)
    else fee.totalAmountCents
  }

  function BuildLine(fee: Fee): Line {
    Line(Trim(fee.id), Trim(Lower(fee.itemType)), fee.amountCents, fee.taxesAmountCents, TotalOf(fee), fee.details)
  }

  function RowOf(fee: Fee): Row {
    Row(BuildLine(fee), fee.createdAt)
  }

  predicate Kept(types: set<string>, fee: Fee) {
    MatchesFeeType(types, BuildLine(fee).feeType)
  }

  /** A fee is kept when no type was requested, or its own type, however written, is one of them. */
  lemma KeptIff(types: set<string>, fee: Fee)
    ensures Kept(types, fee) <==> types == {} || Normal(fee.itemType) in types
  {
    TrimLower(fee.itemType);
    NormalIdempotent(fee.itemType);
    hide Trim, Lower, Normal;
  }

  function Rows(types: set<string>, fees: seq<Fee>): seq<Row> {
    if fees == [] then []
    else
      var n := |fees| - 1;
      Rows(types, fees[..n]) + if Kept(types, fees[n]) then [RowOf(fees[n])] else []
  }

  lemma {:induction false} RowsConcat(types: set<string>, a: seq<Fee>, b: seq<Fee>)
    ensures Rows(types, a + b) == Rows(types, a) + Rows(types, b)
  {
    hide Kept, RowOf;
    if b == [] {
      assert a + b == a;
    } else {
      var n := |b| - 1;
      RowsConcat(types, a, b[..n]);
      assert (a + b)[..|a| + n] == a + b[..n];
    }
  }

  lemma RowsOne(types: set<string>, fee: Fee)
    ensures Rows(types, [fee]) == if Kept(types, fee) then [RowOf(fee)] else []
  {
    hide Kept, RowOf;
    assert [fee][..0] == [];
  }

  lemma RowsAround(types: set<string>, fees: seq<Fee>, p: nat)
    requires p < |fees|
    ensures multiset(Rows(types, fees))
         == multiset(Rows(types, fees[..p] + fees[p + 1..])) + multiset(Rows(types, [fees[p]]))
  {
    assert fees == fees[..p] + ([fees[p]] + fees[p + 1..]);
    RowsConcat(types, fees[..p], [fees[p]] + fees[p + 1..]);
    RowsConcat(types, [fees[p]], fees[p + 1..]);
    RowsConcat(types, fees[..p], fees[p + 1..]);
    hide Rows;
  }

  /** The same fees give the same rows, in some order. */
  lemma {:induction false} RowsPermute(types: set<string>, xs: seq<Fee>, ys: seq<Fee>)
    requires multiset(xs) == multiset(ys)
    ensures multiset(Rows(types, xs)) == multiset(Rows(types, ys))
    decreases |xs|
  {
    if xs == [] {
      assert |multiset(ys)| == 0;
    } else {
      var n, last := |xs| - 1, xs[|xs| - 1];
      assert last in multiset(ys);
      var p :| 0 <= p < |ys| && ys[p] == last;
      WithoutPosition(ys, p);
      WithoutPosition(xs, n);
      RowsAround(types, xs, n);
      RowsAround(types, ys, p);
      hide Rows;
      assert xs[..n] + xs[n + 1..] == xs[..n];
      RowsPermute(types, xs[..n], ys[..p] + ys[p + 1..]);
    }
  }

  lemma {:induction false} RowsFrom(types: set<string>, fees: seq<Fee>, row: Row)
    ensures row in Rows(types, fees) <==> exists i :: 0 <= i < |fees| && Kept(types, fees[i]) && RowOf(fees[i]) == row
  {
    hide Kept, RowOf;
    if fees != [] {
      var n := |fees| - 1;
      RowsFrom(types, fees[..n], row);
      if row in Rows(types, fees[..n]) {
        var i :| 0 <= i < n && Kept(types, fees[..n][i]) && RowOf(fees[..n][i]) == row;
        assert fees[i] == fees[..n][i];
      }
      if i :| 0 <= i < n && Kept(types, fees[i]) && RowOf(fees[i]) == row {
        assert fees[..n][i] == fees[i];
      }
    }
  }

  // ---------------------------------------------------------------------------
  // The order of lines
  // ---------------------------------------------------------------------------

  function RowLess(mode: SortMode, left: Row, right: Row): bool {
    if mode == AmountAsc && left.line.amountCents != right.line.amountCents then
      left.line.amountCents < right.line.amountCents
    else if mode == AmountDesc && left.line.amountCents != right.line.amountCents then
      left.line.amountCents > right.line.amountCents
    else if mode == CreatedDesc && left.createdAt != right.createdAt then left.createdAt > right.createdAt
    else if mode == CreatedAsc && left.createdAt != right.createdAt then left.createdAt < right.createdAt
    else StringLess(left.line.feeId, right.line.feeId)
  }

  function Before(mode: SortMode): (Row, Row) -> bool {
    (left: Row, right: Row) => RowLess(mode, left, right)
  }

  function SortKey(mode: SortMode, row: Row): int {
    match mode
    case AmountAsc => row.line.amountCents as int
    case AmountDesc => 0 - (row.line.amountCents as int)
    case CreatedAsc => row.createdAt
    case CreatedDesc => -row.createdAt
  }

  /** Rows are ordered by key and then by fee id, and tie only when both agree. */
  lemma RowLessMeaning(mode: SortMode, a: Row, b: Row)
    ensures RowLess(mode, a, b)
        <==> SortKey(mode, a) < SortKey(mode, b)
             || (SortKey(mode, a) == SortKey(mode, b) && StringLess(a.line.feeId, b.line.feeId))
    ensures Ties(Before(mode), a, b) <==> SortKey(mode, a) == SortKey(mode, b) && a.line.feeId == b.line.feeId
  {
    StringLessLaws(a.line.feeId, b.line.feeId, a.line.feeId);
    StringLessLaws(a.line.feeId, a.line.feeId, a.line.feeId);
    hide StringLess;
  }

  lemma BeforeIsStrictWeak(mode: SortMode)
    ensures StrictWeak(Before(mode))
  {
    hide StringLess;
    var less := Before(mode);
    forall a: Row, b: Row ensures less(a, b) ==> !less(b, a) {
      StringLessLaws(a.line.feeId, b.line.feeId, a.line.feeId);
      RowLessMeaning(mode, a, b);
      RowLessMeaning(mode, b, a);
    }
    forall a: Row, b: Row, c: Row ensures less(a, c) ==> less(a, b) || less(b, c) {
      StringLessLaws(a.line.feeId, b.line.feeId, c.line.feeId);
      RowLessMeaning(mode, a, b);
      RowLessMeaning(mode, b, c);
      RowLessMeaning(mode, a, c);
    }
  }

  function LineOf(row: Row): Line {
    row.line
  }

  /** The whole sorted list: what is paged and what goes into the digest. */
  function AllLines(fees: seq<Fee>, types: set<string>, mode: SortMode): seq<Line> {
    Map(LineOf, Sort(Before(mode), Rows(types, fees)))
  }

  /** Two kept fees that agree on the sort key and on the trimmed id become the same line. */
  ghost predicate NoAmbiguity(fees: seq<Fee>, types: set<string>, mode: SortMode) {
    forall i, j | 0 <= i < |fees| && 0 <= j < |fees| && Kept(types, fees[i]) && Kept(types, fees[j]) ::
      SortKey(mode, RowOf(fees[i])) == SortKey(mode, RowOf(fees[j])) && Trim(fees[i].id) == Trim(fees[j].id)
      ==> BuildLine(fees[i]) == BuildLine(fees[j])
  }

  lemma AmbiguityIsTie(fees: seq<Fee>, types: set<string>, mode: SortMode)
    ensures NoAmbiguity(fees, types, mode) ==> TiesLookAlike(Before(mode), LineOf, Rows(types, fees))
  {
    if NoAmbiguity(fees, types, mode) {
      forall a, b | a in Rows(types, fees) && b in Rows(types, fees) && Ties(Before(mode), a, b) ensures LineOf(a) == LineOf(b) {
        RowsFrom(types, fees, a);
        RowsFrom(types, fees, b);
        var i :| 0 <= i < |fees| && Kept(types, fees[i]) && RowOf(fees[i]) == a;
        var j :| 0 <= j < |fees| && Kept(types, fees[j]) && RowOf(fees[j]) == b;
        RowLessMeaning(mode, a, b);
        hide Trim, Lower, Kept, TotalOf, SortKey, Ties, RowLess, Rows;
      }
    }
  }

  /** Explainability is canonical exactly when nothing is ambiguous: the sorted lines, and so the
      digest's input, are the same for every order in which the fees arrive. */
  lemma CanonicalIff(fees: seq<Fee>, types: set<string>, mode: SortMode)
    ensures (forall ys | multiset(ys) == multiset(fees) :: AllLines(ys, types, mode) == AllLines(fees, types, mode))
       <==> NoAmbiguity(fees, types, mode)
  {
    hide AllLines, NoAmbiguity;
    if NoAmbiguity(fees, types, mode) {
      forall ys | multiset(ys) == multiset(fees) ensures AllLines(ys, types, mode) == AllLines(fees, types, mode) {
        UnambiguousIsCanonical(fees, ys, types, mode);
      }
    } else {
      var i, j := AmbiguityShows(fees, types, mode);
      ToFrontPermutes(fees, i);
      ToFrontPermutes(fees, j);
    }
  }

  lemma UnambiguousIsCanonical(fees: seq<Fee>, ys: seq<Fee>, types: set<string>, mode: SortMode)
    requires NoAmbiguity(fees, types, mode) && multiset(ys) == multiset(fees)
    ensures AllLines(ys, types, mode) == AllLines(fees, types, mode)
  {
    BeforeIsStrictWeak(mode);
    AmbiguityIsTie(fees, types, mode);
    OrderIndependentIff(Before(mode), LineOf, Rows(types, fees));
    RowsPermute(types, fees, ys);
    hide NoAmbiguity, Rows, Sort, StrictWeak, TiesLookAlike;
  }

  lemma FrontRow(fees: seq<Fee>, types: set<string>, i: nat)
    requires i < |fees| && Kept(types, fees[i])
    ensures Rows(types, ToFront(fees, i)) != [] && Rows(types, ToFront(fees, i))[0] == RowOf(fees[i])
  {
    RowsConcat(types, [fees[i]], fees[..i] + fees[i + 1..]);
    RowsOne(types, fees[i]);
  }

  lemma AmbiguityShows(fees: seq<Fee>, types: set<string>, mode: SortMode) returns (i: nat, j: nat)
    requires !NoAmbiguity(fees, types, mode)
    ensures i < |fees| && j < |fees|
    ensures AllLines(ToFront(fees, i), types, mode) != AllLines(ToFront(fees, j), types, mode)
  {
    i, j :| 0 <= i < |fees| && 0 <= j < |fees| && Kept(types, fees[i]) && Kept(types, fees[j]) &&
      SortKey(mode, RowOf(fees[i])) == SortKey(mode, RowOf(fees[j])) && Trim(fees[i].id) == Trim(fees[j].id)
      && BuildLine(fees[i]) != BuildLine(fees[j]);
    hide NoAmbiguity, Kept, Trim, Lower, TotalOf, SortKey;
    FrontRow(fees, types, i);
    FrontRow(fees, types, j);
    ToFrontPermutes(fees, i);
    ToFrontPermutes(fees, j);
    RowsPermute(types, ToFront(fees, i), ToFront(fees, j));
    BeforeIsStrictWeak(mode);
    RowLessMeaning(mode, RowOf(fees[i]), RowOf(fees[j]));
    hide Rows, Sort, StrictWeak, RowLess, Ties, Before;
    FirstShows(Before(mode), LineOf, Rows(types, ToFront(fees, i)), Rows(types, ToFront(fees, j)));
  }

  /** Distinct ids, once trimmed, leave nothing ambiguous. */
  lemma DistinctIdsAreCanonical(fees: seq<Fee>, ys: seq<Fee>, types: set<string>, mode: SortMode)
    requires forall i, j | 0 <= i < j < |fees| :: Trim(fees[i].id) != Trim(fees[j].id)
    requires multiset(ys) == multiset(fees)
    ensures AllLines(ys, types, mode) == AllLines(fees, types, mode)
  {
    hide Trim, Lower, AllLines, Kept, SortKey;
    UnambiguousIsCanonical(fees, ys, types, mode);
  }

  // ---------------------------------------------------------------------------
  // Where the lines come from
  // ---------------------------------------------------------------------------

  /** The line of a fee: its own amounts under its trimmed id, and its total, or the sum of amount and
      taxes if it has none. */
  function LineFor(fee: Fee): Line {
    Line(Trim(fee.id), Normal(fee.itemType), fee.amountCents, fee.taxesAmountCents,
         if fee.totalAmountCents != 0 then fee.totalAmountCents else Wrap64(fee.amountCents + fee.taxesAmountCents),
         fee.details)
  }

  /** Whether a fee's line comes before another's: by amount or by time of creation, up or down, and
      then by id. */
  predicate FeeBefore(mode: SortMode, a: Fee, b: Fee) {
    var ids := StringLess(Trim(a.id), Trim(b.id));
    match mode
    case AmountAsc => a.amountCents < b.amountCents || (a.amountCents == b.amountCents && ids)
    case AmountDesc => a.amountCents > b.amountCents || (a.amountCents == b.amountCents && ids)
    case CreatedAsc => a.createdAt < b.createdAt || (a.createdAt == b.createdAt && ids)
    case CreatedDesc => a.createdAt > b.createdAt || (a.createdAt == b.createdAt && ids)
  }

  lemma BuildLineIs(fee: Fee)
    ensures BuildLine(fee) == LineFor(fee)
  {
    TrimLower(fee.itemType);
    hide Trim, Lower, Normal;
  }

  lemma RowLessIs(mode: SortMode, a: Fee, b: Fee)
    ensures RowLess(mode, RowOf(a), RowOf(b)) <==> FeeBefore(mode, a, b)
  {
    hide Trim, Lower, StringLess, TotalOf;
  }

  /** The positions of the fees asked for. */
  function KeptAt(types: set<string>, fees: seq<Fee>): (at: seq<nat>)
    ensures |at| == |Rows(types, fees)|
    ensures forall k | 0 <= k < |at| ::
              at[k] < |fees| && Kept(types, fees[at[k]]) && Rows(types, fees)[k] == RowOf(fees[at[k]])
    ensures forall j, k | 0 <= j < k < |at| :: at[j] < at[k]
  {
    if fees == [] then []
    else
      var n := |fees| - 1;
      KeptAt(types, fees[..n]) + if Kept(types, fees[n]) then [n] else []
  }

  lemma {:induction false} KeptAtAll(types: set<string>, fees: seq<Fee>, i: nat)
    requires i < |fees| && Kept(types, fees[i])
    ensures i in KeptAt(types, fees)
  {
    hide Kept;
    if i < |fees| - 1 {
      KeptAtAll(types, fees[..|fees| - 1], i);
    }
  }

  /** The sorted lines are those of the fees at some positions: one line for each fee asked for, in
      the order asked for; fees that are equal in it stay in the order they came in. */
  ghost predicate LinesFrom(fees: seq<Fee>, types: set<string>, mode: SortMode, lines: seq<Line>, origin: seq<nat>) {
    && |origin| == |lines|
    && (forall k | 0 <= k < |origin| :: origin[k] < |fees| && lines[k] == LineFor(fees[origin[k]]))
    && (forall i: nat :: i in origin <==> i < |fees| && (types == {} || Normal(fees[i].itemType) in types))
    && (forall j, k | 0 <= j < k < |origin| :: origin[j] != origin[k])
    && (forall j, k | 0 <= j < k < |origin| :: FeeBefore(mode, fees[origin[j]], fees[origin[k]])
                                              || (origin[j] < origin[k] && !FeeBefore(mode, fees[origin[k]], fees[origin[j]])))
  }

  lemma LinesOfFees(fees: seq<Fee>, types: set<string>, mode: SortMode) returns (origin: seq<nat>)
    ensures LinesFrom(fees, types, mode, AllLines(fees, types, mode), origin)
  {
    hide Rows, KeptAt, Sort, Kept, FeeBefore, RowLess, StrictWeak, RowOf, LineFor, Normal, Compose, Sorted, AllLines, Before, Rearranges;
    var rows := Rows(types, fees);
    BeforeIsStrictWeak(mode);
    SortSorts(Before(mode), rows);
    var perm := SortPermutation(Before(mode), rows);
    var at := KeptAt(types, fees);
    RearrangedPositions(Before(mode), rows, perm);
    origin := Compose(at, perm);
    LengthKept(fees, types, mode);
    forall k | 0 <= k < |origin| ensures origin[k] < |fees| && AllLines(fees, types, mode)[k] == LineFor(fees[origin[k]]) {
      LineAt(fees, types, mode, perm, k);
    }
    forall i: nat ensures i in origin <==> i < |fees| && (types == {} || Normal(fees[i].itemType) in types) {
      OriginsAre(types, fees, perm, i);
    }
    forall j, k | 0 <= j < k < |origin|
      ensures origin[j] != origin[k]
      ensures FeeBefore(mode, fees[origin[j]], fees[origin[k]])
              || (origin[j] < origin[k] && !FeeBefore(mode, fees[origin[k]], fees[origin[j]]))
    {
      OriginsInOrder(fees, types, mode, perm, j, k);
    }
  }

  lemma RearrangedPositions(less: (Row, Row) -> bool, rows: seq<Row>, perm: seq<nat>)
    requires Rearranges(less, rows, perm, Sort(less, rows))
    ensures |perm| == |rows| && forall k | 0 <= k < |perm| :: perm[k] < |rows|
    ensures forall x: nat | x < |perm| :: x in perm
  {
  }

  lemma LengthKept(fees: seq<Fee>, types: set<string>, mode: SortMode)
    ensures |AllLines(fees, types, mode)| == |Rows(types, fees)|
  {
  }

  function Compose(at: seq<nat>, perm: seq<nat>): (r: seq<nat>)
    requires forall k | 0 <= k < |perm| :: perm[k] < |at|
    ensures |r| == |perm| && forall k | 0 <= k < |perm| :: r[k] == at[perm[k]]
  {
    seq(|perm|, k requires 0 <= k < |perm| => at[perm[k]])
  }

  lemma LineAt(fees: seq<Fee>, types: set<string>, mode: SortMode, perm: seq<nat>, k: nat)
    requires Rearranges(Before(mode), Rows(types, fees), perm, Sort(Before(mode), Rows(types, fees))) && k < |perm|
    ensures perm[k] < |KeptAt(types, fees)| && KeptAt(types, fees)[perm[k]] < |fees|
    ensures AllLines(fees, types, mode)[k] == LineFor(fees[KeptAt(types, fees)[perm[k]]])
  {
    hide KeptAt, Sort, Rows, Kept, LineFor, BuildLine;
    BuildLineIs(fees[KeptAt(types, fees)[perm[k]]]);
  }

  lemma OriginsInOrder(fees: seq<Fee>, types: set<string>, mode: SortMode, perm: seq<nat>, j: nat, k: nat)
    requires Rearranges(Before(mode), Rows(types, fees), perm, Sort(Before(mode), Rows(types, fees)))
    requires Sorted(Before(mode), Sort(Before(mode), Rows(types, fees))) && j < k < |perm|
    ensures |perm| == |KeptAt(types, fees)| && perm[j] < |perm| && perm[k] < |perm|
    ensures var at := KeptAt(types, fees);
            && at[perm[j]] < |fees| && at[perm[k]] < |fees| && at[perm[j]] != at[perm[k]]
            && (FeeBefore(mode, fees[at[perm[j]]], fees[at[perm[k]]])
                || (at[perm[j]] < at[perm[k]] && !FeeBefore(mode, fees[at[perm[k]]], fees[at[perm[j]]])))
  {
    var at, rows, sorted := KeptAt(types, fees), Rows(types, fees), Sort(Before(mode), Rows(types, fees));
    hide KeptAt, Sort, Rows, Kept, FeeBefore, RowLess, RowOf;
    assert sorted[j] == RowOf(fees[at[perm[j]]]) && sorted[k] == RowOf(fees[at[perm[k]]]);
    RowLessIs(mode, fees[at[perm[j]]], fees[at[perm[k]]]);
    RowLessIs(mode, fees[at[perm[k]]], fees[at[perm[j]]]);
    assert !Before(mode)(sorted[k], sorted[j]);
  }

  lemma OriginsAre(types: set<string>, fees: seq<Fee>, perm: seq<nat>, i: nat)
    requires |perm| == |KeptAt(types, fees)| && forall k | 0 <= k < |perm| :: perm[k] < |perm|
    requires forall x: nat | x < |perm| :: x in perm
    ensures i in Compose(KeptAt(types, fees), perm) <==> i < |fees| && (types == {} || Normal(fees[i].itemType) in types)
  {
    var at := KeptAt(types, fees);
    var origin := Compose(at, perm);
    hide Kept, Normal, Rows, KeptAt, Compose;
    if i < |fees| {
      KeptIff(types, fees[i]);
      if Kept(types, fees[i]) {
        KeptAtAll(types, fees, i);
        var x :| 0 <= x < |at| && at[x] == i;
        assert x in perm;
        var k :| 0 <= k < |perm| && perm[k] == x;
        assert origin[k] == i;
      }
    }
  }

  function AmountOf(line: Line): int { line.amountCents }

  function TaxesOf(line: Line): int { line.taxesAmountCents }

  function FeeAmount(fee: Fee): int { fee.amountCents }

  function FeeTaxes(fee: Fee): int { fee.taxesAmountCents }

  /** With no type asked for, the lines carry all that the fees amount to. */
  lemma NothingLost(fees: seq<Fee>, mode: SortMode)
    ensures |AllLines(fees, {}, mode)| == |fees|
    ensures SumBy(AmountOf, AllLines(fees, {}, mode)) == SumBy(FeeAmount, fees)
    ensures SumBy(TaxesOf, AllLines(fees, {}, mode)) == SumBy(FeeTaxes, fees)
  {
    var rows := Rows({}, fees);
    RowSums(fees);
    SumByMap((row: Row) => row.line.amountCents as int, AmountOf, Sort(Before(mode), rows));
    SumByMap((row: Row) => row.line.taxesAmountCents as int, TaxesOf, Sort(Before(mode), rows));
    SumBySort((row: Row) => row.line.amountCents as int, Before(mode), rows);
    SumBySort((row: Row) => row.line.taxesAmountCents as int, Before(mode), rows);
  }

  lemma {:induction false} SumByMap(f: Row -> int, g: Line -> int, rows: seq<Row>)
    requires forall row: Row :: f(row) == g(row.line)
    ensures SumBy(g, Map(LineOf, rows)) == SumBy(f, rows)
  {
    if rows != [] {
      var n := |rows| - 1;
      SumByMap(f, g, rows[..n]);
      assert Map(LineOf, rows)[..n] == Map(LineOf, rows[..n]);
    }
  }

  lemma {:induction false} RowSums(fees: seq<Fee>)
    ensures |Rows({}, fees)| == |fees|
    ensures SumBy((row: Row) => row.line.amountCents as int, Rows({}, fees)) == SumBy(FeeAmount, fees)
    ensures SumBy((row: Row) => row.line.taxesAmountCents as int, Rows({}, fees)) == SumBy(FeeTaxes, fees)
  {
    hide Trim, Lower, Normal;
    if fees != [] {
      var n := |fees| - 1;
      RowSums(fees[..n]);
      SumByStep((row: Row) => row.line.amountCents as int, Rows({}, fees[..n]), RowOf(fees[n]));
      SumByStep((row: Row) => row.line.taxesAmountCents as int, Rows({}, fees[..n]), RowOf(fees[n]));
    }
  }

  // ---------------------------------------------------------------------------
  // Pages
  // ---------------------------------------------------------------------------

  /** Go's slice expression, which panics unless 0 <= start <= stop <= length. */
  function Slice(lines: seq<Line>, start: int, stop: int): Page {
    if 0 <= start <= stop <= |lines| then Page(lines[start..stop]) else Panic
  }

  function Paginate(lines: seq<Line>, page: int64, limit: int64): Page
    requires |lines| < TWO_63
  {
    if page == 0 && limit == 0 then Page(lines)
    else if lines == [] then Page([])
    else
      var pageValue := if page <= 0 then 1 else page;
      var limitValue := if limit <= 0 then |lines| else limit;
      var offset := Wrap64((pageValue - 1) * limitValue);
      if offset >= |lines| then Page([])
      else
        var end := Wrap64(offset + limitValue);
        Slice(lines, offset, if end > |lines| then |lines| else end)
  }

  function Least(a: int, b: int): int {
    if a < b then a else b
  }

  /** What page number `page` of a list is: the lines from (page - 1) * limit up to page * limit. */
  function IdealPage(lines: seq<Line>, page: int, limit: int): seq<Line>
    requires page >= 1 && limit >= 1
  {
    lines[Least((page - 1) * limit, |lines|)..Least(page * limit, |lines|)]
  }

  /** No slice can hold this many lines: they would not fit the address space. */
  const MAX_LINES: int := 0x4000_0000_0000_0000

  /** Paging when the product (page - 1) * limit has the value q. */
  lemma PageAt(lines: seq<Line>, q: int, limit: int64)
    requires lines != [] && |lines| <= MAX_LINES && limit >= 1 && (q == 0 || q >= limit)
    ensures var offset := Wrap64(q);
            var end := Wrap64(offset + limit);
            var page := if offset >= |lines| then Page([]) else Slice(lines, offset, if end > |lines| then |lines| else end);
            (page == Page(lines[Least(q, |lines|)..Least(q + limit, |lines|)])
             <==> InRange64(q) || offset >= |lines|)
  {
    var offset := Wrap64(q);
    if !InRange64(q) && 0 <= offset < |lines| {
      var end := Wrap64(offset + limit);
      hide Wrap64;
      assert lines[Least(q, |lines|)..Least(q + limit, |lines|)] == [];
      if InRange64(offset + limit) {
        assert |lines[offset..Least(end, |lines|)]| > 0;
      } else {
        WrapsNegative(offset + limit);
      }
    }
  }

  /** What the page number and the limit default to. */
  function EffectivePage(page: int64): int64 {
    if page <= 0 then 1 else page
  }

  function EffectiveLimit(lines: seq<Line>, limit: int64): int
    ensures lines != [] ==> EffectiveLimit(lines, limit) >= 1
  {
    if limit <= 0 then |lines| else limit
  }

  /** A page holds the lines its number and limit promise if and only if the offset fits 64 bits
      or what it wraps to is past the end. */
  lemma PageIff(lines: seq<Line>, page: int64, limit: int64)
    requires lines != [] && |lines| <= MAX_LINES && !(page == 0 && limit == 0)
    ensures var p, l := EffectivePage(page), EffectiveLimit(lines, limit);
            (Paginate(lines, page, limit) == Page(IdealPage(lines, p, l))
             <==> InRange64((p - 1) * l) || Wrap64((p - 1) * l) >= |lines|)
  {
    var p, l := EffectivePage(page), EffectiveLimit(lines, limit);
    OffsetBound(p, l);
    PageAt(lines, (p - 1) * l, l);
    hide Wrap64, InRange64, Slice;
  }

  lemma OffsetBound(page: int, limit: int)
    requires page >= 1 && limit >= 1
    ensures (page - 1) * limit == 0 || (page - 1) * limit >= limit
    ensures page * limit == (page - 1) * limit + limit
  {
    if page > 1 {
      ProductGrows(1, page - 1, limit, limit);
    }
  }

  /** Neither page nor limit named means everything; a page that is not named is the first, and without
      a limit the first page holds everything. An empty list has only empty pages. */
  lemma PageDefaults(lines: seq<Line>, page: int64, limit: int64)
    requires |lines| <= MAX_LINES
    ensures Paginate(lines, 0, 0) == Page(lines)
    ensures page <= 0 && !(page == 0 && limit == 0) && limit >= 1 ==> Paginate(lines, page, limit) == Paginate(lines, 1, limit)
    ensures page <= 1 && limit <= 0 ==> Paginate(lines, page, limit) == Page(lines)
    ensures page > 1 && limit <= 0 && (page - 1) * |lines| < TWO_63 ==> Paginate(lines, page, limit) == Page([])
    ensures lines == [] ==> Paginate(lines, page, limit) == Page([])
  {
    if lines != [] {
      assert lines[0..|lines|] == lines;
      if page > 1 && limit <= 0 {
        OffsetBound(page, |lines|);
      }
    }
  }

  /** The condition is needed: from an offset that wraps around, the first page is served again, or
      the slice panics. */
  lemma HugePagesWrap(lines: seq<Line>)
    requires 0 < |lines| <= 0x1_0000_0000
    ensures Paginate(lines, 0x1_0000_0001, 0x1_0000_0000) == Page(lines) && IdealPage(lines, 0x1_0000_0001, 0x1_0000_0000) == []
    ensures Paginate(lines, 3, 0x4000_0000_0000_0000) == Panic
  {
    assert Wrap64(0x1_0000_0000 * 0x1_0000_0000) == 0;
    assert Wrap64(2 * 0x4000_0000_0000_0000) == -TWO_63;
  }

  function PageCount(lines: seq<Line>, limit: int): int
    requires limit >= 1
  {
    (|lines| + limit - 1) / limit
  }

  lemma PageCountBounds(lines: seq<Line>, limit: int, k: int)
    requires limit >= 1
    ensures 0 <= PageCount(lines, limit) <= |lines| <= PageCount(lines, limit) * limit
    ensures 1 <= k ==> (k <= PageCount(lines, limit) <==> (k - 1) * limit < |lines|)
  {
    var count := PageCount(lines, limit);
    PageCountMeaning(lines, limit);
    hide PageCount;
    if 1 <= k <= count {
      ProductGrows(k - 1, count - 1, limit, limit);
    } else if count < k {
      ProductGrows(count, k - 1, limit, limit);
    }
    if count > |lines| {
      OneOrMore(count - 1, limit);
    }
  }

  lemma PageCountMeaning(lines: seq<Line>, limit: int)
    requires limit >= 1
    ensures 0 <= PageCount(lines, limit)
    ensures (PageCount(lines, limit) - 1) * limit < |lines| <= PageCount(lines, limit) * limit
  {
    var m := |lines| + limit - 1;
    var count := m / limit;
    assert m == count * limit + m % limit;
    assert (count - 1) * limit == count * limit - limit;
  }

  lemma OneOrMore(a: int, limit: int)
    requires a >= 0 && limit >= 1
    ensures a * limit >= a
  {
    ProductGrows(1, limit, a, a);
  }

  /** The pages from the first to the k-th, put one after another. */
  function Served(lines: seq<Line>, limit: int64, k: nat): Page
    requires |lines| <= MAX_LINES && k < TWO_63
  {
    if k == 0 then Page([])
    else
      match (Served(lines, limit, k - 1), Paginate(lines, k, limit))
      case (Page(before), Page(lines)) => Page(before + lines)
      case _ => Panic
  }

  lemma PageInRange(lines: seq<Line>, limit: int64, k: int64, q: int)
    requires |lines| <= MAX_LINES && limit >= 1 && k >= 1 && q == (k - 1) * limit < |lines|
    ensures 0 <= q
    ensures Paginate(lines, k, limit) == Page(lines[q..Least(q + limit, |lines|)])
  {
    OffsetBound(k, limit);
    PageIff(lines, k, limit);
    hide Paginate, Wrap64;
  }

  lemma {:induction false} ServedSoFar(lines: seq<Line>, limit: int64, k: nat, upto: int)
    requires |lines| <= MAX_LINES && limit >= 1 && k <= PageCount(lines, limit) && k < TWO_63 && upto == k * limit
    ensures 0 <= upto
    ensures Served(lines, limit, k) == Page(lines[..Least(upto, |lines|)])
  {
    if k > 0 {
      var q := upto - limit;
      LessOne(k, limit);
      ServedSoFar(lines, limit, k - 1, q);
      PageCountBounds(lines, limit, k);
      PageInRange(lines, limit, k, q);
      hide Paginate, PageCount;
      JoinPages(lines, q, Least(upto, |lines|));
    }
  }

  lemma LessOne(k: int, limit: int)
    ensures (k - 1) * limit == k * limit - limit
  {
  }

  lemma JoinPages(lines: seq<Line>, middle: nat, stop: nat)
    requires middle <= stop <= |lines|
    ensures lines[..middle] + lines[middle..stop] == lines[..stop]
  {
  }

  /** For every positive limit the pages 1 to ceil(n / limit) put together are the whole list, and
      a later page is empty if and only if its offset does not wrap around to within the list. */
  lemma PagesPartition(lines: seq<Line>, limit: int64, later: int64)
    requires |lines| <= MAX_LINES && limit >= 1
    ensures PageCount(lines, limit) < TWO_63 && Served(lines, limit, PageCount(lines, limit)) == Page(lines)
    ensures later > PageCount(lines, limit) ==>
              (Paginate(lines, later, limit) == Page([])
               <==> lines == [] || InRange64((later - 1) * limit) || Wrap64((later - 1) * limit) >= |lines|)
  {
    var count := PageCount(lines, limit);
    PageCountBounds(lines, limit, later);
    ServedSoFar(lines, limit, count, count * limit);
    assert lines[..|lines|] == lines;
    if later > count && lines != [] {
      PageIff(lines, later, limit);
      var q := (later - 1) * limit;
      assert later * limit == q + limit;
      hide Paginate, PageCount, Wrap64, Served;
      assert IdealPage(lines, later, limit) == [];
    }
  }

  // ---------------------------------------------------------------------------
  // The code
  // ---------------------------------------------------------------------------

  lemma SortPrefix(mode: SortMode, rows: seq<Row>, i: nat)
    requires i < |rows|
    ensures Sort(Before(mode), rows[..i + 1]) == Insert(Before(mode), rows[i], Sort(Before(mode), rows[..i]))
  {
    assert rows[..i + 1][..i] == rows[..i];
  }

  /** Sorts in place and stably. */
  method SortExplainabilityRows(a: array<Row>, mode: SortMode)
    modifies a
    ensures a[..] == Sort(Before(mode), old(a[..]))
  {
    ghost var given := a[..];
    SortNothing(mode, given);
    hide Sort, Insert, Before;
    var i := 0;
    while i < a.Length
      invariant i <= a.Length
      invariant a[..i] == Sort(Before(mode), given[..i])
      invariant a[i..] == given[i..]
    {
      SortPrefix(mode, given, i);
      assert a[i] == a[i..][0] == given[i];
      assert a[i + 1..] == a[i..][1..];
      InsertRow(a, i, mode);
      i := i + 1;
    }
  }

  lemma SortNothing(mode: SortMode, rows: seq<Row>)
    ensures Sort(Before(mode), rows[..0]) == []
    ensures Sort(Before(mode), rows[..|rows|]) == Sort(Before(mode), rows)
  {
    assert rows[..|rows|] == rows;
    hide Insert, Before;
  }

  /** Inserting x into s leaves everything from j on behind x. */
  ghost predicate GoesBefore(mode: SortMode, x: Row, s: seq<Row>, j: nat)
    requires j <= |s|
  {
    Insert(Before(mode), x, s) == Insert(Before(mode), x, s[..j]) + s[j..]
  }

  lemma GoesBeforeEnd(mode: SortMode, x: Row, s: seq<Row>)
    ensures GoesBefore(mode, x, s, |s|)
  {
    assert s[..|s|] == s;
  }

  lemma InsertUnfolds(mode: SortMode, x: Row, s: seq<Row>)
    ensures Insert(Before(mode), x, s)
         == if s != [] && RowLess(mode, x, s[|s| - 1]) then Insert(Before(mode), x, s[..|s| - 1]) + [s[|s| - 1]]
            else s + [x]
  {
    hide RowLess;
  }

  lemma GoesBeforeStep(mode: SortMode, x: Row, s: seq<Row>, j: nat)
    requires j <= |s| && GoesBefore(mode, x, s, j)
    ensures if j > 0 && RowLess(mode, x, s[j - 1]) then GoesBefore(mode, x, s, j - 1)
            else Insert(Before(mode), x, s) == s[..j] + [x] + s[j..]
  {
    hide RowLess, Insert, Before;
    InsertUnfolds(mode, x, s[..j]);
    if j > 0 {
      assert s[..j][..j - 1] == s[..j - 1];
      Regroup(Insert(Before(mode), x, s[..j - 1]), s, j);
    }
  }

  lemma Regroup(front: seq<Row>, s: seq<Row>, j: nat)
    requires 0 < j <= |s|
    ensures front + [s[j - 1]] + s[j..] == front + s[j - 1..]
  {
  }

  /** Moves the element at i back to its place in the ordered part before it. */
  method InsertRow(a: array<Row>, i: nat, mode: SortMode)
    requires i < a.Length
    modifies a
    ensures a[..i + 1] == Insert(Before(mode), old(a[i]), old(a[..i]))
    ensures a[i + 1..] == old(a[i + 1..])
  {
    hide RowLess, Insert, Before;
    var x := a[i];
    ghost var s := a[..i];
    var j := MakeRoom(a, i, mode, s);
    a[j] := x;
    Spliced(a[..i + 1], s, j, x);
  }

  /** Shifts up the elements that x, the one at i, precedes, and finds where x goes. */
  method MakeRoom(a: array<Row>, i: nat, mode: SortMode, ghost s: seq<Row>) returns (j: nat)
    requires i < a.Length && a[..i] == s
    modifies a
    ensures j <= i
    ensures Insert(Before(mode), old(a[i]), s) == s[..j] + [old(a[i])] + s[j..]
    ensures forall k {:trigger s[k]} | 0 <= k < j :: a[k] == s[k]
    ensures forall k {:trigger s[k]} | j <= k < i :: a[k + 1] == s[k]
    ensures forall k | i < k < a.Length :: a[k] == old(a[k])
  {
    hide RowLess, Insert, Before, GoesBefore;
    var x := a[i];
    j := i;
    GoesBeforeEnd(mode, x, s);
    while j > 0 && RowLess(mode, x, a[j - 1])
      invariant j <= i
      invariant GoesBefore(mode, x, s, j)
      invariant forall k {:trigger s[k]} | 0 <= k < j :: a[k] == s[k]
      invariant forall k {:trigger s[k]} | j <= k < i :: a[k + 1] == s[k]
      invariant forall k | i < k < a.Length :: a[k] == old(a[k])
    {
      GoesBeforeStep(mode, x, s, j);
      a[j] := a[j - 1];
      j := j - 1;
    }
    GoesBeforeStep(mode, x, s, j);
  }

  lemma Spliced(t: seq<Row>, s: seq<Row>, j: nat, x: Row)
    requires j <= |s| && |t| == |s| + 1 && t[j] == x
    requires forall k {:trigger s[k]} | 0 <= k < j :: t[k] == s[k]
    requires forall k {:trigger s[k]} | j <= k < |s| :: t[k + 1] == s[k]
    ensures t == s[..j] + [x] + s[j..]
  {
  }

  /** The digest takes the whole sorted list, whatever page is asked for. */
  method BuildInvoiceExplainability(invoice: Invoice, options: Options) returns (r: Result<Explanation>, ghost origin: seq<nat>)
    requires |invoice.fees| <= MAX_LINES
    ensures r.Ok? <==> Trim(invoice.id) != ""
    ensures r.Ok? ==>
              var all := AllLines(invoice.fees, options.feeTypes, options.sort);
              && r.value.head == Head(Trim(invoice.id), Trim(invoice.number), Trim(invoice.status), Trim(invoice.currency),
                                      invoice.totalAmountCents)
              && r.value.digested == all && r.value.count == |all| <= MAX_LINES
              && r.value.page == Paginate(all, options.page, options.limit)
    ensures r.Ok? ==> LinesFrom(invoice.fees, options.feeTypes, options.sort, r.value.digested, origin)
  {
    hide Trim, Kept, RowOf, Paginate, Before, Sort, LinesFrom;
    origin := [];
    if Trim(invoice.id) == "" {
      r := Err;
      return;
    }
    origin := LinesOfFees(invoice.fees, options.feeTypes, options.sort);
    var fees, types := invoice.fees, options.feeTypes;
    var rows: seq<Row> := [];
    assert fees[..0] == [];
    for i := 0 to |fees|
      invariant rows == Rows(types, fees[..i]) && |rows| <= i
    {
      assert fees[..i + 1][..i] == fees[..i];
      if Kept(types, fees[i]) {
        rows := rows + [RowOf(fees[i])];
      }
    }
    assert fees[..|fees|] == fees;
    var a := new Row[|rows|](i requires 0 <= i < |rows| => rows[i]);
    assert a[..] == rows;
    SortExplainabilityRows(a, options.sort);
    var lines: seq<Line> := [];
    for i := 0 to a.Length
      invariant lines == Map(LineOf, a[..i])
    {
      lines := lines + [a[i].line];
    }
    assert a[..a.Length] == a[..];
    var head := Head(Trim(invoice.id), Trim(invoice.number), Trim(invoice.status), Trim(invoice.currency), invoice.totalAmountCents);
    r := Ok(Explanation(head, |lines|, Paginate(lines, options.page, options.limit), lines));
  }
}
