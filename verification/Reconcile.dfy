/**
  Reconciliation: a report of what each customer and meter used, should have been
  billed and was billed. Its grouping is computed independently of replay's; the last
  section shows that the two agree.
 */
module Reconcile {
  import opened Common
  import opened Ordering
  import opened Ledger
  import Pricing
  import Replay
  import Text

  datatype ReportFilter = ReportFilter(
    tenantId: string, customerId: string, from: Option<Time>, until: Option<Time>,
    billedSource: Option<Source>, billedReplayJobId: string, mismatchOnly: bool, absDeltaGte: int64)

  datatype Row = Row(
    customerId: string, meterId: string, eventQuantity: int64,
    computedCents: int64, billedCents: int64, deltaCents: int64, mismatch: bool)

  datatype Report = Report(
    rows: seq<Row>, totalComputedCents: int64, totalBilledCents: int64, totalDeltaCents: int64, mismatchRowCount: int)

  function EventScope(f: ReportFilter): Filter {
    Filter(f.tenantId, f.from, f.until, f.customerId, "", None, "")
  }

  function BilledScope(f: ReportFilter): Filter {
    Filter(f.tenantId, f.from, f.until, f.customerId, "", f.billedSource, f.billedReplayJobId)
  }

  function View(events: seq<UsageEvent>, billed: seq<BilledEntry>, f: ReportFilter): seq<Posting> {
    Postings(ListUsageEvents(events, EventScope(f)), ListBilledEntries(billed, BilledScope(f)))
  }

  /** Unlike replay, the report also checks that the meter and its rule belong to the tenant. */
  function RuleForReport(catalog: Catalog, tenantId: string, meterId: string): Result<Pricing.Rule> {
    if (tenantId, meterId) !in catalog.meters || catalog.meters[(tenantId, meterId)].tenantId != tenantId then Err
    else
      var ruleId := catalog.meters[(tenantId, meterId)].ratingRuleVersionId;
      if (tenantId, ruleId) !in catalog.rules || catalog.rules[(tenantId, ruleId)].tenantId != tenantId then Err
      else Ok(catalog.rules[(tenantId, ruleId)].rule)
  }

  function Computed(catalog: Catalog, tenantId: string, agg: Aggregate): Result<int64> {
    match RuleForReport(catalog, tenantId, agg.meterId)
    case Err => Err
    case Ok(rule) => Pricing.Amount(rule, agg.quantity)
  }

  /** A group can be priced exactly when the tenant has its meter, has the meter's rule, and the rule
      charges for its quantity. */
  lemma PricedIff(catalog: Catalog, tenantId: string, agg: Aggregate)
    ensures Computed(catalog, tenantId, agg).Ok?
       <==> && (tenantId, agg.meterId) in catalog.meters && catalog.meters[(tenantId, agg.meterId)].tenantId == tenantId
            && var rule := (tenantId, catalog.meters[(tenantId, agg.meterId)].ratingRuleVersionId);
               && rule in catalog.rules && catalog.rules[rule].tenantId == tenantId
               && Pricing.Amount(catalog.rules[rule].rule, agg.quantity).Ok?
  {
    hide Pricing.Amount;
  }

  function RowFor(agg: Aggregate, computed: int64): Row {
    var delta := Wrap64(computed - agg.billed);
    Row(agg.customerId, agg.meterId, agg.quantity, computed, agg.billed, delta, delta != 0)
  }

  function AbsWrapped(d: int64): int64 {
    if d < 0 then Wrap64(-(d as int)) else d
  }

  predicate Shown(f: ReportFilter, row: Row) {
    && (f.mismatchOnly ==> row.deltaCents != 0)
    && (f.absDeltaGte > 0 ==> AbsWrapped(row.deltaCents) >= f.absDeltaGte)
  }

  predicate RowLess(a: Row, b: Row) {
    if a.customerId == b.customerId then StringLess(a.meterId, b.meterId) else StringLess(a.customerId, b.customerId)
  }

  ghost predicate AllPriced(catalog: Catalog, f: ReportFilter, groups: map<string, Aggregate>) {
    forall k | k in groups :: Computed(catalog, f.tenantId, groups[k]).Ok?
  }

  /** The rows a report shows. */
  function ShownRows(catalog: Catalog, f: ReportFilter, groups: map<string, Aggregate>): set<Row>
    requires AllPriced(catalog, f, groups)
  {
    set k | k in groups && Shown(f, RowFor(groups[k], Computed(catalog, f.tenantId, groups[k]).value)) ::
      RowFor(groups[k], Computed(catalog, f.tenantId, groups[k]).value)
  }

  function ComputedOf(row: Row): int { row.computedCents }
  function BilledOf(row: Row): int { row.billedCents }
  function DeltaOf(row: Row): int { row.deltaCents }
  function QuantityOf(row: Row): int { row.eventQuantity }
  function MismatchOf(row: Row): int { if row.mismatch then 1 else 0 }

  ghost predicate TotalsOf(report: Report, rows: seq<Row>) {
    && report.totalComputedCents == Wrap64(SumBy(ComputedOf, rows))
    && report.totalBilledCents == Wrap64(SumBy(BilledOf, rows))
    && report.totalDeltaCents == Wrap64(SumBy(DeltaOf, rows))
    && report.mismatchRowCount == SumBy(MismatchOf, rows)
  }

  /** The report of a set of groups: their shown rows in customer and meter order, and totals over them. */
  ghost predicate IsReport(catalog: Catalog, f: ReportFilter, groups: map<string, Aggregate>, report: Report) {
    && AllPriced(catalog, f, groups)
    && StrictlySorted(RowLess, report.rows)
    && (forall row :: row in report.rows <==> row in ShownRows(catalog, f, groups))
    && TotalsOf(report, report.rows)
  }

  // ---------------------------------------------------------------------------
  // The code
  // ---------------------------------------------------------------------------

  datatype ReportAggregate = ReportAggregate(
    customerId: string, meterId: string, eventQuantity: int64, billedCents: int64)

  function Lift(agg: Aggregate): ReportAggregate {
    ReportAggregate(agg.customerId, agg.meterId, agg.quantity, agg.billed)
  }

  ghost predicate Lifts(rowsMap: map<string, ReportAggregate>, groups: map<string, Aggregate>) {
    rowsMap.Keys == groups.Keys && forall k | k in groups :: rowsMap[k] == Lift(groups[k])
  }

  /** A blank tenant id means the default tenant. */
  function ForTenant(f: ReportFilter): (r: ReportFilter)
    ensures r == f.(tenantId := r.tenantId)
    ensures if Text.Trim(f.tenantId) != "" then r.tenantId == Text.Trim(f.tenantId) else r.tenantId == "default"
  {
    var tenant := Text.Trim(f.tenantId);
    f.(tenantId := if tenant == "" then "default" else tenant)
  }

  /** A table that cannot be read is an Err. */
  method GenerateReport(catalog: Catalog, events: Result<seq<UsageEvent>>, billed: Result<seq<BilledEntry>>, request: ReportFilter)
    returns (r: Result<Report>)
    ensures r.Ok? <==> events.Ok? && billed.Ok?
                       && AllPriced(catalog, ForTenant(request), Grouped(View(events.value, billed.value, ForTenant(request))))
    ensures r.Ok? ==> IsReport(catalog, ForTenant(request), Grouped(View(events.value, billed.value, ForTenant(request))), r.value)
  {
    hide Grouped, View, Wrap64, StringLess, ShownRows, Collected, Pricing.Amount, TotalsOf, SumBy, ForTenant;
    if events.Err? || billed.Err? {
      return Err;
    }
    var f, eventTable, billedTable := ForTenant(request), events.value, billed.value;
    ghost var groups := Grouped(View(eventTable, billedTable, f));
    var rowsMap := AggregateRows(ListUsageEvents(eventTable, EventScope(f)), ListBilledEntries(billedTable, BilledScope(f)));
    ViewIs(eventTable, billedTable, f);
    var report := Report([], 0, 0, 0, 0);
    ghost var shown: seq<string> := [];
    var todo := rowsMap.Keys;
    NothingCollected(catalog, f, groups);
    while todo != {}
      invariant todo <= groups.Keys
      invariant Collected(catalog, f, groups, todo, shown, report.rows)
      invariant TotalsOf(report, report.rows)
    {
      var key :| key in todo;
      var agg := rowsMap[key];
      var rule := RuleForReport(catalog, f.tenantId, agg.meterId);
      if rule.Err? {
        return Err;
      }
      var computed := Pricing.ComputeAmountCents(rule.value, agg.eventQuantity);
      if computed.Err? {
        return Err;
      }
      CollectOne(catalog, f, groups, todo, shown, report.rows, key);
      todo := todo - {key};
      var delta := Wrap64(computed.value - agg.billedCents);
      var absDelta := if delta < 0 then Wrap64(-(delta as int)) else delta;
      if (f.mismatchOnly && delta == 0) || (f.absDeltaGte > 0 && absDelta < f.absDeltaGte) {
        continue;
      }
      var row := Row(agg.customerId, agg.meterId, agg.eventQuantity, computed.value, agg.billedCents, delta, delta != 0);
      TotalsStep(report, row);
      report := Report(
        report.rows + [row],
        Wrap64(report.totalComputedCents + row.computedCents),
        Wrap64(report.totalBilledCents + row.billedCents),
        Wrap64(report.totalDeltaCents + delta),
        report.mismatchRowCount + if row.mismatch then 1 else 0);
      shown := shown + [key];
    }
    SortedRows(catalog, f, eventTable, billedTable, shown, report.rows);
    TotalsSorted(report);
    report := report.(rows := Sort(RowLess, report.rows));
    return Ok(report);
  }

  /** The groups outside todo are priced; `shown` are those of them the filter lets through. */
  ghost predicate Collected(
    catalog: Catalog, f: ReportFilter, groups: map<string, Aggregate>, todo: set<string>, shown: seq<string>, rows: seq<Row>)
  {
    && (forall k | k in groups && k !in todo :: Computed(catalog, f.tenantId, groups[k]).Ok?)
    && RowsOf(catalog, f, groups, shown, rows)
    && (forall k | k in shown :: k !in todo)
    && (forall k | k in groups && k !in todo ::
          k in shown <==> Shown(f, RowFor(groups[k], Computed(catalog, f.tenantId, groups[k]).value)))
  }

  lemma NothingCollected(catalog: Catalog, f: ReportFilter, groups: map<string, Aggregate>)
    ensures Collected(catalog, f, groups, groups.Keys, [], [])
    ensures forall report: Report | report == Report([], 0, 0, 0, 0) :: TotalsOf(report, report.rows)
  {
  }

  lemma CollectOne(
    catalog: Catalog, f: ReportFilter, groups: map<string, Aggregate>, todo: set<string>,
    shown: seq<string>, rows: seq<Row>, key: string)
    requires Collected(catalog, f, groups, todo, shown, rows)
    requires key in todo && key in groups && Computed(catalog, f.tenantId, groups[key]).Ok?
    ensures var row := RowFor(groups[key], Computed(catalog, f.tenantId, groups[key]).value);
            if Shown(f, row) then Collected(catalog, f, groups, todo - {key}, shown + [key], rows + [row])
            else Collected(catalog, f, groups, todo - {key}, shown, rows)
  {
    hide Computed, RowFor, Shown;
  }

  lemma ViewIs(events: seq<UsageEvent>, billed: seq<BilledEntry>, f: ReportFilter)
    ensures View(events, billed, f)
         == Postings(ListUsageEvents(events, EventScope(f)), ListBilledEntries(billed, BilledScope(f)))
  {
  }

  method AggregateRows(events: seq<UsageEvent>, billed: seq<BilledEntry>) returns (rowsMap: map<string, ReportAggregate>)
    ensures Lifts(rowsMap, Grouped(Postings(events, billed)))
  {
    hide Grouped, Postings, Wrap64;
    NoPostings();
    rowsMap := map[];
    for i := 0 to |events|
      invariant Lifts(rowsMap, Grouped(Postings(events[..i], [])))
    {
      var event := events[i];
      var key := Key(event.customerId, event.meterId);
      if key !in rowsMap {
        rowsMap := rowsMap[key := ReportAggregate(event.customerId, event.meterId, 0, 0)];
      }
      PostEvent(events, i);
      var agg := rowsMap[key];
      rowsMap := rowsMap[key := agg.(eventQuantity := Wrap64(agg.eventQuantity + event.quantity))];
    }
    assert events[..|events|] == events;
    for i := 0 to |billed|
      invariant Lifts(rowsMap, Grouped(Postings(events, billed[..i])))
    {
      var bill := billed[i];
      var key := Key(bill.customerId, bill.meterId);
      if key !in rowsMap {
        rowsMap := rowsMap[key := ReportAggregate(bill.customerId, bill.meterId, 0, 0)];
      }
      PostEntry(events, billed, i);
      var agg := rowsMap[key];
      rowsMap := rowsMap[key := agg.(billedCents := Wrap64(agg.billedCents + bill.amountCents))];
    }
    assert billed[..|billed|] == billed;
  }

  /** The rows collected so far, before sorting, are those of the distinct groups `shown`. */
  ghost predicate RowsOf(catalog: Catalog, f: ReportFilter, groups: map<string, Aggregate>, shown: seq<string>, rows: seq<Row>) {
    && |shown| == |rows|
    && (forall k | k in shown :: k in groups && Computed(catalog, f.tenantId, groups[k]).Ok?)
    && (forall i | 0 <= i < |shown| ::
          rows[i] == RowFor(groups[shown[i]], Computed(catalog, f.tenantId, groups[shown[i]]).value))
    && (forall i, j | 0 <= i < j < |shown| :: shown[i] != shown[j])
  }

  lemma TotalsStep(report: Report, row: Row)
    requires TotalsOf(report, report.rows)
    ensures TotalsOf(
              Report(report.rows + [row],
                     Wrap64(report.totalComputedCents + row.computedCents),
                     Wrap64(report.totalBilledCents + row.billedCents),
                     Wrap64(report.totalDeltaCents + row.deltaCents),
                     report.mismatchRowCount + MismatchOf(row)),
              report.rows + [row])
  {
    hide Wrap64, SumBy;
    var rows := report.rows;
    WrappedSumStep(ComputedOf, rows, row);
    WrappedSumStep(BilledOf, rows, row);
    WrappedSumStep(DeltaOf, rows, row);
    SumByStep(MismatchOf, rows, row);
  }

  lemma WrappedSumStep(value: Row -> int, rows: seq<Row>, row: Row)
    ensures Wrap64(SumBy(value, rows + [row])) == Wrap64(Wrap64(SumBy(value, rows)) + value(row))
  {
    hide Wrap64, SumBy;
    SumByStep(value, rows, row);
    WrapAbsorbs(SumBy(value, rows), value(row));
  }

  lemma TotalsSorted(report: Report)
    requires TotalsOf(report, report.rows)
    ensures TotalsOf(report.(rows := Sort(RowLess, report.rows)), Sort(RowLess, report.rows))
  {
    SumBySort(ComputedOf, RowLess, report.rows);
    SumBySort(BilledOf, RowLess, report.rows);
    SumBySort(DeltaOf, RowLess, report.rows);
    SumBySort(MismatchOf, RowLess, report.rows);
  }

  lemma RowLessIsStrictWeak()
    ensures StrictWeak(RowLess)
  {
    forall a: Row, b: Row, c: Row
      ensures RowLess(a, b) ==> !RowLess(b, a)
      ensures RowLess(a, c) ==> RowLess(a, b) || RowLess(b, c)
    {
      StringLessLaws(a.customerId, b.customerId, c.customerId);
      StringLessLaws(a.meterId, b.meterId, c.meterId);
      StringLessLaws(b.customerId, c.customerId, a.customerId);
      StringLessLaws(a.customerId, c.customerId, b.customerId);
    }
  }

  /** Sorting the collected rows gives the shown rows in strict order: groups never tie. */
  lemma SortedRows(
    catalog: Catalog, f: ReportFilter, events: seq<UsageEvent>, billed: seq<BilledEntry>, shown: seq<string>, rows: seq<Row>)
    requires Collected(catalog, f, Grouped(View(events, billed, f)), {}, shown, rows)
    ensures AllPriced(catalog, f, Grouped(View(events, billed, f)))
    ensures StrictlySorted(RowLess, Sort(RowLess, rows))
    ensures forall row :: row in Sort(RowLess, rows) <==> row in ShownRows(catalog, f, Grouped(View(events, billed, f)))
  {
    hide Wrap64, StringLess, Grouped, View, Computed;
    var groups := Grouped(View(events, billed, f));
    forall i, j | 0 <= i < j < |rows| ensures RowLess(rows[i], rows[j]) || RowLess(rows[j], rows[i]) {
      Replay.GroupKey(View(events, billed, f), shown[i]);
      Replay.GroupKey(View(events, billed, f), shown[j]);
      StringLessLaws(rows[i].customerId, rows[j].customerId, "");
      StringLessLaws(rows[i].meterId, rows[j].meterId, "");
    }
    RowLessIsStrictWeak();
    SortStrictly(RowLess, rows);
    forall row ensures row in Sort(RowLess, rows) <==> row in ShownRows(catalog, f, groups) {
      SameElements(Sort(RowLess, rows), rows, row);
      RowsAreShown(catalog, f, groups, shown, rows, row);
    }
  }

  lemma SameElements(a: seq<Row>, b: seq<Row>, row: Row)
    requires multiset(a) == multiset(b)
    ensures row in a <==> row in b
  {
    assert row in multiset(a) <==> row in multiset(b);
  }

  lemma RowsAreShown(
    catalog: Catalog, f: ReportFilter, groups: map<string, Aggregate>, shown: seq<string>, rows: seq<Row>, row: Row)
    requires AllPriced(catalog, f, groups) && RowsOf(catalog, f, groups, shown, rows)
    requires forall k | k in groups ::
               k in shown <==> Shown(f, RowFor(groups[k], Computed(catalog, f.tenantId, groups[k]).value))
    ensures row in rows <==> row in ShownRows(catalog, f, groups)
  {
    hide Wrap64, Computed, Shown, RowFor;
    if row in ShownRows(catalog, f, groups) {
      var k :| k in groups && Shown(f, RowFor(groups[k], Computed(catalog, f.tenantId, groups[k]).value))
               && row == RowFor(groups[k], Computed(catalog, f.tenantId, groups[k]).value);
      var i :| 0 <= i < |shown| && shown[i] == k;
      assert rows[i] == row;
    }
  }

  // ---------------------------------------------------------------------------
  // Properties
  // ---------------------------------------------------------------------------

  /** A report does not depend on the order in which the groups were visited. */
  lemma ReportUnique(catalog: Catalog, f: ReportFilter, groups: map<string, Aggregate>, a: Report, b: Report)
    requires IsReport(catalog, f, groups, a) && IsReport(catalog, f, groups, b)
    ensures a == b
  {
    hide RowLess, ShownRows;
    RowLessIsStrictWeak();
    SortedUnique(RowLess, a.rows, b.rows);
  }

  /** Under every filter the totals balance. */
  lemma TotalsBalance(catalog: Catalog, f: ReportFilter, groups: map<string, Aggregate>, report: Report)
    requires IsReport(catalog, f, groups, report)
    ensures report.totalDeltaCents == Wrap64(report.totalComputedCents - report.totalBilledCents)
  {
    hide Wrap64, SumBy, RowLess;
    DeltasBalance(catalog, f, groups, report.rows);
    WrapAbsorbs(SumBy(ComputedOf, report.rows), -SumBy(BilledOf, report.rows));
    WrapAbsorbs(report.totalComputedCents, SumBy(BilledOf, report.rows));
  }

  lemma {:induction false} DeltasBalance(catalog: Catalog, f: ReportFilter, groups: map<string, Aggregate>, rows: seq<Row>)
    requires AllPriced(catalog, f, groups) && forall row | row in rows :: row in ShownRows(catalog, f, groups)
    ensures Wrap64(SumBy(DeltaOf, rows)) == Wrap64(SumBy(ComputedOf, rows) - SumBy(BilledOf, rows))
  {
    hide Wrap64, Computed, Shown;
    if rows != [] {
      var rest, row := rows[..|rows| - 1], rows[|rows| - 1];
      DeltasBalance(catalog, f, groups, rest);
      assert row in rows;
      assert row.deltaCents == Wrap64(row.computedCents - row.billedCents);
      var c, b := SumBy(ComputedOf, rest), SumBy(BilledOf, rest);
      WrapsAdd(SumBy(DeltaOf, rest), row.deltaCents);
      WrapsAdd(c - b, row.computedCents - row.billedCents);
    }
  }

  function Mismatches(rows: seq<Row>): (r: seq<Row>)
    ensures forall row :: row in r <==> row in rows && row.deltaCents != 0
  {
    if rows == [] then []
    else
      var rest, row := Mismatches(rows[..|rows| - 1]), rows[|rows| - 1];
      assert rows == rows[..|rows| - 1] + [row];
      if row.deltaCents != 0 then rest + [row] else rest
  }

  lemma {:induction false} MismatchesKeepOrder(rows: seq<Row>)
    requires StrictlySorted(RowLess, rows)
    ensures StrictlySorted(RowLess, Mismatches(rows))
  {
    hide RowLess;
    if rows != [] {
      var rest, row := rows[..|rows| - 1], rows[|rows| - 1];
      MismatchesKeepOrder(rest);
      forall i | 0 <= i < |Mismatches(rest)| ensures RowLess(Mismatches(rest)[i], row) {
        assert Mismatches(rest)[i] in rest;
      }
    }
  }

  /** Dropping matching rows changes no sum that is zero on them. */
  lemma {:induction false} MismatchesKeepSum(rows: seq<Row>, value: Row -> int)
    requires forall row | row in rows && row.deltaCents == 0 :: value(row) == 0
    ensures SumBy(value, Mismatches(rows)) == SumBy(value, rows)
  {
    hide SumBy;
    if rows == [] {
      assert Mismatches(rows) == rows;
    } else {
      var rest, row := rows[..|rows| - 1], rows[|rows| - 1];
      assert rows == rest + [row];
      MismatchesKeepSum(rest, value);
      SumByStep(value, rest, row);
      SumByStep(value, Mismatches(rest), row);
    }
  }

  /** Asking for mismatches only drops the matching rows and leaves total delta and mismatch count alone. */
  lemma MismatchOnlyKeepsDelta(catalog: Catalog, f: ReportFilter, groups: map<string, Aggregate>, all: Report, some: Report)
    requires !f.mismatchOnly
    requires IsReport(catalog, f, groups, all) && IsReport(catalog, f.(mismatchOnly := true), groups, some)
    ensures some.rows == Mismatches(all.rows)
    ensures some.totalDeltaCents == all.totalDeltaCents && some.mismatchRowCount == all.mismatchRowCount
  {
    hide RowLess, SumBy, Wrap64, Computed;
    var g := f.(mismatchOnly := true);
    forall row ensures row in some.rows <==> row in Mismatches(all.rows) {
      MismatchOnlyRow(catalog, f, groups, row);
    }
    forall row | row in all.rows ensures row.mismatch == (row.deltaCents != 0) {
      MismatchOnlyRow(catalog, f, groups, row);
    }
    RowLessIsStrictWeak();
    MismatchesKeepOrder(all.rows);
    SortedUnique(RowLess, some.rows, Mismatches(all.rows));
    MismatchesKeepSum(all.rows, DeltaOf);
    MismatchesKeepSum(all.rows, MismatchOf);
  }

  lemma MismatchOnlyRow(catalog: Catalog, f: ReportFilter, groups: map<string, Aggregate>, row: Row)
    requires !f.mismatchOnly && AllPriced(catalog, f, groups)
    ensures AllPriced(catalog, f.(mismatchOnly := true), groups)
    ensures row in ShownRows(catalog, f.(mismatchOnly := true), groups)
       <==> row in ShownRows(catalog, f, groups) && row.deltaCents != 0
    ensures row in ShownRows(catalog, f, groups) ==> row.mismatch == (row.deltaCents != 0)
  {
    hide Wrap64, Computed;
  }

  /** The events and entries a report is about, by the fields of its filter. */
  function EventsOf(f: ReportFilter, value: UsageEvent -> int): UsageEvent -> int {
    EventWhere(f.tenantId, f.customerId, "", f.from, f.until, value)
  }

  function EntriesOf(f: ReportFilter, value: BilledEntry -> int): BilledEntry -> int {
    EntryWhere(f.tenantId, f.customerId, "", f.from, f.until, f.billedSource, f.billedReplayJobId, value)
  }

  /** Without a row filter nothing is lost: row quantities add up to all usage of the tenant and
      customer in the window, and the billed total to all their entries from the source and job asked for. */
  lemma UnfilteredConserves(
    catalog: Catalog, events: seq<UsageEvent>, billed: seq<BilledEntry>, f: ReportFilter, report: Report)
    requires !f.mismatchOnly && f.absDeltaGte <= 0
    requires IsReport(catalog, f, Grouped(View(events, billed, f)), report)
    ensures Wrap64(SumBy(QuantityOf, report.rows)) == Wrap64(SumBy(EventsOf(f, EventQuantity), events))
    ensures report.totalBilledCents == Wrap64(SumBy(EntriesOf(f, EntryAmount), billed))
  {
    hide Wrap64, SumBy, StringLess, Computed, ListUsageEvents, ListBilledEntries;
    var ps := View(events, billed, f);
    var ks := RowKeys(report.rows);
    RowsAreGroups(catalog, ps, f, report);
    RowTotals(ps, report.rows);
    GroupsPartition(ps, UsageOf, ks);
    GroupsPartition(ps, ChargeOf, ks);
    PostingTotals(ListUsageEvents(events, EventScope(f)), ListBilledEntries(billed, BilledScope(f)));
    ListedEvents(events, EventScope(f), EventQuantity);
    ListedEntries(billed, BilledScope(f), EntryAmount);
  }

  /** What a row says of a customer that clashes with none: the quantity it used of the meter, what
      the rule of the meter charges for that, what it was billed, and the difference. */
  lemma RowMeaning(
    catalog: Catalog, events: seq<UsageEvent>, billed: seq<BilledEntry>, f: ReportFilter, report: Report, row: Row)
    requires IsReport(catalog, f, Grouped(View(events, billed, f)), report) && row in report.rows
    requires NoClashWith(View(events, billed, f), row.customerId)
    ensures row.eventQuantity == Wrap64(SumBy(EventsOf(f, EventOf(row.customerId, row.meterId)), events))
    ensures row.billedCents == Wrap64(SumBy(EntriesOf(f, EntryOf(row.customerId, row.meterId)), billed))
    ensures row.deltaCents == Wrap64(row.computedCents - row.billedCents) && (row.mismatch <==> row.deltaCents != 0)
    ensures (f.tenantId, row.meterId) in catalog.meters
    ensures var rule := (f.tenantId, catalog.meters[(f.tenantId, row.meterId)].ratingRuleVersionId);
            && catalog.meters[(f.tenantId, row.meterId)].tenantId == f.tenantId
            && rule in catalog.rules && catalog.rules[rule].tenantId == f.tenantId
            && Pricing.Amount(catalog.rules[rule].rule, row.eventQuantity) == Ok(row.computedCents)
  {
    hide Wrap64, SumBy, StringLess, ListUsageEvents, ListBilledEntries, NoClashWith, Pricing.Amount, Postings;
    var ps := View(events, billed, f);
    ShownRowIsGroup(catalog, ps, f, row);
    GroupNamesCustomerAndMeter(ps, row.customerId, row.meterId);
    CustomerTotals(ListUsageEvents(events, EventScope(f)), ListBilledEntries(billed, BilledScope(f)), row.customerId, row.meterId);
    ListedEvents(events, EventScope(f), EventOf(row.customerId, row.meterId));
    ListedEntries(billed, BilledScope(f), EntryOf(row.customerId, row.meterId));
    hide Grouped;
  }

  /** A row filter drops rows and changes none: MismatchOnly those without a difference, and a
      positive AbsDeltaGTE those whose difference is smaller in size (and also, since its size is
      not a 64-bit number, the most negative one). */
  lemma FilterKeeps(catalog: Catalog, f: ReportFilter, groups: map<string, Aggregate>, all: Report, some: Report, row: Row)
    requires IsReport(catalog, f.(mismatchOnly := false, absDeltaGte := 0), groups, all) && IsReport(catalog, f, groups, some)
    ensures row in some.rows
       <==> && row in all.rows
            && (f.mismatchOnly ==> row.deltaCents != 0)
            && (f.absDeltaGte > 0 ==>
                  row.deltaCents >= f.absDeltaGte || (-TWO_63 < row.deltaCents && -(row.deltaCents as int) >= f.absDeltaGte))
  {
    SameRowsShown(catalog, f, groups, row);
    LargestNegates();
    hide RowLess, SumBy, Computed, RowFor, Wrap64, ShownRows;
  }

  lemma LargestNegates()
    ensures Wrap64(TWO_63) == -TWO_63
  {
  }

  lemma SameRowsShown(catalog: Catalog, f: ReportFilter, groups: map<string, Aggregate>, row: Row)
    requires AllPriced(catalog, f, groups)
    ensures AllPriced(catalog, f.(mismatchOnly := false, absDeltaGte := 0), groups)
    ensures row in ShownRows(catalog, f, groups)
       <==> row in ShownRows(catalog, f.(mismatchOnly := false, absDeltaGte := 0), groups) && Shown(f, row)
  {
    hide Wrap64, Computed, AbsWrapped;
  }

  /** Rows stand in order of their customers, and a customer's in order of their meters, as strings. */
  lemma RowsInOrder(catalog: Catalog, f: ReportFilter, groups: map<string, Aggregate>, report: Report, i: nat, j: nat)
    requires IsReport(catalog, f, groups, report) && i < j < |report.rows|
    ensures var a, b := report.rows[i], report.rows[j];
            StringLess(a.customerId, b.customerId) || (a.customerId == b.customerId && StringLess(a.meterId, b.meterId))
  {
    hide StringLess, SumBy, Computed, TotalsOf;
    assert RowLess(report.rows[i], report.rows[j]);
  }

  function RowKeys(rows: seq<Row>): (ks: seq<string>)
    ensures |ks| == |rows|
  {
    seq(|rows|, i requires 0 <= i < |rows| => Key(rows[i].customerId, rows[i].meterId))
  }

  /** Each row carries the totals of the group its customer and meter name. */
  ghost predicate CarriesGroups(ps: seq<Posting>, rows: seq<Row>) {
    forall row | row in rows ::
      && row.eventQuantity == Wrap64(SumBy(InGroup(Key(row.customerId, row.meterId), UsageOf), ps))
      && row.billedCents == Wrap64(SumBy(InGroup(Key(row.customerId, row.meterId), ChargeOf), ps))
  }

  lemma RowsAreGroups(catalog: Catalog, ps: seq<Posting>, f: ReportFilter, report: Report)
    requires !f.mismatchOnly && f.absDeltaGte <= 0 && IsReport(catalog, f, Grouped(ps), report)
    ensures Distinct(RowKeys(report.rows)) && CarriesGroups(ps, report.rows)
    ensures forall k | k in Keys(ps) :: k in RowKeys(report.rows)
  {
    hide Wrap64, SumBy, Computed, TotalsOf, StringLess;
    var rows := report.rows;
    RowLessIsStrictWeak();
    forall row | row in rows
      ensures Key(row.customerId, row.meterId) in Grouped(ps)
      ensures row == RowFor(Grouped(ps)[Key(row.customerId, row.meterId)],
                            Computed(catalog, f.tenantId, Grouped(ps)[Key(row.customerId, row.meterId)]).value)
    {
      ShownRowIsGroup(catalog, ps, f, row);
    }
    forall i, j | 0 <= i < j < |rows| ensures RowKeys(rows)[i] != RowKeys(rows)[j] {
      assert rows[i] in rows && rows[j] in rows;
      assert RowLess(rows[i], rows[j]);
    }
    forall k | k in Keys(ps) ensures k in RowKeys(rows) {
      var row := RowFor(Grouped(ps)[k], Computed(catalog, f.tenantId, Grouped(ps)[k]).value);
      assert row in ShownRows(catalog, f, Grouped(ps));
      Replay.GroupKey(ps, k);
      var i :| 0 <= i < |rows| && rows[i] == row;
      assert RowKeys(rows)[i] == k;
    }
  }

  lemma ShownRowIsGroup(catalog: Catalog, ps: seq<Posting>, f: ReportFilter, row: Row)
    requires AllPriced(catalog, f, Grouped(ps)) && row in ShownRows(catalog, f, Grouped(ps))
    ensures var k := Key(row.customerId, row.meterId);
            k in Grouped(ps) && row == RowFor(Grouped(ps)[k], Computed(catalog, f.tenantId, Grouped(ps)[k]).value)
  {
    hide Wrap64, Computed, Shown, Grouped;
    var k :| k in Grouped(ps) && Shown(f, RowFor(Grouped(ps)[k], Computed(catalog, f.tenantId, Grouped(ps)[k]).value))
             && row == RowFor(Grouped(ps)[k], Computed(catalog, f.tenantId, Grouped(ps)[k]).value);
    Replay.GroupKey(ps, k);
  }

  lemma {:induction false} RowTotals(ps: seq<Posting>, rows: seq<Row>)
    requires CarriesGroups(ps, rows)
    ensures Wrap64(SumBy(QuantityOf, rows)) == Wrap64(GroupTotals(ps, UsageOf, RowKeys(rows)))
    ensures Wrap64(SumBy(BilledOf, rows)) == Wrap64(GroupTotals(ps, ChargeOf, RowKeys(rows)))
  {
    hide Wrap64;
    if rows != [] {
      var rest, row := rows[..|rows| - 1], rows[|rows| - 1];
      assert rows == rest + [row];
      assert RowKeys(rows)[..|rest|] == RowKeys(rest);
      RowTotals(ps, rest);
      var key := Key(row.customerId, row.meterId);
      assert row in rows;
      WrapsAdd(SumBy(QuantityOf, rest), row.eventQuantity);
      WrapsAdd(GroupTotals(ps, UsageOf, RowKeys(rest)), SumBy(InGroup(key, UsageOf), ps));
      WrapsAdd(SumBy(BilledOf, rest), row.billedCents);
      WrapsAdd(GroupTotals(ps, ChargeOf, RowKeys(rest)), SumBy(InGroup(key, ChargeOf), ps));
    }
  }

  // ---------------------------------------------------------------------------
  // Agreement with replay
  // ---------------------------------------------------------------------------

  /** Looking a meter or rule up by tenant finds one of that tenant, as the database's keys ensure. */
  ghost predicate TenantScoped(catalog: Catalog) {
    && (forall k | k in catalog.meters :: catalog.meters[k].tenantId == k.0)
    && (forall k | k in catalog.rules :: catalog.rules[k].tenantId == k.0)
  }

  /** A report of settled groups exists and finds nothing wrong, whatever its row filter. */
  lemma SettledReportsClean(catalog: Catalog, f: ReportFilter, groups: map<string, Aggregate>, report: Report)
    requires TenantScoped(catalog) && Replay.Settled(catalog, f.tenantId, groups)
    ensures AllPriced(catalog, f, groups)
    ensures IsReport(catalog, f, groups, report) ==> report.mismatchRowCount == 0 && report.totalDeltaCents == 0
  {
    hide Pricing.Amount, RowLess;
    forall k | k in groups ensures Computed(catalog, f.tenantId, groups[k]) == Ok(groups[k].billed) {
      assert Replay.Computed(catalog, f.tenantId, groups[k]) == Ok(groups[k].billed);
    }
    if IsReport(catalog, f, groups, report) {
      CleanRows(report.rows);
    }
  }

  lemma {:induction false} CleanRows(rows: seq<Row>)
    requires forall row | row in rows :: row.deltaCents == 0 && !row.mismatch
    ensures SumBy(DeltaOf, rows) == 0 && SumBy(MismatchOf, rows) == 0
  {
    if rows != [] {
      CleanRows(rows[..|rows| - 1]);
    }
  }

  /** After a complete replay of a customer's whole scope, made inside the window, the report
      over the same tenant, customer and window succeeds and shows no discrepancy. */
  lemma ReplayThenReportClean(
    catalog: Catalog, job: Replay.Job, events: seq<UsageEvent>, billed: seq<BilledEntry>,
    a: Replay.Attempt, f: ReportFilter, report: Report)
    requires TenantScoped(catalog)
    requires job.meterId == "" && f.billedSource == None && f.billedReplayJobId == ""
    requires f.tenantId == job.tenantId && f.customerId == job.customerId && f.from == job.from && f.until == job.until
    requires Replay.Completes(catalog, job.tenantId, Replay.Seen(events, billed, Replay.ScopeOf(job)), a.done)
    requires Replay.DuringJob(job, a.now)
    ensures var groups := Grouped(View(events, Replay.LedgerAfterOne(catalog, job, events, billed, a), f));
            && AllPriced(catalog, f, groups)
            && (IsReport(catalog, f, groups, report) ==> report.mismatchRowCount == 0 && report.totalDeltaCents == 0)
  {
    hide Replay.LedgerAfterOne, Replay.Settled, IsReport, AllPriced, Grouped, Postings;
    Replay.CompleteSettlesIff(catalog, job, events, billed, a);
    SettledReportsClean(catalog, f, Grouped(View(events, Replay.LedgerAfterOne(catalog, job, events, billed, a), f)), report);
  }
}
