/**
  Replay: recompute what each customer and meter should have been billed and append
  corrective entries to the ledger. A replay may fail after correcting any of the
  groups, in any order; `Adjusts` says what one attempt may do, and the lemmas say
  what any sequence of attempts leads to.
 */
module Replay {
  import opened Common
  import opened Ordering
  import opened Ledger
  import Pricing

  datatype Status = Queued | Running | Done | Failed

  datatype Job = Job(
    id: string, tenantId: string, customerId: string, meterId: string,
    from: Option<Time>, until: Option<Time>, status: Status, processedRecords: int)

  function ScopeOf(job: Job): Filter {
    Filter(job.tenantId, job.from, job.until, job.customerId, job.meterId, None, "")
  }

  /** A time lies in a job's window: not before its start, if it has one, nor after its end. */
  predicate DuringJob(job: Job, t: Time) {
    (job.from == None || job.from.value <= t) && (job.until == None || t <= job.until.value)
  }

  type Rows = map<string, Aggregate>

  function View(events: seq<UsageEvent>, billed: seq<BilledEntry>, scope: Filter): seq<Posting> {
    Postings(ListUsageEvents(events, scope), ListBilledEntries(billed, scope))
  }

  /** The groups a job sees. */
  function Seen(events: seq<UsageEvent>, billed: seq<BilledEntry>, scope: Filter): Rows {
    Grouped(View(events, billed, scope))
  }

  /** What a group should have been billed. */
  function Computed(catalog: Catalog, tenantId: string, agg: Aggregate): Result<int64> {
    match RuleFor(catalog, tenantId, agg.meterId)
    case Err => Err
    case Ok(rule) => Pricing.Amount(rule, agg.quantity)
  }

  /** A group can be priced exactly when its meter is known to the tenant, the meter's rule is, and the
      rule charges for its quantity. */
  lemma PricedIff(catalog: Catalog, tenantId: string, agg: Aggregate)
    ensures Computed(catalog, tenantId, agg).Ok?
       <==> && (tenantId, agg.meterId) in catalog.meters
            && var rule := (tenantId, catalog.meters[(tenantId, agg.meterId)].ratingRuleVersionId);
               rule in catalog.rules && Pricing.Amount(catalog.rules[rule].rule, agg.quantity).Ok?
  {
    hide Pricing.Amount;
  }

  predicate Mismatched(catalog: Catalog, tenantId: string, agg: Aggregate) {
    var computed := Computed(catalog, tenantId, agg);
    computed.Ok? && computed.value != agg.billed
  }

  function Delta(catalog: Catalog, tenantId: string, agg: Aggregate): int64
    requires Computed(catalog, tenantId, agg).Ok?
  {
    Wrap64(Computed(catalog, tenantId, agg).value - agg.billed)
  }

  function Adjustment(catalog: Catalog, job: Job, agg: Aggregate, now: Time): BilledEntry
    requires Computed(catalog, job.tenantId, agg).Ok?
  {
    BilledEntry(job.tenantId, agg.customerId, agg.meterId, Delta(catalog, job.tenantId, agg),
                ReplayAdjustment, job.id, now)
  }

  /** An attempt corrects some mismatched groups, each at most once. */
  ghost predicate Adjusts(catalog: Catalog, tenantId: string, rows: Rows, done: seq<string>) {
    && (forall k | k in done :: k in rows && Mismatched(catalog, tenantId, rows[k]))
    && (forall i, j | 0 <= i < j < |done| :: done[i] != done[j])
  }

  /** Every group can be priced. */
  ghost predicate AllComputed(catalog: Catalog, tenantId: string, rows: Rows) {
    forall k | k in rows :: Computed(catalog, tenantId, rows[k]).Ok?
  }

  /** A complete attempt could price every group and corrected all that were wrong. */
  ghost predicate Completes(catalog: Catalog, tenantId: string, rows: Rows, done: seq<string>) {
    && Adjusts(catalog, tenantId, rows, done)
    && AllComputed(catalog, tenantId, rows)
    && (forall k | k in rows && Mismatched(catalog, tenantId, rows[k]) :: k in done)
  }

  /** Every group has been billed what it should have been. */
  ghost predicate Settled(catalog: Catalog, tenantId: string, rows: Rows) {
    forall k | k in rows :: Computed(catalog, tenantId, rows[k]) == Ok(rows[k].billed)
  }

  /** The entries an attempt appends when it corrects the groups `done`, in that order. */
  ghost function Adjustments(catalog: Catalog, job: Job, rows: Rows, now: Time, done: seq<string>): seq<BilledEntry>
    requires Adjusts(catalog, job.tenantId, rows, done)
  {
    seq(|done|, i requires 0 <= i < |done| => Adjustment(catalog, job, rows[done[i]], now))
  }

  // ---------------------------------------------------------------------------
  // One attempt
  // ---------------------------------------------------------------------------

  lemma {:induction false} ListConcat(a: seq<BilledEntry>, b: seq<BilledEntry>, f: Filter)
    ensures ListBilledEntries(a + b, f) == ListBilledEntries(a, f) + ListBilledEntries(b, f)
  {
    if b == [] {
      assert a + b == a;
    } else {
      ListConcat(a, b[..|b| - 1], f);
      assert (a + b)[..|a + b| - 1] == a + b[..|b| - 1];
    }
  }

  lemma {:induction false} ListAllOrNone(b: seq<BilledEntry>, f: Filter, all: bool)
    requires forall e | e in b :: SelectsEntry(f, e) == all
    ensures ListBilledEntries(b, f) == if all then b else []
  {
    if b != [] {
      ListAllOrNone(b[..|b| - 1], f, all);
      assert b == b[..|b| - 1] + [b[|b| - 1]];
    }
  }

  lemma {:induction false} ListedEventSelected(table: seq<UsageEvent>, f: Filter, e: UsageEvent)
    requires e in ListUsageEvents(table, f)
    ensures Selects(f, e.tenantId, e.customerId, e.meterId, e.timestamp)
  {
    if e in ListUsageEvents(table[..|table| - 1], f) {
      ListedEventSelected(table[..|table| - 1], f, e);
    }
  }

  lemma {:induction false} ListedEntrySelected(table: seq<BilledEntry>, f: Filter, b: BilledEntry)
    requires b in ListBilledEntries(table, f)
    ensures SelectsEntry(f, b)
  {
    if b in ListBilledEntries(table[..|table| - 1], f) {
      ListedEntrySelected(table[..|table| - 1], f, b);
    }
  }

  lemma GroupMeetsFilter(events: seq<UsageEvent>, billed: seq<BilledEntry>, scope: Filter, key: string)
    requires key in Seen(events, billed, scope)
    ensures var agg := Seen(events, billed, scope)[key];
            && (scope.customerId != "" ==> scope.customerId == agg.customerId)
            && (scope.meterId != "" ==> scope.meterId == agg.meterId)
  {
    hide Wrap64, SumBy, Label, ListUsageEvents, ListBilledEntries, InGroup;
    var es, bs := ListUsageEvents(events, scope), ListBilledEntries(billed, scope);
    var ps, p := Postings(es, bs), Label(Postings(es, bs), key);
    var i :| 0 <= i < |ps| && ps[i] == p;
    if i < |es| {
      ListedEventSelected(events, scope, es[i]);
    } else {
      ListedEntrySelected(billed, scope, bs[i - |es|]);
    }
  }

  /** A job sees only groups of its own customer and meter, if it names them, and in them all of
      its tenant's events and entries, from whatever source, that lie in its window, and no other. */
  lemma GroupInScope(events: seq<UsageEvent>, billed: seq<BilledEntry>, job: Job, key: string)
    requires key in Seen(events, billed, ScopeOf(job))
    ensures var agg := Seen(events, billed, ScopeOf(job))[key];
            && (job.customerId != "" ==> agg.customerId == job.customerId)
            && (job.meterId != "" ==> agg.meterId == job.meterId)
            && (!Clashes(events, billed, job, agg.customerId) ==>
                  && agg.quantity == Wrap64(SumBy(EventsOfJob(job, EventOf(agg.customerId, agg.meterId)), events))
                  && agg.billed == Wrap64(SumBy(EntriesOfJob(job, EntryOf(agg.customerId, agg.meterId)), billed)))
  {
    GroupMeetsFilter(events, billed, ScopeOf(job), key);
    GroupKey(View(events, billed, ScopeOf(job)), key);
    var agg := Seen(events, billed, ScopeOf(job))[key];
    if !Clashes(events, billed, job, agg.customerId) {
      CustomerGroup(events, billed, ScopeOf(job), agg.customerId, agg.meterId);
      hide Grouped, View, SumBy, Wrap64;
      ListedEvents(events, ScopeOf(job), EventOf(agg.customerId, agg.meterId));
      ListedEntries(billed, ScopeOf(job), EntryOf(agg.customerId, agg.meterId));
    }
  }

  ghost predicate Clashes(events: seq<UsageEvent>, billed: seq<BilledEntry>, job: Job, customerId: string) {
    !NoClashWith(View(events, billed, ScopeOf(job)), customerId)
  }

  /** The events and entries a job is about, by its fields. */
  function EventsOfJob(job: Job, value: UsageEvent -> int): UsageEvent -> int {
    EventWhere(job.tenantId, job.customerId, job.meterId, job.from, job.until, value)
  }

  function EntriesOfJob(job: Job, value: BilledEntry -> int): BilledEntry -> int {
    EntryWhere(job.tenantId, job.customerId, job.meterId, job.from, job.until, None, "", value)
  }

  /** An entry that a job may write at a time: of its tenant, and of its customer and meter if it names them. */
  predicate EntryOfJob(job: Job, now: Time, e: BilledEntry) {
    && e.tenantId == job.tenantId
    && (job.customerId != "" ==> e.customerId == job.customerId)
    && (job.meterId != "" ==> e.meterId == job.meterId)
    && e.source == ReplayAdjustment && e.replayJobId == job.id && e.timestamp == now
  }

  lemma AdjustmentsAreOfJob(
    catalog: Catalog, job: Job, events: seq<UsageEvent>, billed: seq<BilledEntry>, now: Time, done: seq<string>)
    requires Adjusts(catalog, job.tenantId, Seen(events, billed, ScopeOf(job)), done)
    ensures forall e | e in Adjustments(catalog, job, Seen(events, billed, ScopeOf(job)), now, done) :: EntryOfJob(job, now, e)
  {
    hide Seen, Computed, Mismatched, Delta;
    var added := Adjustments(catalog, job, Seen(events, billed, ScopeOf(job)), now, done);
    forall e | e in added ensures EntryOfJob(job, now, e) {
      var i :| 0 <= i < |added| && added[i] == e;
      assert done[i] in done;
      GroupInScope(events, billed, job, done[i]);
    }
  }

  lemma AdjustmentsSelected(
    catalog: Catalog, job: Job, events: seq<UsageEvent>, billed: seq<BilledEntry>, now: Time, done: seq<string>)
    requires Adjusts(catalog, job.tenantId, Seen(events, billed, ScopeOf(job)), done)
    ensures forall e | e in Adjustments(catalog, job, Seen(events, billed, ScopeOf(job)), now, done) ::
              SelectsEntry(ScopeOf(job), e) == InWindow(ScopeOf(job), now)
  {
    var rows := Seen(events, billed, ScopeOf(job));
    var added := Adjustments(catalog, job, rows, now, done);
    forall e | e in added ensures SelectsEntry(ScopeOf(job), e) == InWindow(ScopeOf(job), now) {
      var i :| 0 <= i < |done| && added[i] == e;
      GroupMeetsFilter(events, billed, ScopeOf(job), done[i]);
    }
  }

  ghost function AdjustmentPostings(catalog: Catalog, tenantId: string, rows: Rows, done: seq<string>): seq<Posting>
    requires Adjusts(catalog, tenantId, rows, done)
  {
    seq(|done|, i requires 0 <= i < |done| => AdjustmentPosting(catalog, tenantId, rows[done[i]]))
  }

  function AdjustmentPosting(catalog: Catalog, tenantId: string, agg: Aggregate): Posting
    requires Computed(catalog, tenantId, agg).Ok?
  {
    Posting(agg.customerId, agg.meterId, 0, Delta(catalog, tenantId, agg))
  }

  lemma PostingsConcat(events: seq<UsageEvent>, a: seq<BilledEntry>, b: seq<BilledEntry>)
    ensures Postings(events, a + b) == Postings(events, a) + Postings([], b)
  {
  }

  lemma AdjustmentsPost(catalog: Catalog, job: Job, rows: Rows, now: Time, done: seq<string>)
    requires Adjusts(catalog, job.tenantId, rows, done)
    ensures Postings([], Adjustments(catalog, job, rows, now, done))
         == AdjustmentPostings(catalog, job.tenantId, rows, done)
  {
  }

  /** What an attempt leaves of the groups: the corrected ones are billed what was computed. */
  ghost function Corrected(catalog: Catalog, tenantId: string, rows: Rows, done: seq<string>): Rows
    requires Adjusts(catalog, tenantId, rows, done)
  {
    map k | k in rows ::
      if k in done then rows[k].(billed := Computed(catalog, tenantId, rows[k]).value) else rows[k]
  }

  lemma CorrectOne(catalog: Catalog, tenantId: string, agg: Aggregate)
    requires Computed(catalog, tenantId, agg).Ok?
    ensures Added(agg, AdjustmentPosting(catalog, tenantId, agg))
         == agg.(billed := Computed(catalog, tenantId, agg).value)
  {
    hide Wrap64, Computed;
    var computed := Computed(catalog, tenantId, agg).value;
    WrapAbsorbs(agg.billed, computed - agg.billed);
    assert agg.billed + (computed - agg.billed) == computed;
  }

  lemma {:induction false} AttemptCorrects(catalog: Catalog, tenantId: string, ps: seq<Posting>, done: seq<string>)
    requires Adjusts(catalog, tenantId, Grouped(ps), done)
    ensures Grouped(ps + AdjustmentPostings(catalog, tenantId, Grouped(ps), done))
         == Corrected(catalog, tenantId, Grouped(ps), done)
  {
    hide Added, Group, Keys, Wrap64;
    var rows := Grouped(ps);
    if done == [] {
      assert ps + AdjustmentPostings(catalog, tenantId, rows, done) == ps;
    } else {
      var rest, key := done[..|done| - 1], done[|done| - 1];
      assert done == rest + [key];
      AttemptCorrects(catalog, tenantId, ps, rest);
      var before := ps + AdjustmentPostings(catalog, tenantId, rows, rest);
      var p := AdjustmentPosting(catalog, tenantId, rows[key]);
      assert ps + AdjustmentPostings(catalog, tenantId, rows, done) == before + [p];
      GroupKey(ps, key);
      GroupSoFarIs(before, p);
      GroupedStep(before, p);
      CorrectOne(catalog, tenantId, rows[key]);
    }
  }

  lemma GroupKey(ps: seq<Posting>, key: string)
    requires key in Grouped(ps)
    ensures Key(Grouped(ps)[key].customerId, Grouped(ps)[key].meterId) == key
  {
  }

  lemma ViewAfterAttempt(
    catalog: Catalog, job: Job, events: seq<UsageEvent>, billed: seq<BilledEntry>, now: Time, done: seq<string>)
    requires Adjusts(catalog, job.tenantId, Seen(events, billed, ScopeOf(job)), done)
    ensures var rows := Seen(events, billed, ScopeOf(job));
            View(events, billed + Adjustments(catalog, job, rows, now, done), ScopeOf(job))
            == View(events, billed, ScopeOf(job))
               + if InWindow(ScopeOf(job), now) then AdjustmentPostings(catalog, job.tenantId, rows, done) else []
  {
    hide Adjusts, Adjustments, AdjustmentPostings, InWindow, Grouped, Postings;
    hide ListBilledEntries, ListUsageEvents;
    var f := ScopeOf(job);
    var rows := Seen(events, billed, f);
    var added := Adjustments(catalog, job, rows, now, done);
    ListConcat(billed, added, f);
    AdjustmentsSelected(catalog, job, events, billed, now, done);
    ListAllOrNone(added, f, InWindow(f, now));
    if InWindow(f, now) {
      PostingsConcat(ListUsageEvents(events, f), ListBilledEntries(billed, f), added);
      AdjustmentsPost(catalog, job, rows, now, done);
    } else {
      assert ListBilledEntries(billed, f) + [] == ListBilledEntries(billed, f);
    }
  }

  /** Seen by later attempts, an attempt sets the billed total of exactly the groups it
      corrected to what was computed, if its clock lies inside the job's window; otherwise
      later attempts see no change at all. */
  lemma AttemptSeen(
    catalog: Catalog, job: Job, events: seq<UsageEvent>, billed: seq<BilledEntry>, now: Time, done: seq<string>)
    requires Adjusts(catalog, job.tenantId, Seen(events, billed, ScopeOf(job)), done)
    ensures var rows := Seen(events, billed, ScopeOf(job));
            Seen(events, billed + Adjustments(catalog, job, rows, now, done), ScopeOf(job))
            == if DuringJob(job, now) then Corrected(catalog, job.tenantId, rows, done) else rows
  {
    hide Adjusts, Adjustments, AdjustmentPostings, Corrected, Grouped, View;
    ViewAfterAttempt(catalog, job, events, billed, now, done);
    AttemptCorrects(catalog, job.tenantId, View(events, billed, ScopeOf(job)), done);
    assert View(events, billed, ScopeOf(job)) + [] == View(events, billed, ScopeOf(job));
  }

  // ---------------------------------------------------------------------------
  // Any number of attempts
  // ---------------------------------------------------------------------------

  /** One attempt: the job it ran for, its clock, and the groups it corrected before it ended. */
  datatype Attempt = Attempt(jobId: string, now: Time, done: seq<string>)

  /** What an attempt at the scope of `job` makes of the ledger. */
  ghost function LedgerAfterOne(
    catalog: Catalog, job: Job, events: seq<UsageEvent>, billed: seq<BilledEntry>, a: Attempt): seq<BilledEntry>
    requires Adjusts(catalog, job.tenantId, Seen(events, billed, ScopeOf(job)), a.done)
  {
    billed + Adjustments(catalog, job.(id := a.jobId), Seen(events, billed, ScopeOf(job)), a.now, a.done)
  }

  /** Attempts that follow one another, each correcting groups it found mismatched. */
  ghost predicate Feasible(
    catalog: Catalog, job: Job, events: seq<UsageEvent>, billed: seq<BilledEntry>, attempts: seq<Attempt>)
    decreases |attempts|
  {
    attempts == [] || (
      && Adjusts(catalog, job.tenantId, Seen(events, billed, ScopeOf(job)), attempts[0].done)
      && Feasible(catalog, job, events, LedgerAfterOne(catalog, job, events, billed, attempts[0]), attempts[1..])
    )
  }

  ghost function LedgerAfter(
    catalog: Catalog, job: Job, events: seq<UsageEvent>, billed: seq<BilledEntry>, attempts: seq<Attempt>): seq<BilledEntry>
    requires Feasible(catalog, job, events, billed, attempts)
    decreases |attempts|
  {
    if attempts == [] then billed
    else LedgerAfter(catalog, job, events, LedgerAfterOne(catalog, job, events, billed, attempts[0]), attempts[1..])
  }

  /** Same groups, same usage; each billed total is what it was or what it should be. */
  ghost predicate Progress(catalog: Catalog, tenantId: string, before: Rows, after: Rows) {
    && before.Keys == after.Keys
    && forall k | k in before ::
         && after[k] == before[k].(billed := after[k].billed)
         && (after[k].billed == before[k].billed
             || Computed(catalog, tenantId, before[k]) == Ok(after[k].billed))
  }

  lemma ComputedIgnoresBilled(catalog: Catalog, tenantId: string, agg: Aggregate, billed: int64)
    ensures Computed(catalog, tenantId, agg.(billed := billed)) == Computed(catalog, tenantId, agg)
  {
  }

  lemma OneAttemptProgresses(catalog: Catalog, job: Job, events: seq<UsageEvent>, billed: seq<BilledEntry>, a: Attempt)
    requires Adjusts(catalog, job.tenantId, Seen(events, billed, ScopeOf(job)), a.done)
    ensures var rows := Seen(events, billed, ScopeOf(job));
            Seen(events, LedgerAfterOne(catalog, job, events, billed, a), ScopeOf(job))
            == if DuringJob(job, a.now) then Corrected(catalog, job.tenantId, rows, a.done) else rows
    ensures Progress(catalog, job.tenantId, Seen(events, billed, ScopeOf(job)),
                     Seen(events, LedgerAfterOne(catalog, job, events, billed, a), ScopeOf(job)))
  {
    hide Seen, Computed;
    AttemptSeen(catalog, job.(id := a.jobId), events, billed, a.now, a.done);
  }

  lemma ProgressTransitive(catalog: Catalog, tenantId: string, a: Rows, b: Rows, c: Rows)
    requires Progress(catalog, tenantId, a, b) && Progress(catalog, tenantId, b, c)
    ensures Progress(catalog, tenantId, a, c)
  {
    hide Computed;
    forall k | k in a ensures Computed(catalog, tenantId, b[k]) == Computed(catalog, tenantId, a[k]) {
      ComputedIgnoresBilled(catalog, tenantId, a[k], b[k].billed);
    }
  }

  lemma {:induction false} AttemptsProgress(
    catalog: Catalog, job: Job, events: seq<UsageEvent>, billed: seq<BilledEntry>, attempts: seq<Attempt>)
    requires Feasible(catalog, job, events, billed, attempts)
    ensures Progress(catalog, job.tenantId, Seen(events, billed, ScopeOf(job)),
                     Seen(events, LedgerAfter(catalog, job, events, billed, attempts), ScopeOf(job)))
    decreases |attempts|
  {
    hide Seen, Computed, Adjusts, LedgerAfterOne;
    if attempts != [] {
      var next := LedgerAfterOne(catalog, job, events, billed, attempts[0]);
      OneAttemptProgresses(catalog, job, events, billed, attempts[0]);
      AttemptsProgress(catalog, job, events, next, attempts[1..]);
      ProgressTransitive(catalog, job.tenantId, Seen(events, billed, ScopeOf(job)), Seen(events, next, ScopeOf(job)),
                         Seen(events, LedgerAfter(catalog, job, events, next, attempts[1..]), ScopeOf(job)));
    }
  }

  /** A complete attempt settles the scope exactly when its clock lies inside the job's window
      or there was nothing to correct. */
  lemma CompleteSettlesIff(catalog: Catalog, job: Job, events: seq<UsageEvent>, billed: seq<BilledEntry>, a: Attempt)
    requires Completes(catalog, job.tenantId, Seen(events, billed, ScopeOf(job)), a.done)
    ensures Settled(catalog, job.tenantId, Seen(events, LedgerAfterOne(catalog, job, events, billed, a), ScopeOf(job)))
       <==> DuringJob(job, a.now) || a.done == []
  {
    hide Seen, Computed, DuringJob;
    var rows := Seen(events, billed, ScopeOf(job));
    OneAttemptProgresses(catalog, job, events, billed, a);
    forall k | k in rows && k in a.done
      ensures Computed(catalog, job.tenantId, rows[k].(billed := Computed(catalog, job.tenantId, rows[k]).value))
           == Computed(catalog, job.tenantId, rows[k])
    {
      ComputedIgnoresBilled(catalog, job.tenantId, rows[k], Computed(catalog, job.tenantId, rows[k]).value);
    }
    if !DuringJob(job, a.now) && a.done != [] {
      assert a.done[0] in a.done;
    }
  }

  lemma NothingLeftToAdjust(catalog: Catalog, tenantId: string, rows: Rows, done: seq<string>)
    requires Settled(catalog, tenantId, rows)
    ensures Adjusts(catalog, tenantId, rows, done) <==> done == []
  {
    if done != [] {
      assert done[0] in done;
    }
  }

  /** Replay converges. However many attempts failed after correcting whatever groups in
      whatever order, one complete attempt with its clock inside the window leaves every
      group billed exactly what its usage costs, and from then on there is nothing to adjust. */
  lemma ReplayConverges(
    catalog: Catalog, job: Job, events: seq<UsageEvent>, billed: seq<BilledEntry>, failed: seq<Attempt>, last: Attempt)
    requires Feasible(catalog, job, events, billed, failed)
    requires var ledger := LedgerAfter(catalog, job, events, billed, failed);
             Completes(catalog, job.tenantId, Seen(events, ledger, ScopeOf(job)), last.done)
    requires DuringJob(job, last.now)
    ensures var ledger := LedgerAfter(catalog, job, events, billed, failed);
            var before := Seen(events, billed, ScopeOf(job));
            var after := Seen(events, LedgerAfterOne(catalog, job, events, ledger, last), ScopeOf(job));
            && before.Keys == after.Keys
            && (forall k | k in before :: Computed(catalog, job.tenantId, before[k]) == Ok(after[k].billed))
            && (forall more :: Adjusts(catalog, job.tenantId, after, more) <==> more == [])
  {
    hide Seen, Computed, DuringJob, LedgerAfter, LedgerAfterOne, Feasible, Adjusts;
    var ledger := LedgerAfter(catalog, job, events, billed, failed);
    var before, mid := Seen(events, billed, ScopeOf(job)), Seen(events, ledger, ScopeOf(job));
    var after := Seen(events, LedgerAfterOne(catalog, job, events, ledger, last), ScopeOf(job));
    AttemptsProgress(catalog, job, events, billed, failed);
    OneAttemptProgresses(catalog, job, events, ledger, last);
    ProgressTransitive(catalog, job.tenantId, before, mid, after);
    CompleteSettlesIff(catalog, job, events, ledger, last);
    forall k | k in before ensures Computed(catalog, job.tenantId, before[k]) == Ok(after[k].billed) {
      ComputedIgnoresBilled(catalog, job.tenantId, before[k], after[k].billed);
    }
    forall more ensures Adjusts(catalog, job.tenantId, after, more) <==> more == [] {
      NothingLeftToAdjust(catalog, job.tenantId, after, more);
    }
  }

  function Restamped(entries: seq<BilledEntry>, now: Time): seq<BilledEntry> {
    seq(|entries|, i requires 0 <= i < |entries| => entries[i].(timestamp := now))
  }

  /** With its clock outside the window an attempt is invisible to the next one, which finds the
      same groups and appends the same corrections again, whatever its own clock says. */
  lemma OutsideWindowRepeats(
    catalog: Catalog, job: Job, events: seq<UsageEvent>, billed: seq<BilledEntry>, a: Attempt, later: Time)
    requires Adjusts(catalog, job.tenantId, Seen(events, billed, ScopeOf(job)), a.done)
    requires !DuringJob(job, a.now)
    ensures var rows := Seen(events, billed, ScopeOf(job));
            var ledger := LedgerAfterOne(catalog, job, events, billed, a);
            && Seen(events, ledger, ScopeOf(job)) == rows
            && LedgerAfterOne(catalog, job, events, ledger, a.(now := later))
               == ledger + Restamped(ledger[|billed|..], later)
  {
    hide Seen, Computed, DuringJob;
    OneAttemptProgresses(catalog, job, events, billed, a);
  }

  // ---------------------------------------------------------------------------
  // What that means for a customer
  // ---------------------------------------------------------------------------

  /** Adjustments are for customers that were there before. */
  lemma AttemptKeepsClashes(
    catalog: Catalog, job: Job, events: seq<UsageEvent>, billed: seq<BilledEntry>, a: Attempt, c: string)
    requires Adjusts(catalog, job.tenantId, Seen(events, billed, ScopeOf(job)), a.done)
    requires NoClashWith(View(events, billed, ScopeOf(job)), c)
    ensures NoClashWith(View(events, LedgerAfterOne(catalog, job, events, billed, a), ScopeOf(job)), c)
  {
    ViewAfterAttempt(catalog, job.(id := a.jobId), events, billed, a.now, a.done);
    hide View, Clash, Computed, Mismatched, Delta, InWindow, Adjustments, Label;
    var ps := View(events, billed, ScopeOf(job));
    forall k | k in a.done ensures !Clash(Grouped(ps)[k].customerId, c) {
      assert Label(ps, k) in ps;
    }
  }

  lemma {:induction false} AttemptsKeepClashes(
    catalog: Catalog, job: Job, events: seq<UsageEvent>, billed: seq<BilledEntry>, attempts: seq<Attempt>, c: string)
    requires Feasible(catalog, job, events, billed, attempts)
    requires NoClashWith(View(events, billed, ScopeOf(job)), c)
    ensures NoClashWith(View(events, LedgerAfter(catalog, job, events, billed, attempts), ScopeOf(job)), c)
    decreases |attempts|
  {
    hide View, NoClashWith, LedgerAfterOne, Adjusts;
    if attempts != [] {
      AttemptKeepsClashes(catalog, job, events, billed, attempts[0], c);
      AttemptsKeepClashes(catalog, job, events, LedgerAfterOne(catalog, job, events, billed, attempts[0]), attempts[1..], c);
    }
  }

  /** After a converged replay every customer whose id does not clash has been billed, for every
      meter it has events or entries of, exactly what the rule of that meter makes of its usage. */
  lemma ReplayBillsCustomers(
    catalog: Catalog, job: Job, events: seq<UsageEvent>, billed: seq<BilledEntry>, failed: seq<Attempt>, last: Attempt,
    c: string, m: string)
    requires Feasible(catalog, job, events, billed, failed)
    requires var ledger := LedgerAfter(catalog, job, events, billed, failed);
             Completes(catalog, job.tenantId, Seen(events, ledger, ScopeOf(job)), last.done)
    requires DuringJob(job, last.now)
    requires !Clashes(events, billed, job, c)
    requires exists p :: p in View(events, billed, ScopeOf(job)) && p.customerId == c && p.meterId == m
    ensures var ledger := LedgerAfterOne(catalog, job, events, LedgerAfter(catalog, job, events, billed, failed), last);
            var usage := Wrap64(SumBy(EventsOfJob(job, EventOf(c, m)), events));
            var charged := Wrap64(SumBy(EntriesOfJob(job, EntryOf(c, m)), ledger));
            && (job.tenantId, m) in catalog.meters
            && var rule := (job.tenantId, catalog.meters[(job.tenantId, m)].ratingRuleVersionId);
               rule in catalog.rules && Pricing.Amount(catalog.rules[rule].rule, usage) == Ok(charged)
  {
    var scope := ScopeOf(job);
    var mid := LedgerAfter(catalog, job, events, billed, failed);
    var ledger := LedgerAfterOne(catalog, job, events, mid, last);
    ReplayConverges(catalog, job, events, billed, failed, last);
    AttemptsKeepClashes(catalog, job, events, billed, failed, c);
    AttemptKeepsClashes(catalog, job, events, mid, last, c);
    KeyOfPosted(View(events, billed, scope), c, m);
    hide LedgerAfter, LedgerAfterOne, Feasible, Completes, NoClashWith, DuringJob, Adjusts, Wrap64, SumBy;
    CustomerGroup(events, billed, scope, c, m);
    CustomerGroup(events, ledger, scope, c, m);
    ListedEvents(events, scope, EventOf(c, m));
    ListedEntries(ledger, scope, EntryOf(c, m));
  }

  lemma CustomerGroup(events: seq<UsageEvent>, billed: seq<BilledEntry>, scope: Filter, c: string, m: string)
    requires NoClashWith(View(events, billed, scope), c) && Key(c, m) in Seen(events, billed, scope)
    ensures Seen(events, billed, scope)[Key(c, m)] ==
            Aggregate(c, m, Wrap64(SumBy(EventOf(c, m), ListUsageEvents(events, scope))),
                      Wrap64(SumBy(EntryOf(c, m), ListBilledEntries(billed, scope))))
  {
    hide NoClashWith, Wrap64, ListUsageEvents, ListBilledEntries, Postings, Group;
    GroupNamesCustomerAndMeter(View(events, billed, scope), c, m);
    CustomerTotals(ListUsageEvents(events, scope), ListBilledEntries(billed, scope), c, m);
  }

  lemma KeyOfPosted(ps: seq<Posting>, c: string, m: string)
    requires exists p :: p in ps && p.customerId == c && p.meterId == m
    ensures Key(c, m) in Keys(ps)
  {
  }
}
