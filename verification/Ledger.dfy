/**
  Usage events, billed entries, the filters that select them, and the grouping by
  customer and meter that replay and reconciliation each compute on their own.
 */
module Ledger {
  import opened Common
  import opened Ordering
  import Pricing

  datatype UsageEvent = UsageEvent(
    tenantId: string, customerId: string, meterId: string, quantity: int64, timestamp: Time)

  datatype Source = Api | ReplayAdjustment

  datatype BilledEntry = BilledEntry(
    tenantId: string, customerId: string, meterId: string, amountCents: int64,
    source: Source, replayJobId: string, timestamp: Time)

  /** An empty customer, meter or job id, and an absent time or source, restricts nothing. */
  datatype Filter = Filter(
    tenantId: string, from: Option<Time>, until: Option<Time>, customerId: string, meterId: string,
    billedSource: Option<Source>, billedReplayJobId: string)

  predicate InWindow(f: Filter, t: Time) {
    (f.from.Some? ==> f.from.value <= t) && (f.until.Some? ==> t <= f.until.value)
  }

  predicate Selects(f: Filter, tenantId: string, customerId: string, meterId: string, t: Time) {
    && f.tenantId == tenantId
    && (f.customerId != "" ==> f.customerId == customerId)
    && (f.meterId != "" ==> f.meterId == meterId)
    && InWindow(f, t)
  }

  predicate SelectsEntry(f: Filter, b: BilledEntry) {
    && Selects(f, b.tenantId, b.customerId, b.meterId, b.timestamp)
    && (f.billedSource.Some? ==> f.billedSource.value == b.source)
    && (f.billedReplayJobId != "" ==> f.billedReplayJobId == b.replayJobId)
  }

  function ListUsageEvents(table: seq<UsageEvent>, f: Filter): seq<UsageEvent> {
    if table == [] then []
    else
      var e, rest := table[|table| - 1], ListUsageEvents(table[..|table| - 1], f);
      if Selects(f, e.tenantId, e.customerId, e.meterId, e.timestamp) then rest + [e] else rest
  }

  function ListBilledEntries(table: seq<BilledEntry>, f: Filter): seq<BilledEntry> {
    if table == [] then []
    else
      var b, rest := table[|table| - 1], ListBilledEntries(table[..|table| - 1], f);
      if SelectsEntry(f, b) then rest + [b] else rest
  }

  /** An event's value if it is one of a tenant, a customer and a meter (when named) at a time from
      `from` to `until` (when given), and nothing otherwise. */
  function EventWhere(
    tenantId: string, customerId: string, meterId: string, from: Option<Time>, until: Option<Time>,
    value: UsageEvent -> int): UsageEvent -> int
  {
    (e: UsageEvent) =>
      if e.tenantId == tenantId && customerId in ["", e.customerId] && meterId in ["", e.meterId]
         && (from == None || from.value <= e.timestamp) && (until == None || e.timestamp <= until.value)
      then value(e) else 0
  }

  /** The same for entries, which can also be restricted to a source and to a replay job. */
  function EntryWhere(
    tenantId: string, customerId: string, meterId: string, from: Option<Time>, until: Option<Time>,
    source: Option<Source>, replayJobId: string, value: BilledEntry -> int): BilledEntry -> int
  {
    (b: BilledEntry) =>
      if b.tenantId == tenantId && customerId in ["", b.customerId] && meterId in ["", b.meterId]
         && (from == None || from.value <= b.timestamp) && (until == None || b.timestamp <= until.value)
         && source in [None, Some(b.source)] && replayJobId in ["", b.replayJobId]
      then value(b) else 0
  }

  /** What a filter selects, in terms of its fields: summing over the listing is summing over the
      table, with nothing for what the filter leaves out. */
  lemma {:induction false} ListedEvents(table: seq<UsageEvent>, f: Filter, value: UsageEvent -> int)
    ensures SumBy(value, ListUsageEvents(table, f))
         == SumBy(EventWhere(f.tenantId, f.customerId, f.meterId, f.from, f.until, value), table)
  {
    if table != [] {
      var rest, e := table[..|table| - 1], table[|table| - 1];
      ListedEvents(rest, f, value);
      assert EventWhere(f.tenantId, f.customerId, f.meterId, f.from, f.until, value)(e)
          == if Selects(f, e.tenantId, e.customerId, e.meterId, e.timestamp) then value(e) else 0;
      SumByStep(value, ListUsageEvents(rest, f), e);
    }
  }

  lemma {:induction false} ListedEntries(table: seq<BilledEntry>, f: Filter, value: BilledEntry -> int)
    ensures SumBy(value, ListBilledEntries(table, f))
         == SumBy(EntryWhere(f.tenantId, f.customerId, f.meterId, f.from, f.until, f.billedSource, f.billedReplayJobId, value), table)
  {
    if table != [] {
      var rest, b := table[..|table| - 1], table[|table| - 1];
      ListedEntries(rest, f, value);
      assert EntryWhere(f.tenantId, f.customerId, f.meterId, f.from, f.until, f.billedSource, f.billedReplayJobId, value)(b)
          == if SelectsEntry(f, b) then value(b) else 0;
      SumByStep(value, ListBilledEntries(rest, f), b);
    }
  }

  function OneEvent(e: UsageEvent): int { 1 }

  lemma {:induction false} CountListed(listed: seq<UsageEvent>)
    ensures SumBy(OneEvent, listed) == |listed|
  {
    if listed != [] {
      CountListed(listed[..|listed| - 1]);
    }
  }

  // ---------------------------------------------------------------------------
  // Rating
  // ---------------------------------------------------------------------------

  datatype Meter = Meter(tenantId: string, ratingRuleVersionId: string)

  datatype RuleVersion = RuleVersion(tenantId: string, rule: Pricing.Rule)

  /** Meters and rating rules, by tenant and id. */
  datatype Catalog = Catalog(meters: map<(string, string), Meter>, rules: map<(string, string), RuleVersion>)

  function RuleFor(catalog: Catalog, tenantId: string, meterId: string): Result<Pricing.Rule> {
    if (tenantId, meterId) !in catalog.meters then Err
    else
      var ruleId := catalog.meters[(tenantId, meterId)].ratingRuleVersionId;
      if (tenantId, ruleId) in catalog.rules then Ok(catalog.rules[(tenantId, ruleId)].rule) else Err
  }

  // ---------------------------------------------------------------------------
  // Grouping
  // ---------------------------------------------------------------------------

  /** What an event or an entry adds to its group. */
  datatype Posting = Posting(customerId: string, meterId: string, quantity: int64, billed: int64)

  function Postings(events: seq<UsageEvent>, billed: seq<BilledEntry>): (ps: seq<Posting>)
    ensures |ps| == |events| + |billed|
  {
    seq(|events|, i requires 0 <= i < |events| => EventPosting(events[i]))
    + seq(|billed|, i requires 0 <= i < |billed| => EntryPosting(billed[i]))
  }

  function EventPosting(e: UsageEvent): Posting { Posting(e.customerId, e.meterId, e.quantity, 0) }

  function EntryPosting(b: BilledEntry): Posting { Posting(b.customerId, b.meterId, 0, b.amountCents) }

  function Key(customerId: string, meterId: string): string {
    customerId + "::" + meterId
  }

  function KeyOf(p: Posting): string { Key(p.customerId, p.meterId) }

  function Keys(ps: seq<Posting>): set<string> {
    set p | p in ps :: KeyOf(p)
  }

  function UsageOf(p: Posting): int { p.quantity }

  function ChargeOf(p: Posting): int { p.billed }

  /** A posting's value if it belongs to a group, and nothing otherwise. */
  function InGroup(key: string, value: Posting -> int): Posting -> int {
    (p: Posting) => if KeyOf(p) == key then value(p) else 0
  }

  /** The first posting with a key names the group's customer and meter. */
  function Label(ps: seq<Posting>, key: string): (p: Posting)
    requires key in Keys(ps)
    ensures p in ps && KeyOf(p) == key
  {
    var rest := ps[..|ps| - 1];
    assert ps == rest + [ps[|ps| - 1]];
    if key in Keys(rest) then Label(rest, key) else ps[|ps| - 1]
  }

  datatype Aggregate = Aggregate(customerId: string, meterId: string, quantity: int64, billed: int64)

  function Group(ps: seq<Posting>, key: string): Aggregate
    requires key in Keys(ps)
  {
    Aggregate(
      Label(ps, key).customerId, Label(ps, key).meterId,
      Wrap64(SumBy(InGroup(key, UsageOf), ps)), Wrap64(SumBy(InGroup(key, ChargeOf), ps)))
  }

  function Grouped(ps: seq<Posting>): map<string, Aggregate> {
    map key | key in Keys(ps) :: Group(ps, key)
  }

  function GroupSoFar(ps: seq<Posting>, p: Posting): Aggregate {
    if KeyOf(p) in Keys(ps) then Group(ps, KeyOf(p)) else Aggregate(p.customerId, p.meterId, 0, 0)
  }

  function Added(agg: Aggregate, p: Posting): Aggregate {
    agg.(quantity := Wrap64(agg.quantity + p.quantity), billed := Wrap64(agg.billed + p.billed))
  }

  /** What one more posting does to the groups: the step both aggregation loops take. */
  lemma GroupedStep(ps: seq<Posting>, p: Posting)
    ensures Grouped(ps + [p]) == Grouped(ps)[KeyOf(p) := Added(GroupSoFar(ps, p), p)]
  {
    hide Group, GroupSoFar, Added;
    KeysStep(ps, p);
    OwnGroup(ps, p);
    forall key | key in Keys(ps) && key != KeyOf(p)
      ensures Group(ps + [p], key) == Group(ps, key)
    {
      OtherGroup(ps, p, key);
    }
  }

  lemma OtherGroup(ps: seq<Posting>, p: Posting, key: string)
    requires key in Keys(ps) && key != KeyOf(p)
    ensures key in Keys(ps + [p]) && Group(ps + [p], key) == Group(ps, key)
  {
    KeysStep(ps, p);
    LabelStep(ps, p, key);
    SumByStep(InGroup(key, UsageOf), ps, p);
    SumByStep(InGroup(key, ChargeOf), ps, p);
  }

  lemma OwnGroup(ps: seq<Posting>, p: Posting)
    ensures KeyOf(p) in Keys(ps + [p]) && Group(ps + [p], KeyOf(p)) == Added(GroupSoFar(ps, p), p)
  {
    hide Wrap64, SumBy, InGroup, Label, Keys, KeyOf;
    var k := KeyOf(p);
    KeysStep(ps, p);
    LabelStep(ps, p, k);
    OwnSums(ps, p);
    if k !in Keys(ps) {
      NoKeyNoSum(ps, k);
    }
    WrapAbsorbs(SumBy(InGroup(k, UsageOf), ps), p.quantity);
    WrapAbsorbs(SumBy(InGroup(k, ChargeOf), ps), p.billed);
  }

  lemma OwnSums(ps: seq<Posting>, p: Posting)
    ensures SumBy(InGroup(KeyOf(p), UsageOf), ps + [p]) == SumBy(InGroup(KeyOf(p), UsageOf), ps) + p.quantity
    ensures SumBy(InGroup(KeyOf(p), ChargeOf), ps + [p]) == SumBy(InGroup(KeyOf(p), ChargeOf), ps) + p.billed
  {
    OwnPosting(p);
    hide *;
    SumByStep(InGroup(KeyOf(p), UsageOf), ps, p);
    SumByStep(InGroup(KeyOf(p), ChargeOf), ps, p);
  }

  lemma OwnPosting(p: Posting)
    ensures InGroup(KeyOf(p), UsageOf)(p) == p.quantity && InGroup(KeyOf(p), ChargeOf)(p) == p.billed
  {
    assert InGroup(KeyOf(p), UsageOf)(p) == UsageOf(p) && InGroup(KeyOf(p), ChargeOf)(p) == ChargeOf(p);
  }

  lemma KeysStep(ps: seq<Posting>, p: Posting)
    ensures Keys(ps + [p]) == Keys(ps) + {KeyOf(p)}
  {
    assert forall q :: q in ps + [p] <==> q in ps || q == p;
  }

  lemma LabelStep(ps: seq<Posting>, p: Posting, key: string)
    requires key in Keys(ps + [p])
    ensures Label(ps + [p], key) == if key in Keys(ps) then Label(ps, key) else p
  {
    assert (ps + [p])[..|ps|] == ps;
  }

  lemma {:induction false} NoKeyNoSum(ps: seq<Posting>, key: string)
    requires key !in Keys(ps) || ps == []
    ensures SumBy(InGroup(key, UsageOf), ps) == 0 && SumBy(InGroup(key, ChargeOf), ps) == 0
  {
    if ps != [] {
      var rest, last := ps[..|ps| - 1], ps[|ps| - 1];
      assert ps == rest + [last];
      KeysStep(rest, last);
      NoKeyNoSum(rest, key);
      SumByStep(InGroup(key, UsageOf), rest, last);
      SumByStep(InGroup(key, ChargeOf), rest, last);
    }
  }

  lemma NoPostings()
    ensures Grouped(Postings([], [])) == map[]
  {
  }

  lemma GroupSoFarIs(ps: seq<Posting>, p: Posting)
    ensures GroupSoFar(ps, p) ==
            if KeyOf(p) in Grouped(ps) then Grouped(ps)[KeyOf(p)] else Aggregate(p.customerId, p.meterId, 0, 0)
  {
  }

  lemma GroupedStepAt(ps: seq<Posting>, p: Posting)
    ensures var before := Grouped(ps);
            var agg := if KeyOf(p) in before then before[KeyOf(p)] else Aggregate(p.customerId, p.meterId, 0, 0);
            Grouped(ps + [p]) == before[KeyOf(p) := Added(agg, p)]
  {
    GroupedStep(ps, p);
    GroupSoFarIs(ps, p);
    hide Grouped, GroupSoFar, KeyOf, Added;
  }

  lemma PostingsOfEvent(usage: seq<UsageEvent>, i: nat)
    requires i < |usage|
    ensures Postings(usage[..i + 1], []) == Postings(usage[..i], []) + [EventPosting(usage[i])]
  {
  }

  lemma PostingsOfEntry(usage: seq<UsageEvent>, entries: seq<BilledEntry>, i: nat)
    requires i < |entries|
    ensures Postings(usage, entries[..i + 1]) == Postings(usage, entries[..i]) + [EntryPosting(entries[i])]
  {
  }

  lemma PostEvent(usage: seq<UsageEvent>, i: nat)
    requires i < |usage|
    ensures var p, before := EventPosting(usage[i]), Grouped(Postings(usage[..i], []));
            var agg := if KeyOf(p) in before then before[KeyOf(p)] else Aggregate(p.customerId, p.meterId, 0, 0);
            Grouped(Postings(usage[..i + 1], [])) ==
            before[KeyOf(p) := agg.(quantity := Wrap64(agg.quantity + p.quantity))]
  {
    hide *;
    var ps, p := Postings(usage[..i], []), EventPosting(usage[i]);
    PostingsOfEvent(usage, i);
    GroupedStepAt(ps, p);
    AddedEvent(if KeyOf(p) in Grouped(ps) then Grouped(ps)[KeyOf(p)] else Aggregate(p.customerId, p.meterId, 0, 0), usage[i]);
  }

  lemma AddedEvent(agg: Aggregate, e: UsageEvent)
    ensures Added(agg, EventPosting(e)) == agg.(quantity := Wrap64(agg.quantity + EventPosting(e).quantity))
  {
    hide Wrap64;
  }

  lemma AddedEntry(agg: Aggregate, b: BilledEntry)
    ensures Added(agg, EntryPosting(b)) == agg.(billed := Wrap64(agg.billed + EntryPosting(b).billed))
  {
    hide Wrap64;
  }

  lemma PostEntry(usage: seq<UsageEvent>, entries: seq<BilledEntry>, i: nat)
    requires i < |entries|
    ensures var p, before := EntryPosting(entries[i]), Grouped(Postings(usage, entries[..i]));
            var agg := if KeyOf(p) in before then before[KeyOf(p)] else Aggregate(p.customerId, p.meterId, 0, 0);
            Grouped(Postings(usage, entries[..i + 1])) ==
            before[KeyOf(p) := agg.(billed := Wrap64(agg.billed + p.billed))]
  {
    hide *;
    var ps, p := Postings(usage, entries[..i]), EntryPosting(entries[i]);
    PostingsOfEntry(usage, entries, i);
    GroupedStepAt(ps, p);
    AddedEntry(if KeyOf(p) in Grouped(ps) then Grouped(ps)[KeyOf(p)] else Aggregate(p.customerId, p.meterId, 0, 0), entries[i]);
  }

  // ---------------------------------------------------------------------------
  // Groups partition the postings
  // ---------------------------------------------------------------------------

  ghost predicate Distinct(ks: seq<string>) {
    forall i, j | 0 <= i < j < |ks| :: ks[i] != ks[j]
  }

  /** The totals of the groups ks, added up. */
  function GroupTotals(ps: seq<Posting>, value: Posting -> int, ks: seq<string>): int {
    if ks == [] then 0
    else GroupTotals(ps, value, ks[..|ks| - 1]) + SumBy(InGroup(ks[|ks| - 1], value), ps)
  }

  lemma {:induction false} OneGroupGrows(ps: seq<Posting>, p: Posting, value: Posting -> int, ks: seq<string>)
    requires Distinct(ks)
    ensures GroupTotals(ps + [p], value, ks)
         == GroupTotals(ps, value, ks) + if KeyOf(p) in ks then value(p) else 0
  {
    if ks != [] {
      var rest, k := ks[..|ks| - 1], ks[|ks| - 1];
      OneGroupGrows(ps, p, value, rest);
      SumByStep(InGroup(k, value), ps, p);
      assert ks == rest + [k];
    }
  }

  lemma {:induction false} NoPostingsNoTotals(value: Posting -> int, ks: seq<string>)
    ensures GroupTotals([], value, ks) == 0
  {
    if ks != [] {
      NoPostingsNoTotals(value, ks[..|ks| - 1]);
    }
  }

  /** Every posting belongs to exactly one group. */
  lemma {:induction false} GroupsPartition(ps: seq<Posting>, value: Posting -> int, ks: seq<string>)
    requires Distinct(ks) && forall k | k in Keys(ps) :: k in ks
    ensures GroupTotals(ps, value, ks) == SumBy(value, ps)
  {
    if ps == [] {
      NoPostingsNoTotals(value, ks);
    } else {
      var rest, p := ps[..|ps| - 1], ps[|ps| - 1];
      assert ps == rest + [p];
      KeysStep(rest, p);
      GroupsPartition(rest, value, ks);
      OneGroupGrows(rest, p, value, ks);
    }
  }

  function EventQuantity(e: UsageEvent): int { e.quantity }

  function EntryAmount(b: BilledEntry): int { b.amountCents }

  lemma {:induction false} PostingTotals(events: seq<UsageEvent>, billed: seq<BilledEntry>)
    ensures SumBy(UsageOf, Postings(events, billed)) == SumBy(EventQuantity, events)
    ensures SumBy(ChargeOf, Postings(events, billed)) == SumBy(EntryAmount, billed)
    decreases |events| + |billed|
  {
    if billed != [] {
      var rest, b := billed[..|billed| - 1], billed[|billed| - 1];
      PostingTotals(events, rest);
      assert Postings(events, billed) == Postings(events, rest) + [EntryPosting(b)];
      SumByStep(UsageOf, Postings(events, rest), EntryPosting(b));
      SumByStep(ChargeOf, Postings(events, rest), EntryPosting(b));
    } else if events != [] {
      var rest, e := events[..|events| - 1], events[|events| - 1];
      PostingTotals(rest, []);
      assert Postings(events, billed) == Postings(rest, []) + [EventPosting(e)];
      SumByStep(UsageOf, Postings(rest, []), EventPosting(e));
      SumByStep(ChargeOf, Postings(rest, []), EventPosting(e));
    }
  }

  // ---------------------------------------------------------------------------
  // The group key
  // ---------------------------------------------------------------------------

  /** b is a with a colon, or with a separator and more, behind it. */
  predicate RunsOn(a: string, b: string) {
    b == a + ":" || a + "::" <= b
  }

  predicate Clash(c1: string, c2: string) {
    c1 != c2 && (RunsOn(c1, c2) || RunsOn(c2, c1))
  }

  /** Two different customers can share a group if and only if one id runs on from the other. */
  lemma SharedKeyIff(c1: string, c2: string)
    requires c1 != c2
    ensures (exists m1, m2 :: Key(c1, m1) == Key(c2, m2)) <==> Clash(c1, c2)
  {
    if m1, m2 :| Key(c1, m1) == Key(c2, m2) {
      if |c1| <= |c2| { SharedKeyRunsOn(c1, m1, c2, m2); } else { SharedKeyRunsOn(c2, m2, c1, m1); }
    }
    if RunsOn(c1, c2) {
      var m1, m2 := RunningOnShares(c1, c2);
    } else if RunsOn(c2, c1) {
      var m2, m1 := RunningOnShares(c2, c1);
    }
  }

  lemma SharedKeyRunsOn(c1: string, m1: string, c2: string, m2: string)
    requires Key(c1, m1) == Key(c2, m2) && |c1| <= |c2|
    ensures c1 == c2 || RunsOn(c1, c2)
  {
    var k := Key(c1, m1);
    assert c1 == k[..|c1|] && c2 == k[..|c2|];
    if |c2| == |c1| + 1 {
      assert c2 == k[..|c1|] + [k[|c1|]];
    } else if |c2| > |c1| {
      assert k[..|c1| + 2] == c1 + "::";
    }
  }

  lemma RunningOnShares(c1: string, c2: string) returns (m1: string, m2: string)
    requires RunsOn(c1, c2)
    ensures Key(c1, m1) == Key(c2, m2)
  {
    m2 := "";
    if c2 == c1 + ":" {
      m1 := ":";
      assert Key(c1, m1) == c1 + ":::" == Key(c2, m2);
    } else {
      var rest := c2[|c1| + 2..];
      m1 := rest + "::";
      assert c2 == c1 + "::" + rest;
      assert Key(c1, m1) == c1 + "::" + rest + "::" == Key(c2, m2);
    }
  }

  /** Between customers that do not clash the key tells customer and meter. */
  lemma KeyInjective(c1: string, m1: string, c2: string, m2: string)
    requires !Clash(c1, c2)
    ensures Key(c1, m1) == Key(c2, m2) <==> c1 == c2 && m1 == m2
  {
    if Key(c1, m1) == Key(c2, m2) {
      if |c1| <= |c2| { SharedKeyRunsOn(c1, m1, c2, m2); } else { SharedKeyRunsOn(c2, m2, c1, m1); }
      assert m1 == Key(c1, m1)[|c1| + 2..] && m2 == Key(c2, m2)[|c2| + 2..];
    }
  }

  /** Ids without colons never clash. */
  lemma NoColonNoClash(c1: string, c2: string)
    requires ':' !in c1 && ':' !in c2
    ensures !Clash(c1, c2)
  {
    assert forall a: string :: (a + ":")[|a|] == ':';
    assert forall a: string :: (a + "::")[|a|] == ':';
  }

  // ---------------------------------------------------------------------------
  // A group is its customer and meter
  // ---------------------------------------------------------------------------

  /** A posting's value if it is one of a customer and a meter. */
  function Of(customerId: string, meterId: string, value: Posting -> int): Posting -> int {
    (p: Posting) => if p.customerId == customerId && p.meterId == meterId then value(p) else 0
  }

  ghost predicate NoClashWith(ps: seq<Posting>, customerId: string) {
    forall p | p in ps :: !Clash(p.customerId, customerId)
  }

  /** What a group sums up is all that was posted for one customer and meter, and nothing else. */
  lemma {:induction false} GroupIsCustomerAndMeter(ps: seq<Posting>, c: string, m: string, value: Posting -> int)
    requires NoClashWith(ps, c)
    ensures SumBy(InGroup(Key(c, m), value), ps) == SumBy(Of(c, m, value), ps)
  {
    hide Clash, Key;
    if ps != [] {
      var rest, last := ps[..|ps| - 1], ps[|ps| - 1];
      GroupIsCustomerAndMeter(rest, c, m, value);
      KeyInjective(last.customerId, last.meterId, c, m);
      assert InGroup(Key(c, m), value)(last) == Of(c, m, value)(last);
    }
  }

  /** And the group is named after them. */
  lemma GroupNamesCustomerAndMeter(ps: seq<Posting>, c: string, m: string)
    requires NoClashWith(ps, c) && Key(c, m) in Keys(ps)
    ensures Grouped(ps)[Key(c, m)] ==
            Aggregate(c, m, Wrap64(SumBy(Of(c, m, UsageOf), ps)), Wrap64(SumBy(Of(c, m, ChargeOf), ps)))
  {
    hide Clash, Wrap64;
    GroupIsCustomerAndMeter(ps, c, m, UsageOf);
    GroupIsCustomerAndMeter(ps, c, m, ChargeOf);
    var p := Label(ps, Key(c, m));
    KeyInjective(p.customerId, p.meterId, c, m);
  }

  function EventOf(customerId: string, meterId: string): UsageEvent -> int {
    (e: UsageEvent) => if e.customerId == customerId && e.meterId == meterId then e.quantity else 0
  }

  function EntryOf(customerId: string, meterId: string): BilledEntry -> int {
    (b: BilledEntry) => if b.customerId == customerId && b.meterId == meterId then b.amountCents else 0
  }

  lemma OfPosting(p: Posting, c: string, m: string)
    ensures Of(c, m, UsageOf)(p) == (if p.customerId == c && p.meterId == m then p.quantity else 0)
    ensures Of(c, m, ChargeOf)(p) == (if p.customerId == c && p.meterId == m then p.billed else 0)
  {
    assert UsageOf(p) == p.quantity && ChargeOf(p) == p.billed;
  }

  /** In terms of the listed events and entries. */
  lemma {:induction false} CustomerTotals(events: seq<UsageEvent>, billed: seq<BilledEntry>, c: string, m: string)
    ensures SumBy(Of(c, m, UsageOf), Postings(events, billed)) == SumBy(EventOf(c, m), events)
    ensures SumBy(Of(c, m, ChargeOf), Postings(events, billed)) == SumBy(EntryOf(c, m), billed)
    decreases |events| + |billed|
  {
    if billed != [] {
      var rest, p := billed[..|billed| - 1], EntryPosting(billed[|billed| - 1]);
      CustomerTotals(events, rest, c, m);
      assert billed == rest + [billed[|billed| - 1]];
      assert Postings(events, billed) == Postings(events, rest) + [p];
      hide Postings, Of;
      SumByStep(Of(c, m, UsageOf), Postings(events, rest), p);
      SumByStep(Of(c, m, ChargeOf), Postings(events, rest), p);
      OfPosting(p, c, m);
    } else if events != [] {
      var rest, p := events[..|events| - 1], EventPosting(events[|events| - 1]);
      CustomerTotals(rest, [], c, m);
      assert Postings(events, billed) == Postings(rest, []) + [p];
      hide Postings, Of;
      SumByStep(Of(c, m, UsageOf), Postings(rest, []), p);
      SumByStep(Of(c, m, ChargeOf), Postings(rest, []), p);
      OfPosting(p, c, m);
    }
  }
}
