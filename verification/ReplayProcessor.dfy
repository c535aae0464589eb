/**
  The replay processor over its store. Every store call may fail; a failed write
  changes nothing.
 */
module ReplayProcessor {
  import opened Common
  import opened Ordering
  import opened Ledger
  import opened Replay
  import Pricing

  datatype Start = Started(job: Job) | NotQueued | NotFound | Unavailable

  class Processor {
    const catalog: Catalog
    var events: seq<UsageEvent>
    var billed: seq<BilledEntry>
    var jobs: map<string, Job>
    /** How many accesses to the store have failed. */
    ghost var faults: nat

    constructor (catalog: Catalog)
      ensures this.catalog == catalog && events == [] && billed == [] && jobs == map[]
      ensures Valid()
    {
      this.catalog := catalog;
      events, billed, jobs := [], [], map[];
      faults := 0;
    }

    ghost predicate Valid()
      reads this
    {
      forall id | id in jobs :: jobs[id].id == id
    }

    // --- the store -----------------------------------------------------------

    method Available() returns (ok: bool)
      modifies this`faults
      ensures faults == old(faults) + if ok then 0 else 1
    {
      ok := *;
      faults := faults + if ok then 0 else 1;
    }

    method QueryUsageEvents(f: Filter) returns (r: Result<seq<UsageEvent>>)
      modifies this`faults
      ensures r.Ok? ==> r.value == ListUsageEvents(events, f)
      ensures faults == old(faults) + if r.Ok? then 0 else 1
    {
      var ok := Available();
      r := if ok then Ok(ListUsageEvents(events, f)) else Err;
    }

    method QueryBilledEntries(f: Filter) returns (r: Result<seq<BilledEntry>>)
      modifies this`faults
      ensures r.Ok? ==> r.value == ListBilledEntries(billed, f)
      ensures faults == old(faults) + if r.Ok? then 0 else 1
    {
      var ok := Available();
      r := if ok then Ok(ListBilledEntries(billed, f)) else Err;
    }

    method CreateBilledEntry(entry: BilledEntry) returns (ok: bool)
      modifies this`billed, this`faults
      ensures billed == if ok then old(billed) + [entry] else old(billed)
      ensures faults == old(faults) + if ok then 0 else 1
    {
      ok := Available();
      if ok {
        billed := billed + [entry];
      }
    }

    /** Only a queued job can be started, and starting takes it out of the queue. */
    method StartReplayJob(tenantId: string, id: string) returns (r: Start)
      requires Valid()
      modifies this`jobs, this`faults
      ensures Valid()
      ensures r.Started? <==> jobs != old(jobs)
      ensures r.Started? ==>
                && id in old(jobs) && old(jobs)[id].tenantId == tenantId && old(jobs)[id].status == Queued
                && r.job == old(jobs)[id].(status := Running, processedRecords := 0)
                && jobs == old(jobs)[id := r.job]
      ensures r.NotQueued? ==> id in jobs && jobs[id].tenantId == tenantId && jobs[id].status != Queued
      ensures r.Unavailable? <==> faults != old(faults)
      ensures r.NotFound? ==> id !in jobs || jobs[id].tenantId != tenantId
      ensures faults >= old(faults)
    {
      var available := Available();
      if !available {
        return Unavailable;
      }
      if id !in jobs || jobs[id].tenantId != tenantId {
        return NotFound;
      }
      if jobs[id].status != Queued {
        return NotQueued;
      }
      var job := jobs[id].(status := Running, processedRecords := 0);
      jobs := jobs[id := job];
      assert jobs[id] != old(jobs)[id];
      return Started(job);
    }

    method CompleteReplayJob(id: string, processed: int) returns (ok: bool)
      requires Valid() && id in jobs
      modifies this`jobs, this`faults
      ensures Valid()
      ensures jobs == if ok then old(jobs)[id := old(jobs)[id].(status := Done, processedRecords := processed)] else old(jobs)
      ensures faults == old(faults) + if ok then 0 else 1
    {
      ok := Available();
      if ok {
        jobs := jobs[id := jobs[id].(status := Done, processedRecords := processed)];
      }
    }

    /** The error of this write is ignored by its callers. */
    method FailReplayJob(id: string)
      requires Valid() && id in jobs
      modifies this`jobs, this`faults
      ensures Valid()
      ensures jobs == old(jobs)[id := old(jobs)[id].(status := Failed)] || (faults > old(faults) && jobs == old(jobs))
      ensures faults >= old(faults)
    {
      var ok := Available();
      if ok {
        jobs := jobs[id := jobs[id].(status := Failed)];
      }
    }

    /** Only a failed job goes back to the queue. */
    method RetryReplayJob(tenantId: string, id: string) returns (ok: bool)
      requires Valid()
      modifies this`jobs, this`faults
      ensures Valid()
      ensures ok ==> id in old(jobs) && old(jobs)[id].status == Failed && old(jobs)[id].tenantId == tenantId
                     && jobs == old(jobs)[id := old(jobs)[id].(status := Queued, processedRecords := 0)]
      ensures !ok ==> jobs == old(jobs)
      ensures faults == old(faults) && id in old(jobs) && old(jobs)[id].tenantId == tenantId && old(jobs)[id].status == Failed
              ==> ok
      ensures faults >= old(faults)
    {
      ok := false;
      if id in jobs && jobs[id].tenantId == tenantId && jobs[id].status == Failed {
        ok := Available();
        if ok {
          jobs := jobs[id := jobs[id].(status := Queued, processedRecords := 0)];
        }
      }
    }

    // --- the processor -------------------------------------------------------

    /** Processing a job that is not queued any more, as a redelivered message does, changes nothing.
        A started job ends as one attempt; it is marked done only when the attempt was complete. */
    method ProcessJobByID(tenantId: string, id: string, now: Time)
      returns (processed: int, adjustments: int, ok: bool, ghost done: seq<string>)
      requires Valid()
      modifies this
      ensures Valid() && events == old(events)
      ensures !(id in old(jobs) && old(jobs)[id].tenantId == tenantId && old(jobs)[id].status == Queued) ==>
                billed == old(billed) && jobs == old(jobs) && processed == adjustments == 0 && done == []
      ensures id in jobs ==>
                && Adjusts(catalog, jobs[id].tenantId, old(Seen(events, billed, ScopeOf(jobs[id]))), done)
                && billed == old(billed)
                           + Adjustments(catalog, jobs[id], old(Seen(events, billed, ScopeOf(jobs[id]))), now, done)
                && (jobs[id].status == Done && old(jobs)[id].status == Queued ==>
                      Completes(catalog, jobs[id].tenantId, old(Seen(events, billed, ScopeOf(jobs[id]))), done))
      ensures id !in jobs ==> billed == old(billed)
      ensures id in jobs ==> forall i | |old(billed)| <= i < |billed| :: EntryOfJob(jobs[id], now, billed[i])
      ensures id in jobs && old(jobs)[id].status == Queued && jobs[id].status == Done ==>
                processed == jobs[id].processedRecords == SumBy(EventsOfJob(jobs[id], OneEvent), events)
      ensures adjustments == |done|
      ensures id in old(jobs) && old(jobs)[id].status != Queued ==> jobs == old(jobs)
      ensures id in jobs && old(jobs)[id].tenantId == tenantId && old(jobs)[id].status == Queued && faults == old(faults) ==>
                jobs[id].status == if AllComputed(catalog, tenantId, old(Seen(events, billed, ScopeOf(jobs[id])))) then Done else Failed
    {
      done := [];
      var started := StartReplayJob(tenantId, id);
      if !started.Started? {
        ok := started.NotQueued?;
        processed, adjustments := 0, 0;
        return;
      }
      processed, adjustments, ok, done := ProcessClaimedJob(started.job, now);
    }

    method ProcessClaimedJob(job: Job, now: Time)
      returns (processed: int, adjustments: int, ok: bool, ghost done: seq<string>)
      requires Valid() && job.id in jobs && jobs[job.id] == job && job.status == Running
      modifies this
      ensures Valid() && events == old(events)
      ensures Adjusts(catalog, job.tenantId, old(Seen(events, billed, ScopeOf(job))), done)
      ensures billed == old(billed) + Adjustments(catalog, job, old(Seen(events, billed, ScopeOf(job))), now, done)
      ensures adjustments == |done|
      ensures ok ==> jobs == old(jobs)[job.id := job.(status := Done, processedRecords := processed)]
      ensures !ok ==> jobs == old(jobs) || jobs == old(jobs)[job.id := job.(status := Failed)]
      ensures ok ==> Completes(catalog, job.tenantId, old(Seen(events, billed, ScopeOf(job))), done)
                     && processed == SumBy(EventsOfJob(job, OneEvent), events)
      ensures forall i | |old(billed)| <= i < |billed| :: EntryOfJob(job, now, billed[i])
      ensures !ok && faults == old(faults) ==>
                jobs == old(jobs)[job.id := job.(status := Failed)]
                && !AllComputed(catalog, job.tenantId, old(Seen(events, billed, ScopeOf(job))))
      ensures faults >= old(faults)
    {
      hide Grouped, Postings, ListUsageEvents, ListBilledEntries, Mismatched, Computed, SumBy, EntryOfJob;
      processed, adjustments, ok, done := 0, 0, false, [];
      var matchingEvents := QueryUsageEvents(ScopeOf(job));
      if matchingEvents.Err? {
        FailReplayJob(job.id);
        return;
      }
      var matchingBilled := QueryBilledEntries(ScopeOf(job));
      if matchingBilled.Err? {
        FailReplayJob(job.id);
        return;
      }
      var applied;
      ghost var entries := billed;
      adjustments, applied, done := ApplyAdjustments(job, matchingEvents.value, matchingBilled.value, now);
      AdjustmentsAreOfJob(catalog, job, events, entries, now, done);
      if !applied {
        FailReplayJob(job.id);
        return;
      }
      processed := |matchingEvents.value|;
      ListedEvents(events, ScopeOf(job), OneEvent);
      CountListed(matchingEvents.value);
      ok := CompleteReplayJob(job.id, processed);
      if !ok {
        FailReplayJob(job.id);
      }
    }

    /** Groups usage and billed entries by customer and meter, then appends one corrective entry
        for every group whose total is wrong. It stops at the first group it cannot price or
        write; the groups come in no particular order. */
    method ApplyAdjustments(job: Job, usage: seq<UsageEvent>, entries: seq<BilledEntry>, now: Time)
      returns (adjustments: int, ok: bool, ghost done: seq<string>)
      modifies this`billed, this`faults
      ensures Adjusts(catalog, job.tenantId, Grouped(Postings(usage, entries)), done)
      ensures billed == old(billed) + Adjustments(catalog, job, Grouped(Postings(usage, entries)), now, done)
      ensures adjustments == |done|
      ensures ok ==> Completes(catalog, job.tenantId, Grouped(Postings(usage, entries)), done)
      ensures ok <==> faults == old(faults) && AllComputed(catalog, job.tenantId, Grouped(Postings(usage, entries)))
      ensures faults >= old(faults)
    {
      hide Grouped, Postings, Computed, Mismatched, Delta, Adjusts, Adjustments, Wrap64, Pricing.Amount;
      NothingAdjusted(catalog, job, Grouped(Postings(usage, entries)), now);
      var rows := AggregateRows(usage, entries);
      adjustments, done := 0, [];
      var todo := rows.Keys;
      while todo != {}
        invariant todo <= rows.Keys && faults == old(faults)
        invariant Adjusts(catalog, job.tenantId, rows, done)
        invariant forall k | k in done :: k !in todo
        invariant billed == old(billed) + Adjustments(catalog, job, rows, now, done)
        invariant adjustments == |done|
        invariant forall k | k in rows && k !in todo ::
                    && Computed(catalog, job.tenantId, rows[k]).Ok?
                    && (Mismatched(catalog, job.tenantId, rows[k]) ==> k in done)
      {
        var key :| key in todo;
        var agg := rows[key];
        PricedGroup(catalog, job.tenantId, agg);
        var rule := RuleFor(catalog, job.tenantId, agg.meterId);
        if rule.Err? {
          return adjustments, false, done;
        }
        var computed := Pricing.ComputeAmountCents(rule.value, agg.quantity);
        if computed.Err? {
          return adjustments, false, done;
        }
        var delta := Wrap64(computed.value - agg.billed);
        if delta != 0 {
          var entry := BilledEntry(job.tenantId, agg.customerId, agg.meterId, delta, ReplayAdjustment, job.id, now);
          var created := CreateBilledEntry(entry);
          if !created {
            return adjustments, false, done;
          }
          AdjustmentsStep(catalog, job, rows, now, done, key);
          done := done + [key];
          adjustments := adjustments + 1;
        }
        todo := todo - {key};
      }
      ok := true;
    }
  }

  lemma NothingAdjusted(catalog: Catalog, job: Job, rows: Rows, now: Time)
    ensures Adjusts(catalog, job.tenantId, rows, []) && Adjustments(catalog, job, rows, now, []) == []
  {
  }

  /** A group that can be priced is mismatched exactly when the difference is not zero. */
  lemma PricedGroup(catalog: Catalog, tenantId: string, agg: Aggregate)
    ensures Computed(catalog, tenantId, agg).Ok?
       <==> RuleFor(catalog, tenantId, agg.meterId).Ok?
            && Pricing.Amount(RuleFor(catalog, tenantId, agg.meterId).value, agg.quantity).Ok?
    ensures Computed(catalog, tenantId, agg).Ok? ==>
              && Computed(catalog, tenantId, agg) == Pricing.Amount(RuleFor(catalog, tenantId, agg.meterId).value, agg.quantity)
              && Delta(catalog, tenantId, agg) == Wrap64(Computed(catalog, tenantId, agg).value - agg.billed)
              && (Mismatched(catalog, tenantId, agg) <==> Delta(catalog, tenantId, agg) != 0)
  {
    hide Pricing.Amount;
  }

  lemma AdjustmentsStep(catalog: Catalog, job: Job, rows: Rows, now: Time, done: seq<string>, key: string)
    requires Adjusts(catalog, job.tenantId, rows, done) && key !in done
    requires key in rows && Mismatched(catalog, job.tenantId, rows[key])
    ensures Adjusts(catalog, job.tenantId, rows, done + [key])
    ensures Adjustments(catalog, job, rows, now, done + [key])
         == Adjustments(catalog, job, rows, now, done) + [Adjustment(catalog, job, rows[key], now)]
  {
  }

  /** The two aggregation loops. */
  method AggregateRows(usage: seq<UsageEvent>, entries: seq<BilledEntry>) returns (rows: Rows)
    ensures rows == Grouped(Postings(usage, entries))
  {
    hide Grouped, Postings, Wrap64;
    NoPostings();
    rows := map[];
    for i := 0 to |usage|
      invariant rows == Grouped(Postings(usage[..i], []))
    {
      var event := usage[i];
      var key := Key(event.customerId, event.meterId);
      var agg := if key in rows then rows[key] else Aggregate(event.customerId, event.meterId, 0, 0);
      PostEvent(usage, i);
      rows := rows[key := agg.(quantity := Wrap64(agg.quantity + event.quantity))];
    }
    assert usage[..|usage|] == usage;
    for i := 0 to |entries|
      invariant rows == Grouped(Postings(usage, entries[..i]))
    {
      var entry := entries[i];
      var key := Key(entry.customerId, entry.meterId);
      var agg := if key in rows then rows[key] else Aggregate(entry.customerId, entry.meterId, 0, 0);
      PostEntry(usage, entries, i);
      rows := rows[key := agg.(billed := Wrap64(agg.billed + entry.amountCents))];
    }
    assert entries[..|entries|] == entries;
  }
}
