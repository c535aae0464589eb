/**
  What each dunning operation leaves behind when no access to the store fails, field by field:
  in the run, the event log, the intents and the policies.
 */
module DunningEffects {
  import opened Common
  import opened Text
  import opened Dunning
  import opened DunningHistory
  import opened DunningLog
  import opened DunningBounds
  import opened DunningSchedules
  import opened DunningOutcomes

  lemma FinishedTables(db: Db, s: Step)
    requires Finished(PlanOf(db, s.op), s.stop)
    ensures var plan := PlanOf(db, s.op);
            && Next(db, s).runs == ApplyWrite(db, plan.write).runs
            && Next(db, s).events == db.events + (if plan.event.Some? then [plan.event.value] else [])
            && Next(db, s).policies == ApplyEffects(db, plan.before).policies
            && Next(db, s).intents == ApplyEffects(db, plan.before).intents
  {
    hide PlanOf;
    StepTables(db, s);
  }

  lemma NoEffects(db: Db)
    ensures ApplyEffects(db, []) == db
  {
  }

  // ---------------------------------------------------------------------------
  // Pausing and resolving
  // ---------------------------------------------------------------------------

  /** An unresolved, unpaused run is paused with nothing left to do; any other is left alone. */
  lemma PauseOutcome(db: Db, s: Step)
    requires s.op.Pause? && Finished(PlanOf(db, s.op), s.stop)
    ensures var id := s.op.id;
            if id < |db.runs| && db.runs[id].tenant == s.op.tenant && db.runs[id].resolvedAt == None
               && !db.runs[id].paused && db.runs[id].state != Paused
            then
              var run := db.runs[id];
              Next(db, s) == db.(
                runs := db.runs[id := run.(state := Paused, paused := true, nextActionAt := None, nextActionType := None,
                                           reason := PausedByOperator, updatedAt := s.op.now)],
                events := db.events + [Event(id, RunPaused, Paused, None, PausedByOperator, run.attemptCount, s.op.now)])
            else Next(db, s) == db
  {
    FinishedTables(db, s);
    NoEffects(db);
  }

  /** A run just as it is closed: no longer paused, with no next action. */
  function Closed(run: Run, resolution: Resolution, reason: Reason, now: Time): Run {
    run.(state := Resolved, resolvedAt := Some(now), resolution := Some(resolution), reason := reason,
         paused := false, nextActionAt := None, nextActionType := None, updatedAt := now)
  }

  /** An operator resolves every unresolved run. */
  lemma ResolveOutcome(db: Db, s: Step)
    requires s.op.Resolve? && Finished(PlanOf(db, s.op), s.stop)
    ensures var id := s.op.id;
            if id < |db.runs| && db.runs[id].tenant == s.op.tenant && db.runs[id].resolvedAt == None then
              var run := db.runs[id];
              Next(db, s) == db.(
                runs := db.runs[id := Closed(run, OperatorResolved, ResolvedByOperator, s.op.now)],
                events := db.events + [Event(id, RunResolved, Resolved, None, ResolvedByOperator, run.attemptCount, s.op.now)])
            else Next(db, s) == db
  {
    FinishedTables(db, s);
    NoEffects(db);
  }

  /** A payment resolves the invoice's unresolved run, whatever it was waiting for. */
  lemma ResolveByInvoiceOutcome(db: Db, s: Step, id: nat)
    requires Inv(db) && s.op.ResolveByInvoice? && Finished(PlanOf(db, s.op), s.stop)
    requires id < |db.runs| && db.runs[id].resolvedAt == None
    requires db.runs[id].tenant == s.op.tenant && db.runs[id].invoice == s.op.invoice
    ensures var run := db.runs[id];
            Next(db, s) == db.(
              runs := db.runs[id := Closed(run, PaymentSucceeded, Given(s.op.reason), s.op.now)],
              events := db.events + [Event(id, RunResolved, Resolved, None, Given(s.op.reason), run.attemptCount, s.op.now)])
    ensures !HasActive(Next(db, s).runs, s.op.tenant, s.op.invoice)
  {
    ActiveRunIs(db.runs, s.op.tenant, s.op.invoice, id);
    FinishedTables(db, s);
    NoEffects(db);
    NoOtherActive(db, Next(db, s).runs, s.op.tenant, s.op.invoice, id);
    HasActiveIff(Next(db, s).runs, s.op.tenant, s.op.invoice);
  }

  /** And does nothing when there is none. */
  lemma NothingToResolve(db: Db, s: Step)
    requires s.op.ResolveByInvoice? && !HasActive(db.runs, s.op.tenant, s.op.invoice)
    ensures Next(db, s) == db
  {
    HasActiveIff(db.runs, s.op.tenant, s.op.invoice);
    NoEffects(db);
    assert PlanOf(db, s.op) == NOTHING && EffectsDone(NOTHING, s.stop) == [];
  }

  /** Once the run of a paid invoice was resolved, no history retries its payment or reminds its
      customer, and its record stays as it is. */
  lemma PaidForGood(db: Db, s: Step, h: seq<Step>, id: nat)
    requires Inv(db) && s.op.ResolveByInvoice? && Finished(PlanOf(db, s.op), s.stop)
    requires id < |db.runs| && db.runs[id].resolvedAt == None
    requires db.runs[id].tenant == s.op.tenant && db.runs[id].invoice == s.op.invoice
    ensures forall e | e in Performed(Next(db, s), h) :: !Contacts(e, id)
    ensures id < |Exec(Next(db, s), h).runs|
    ensures Exec(Next(db, s), h).runs[id] == Closed(db.runs[id], PaymentSucceeded, Given(s.op.reason), s.op.now)
  {
    ResolveByInvoiceOutcome(db, s, id);
    StepKeepsInv(db, s);
    hide *;
    ClosedIsResolved(db.runs[id], PaymentSucceeded, Given(s.op.reason), s.op.now);
    ResolvedSilence(Next(db, s), h, id);
    ResolvedForever(Next(db, s), h, id);
  }

  lemma ClosedIsResolved(run: Run, resolution: Resolution, reason: Reason, now: Time)
    ensures Closed(run, resolution, reason, now).state == Resolved
  {
  }

  // ---------------------------------------------------------------------------
  // Resuming
  // ---------------------------------------------------------------------------

  /** A paused, unresolved run is resumed: unpaused and set waiting for what invoice and customer call
      for, or closed if the invoice is not to be chased any more, and that is logged. No other run is. */
  lemma ResumeEffect(db: Db, s: Step)
    requires PoliciesOk(db) && s.op.Resume? && Finished(PlanOf(db, s.op), s.stop)
    ensures var id, world := s.op.id, s.op.world;
            if id < |db.runs| && db.runs[id].tenant == s.op.tenant && db.runs[id].resolvedAt == None
               && (db.runs[id].paused || db.runs[id].state == Paused)
            then
              && |Next(db, s).runs| == |db.runs|
              && var before, after := db.runs[id], Next(db, s).runs[id];
                 if Collectible(world.view) then
                   && Follows(PolicyOf(db, s.op.tenant), world, after)
                   && Next(db, s).runs == db.runs[id := before.(
                        paused := false, state := after.state, reason := after.reason, nextActionAt := after.nextActionAt,
                        nextActionType := after.nextActionType, resolution := None, updatedAt := world.now)]
                   && Next(db, s).events == db.events
                        + [Event(id, RunResumed, after.state, after.nextActionType, after.reason, before.attemptCount, world.now)]
                 else
                   var reason := if PaidFor(world.view) then Paid else NotCollectible;
                   var resolution := if PaidFor(world.view) then PaymentSucceeded else InvoiceNotCollectible;
                   && Next(db, s).runs == db.runs[id := Closed(before, resolution, reason, world.now)]
                   && Next(db, s).events == db.events
                        + [Event(id, RunResolved, Resolved, None, reason, before.attemptCount, world.now)]
            else Next(db, s) == db
  {
    hide Collectible, PaidFor, Evaluate, PolicyOf, PolicyOk, PoliciesOk, Explains, PolicyEffects, Follows, FirstWait, Chargeable,
         Reprocessing, ApplyEffects, Next;
    var policy, world, id := PolicyOf(db, s.op.tenant), s.op.world, s.op.id;
    FinishedTables(db, s);
    assert PlanOf(db, s.op) == ResumePlan(db, s.op.tenant, id, world);
    hide PlanOf;
    if id < |db.runs| && db.runs[id].tenant == s.op.tenant && db.runs[id].resolvedAt == None
       && (db.runs[id].paused || db.runs[id].state == Paused)
    {
      PolicyInUseOk(db, s.op.tenant);
      EvaluationFollows(policy, world);
      if Collectible(world.view) {
        EvaluatedFollows(policy, world, EvaluatedRun(db.runs[id].(paused := false), Evaluate(policy, world).value, world.now));
      } else {
        IneligibleReason(policy, world);
      }
    } else {
      ResumeNothing(db, s);
    }
  }

  lemma ResumeNothing(db: Db, s: Step)
    requires s.op.Resume? && PlanOf(db, s.op) == NOTHING
    ensures Next(db, s) == db
  {
    NoEffects(db);
    hide PlanOf;
    assert EffectsDone(NOTHING, s.stop) == [];
  }

  // ---------------------------------------------------------------------------
  // Ensuring
  // ---------------------------------------------------------------------------

  /** Which invoices have an unresolved run after an Ensure under an enabled policy, by their status,
      the status of their payment and whether it is overdue. */
  lemma EnsureByStatus(db: Db, s: Step)
    requires Inv(db) && PoliciesOk(db) && s.op.Ensure? && Finished(PlanOf(db, s.op), s.stop)
    requires Trim(s.op.invoice) != "" && PolicyOf(db, s.op.tenant).enabled
    ensures var view, open := s.op.world.view, HasActive(Next(db, s).runs, s.op.tenant, s.op.invoice);
            var status, payment := Normal(view.invoiceStatus), Normal(view.paymentStatus);
            && (status == "finalized" && payment != "succeeded" && payment != "paid" && view.paymentOverdue == Some(true) ==> open)
            && (status == "finalized" && (payment == "failed" || payment == "pending") ==> open)
            && (payment != "failed" && payment != "pending" && view.paymentOverdue != Some(true) ==> !open)
            && (payment == "succeeded" || payment == "paid" ==> !open)
            && (status != "finalized" ==> !open)
  {
    EnsureOutcome(db, s);
    LiteralsDiffer();
    hide Next, PlanOf, Normal, Trim, HasActive, Inv, PoliciesOk, PolicyOf, Follows, PolicyOk;
  }

  lemma LiteralsDiffer()
    ensures "failed" !in {"succeeded", "paid"} && "pending" !in {"succeeded", "paid"}
  {
    assert "failed"[0] == 'f' && "pending"[1] == 'e' && "paid"[1] == 'a' && "succeeded"[0] == 's';
  }

  /** An Ensure of an invoice that is not to be chased closes its unresolved run, as paid exactly if
      it was paid, and logs that; the paused flag stays. */
  lemma EnsureCloses(db: Db, s: Step, id: nat)
    requires Inv(db) && PoliciesOk(db) && s.op.Ensure? && Finished(PlanOf(db, s.op), s.stop)
    requires Trim(s.op.invoice) != "" && PolicyOf(db, s.op.tenant).enabled && !Collectible(s.op.world.view)
    requires id < |db.runs| && db.runs[id].resolvedAt == None
    requires db.runs[id].tenant == s.op.tenant && db.runs[id].invoice == s.op.invoice
    ensures var run, now := db.runs[id], s.op.world.now;
            var reason := if PaidFor(s.op.world.view) then Paid else NotCollectible;
            var resolution := if PaidFor(s.op.world.view) then PaymentSucceeded else InvoiceNotCollectible;
            var kind := if PaidFor(s.op.world.view) && run.state == AwaitingRetryResult then RetrySucceeded else RunResolved;
            && Next(db, s).runs == db.runs[id := Closed(run, resolution, reason, now).(paused := run.paused)]
            && Next(db, s).events == db.events + [Event(id, kind, Resolved, None, reason, run.attemptCount, now)]
  {
    PolicyInUseOk(db, s.op.tenant);
    EvaluationFollows(PolicyOf(db, s.op.tenant), s.op.world);
    IneligibleReason(PolicyOf(db, s.op.tenant), s.op.world);
    ActiveRunIs(db.runs, s.op.tenant, s.op.invoice, id);
    FinishedTables(db, s);
    hide Next, Trim, Collectible, PaidFor, Evaluate, ActiveRun, PolicyOf, PolicyOk, PoliciesOk, Inv, Explains, PolicyEffects, ApplyEffects;
  }

  lemma IneligibleReason(policy: Policy, world: World)
    requires !Collectible(world.view) && Evaluate(policy, world).Ok? && Evaluate(policy, world).value.Ineligible?
    ensures Evaluate(policy, world).value
         == if PaidFor(world.view) then Ineligible(Paid, PaymentSucceeded) else Ineligible(NotCollectible, InvoiceNotCollectible)
  {
    hide Normal, ScheduleFromPolicy, Readiness;
  }

  /** An Ensure of an invoice that is to be chased and has no unresolved run starts one. */
  lemma EnsureStarts(db: Db, s: Step)
    requires Inv(db) && PoliciesOk(db) && s.op.Ensure? && Finished(PlanOf(db, s.op), s.stop)
    requires Trim(s.op.invoice) != "" && PolicyOf(db, s.op.tenant).enabled && Collectible(s.op.world.view)
    requires !HasActive(db.runs, s.op.tenant, s.op.invoice)
    ensures |Next(db, s).runs| == |db.runs| + 1 && db.runs <= Next(db, s).runs
    ensures var run, world := Next(db, s).runs[|db.runs|], s.op.world;
            && run.tenant == s.op.tenant && run.invoice == s.op.invoice && run.customer == world.view.customer
            && run.attemptCount == 0 && run.lastAttemptAt == None && run.createdAt == run.updatedAt == world.now
            && Follows(PolicyOf(db, s.op.tenant), world, run)
            && Next(db, s).events == db.events
                 + [Event(|db.runs|, DunningStarted, run.state, run.nextActionType, run.reason, 0, world.now)]
  {
    HasActiveIff(db.runs, s.op.tenant, s.op.invoice);
    PolicyInUseOk(db, s.op.tenant);
    EvaluationFollows(PolicyOf(db, s.op.tenant), s.op.world);
    EnsurePlanFollows(db, s.op.tenant, s.op.invoice, s.op.world);
    FinishedTables(db, s);
    hide Next, Trim, Collectible, PaidFor, Evaluate, ActiveRun, PolicyOf, PolicyOk, PoliciesOk, Inv, Explains, PolicyEffects,
         ApplyEffects, Follows, HasActive;
  }

  /** An Ensure of an invoice that is to be chased leaves its unresolved run alone if it is paused or
      waits for what it should already; otherwise it sets it waiting for that and logs why: a payment
      that failed, a payment method that came or is missing, or a retry that was scheduled. */
  lemma EnsureReevaluates(db: Db, s: Step, id: nat)
    requires Inv(db) && PoliciesOk(db) && s.op.Ensure? && Finished(PlanOf(db, s.op), s.stop)
    requires Trim(s.op.invoice) != "" && PolicyOf(db, s.op.tenant).enabled && Collectible(s.op.world.view)
    requires id < |db.runs| && db.runs[id].resolvedAt == None
    requires db.runs[id].tenant == s.op.tenant && db.runs[id].invoice == s.op.invoice
    ensures |Next(db, s).runs| == |db.runs|
    ensures var before, after, world := db.runs[id], Next(db, s).runs[id], s.op.world;
            if before.paused || Follows(PolicyOf(db, s.op.tenant), world, before) then
              Next(db, s).runs == db.runs && Next(db, s).events == db.events
            else
              && Follows(PolicyOf(db, s.op.tenant), world, after)
              && Next(db, s).runs == db.runs[id := before.(
                   state := after.state, reason := after.reason, nextActionAt := after.nextActionAt,
                   nextActionType := after.nextActionType, customer := world.view.customer, resolution := None,
                   updatedAt := world.now)]
              && Next(db, s).events == db.events
                   + [Event(id, ReevaluationEvent(before.state, world), after.state, after.nextActionType, after.reason,
                            before.attemptCount, world.now)]
  {
    var policy, world, run := PolicyOf(db, s.op.tenant), s.op.world, db.runs[id];
    ActiveRunIs(db.runs, s.op.tenant, s.op.invoice, id);
    PolicyInUseOk(db, s.op.tenant);
    EvaluationFollows(policy, world);
    assert RunOk(run);
    if !run.paused {
      MatchesIff(policy, world, run);
    }
    FinishedTables(db, s);
    assert PlanOf(db, s.op) == EnsurePlan(db, s.op.tenant, s.op.invoice, world);
    hide Next, PlanOf, Trim, Collectible, PaidFor, Evaluate, ActiveRun, PolicyOf, PolicyOk, PoliciesOk, Inv, Explains;
    hide PolicyEffects, ApplyEffects, Follows, FirstWait, RunMatches, RunOk, TransitionEventType, Chargeable, Reprocessing;
    if !run.paused && !Follows(policy, world, run) {
      var updated := EvaluatedRun(run, Evaluate(policy, world).value, world.now).(customer := world.view.customer);
      EvaluatedFollows(policy, world, updated);
      TransitionIs(policy, world, run.state, updated.state);
    }
  }

  /** A waiting run matches an evaluation exactly when it waits for what the world calls for. */
  lemma MatchesIff(policy: Policy, world: World, run: Run)
    requires PolicyOk(policy) && RunOk(run) && !run.paused && run.resolvedAt == None
    requires Evaluate(policy, world).Ok? && Evaluate(policy, world).value.Eligible?
    ensures RunMatches(run, Evaluate(policy, world).value) <==> Follows(policy, world, run)
  {
    hide Evaluate, PolicyOk, FirstWait, Chargeable, Collectible, PaidFor, Normal, Trim, Explains, RunOk;
    EvaluationFollows(policy, world);
    EvaluationOk(policy, world);
    if RunMatches(run, Evaluate(policy, world).value) {
      EvaluatedFollows(policy, world, run);
    }
    if Follows(policy, world, run) {
      SameReason(world, run.reason, Evaluate(policy, world).value.reason);
      ActionOf(run);
      match Evaluate(policy, world).value.action
      case None =>
      case Some(RetryPayment) =>
      case Some(CollectPaymentReminder) =>
    }
  }

  lemma ActionOf(run: Run)
    requires RunOk(run)
    ensures run.state == RetryDue ==> run.nextActionType == Some(RetryPayment)
    ensures run.state == AwaitingPaymentSetup ==> run.nextActionType == Some(CollectPaymentReminder)
    ensures run.state == AwaitingRetryResult ==> run.nextActionType == None && run.nextActionAt == None
  {
    match run.nextActionType
    case None =>
    case Some(RetryPayment) =>
    case Some(CollectPaymentReminder) =>
  }

  lemma SameReason(world: World, a: Reason, b: Reason)
    requires Explains(world, a) && Explains(world, b)
    ensures a == b
  {
    hide Normal, Trim;
  }

  lemma TransitionIs(policy: Policy, world: World, before: RunState, after: RunState)
    requires after == if Reprocessing(world) then AwaitingRetryResult else if Chargeable(world) then RetryDue else AwaitingPaymentSetup
    ensures TransitionEventType(before, after) == ReevaluationEvent(before, world)
  {
    hide Normal, Trim;
  }

  /** What a re-evaluation of a run in some state reports. */
  function ReevaluationEvent(before: RunState, world: World): EventType {
    if before == AwaitingRetryResult && Chargeable(world) && !Reprocessing(world) then RetryFailed
    else if !Chargeable(world) then PaymentSetupPending
    else if before == AwaitingPaymentSetup then PaymentSetupReady
    else if Reprocessing(world) then DunningStarted
    else RetryScheduled
  }
}
