/**
  What a re-evaluation amounts to for the invoice: which runs there are afterwards, and what
  they wait for.
 */
module DunningOutcomes {
  import opened Common
  import opened Text
  import opened Dunning
  import opened DunningHistory
  import opened DunningBounds
  import opened DunningSchedules

  /** The customer's default payment method can be charged. */
  predicate Chargeable(world: World) {
    && Trim(world.view.customer) != ""
    && world.customer == FoundCustomer(true)
    && world.setup == FoundSetup(true, true)
  }

  predicate Reprocessing(world: World) {
    Chargeable(world) && Normal(world.view.paymentStatus) == "pending"
  }

  /** How long after a re-evaluation the first action is due: the grace period and the first delay. */
  function FirstWait(policy: Policy, world: World): int {
    var schedule := if Chargeable(world) then policy.retrySchedule else policy.reminderSchedule;
    var first := if schedule == [] then Ok(0) else ParseDelay(schedule[0]);
    (if policy.gracePeriodDays > 0 then Wrap64(policy.gracePeriodDays * DAY) else 0) + (if first.Ok? then first.value else 0)
  }

  /** Whether an invoice is to be chased: it is finalized and unpaid, and it is overdue or its payment
      failed or is pending. */
  predicate Collectible(view: InvoiceView) {
    && Normal(view.invoiceStatus) == "finalized"
    && Normal(view.paymentStatus) !in {"succeeded", "paid"}
    && (view.paymentOverdue == Some(true) || Normal(view.paymentStatus) in {"failed", "pending"})
  }

  predicate PaidFor(view: InvoiceView) {
    Normal(view.paymentStatus) in {"succeeded", "paid"}
  }

  /** Why a run waits: its payment is being processed, it can be charged, or the first thing in the
      way of charging it. */
  predicate Explains(world: World, reason: Reason) {
    && (reason == PaymentReprocessing <==> Reprocessing(world))
    && (reason == SetupReady <==> Chargeable(world) && !Reprocessing(world))
    && (reason == CustomerIdMissing <==> Trim(world.view.customer) == "")
    && (reason == CustomerNotFound <==> Trim(world.view.customer) != "" && world.customer == NoCustomer)
    && (reason == CustomerInactive <==> Trim(world.view.customer) != "" && world.customer == FoundCustomer(false))
    && (reason == SetupMissing <==> Trim(world.view.customer) != "" && world.customer == FoundCustomer(true) && world.setup == NoSetup)
    && (reason == SetupPending
        <==> Trim(world.view.customer) != "" && world.customer == FoundCustomer(true)
             && world.setup != NoSetup && world.setup != FoundSetup(true, true))
  }

  /** A run waits for what the invoice and the customer call for: the result of a payment under way,
      a retry, or a reminder, due after the first wait. */
  ghost predicate Follows(policy: Policy, world: World, run: Run) {
    && !run.paused && run.resolvedAt == None
    && (run.state == AwaitingRetryResult <==> Reprocessing(world))
    && (run.state == RetryDue <==> Chargeable(world) && !Reprocessing(world))
    && (run.state == AwaitingPaymentSetup <==> !Chargeable(world))
    && (!Reprocessing(world) ==> run.nextActionAt == Some(world.now + FirstWait(policy, world)))
    && Explains(world, run.reason)
  }

  lemma EvaluationFollows(policy: Policy, world: World)
    requires PolicyOk(policy)
    ensures Evaluate(policy, world).Ok?
    ensures Evaluate(policy, world).value.Eligible? <==> Collectible(world.view)
    ensures Evaluate(policy, world).value.Eligible? ==>
              var eval := Evaluate(policy, world).value;
              && eval.state == (if Reprocessing(world) then AwaitingRetryResult
                                else if Chargeable(world) then RetryDue else AwaitingPaymentSetup)
              && (!Reprocessing(world) ==> eval.at == Some(world.now + FirstWait(policy, world)))
              && Explains(world, eval.reason)
    ensures Evaluate(policy, world).value.Ineligible? ==>
              (Evaluate(policy, world).value.resolution == PaymentSucceeded <==> PaidFor(world.view))
  {
    hide Trim, Normal, ParseDelay, Wrap64;
    assert policy.retrySchedule != [] ==> ParseDelay(policy.retrySchedule[0]).Ok?;
    assert policy.reminderSchedule != [] ==> ParseDelay(policy.reminderSchedule[0]).Ok?;
  }

  ghost predicate HasActive(runs: seq<Run>, tenant: string, invoice: string) {
    exists i :: 0 <= i < |runs| && Active(runs[i], tenant, invoice)
  }

  lemma HasActiveIff(runs: seq<Run>, tenant: string, invoice: string)
    ensures HasActive(runs, tenant, invoice) <==> ActiveRun(runs, tenant, invoice).Some?
  {
    hide Active;
  }

  lemma PolicyInUseOk(db: Db, tenant: string)
    requires PoliciesOk(db)
    ensures PolicyOk(PolicyOf(db, tenant))
  {
    DefaultPolicyOk();
    hide PolicyOk;
  }

  /** A run with the state and the time an evaluation gives follows the world. */
  lemma EvaluatedFollows(policy: Policy, world: World, run: Run)
    requires PolicyOk(policy) && Evaluate(policy, world).Ok? && Evaluate(policy, world).value.Eligible?
    requires !run.paused && run.resolvedAt == None
    requires var eval := Evaluate(policy, world).value;
             run.state == eval.state && run.nextActionAt == eval.at && run.reason == eval.reason
    ensures Follows(policy, world, run)
  {
    hide Evaluate, PolicyOk, FirstWait, Chargeable, Explains, Collectible, PaidFor, Normal;
    EvaluationFollows(policy, world);
  }

  /** What an Ensure plans for the invoice's unresolved run. */
  lemma EnsurePlanFollows(db: Db, tenant: string, invoice: string, world: World)
    requires PoliciesOk(db) && Trim(invoice) != "" && PolicyOf(db, tenant).enabled
    ensures PolicyOk(PolicyOf(db, tenant))
    ensures var policy, active, needed := PolicyOf(db, tenant), ActiveRun(db.runs, tenant, invoice), Collectible(world.view);
            var write := EnsurePlan(db, tenant, invoice, world).write;
            && (write.NoWrite? ==>
                  && (active.Some? <==> needed)
                  && (active.Some? ==> db.runs[active.value].paused || Follows(policy, world, db.runs[active.value])))
            && (write.Create? ==>
                  needed && active == None && Follows(policy, world, write.run) && Active(write.run, tenant, invoice))
            && (write.Update? ==>
                  && active == Some(write.id)
                  && write.run.tenant == db.runs[write.id].tenant && write.run.invoice == db.runs[write.id].invoice
                  && (if needed then Follows(policy, world, write.run) else write.run.resolvedAt.Some?))
  {
    var policy, active := PolicyOf(db, tenant), ActiveRun(db.runs, tenant, invoice);
    PolicyInUseOk(db, tenant);
    EvaluationFollows(policy, world);
    hide Trim, Collectible, PolicyOk, PoliciesOk, ActiveRun, PolicyOf, Evaluate, Follows, PolicyEffects, EventOf, TransitionEventType;
    hide Chargeable, Reprocessing, Explains, FirstWait;
    if Collectible(world.view) {
      match EnsurePlan(db, tenant, invoice, world).write
      case NoWrite => if !db.runs[active.value].paused { EvaluatedFollows(policy, world, db.runs[active.value]); }
      case Create(run) => EvaluatedFollows(policy, world, run);
      case Update(id, run) => EvaluatedFollows(policy, world, run);
    }
  }

  /** After an Ensure under an enabled policy the invoice has an unresolved run if and only if it
      needs dunning, and that run waits for what the world calls for, unless an operator paused it. */
  lemma EnsureOutcome(db: Db, s: Step)
    requires Inv(db) && PoliciesOk(db) && s.op.Ensure? && Finished(PlanOf(db, s.op), s.stop)
    requires Trim(s.op.invoice) != "" && PolicyOf(db, s.op.tenant).enabled
    ensures PolicyOk(PolicyOf(db, s.op.tenant))
    ensures HasActive(Next(db, s).runs, s.op.tenant, s.op.invoice) <==> Collectible(s.op.world.view)
    ensures forall i | 0 <= i < |Next(db, s).runs| && Active(Next(db, s).runs[i], s.op.tenant, s.op.invoice) ::
              Next(db, s).runs[i].paused || Follows(PolicyOf(db, s.op.tenant), s.op.world, Next(db, s).runs[i])
  {
    var tenant, invoice := s.op.tenant, s.op.invoice;
    EnsurePlanFollows(db, tenant, invoice, s.op.world);
    assert PlanOf(db, s.op) == EnsurePlan(db, tenant, invoice, s.op.world);
    StepTables(db, s);
    StepKeepsInv(db, s);
    var write, runs := PlanOf(db, s.op).write, Next(db, s).runs;
    assert UniqueActive(db.runs) && UniqueActive(runs);
    assert runs == ApplyWrite(db, write).runs;
    hide Next, Trim, Collectible, PolicyOk, PoliciesOk, ActiveRun, PolicyOf, PlanOf, EnsurePlan, Inv, UniqueActive, Follows;
    HasActiveIff(runs, tenant, invoice);
    hide HasActive;
    ActiveAfter(db, write, tenant, invoice);
    hide Active;
  }

  /** Which run of an invoice is unresolved after a write to it. */
  lemma ActiveAfter(db: Db, write: RunWrite, tenant: string, invoice: string)
    requires UniqueActive(db.runs) && UniqueActive(ApplyWrite(db, write).runs)
    requires write.Create? ==> Active(write.run, tenant, invoice)
    requires write.Update? ==>
               && write.id < |db.runs| && Active(db.runs[write.id], tenant, invoice)
               && write.run.tenant == db.runs[write.id].tenant && write.run.invoice == db.runs[write.id].invoice
    ensures var runs := ApplyWrite(db, write).runs;
            && ActiveRun(runs, tenant, invoice) == (
                 if write.NoWrite? then ActiveRun(db.runs, tenant, invoice)
                 else if write.Create? then Some(|db.runs|)
                 else if write.run.resolvedAt == None then Some(write.id)
                 else None)
            && forall i | 0 <= i < |runs| && Active(runs[i], tenant, invoice) :: ActiveRun(runs, tenant, invoice) == Some(i)
  {
    var runs := ApplyWrite(db, write).runs;
    hide ActiveRun;
    if write.Create? {
      ActiveRunIs(runs, tenant, invoice, |db.runs|);
    } else if write.Update? {
      if write.run.resolvedAt == None {
        ActiveRunIs(runs, tenant, invoice, write.id);
      } else {
        NoOtherActive(db, runs, tenant, invoice, write.id);
      }
    }
    forall i | 0 <= i < |runs| && Active(runs[i], tenant, invoice) ensures ActiveRun(runs, tenant, invoice) == Some(i) {
      ActiveRunIs(runs, tenant, invoice, i);
    }
  }

  /** Under a disabled policy an Ensure leaves every run and the log alone, even of a paid invoice. */
  lemma DisabledEnsure(db: Db, s: Step)
    requires s.op.Ensure? && !PolicyOf(db, s.op.tenant).enabled
    ensures Next(db, s).runs == db.runs && Next(db, s).events == db.events
  {
    StepTables(db, s);
    hide Next, PolicyOf, Trim;
  }

  /** A resumed run is resolved if the invoice no longer needs dunning, and otherwise waits for what
      the world calls for; an enabled policy is not asked for. */
  lemma ResumeOutcome(db: Db, s: Step)
    requires PoliciesOk(db) && s.op.Resume? && Finished(PlanOf(db, s.op), s.stop)
    requires Known(db, s.op.tenant, s.op.id) && db.runs[s.op.id].resolvedAt == None && db.runs[s.op.id].paused
    ensures PolicyOk(PolicyOf(db, s.op.tenant)) && |Next(db, s).runs| == |db.runs|
    ensures var run := Next(db, s).runs[s.op.id];
            if Collectible(s.op.world.view) then Follows(PolicyOf(db, s.op.tenant), s.op.world, run)
            else run.state == Resolved && run.resolvedAt.Some? && !run.paused
                 && (run.resolution == Some(PaymentSucceeded) <==> PaidFor(s.op.world.view))
  {
    StepTables(db, s);
    ResumePlanFollows(db, s.op.tenant, s.op.id, s.op.world);
    assert PlanOf(db, s.op) == ResumePlan(db, s.op.tenant, s.op.id, s.op.world);
    hide Next, ResumePlan, PlanOf, EffectsDone, Collectible, PolicyOk, Follows, PoliciesOk, PolicyOf, PaidFor;
  }

  lemma ResumePlanFollows(db: Db, tenant: string, id: nat, world: World)
    requires PoliciesOk(db) && Known(db, tenant, id) && db.runs[id].resolvedAt == None && db.runs[id].paused
    ensures PolicyOk(PolicyOf(db, tenant))
    ensures var write := ResumePlan(db, tenant, id, world).write;
            && write.Update? && write.id == id
            && if Collectible(world.view) then Follows(PolicyOf(db, tenant), world, write.run)
               else write.run.state == Resolved && write.run.resolvedAt.Some? && !write.run.paused
                    && (write.run.resolution == Some(PaymentSucceeded) <==> PaidFor(world.view))
  {
    var policy := PolicyOf(db, tenant);
    PolicyInUseOk(db, tenant);
    EvaluationFollows(policy, world);
    hide Collectible, PaidFor, PolicyOk, PoliciesOk, PolicyOf, Evaluate, Follows, PolicyEffects, EventOf;
    hide Chargeable, Reprocessing, Explains, FirstWait;
    if Collectible(world.view) {
      EvaluatedFollows(policy, world, ResumePlan(db, tenant, id, world).write.run);
    }
  }

  /** The action that invoice and customer call for. */
  function CalledFor(world: World): Option<ActionType> {
    if Reprocessing(world) then None else if Chargeable(world) then Some(RetryPayment) else Some(CollectPaymentReminder)
  }

  /** A re-evaluation starts the wait afresh: after an Ensure a batch may act on the invoice's run at
      a time if and only if the run is not paused, the action is the one called for, and the first
      wait, counted from the Ensure, is over by then, whatever was due before. */
  lemma DueAfterEnsure(db: Db, s: Step, id: nat, action: ActionType, t: Time)
    requires Inv(db) && PoliciesOk(db) && s.op.Ensure? && Finished(PlanOf(db, s.op), s.stop)
    requires Trim(s.op.invoice) != "" && PolicyOf(db, s.op.tenant).enabled
    requires id < |Next(db, s).runs| && Active(Next(db, s).runs[id], s.op.tenant, s.op.invoice)
    ensures MayAct(Next(db, s), s.op.tenant, id, action, true, t)
       <==> && !Next(db, s).runs[id].paused
            && CalledFor(s.op.world) == Some(action)
            && s.op.world.now + FirstWait(PolicyOf(db, s.op.tenant), s.op.world) <= t
  {
    EnsureOutcome(db, s);
    StepKeepsInv(db, s);
    hide Next, Evaluate, Collectible, PolicyOk, FirstWait, Chargeable, Reprocessing, Explains, PoliciesOk, PolicyOf, Trim, PlanOf;
    assert RunOk(Next(db, s).runs[id]);
  }

  /** So an action that was due when the Ensure came is put off if and only if the first wait is
      positive: under the default policy a retry is, a reminder is not. */
  lemma EnsurePostponesIff(db: Db, s: Step, id: nat, action: ActionType)
    requires Inv(db) && PoliciesOk(db) && s.op.Ensure? && Finished(PlanOf(db, s.op), s.stop)
    requires Trim(s.op.invoice) != "" && PolicyOf(db, s.op.tenant).enabled
    requires MayAct(db, s.op.tenant, id, action, true, s.op.world.now) && db.runs[id].invoice == s.op.invoice
    requires Collectible(s.op.world.view) && CalledFor(s.op.world) == Some(action)
    ensures id < |Next(db, s).runs|
    ensures !MayAct(Next(db, s), s.op.tenant, id, action, true, s.op.world.now)
       <==> FirstWait(PolicyOf(db, s.op.tenant), s.op.world) > 0
  {
    StaysActive(db, s, id);
    DueAfterEnsure(db, s, id, action, s.op.world.now);
    hide Next, Collectible, PolicyOk, FirstWait, CalledFor, PoliciesOk, PolicyOf, Trim, PlanOf, Inv;
  }

  /** An Ensure that finds dunning needed keeps the unresolved run, unpaused if it was. */
  lemma StaysActive(db: Db, s: Step, id: nat)
    requires Inv(db) && PoliciesOk(db) && s.op.Ensure? && Finished(PlanOf(db, s.op), s.stop)
    requires Trim(s.op.invoice) != "" && PolicyOf(db, s.op.tenant).enabled && Collectible(s.op.world.view)
    requires id < |db.runs| && Active(db.runs[id], s.op.tenant, s.op.invoice) && !db.runs[id].paused
    ensures id < |Next(db, s).runs| && Active(Next(db, s).runs[id], s.op.tenant, s.op.invoice) && !Next(db, s).runs[id].paused
  {
    var tenant, invoice := s.op.tenant, s.op.invoice;
    EnsurePlanFollows(db, tenant, invoice, s.op.world);
    assert PlanOf(db, s.op) == EnsurePlan(db, tenant, invoice, s.op.world);
    ActiveRunIs(db.runs, tenant, invoice, id);
    StepTables(db, s);
    hide Next, Trim, Collectible, PolicyOk, PoliciesOk, ActiveRun, PolicyOf, PlanOf, EnsurePlan, Inv;
  }

  lemma DefaultWaits(world: World)
    ensures FirstWait(DEFAULT_POLICY, world) == if Chargeable(world) then DAY else 0
  {
    DayDelay('0');
    DayDelay('1');
    hide ParseDelay, Chargeable;
    assert DEFAULT_POLICY.retrySchedule[0] == "1d" == ['1', 'd'] && DEFAULT_POLICY.reminderSchedule[0] == "0d" == ['0', 'd'];
  }

  // ---------------------------------------------------------------------------
  // Ensuring again and again
  // ---------------------------------------------------------------------------

  /** Until when the last Ensure of an invoice in a history, or before it, puts off its run. */
  function PutOffUntil(db: Db, h: seq<Step>, tenant: string, invoice: string, start: Time): Time {
    if h == [] then start
    else
      var before, op := h[..|h| - 1], h[|h| - 1].op;
      if op.Ensure? && op.tenant == tenant && op.invoice == invoice
      then op.world.now + FirstWait(PolicyOf(Exec(db, before), tenant), op.world)
      else PutOffUntil(db, before, tenant, invoice, start)
  }

  /** The operator lets the run be, its Ensures all go through under an enabled policy, and every
      batch that comes to it comes before the time the last Ensure has put it off to. */
  ghost predicate AlwaysEarly(db: Db, h: seq<Step>, tenant: string, invoice: string, id: nat, start: Time) {
    h == [] || (
      var rest, s := h[..|h| - 1], h[|h| - 1];
      && AlwaysEarly(db, rest, tenant, invoice, id, start)
      && !(s.op.Resume? && s.op.id == id)
      && (s.op.Ensure? && s.op.tenant == tenant && s.op.invoice == invoice ==>
            Finished(PlanOf(Exec(db, rest), s.op), s.stop) && PolicyOf(Exec(db, rest), tenant).enabled)
      && ((s.op.Retry? || s.op.Remind?) && s.op.id == id ==>
            s.op.requireDue && s.op.now < PutOffUntil(db, rest, tenant, invoice, start)))
  }

  /** No batch may act on the run before a time. */
  ghost predicate HeldUntil(run: Run, t: Time) {
    run.resolvedAt.Some? || run.paused || run.nextActionAt == None || run.nextActionAt.value >= t
  }

  /** If each Ensure comes before the wait started by the one before is over, so that every batch
      comes early, no batch ever retries the payment of the run or reminds its customer. */
  lemma {:induction false} EnsuresCanStarve(db: Db, h: seq<Step>, tenant: string, invoice: string, id: nat, start: Time)
    requires Inv(db) && PoliciesOk(db) && Trim(invoice) != ""
    requires id < |db.runs| && db.runs[id].tenant == tenant && db.runs[id].invoice == invoice && HeldUntil(db.runs[id], start)
    requires AlwaysEarly(db, h, tenant, invoice, id, start)
    ensures id < |Exec(db, h).runs| && HeldUntil(Exec(db, h).runs[id], PutOffUntil(db, h, tenant, invoice, start))
    ensures forall e | e in Performed(db, h) :: !Contacts(e, id)
  {
    hide Inv, Next, PlanOf, Contacts, PoliciesOk, PolicyOf, FirstWait, HeldUntil, Trim, EffectsDone;
    if h != [] {
      var rest, s := h[..|h| - 1], h[|h| - 1];
      assert h == rest + [s];
      EnsuresCanStarve(db, rest, tenant, invoice, id, start);
      EveryHistoryKeepsInv(db, rest);
      PoliciesStayOk(db, rest);
      RunsPersist(db, rest, id);
      var before, until := Exec(db, rest), PutOffUntil(db, rest, tenant, invoice, start);
      HeldNotContacted(before, s, id, until);
      if s.op.Ensure? && s.op.tenant == tenant && s.op.invoice == invoice {
        EnsureHolds(before, s, id);
      } else {
        OthersKeepHeld(before, s, id, until);
      }
    }
  }

  lemma HeldNotContacted(db: Db, s: Step, id: nat, until: Time)
    requires Inv(db) && id < |db.runs| && HeldUntil(db.runs[id], until)
    requires (s.op.Retry? || s.op.Remind?) && s.op.id == id ==> s.op.requireDue && s.op.now < until
    ensures forall e | e in EffectsDone(PlanOf(db, s.op), s.stop) :: !Contacts(e, id)
  {
    assert RunOk(db.runs[id]);
    hide RunOk, PlanOf, Inv;
    forall e | e in EffectsDone(PlanOf(db, s.op), s.stop) ensures !Contacts(e, id) {
      assert e in PlanOf(db, s.op).before;
      ContactsGuarded(db, s.op, e, id);
      NextActionTimed(db.runs[id]);
    }
  }

  lemma NextActionTimed(run: Run)
    requires RunOk(run)
    ensures run.nextActionAt.Some? <==> run.nextActionType.Some?
  {
  }

  lemma EnsureHolds(db: Db, s: Step, id: nat)
    requires Inv(db) && PoliciesOk(db) && s.op.Ensure? && Finished(PlanOf(db, s.op), s.stop)
    requires Trim(s.op.invoice) != "" && PolicyOf(db, s.op.tenant).enabled
    requires id < |db.runs| && db.runs[id].tenant == s.op.tenant && db.runs[id].invoice == s.op.invoice
    ensures id < |Next(db, s).runs|
    ensures HeldUntil(Next(db, s).runs[id], s.op.world.now + FirstWait(PolicyOf(db, s.op.tenant), s.op.world))
  {
    EnsureOutcome(db, s);
    StepKeepsInv(db, s);
    RunPersists(db, s, id);
    InvRuns(Next(db, s));
    hide *;
    ActiveOrResolvedHeld(Next(db, s).runs[id], s.op.tenant, s.op.invoice, PolicyOf(db, s.op.tenant), s.op.world);
  }

  lemma ActiveOrResolvedHeld(run: Run, tenant: string, invoice: string, policy: Policy, world: World)
    requires RunOk(run) && run.tenant == tenant && run.invoice == invoice
    requires Active(run, tenant, invoice) ==> run.paused || Follows(policy, world, run)
    ensures HeldUntil(run, world.now + FirstWait(policy, world))
  {
    hide FirstWait, Chargeable, Reprocessing, Explains;
    match run.nextActionType
    case None =>
    case Some(RetryPayment) =>
    case Some(CollectPaymentReminder) =>
  }

  lemma RunPersists(db: Db, s: Step, id: nat)
    requires Inv(db) && id < |db.runs|
    ensures id < |Next(db, s).runs|
    ensures Next(db, s).runs[id].tenant == db.runs[id].tenant && Next(db, s).runs[id].invoice == db.runs[id].invoice
  {
    StepRuns(db, s);
    hide Next, PlanOf, RunOk;
  }

  lemma OthersKeepHeld(db: Db, s: Step, id: nat, until: Time)
    requires Inv(db) && id < |db.runs| && HeldUntil(db.runs[id], until)
    requires !(s.op.Resume? && s.op.id == id)
    requires !(s.op.Ensure? && s.op.tenant == db.runs[id].tenant && s.op.invoice == db.runs[id].invoice)
    requires (s.op.Retry? || s.op.Remind?) && s.op.id == id ==> s.op.requireDue && s.op.now < until
    ensures id < |Next(db, s).runs| && HeldUntil(Next(db, s).runs[id], until)
  {
    InvRuns(db);
    StepTables(db, s);
    hide Next, Inv, RunOk;
    if PlanOf(db, s.op).write.Update? && PlanOf(db, s.op).write.id == id {
      UpdateIsTransition(db, s.op);
      if s.op.Retry? || s.op.Remind? {
        EarlyActsNot(db, s.op, id, until);
      } else {
        assert !s.op.Ensure? && !s.op.Resume?;
        SilencingWrites(db, s.op);
      }
      hide PlanOf;
    } else {
      hide PlanOf;
    }
  }

  lemma SilencingWrites(db: Db, op: Op)
    requires PlanOf(db, op).write.Update? && !op.Ensure? && !op.Resume? && !op.Retry? && !op.Remind?
    ensures PlanOf(db, op).write.run.paused || PlanOf(db, op).write.run.resolvedAt.Some?
  {
  }

  lemma EarlyActsNot(db: Db, op: Op, id: nat, until: Time)
    requires AllRunsOk(db.runs) && id < |db.runs| && HeldUntil(db.runs[id], until)
    requires (op.Retry? || op.Remind?) && op.requireDue && op.now < until && op.id == id
    ensures !PlanOf(db, op).write.Update?
  {
  }
}
