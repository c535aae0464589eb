/**
  The dunning service over its store. Each operation reads what it needs, decides, and
  writes step by step; every access to the store may fail, and then the operation stops
  with what it has done so far. Each one is proved to carry out a prefix of its `Plan`, and
  the whole of it unless an access failed, so everything proved about histories holds of
  the service.
 */
module DunningService {
  import opened Common
  import opened Dunning
  import opened DunningHistory

  lemma EffectsStep(db: Db, es: seq<Effect>, e: Effect)
    ensures ApplyEffects(db, es + [e]) == ApplyEffect(ApplyEffects(db, es), e)
  {
    assert (es + [e])[..|es|] == es;
  }

  /** Each step is a retry of a run that is due for one at that point. */
  ghost predicate DueRetries(db: Db, h: seq<Step>, tenant: string, now: Time) {
    h == [] || (
      var before, op := h[..|h| - 1], h[|h| - 1].op;
      && DueRetries(db, before, tenant, now)
      && op.Retry? && op.tenant == tenant && op.requireDue && op.now == now
      && MayAct(Exec(db, before), tenant, op.id, RetryPayment, true, now))
  }

  lemma NoRetries(db: Db, tenant: string, now: Time)
    ensures Exec(db, []) == db && DueRetries(db, [], tenant, now)
  {
  }

  lemma OneMoreRetry(db: Db, h: seq<Step>, s: Step, tenant: string, now: Time)
    requires DueRetries(db, h, tenant, now)
    requires s.op.Retry? && s.op.tenant == tenant && s.op.requireDue && s.op.now == now
    requires MayAct(Exec(db, h), tenant, s.op.id, RetryPayment, true, now)
    ensures DueRetries(db, h + [s], tenant, now)
  {
    hide Exec, MayAct;
    assert (h + [s])[..|h|] == h;
  }

  /** Each step is a reminder of a run that is due for one at that point, or a delivery. */
  ghost predicate DueReminders(db: Db, h: seq<Step>, tenant: string, now: Time) {
    h == [] || (
      var before, op := h[..|h| - 1], h[|h| - 1].op;
      && DueReminders(db, before, tenant, now)
      && ((op.Remind? && op.tenant == tenant && op.requireDue && op.now == now
           && MayAct(Exec(db, before), tenant, op.id, CollectPaymentReminder, true, now))
          || (op.Dispatch? && op.tenant == tenant && op.now == now)))
  }

  function CountReminders(h: seq<Step>): nat {
    if h == [] then 0 else CountReminders(h[..|h| - 1]) + if h[|h| - 1].op.Remind? then 1 else 0
  }

  lemma NoReminders(db: Db, tenant: string, now: Time)
    ensures Exec(db, []) == db && DueReminders(db, [], tenant, now) && CountReminders([]) == 0
  {
  }

  lemma OneMoreReminder(db: Db, h: seq<Step>, s: Step, tenant: string, now: Time)
    requires DueReminders(db, h, tenant, now)
    requires s.op.Remind? || s.op.Dispatch?
    requires s.op.tenant == tenant && s.op.now == now
    requires s.op.Remind? ==> s.op.requireDue && MayAct(Exec(db, h), tenant, s.op.id, CollectPaymentReminder, true, now)
    ensures DueReminders(db, h + [s], tenant, now) && CountReminders(h + [s]) == CountReminders(h) + if s.op.Remind? then 1 else 0
    ensures Exec(db, h + [s]) == Next(Exec(db, h), s)
  {
    hide MayAct, Next;
    assert (h + [s])[..|h|] == h;
  }

  class Service {
    var policies: map<string, Policy>
    var runs: seq<Run>
    var events: seq<Event>
    var intents: seq<Intent>
    /** How many accesses to the store have failed. */
    ghost var faults: nat

    constructor ()
      ensures State() == EMPTY
    {
      policies, runs, events, intents := map[], [], [], [];
      faults := 0;
    }

    ghost function State(): Db
      reads this
    {
      Db(policies, runs, events, intents)
    }

    // --- the store -----------------------------------------------------------

    method Available() returns (ok: bool)
      modifies this`faults
      ensures faults == old(faults) + if ok then 0 else 1
    {
      ok := *;
      faults := faults + if ok then 0 else 1;
    }

    method UpsertPolicyRow(tenant: string, policy: Policy) returns (ok: bool)
      modifies this
      ensures State() == if ok then ApplyEffect(old(State()), UpsertPolicy(tenant, policy)) else old(State())
      ensures faults == old(faults) + if ok then 0 else 1
    {
      ok := Available();
      if ok {
        policies := policies[tenant := policy];
      }
    }

    method CreateRunRow(run: Run) returns (ok: bool)
      modifies this
      ensures State() == if ok then ApplyWrite(old(State()), Create(run)) else old(State())
      ensures faults == old(faults) + if ok then 0 else 1
    {
      ok := Available();
      if ok {
        runs := runs + [run];
      }
    }

    method UpdateRunRow(id: nat, run: Run) returns (ok: bool)
      requires id < |runs|
      modifies this
      ensures State() == if ok then ApplyWrite(old(State()), Update(id, run)) else old(State())
      ensures faults == old(faults) + if ok then 0 else 1
    {
      ok := Available();
      if ok {
        runs := runs[id := run];
      }
    }

    method CreateEventRow(event: Event) returns (ok: bool)
      modifies this
      ensures State() == if ok then old(State()).(events := old(events) + [event]) else old(State())
      ensures faults == old(faults) + if ok then 0 else 1
    {
      ok := Available();
      if ok {
        events := events + [event];
      }
    }

    method CreateIntentRow(intent: Intent) returns (ok: bool)
      modifies this
      ensures State() == if ok then ApplyEffect(old(State()), CreateIntent(intent)) else old(State())
      ensures faults == old(faults) + if ok then 0 else 1
    {
      ok := Available();
      if ok {
        intents := intents + [intent];
      }
    }

    method UpdateIntentRow(index: nat, intent: Intent) returns (ok: bool)
      requires index < |intents|
      modifies this
      ensures State() == if ok then ApplyEffect(old(State()), UpdateIntent(index, intent)) else old(State())
      ensures faults == old(faults) + if ok then 0 else 1
    {
      ok := Available();
      if ok {
        intents := intents[index := intent];
      }
    }

    method FindActiveRun(tenant: string, invoice: string) returns (r: Option<nat>)
      ensures r == ActiveRun(runs, tenant, invoice)
    {
      var i := |runs|;
      assert runs[..i] == runs;
      while i > 0
        invariant 0 <= i <= |runs|
        invariant ActiveRun(runs, tenant, invoice) == ActiveRun(runs[..i], tenant, invoice)
      {
        assert runs[..i][..i - 1] == runs[..i - 1];
        if Active(runs[i - 1], tenant, invoice) {
          return Some(i - 1);
        }
        i := i - 1;
      }
      return None;
    }

    method ListIntents(id: nat) returns (listed: nat)
      ensures listed == ListedIntents(State(), id)
    {
      var count := 0;
      for i := 0 to |intents|
        invariant count == CountIntents(intents[..i], id)
      {
        assert intents[..i + 1][..i] == intents[..i];
        if intents[i].runId == id {
          count := count + 1;
        }
      }
      assert intents[..|intents|] == intents;
      listed := if count > INTENT_LIST_LIMIT then INTENT_LIST_LIMIT else count;
    }

    // --- policy --------------------------------------------------------------

    /** A tenant without a policy is given the default one. */
    method GetPolicy(tenant: string) returns (r: Result<Policy>)
      modifies this
      ensures r.Ok? ==> State() == ApplyEffects(old(State()), PolicyEffects(old(State()), tenant))
                        && r.value == PolicyOf(old(State()), tenant)
      ensures r.Err? ==> State() == old(State()) && faults > old(faults)
      ensures r.Ok? ==> faults == old(faults)
    {
      var readable := Available();
      if !readable {
        return Err;
      }
      if tenant in policies {
        return Ok(policies[tenant]);
      }
      var ok := UpsertPolicyRow(tenant, DEFAULT_POLICY);
      if !ok {
        return Err;
      }
      EffectsStep(old(State()), [], UpsertPolicy(tenant, DEFAULT_POLICY));
      assert [] + [UpsertPolicy(tenant, DEFAULT_POLICY)] == PolicyEffects(old(State()), tenant);
      return Ok(DEFAULT_POLICY);
    }

    method PutTenantPolicy(tenant: string, req: PolicyRequest) returns (ok: bool, ghost stop: nat)
      modifies this
      ensures State() == Perform(old(State()), PlanOf(old(State()), PutPolicy(tenant, req)), stop)
      ensures ok ==> Finished(PlanOf(old(State()), PutPolicy(tenant, req)), stop)
      ensures faults >= old(faults)
      ensures faults == old(faults) ==> Finished(PlanOf(old(State()), PutPolicy(tenant, req)), stop)
    {
      hide ApplyEffects, UpdatedPolicy;
      ghost var db, begun := State(), |PolicyEffects(State(), tenant)|;
      NothingDone(db, PutPolicy(tenant, req));
      var policy := GetPolicy(tenant);
      if policy.Err? {
        return false, 0;
      }
      var updated := UpdatedPolicy(policy.value, req);
      if updated.Err? {
        assert PlanOf(db, PutPolicy(tenant, req)).before == PolicyEffects(db, tenant);
        return false, begun + 2;
      }
      EffectsStep(db, PolicyEffects(db, tenant), UpsertPolicy(tenant, updated.value));
      assert PlanOf(db, PutPolicy(tenant, req)).before[..begun] == PolicyEffects(db, tenant);
      ok := UpsertPolicyRow(tenant, updated.value);
      stop := begun + if ok then 3 else 0;
    }

    // --- operations ----------------------------------------------------------

    /** How every operation ends that changes a run: the run is written, then logged. */
    method UpdateAndLog(id: nat, run: Run, event: Event, ghost db: Db, ghost plan: Plan)
      returns (ok: bool, ghost stop: nat)
      requires plan.write == Update(id, run) && plan.event == Some(event) && id < |runs|
      requires State() == ApplyEffects(db, plan.before)
      modifies this
      ensures State() == Perform(db, plan, stop)
      ensures ok <==> Finished(plan, stop)
      ensures faults == old(faults) + if ok then 0 else 1
    {
      ok := UpdateRunRow(id, run);
      if !ok {
        return false, |plan.before|;
      }
      ok := CreateEventRow(event);
      stop := |plan.before| + if ok then 2 else 1;
    }

    method EnsureRunForInvoice(tenant: string, invoice: string, world: World) returns (ok: bool, ghost stop: nat)
      modifies this
      ensures State() == Perform(old(State()), PlanOf(old(State()), Ensure(tenant, invoice, world)), stop)
      ensures ok ==> Finished(PlanOf(old(State()), Ensure(tenant, invoice, world)), stop)
      ensures faults >= old(faults)
      ensures faults == old(faults) ==> Finished(PlanOf(old(State()), Ensure(tenant, invoice, world)), stop)
    {
      hide Evaluate, Text.Trim, ActiveRun, ApplyEffects;
      ghost var db, plan := State(), PlanOf(State(), Ensure(tenant, invoice, world));
      NothingDone(db, Ensure(tenant, invoice, world));
      if Text.Trim(invoice) == "" {
        return false, 2;
      }
      var policy := GetPolicy(tenant);
      EffectsKeepRuns(db, PolicyEffects(db, tenant));
      if policy.Err? {
        return false, 0;
      }
      stop := |plan.before|;
      if !policy.value.enabled {
        return true, stop + 2;
      }
      var readable := Available();
      if !readable {
        return false, stop;
      }
      var activeRun := FindActiveRun(tenant, invoice);
      var evaluated := Evaluate(policy.value, world);
      if evaluated.Err? {
        return false, stop + 2;
      }
      var eval := evaluated.value;

      if eval.Ineligible? {
        if activeRun.None? {
          return true, stop + 2;
        }
        var id := activeRun.value;
        var previousState := runs[id].state;
        var updated := runs[id];
        updated := updated.(state := Resolved, nextActionAt := None, nextActionType := None);
        updated := updated.(resolvedAt := Some(world.now), resolution := Some(eval.resolution));
        updated := updated.(reason := eval.reason, updatedAt := world.now);
        var eventType := RunResolved;
        if previousState == AwaitingRetryResult && updated.resolution == Some(PaymentSucceeded) {
          eventType := RetrySucceeded;
        }
        var event := Event(id, eventType, updated.state, None, updated.reason, updated.attemptCount, world.now);
        ok, stop := UpdateAndLog(id, updated, event, db, plan);
        return;
      }

      if activeRun.None? {
        var run := Run(tenant, invoice, world.view.customer, eval.state, eval.reason, 0, None, eval.at, eval.action,
                       false, None, None, world.now, world.now);
        var id := |runs|;
        ok := CreateRunRow(run);
        if !ok {
          return false, stop;
        }
        ok := CreateEventRow(Event(id, DunningStarted, run.state, run.nextActionType, run.reason, run.attemptCount, world.now));
        stop := stop + if ok then 2 else 1;
        return;
      }

      var id := activeRun.value;
      if runs[id].paused || RunMatches(runs[id], eval) {
        return true, stop + 2;
      }
      var updated := runs[id];
      var previousState := updated.state;
      updated := updated.(customer := world.view.customer, state := eval.state, reason := eval.reason);
      updated := updated.(nextActionAt := eval.at, nextActionType := eval.action);
      updated := updated.(resolvedAt := None, resolution := None, updatedAt := world.now);
      var event := Event(id, TransitionEventType(previousState, updated.state), updated.state,
                         updated.nextActionType, updated.reason, updated.attemptCount, world.now);
      ok, stop := UpdateAndLog(id, updated, event, db, plan);
    }

    /** What an exhausted schedule does to a run. */
    method GiveUp(run: Run, policy: Policy, reason: Reason) returns (updated: Run)
      ensures updated == GivenUp(run, policy, reason)
    {
      updated := run;
      if policy.finalAction == PauseRun {
        updated := updated.(paused := true, state := Paused);
      } else {
        updated := updated.(state := Escalated);
      }
      updated := updated.(nextActionAt := None, nextActionType := None, reason := reason);
    }

    method RecordRetry(run: Run, policy: Policy, accepted: bool, now: Time) returns (updated: Run)
      ensures updated == if accepted then RetryAccepted(run, now) else RetryRejected(run, policy, now)
    {
      hide NextRetryActionAt;
      updated := run.(attemptCount := run.attemptCount + 1, lastAttemptAt := Some(now), updatedAt := now);
      if accepted {
        updated := updated.(state := AwaitingRetryResult, nextActionAt := None, nextActionType := None);
        updated := updated.(reason := RetryRequested);
        return;
      }
      var next := NextRetryActionAt(now, policy, updated.attemptCount);
      if next.None? {
        updated := GiveUp(updated, policy, RetriesExhausted);
      } else {
        updated := updated.(state := Scheduled, nextActionAt := next, nextActionType := Some(RetryPayment));
        updated := updated.(reason := RetryRefused);
      }
    }

    /** The guards of a retry or reminder. */
    method CheckDue(tenant: string, id: nat, action: ActionType, requireDue: bool, now: Time) returns (ok: bool)
      modifies this`faults
      ensures ok ==> id < |runs| && MayAct(State(), tenant, id, action, requireDue, now)
      ensures !ok && faults == old(faults) ==> !MayAct(State(), tenant, id, action, requireDue, now)
      ensures faults >= old(faults) && (ok ==> faults == old(faults))
    {
      var readable := Available();
      if !readable || id >= |runs| || runs[id].tenant != tenant {
        return false;
      }
      var run := runs[id];
      if run.resolvedAt.Some? || run.paused || run.nextActionType != Some(action) {
        return false;
      }
      return !(requireDue && run.nextActionAt.Some? && run.nextActionAt.value > now);
    }

    /** The payment gateway answers with a status code, or not at all. */
    method DispatchRetryPayment(tenant: string, id: nat, requireDue: bool, statusCode: int, unreachable: bool, now: Time)
      returns (ok: bool, ghost stop: nat)
      modifies this
      ensures var op := Retry(tenant, id, requireDue, !unreachable && 200 <= statusCode < 300, now);
              && State() == Perform(old(State()), PlanOf(old(State()), op), stop)
              && (ok <==> op.accepted && EventDone(PlanOf(old(State()), op), stop))
      ensures faults >= old(faults)
      ensures faults == old(faults) ==> Finished(PlanOf(old(State()), Retry(tenant, id, requireDue, !unreachable && 200 <= statusCode < 300, now)), stop)
    {
      hide ApplyEffects, RetryAccepted, RetryRejected;
      var accepted := !unreachable && 200 <= statusCode < 300;
      ghost var db, op := State(), Retry(tenant, id, requireDue, accepted, now);
      NothingDone(db, op);
      var due := CheckDue(tenant, id, RetryPayment, requireDue, now);
      if !due {
        return false, if faults == old(faults) then 2 else 0;
      }
      var policy := GetPolicy(tenant);
      EffectsKeepRuns(db, PolicyEffects(db, tenant));
      ghost var call := CallRetry(id, accepted);
      if policy.Err? {
        return false, 0;
      }
      EffectsStep(db, PolicyEffects(db, tenant), call);
      var updated := RecordRetry(runs[id], policy.value, accepted, now);
      var event := Event(id, if accepted then RetryAttempted else RetryFailed, updated.state, Some(RetryPayment),
                         updated.reason, updated.attemptCount, now);
      ok, stop := UpdateAndLog(id, updated, event, db, PlanOf(db, op));
      ok := ok && accepted;
    }

    method RecordReminder(run: Run, policy: Policy, listed: nat, now: Time) returns (updated: Run, eventType: EventType)
      ensures updated == RemindedRun(run, policy, listed, now)
      ensures eventType == if updated.nextActionAt.Some? then PaymentSetupPending
                           else if policy.finalAction == PauseRun then RunPaused else RunEscalated
    {
      hide NextReminderActionAt;
      updated, eventType := run.(updatedAt := now), PaymentSetupPending;
      var next := NextReminderActionAt(now, policy.reminderSchedule, listed + 1);
      if next.None? {
        updated := GiveUp(updated, policy, RemindersExhausted);
        eventType := if policy.finalAction == PauseRun then RunPaused else RunEscalated;
      } else {
        updated := updated.(state := AwaitingPaymentSetup, nextActionAt := next);
        updated := updated.(nextActionType := Some(CollectPaymentReminder), reason := SetupPending);
      }
    }

    method QueueCollectPaymentReminder(tenant: string, id: nat, requireDue: bool, customerKnown: bool, now: Time)
      returns (ok: bool, ghost stop: nat)
      modifies this
      ensures var plan := PlanOf(old(State()), Remind(tenant, id, requireDue, customerKnown, now));
              && State() == Perform(old(State()), plan, stop)
              && (ok ==> Finished(plan, stop) && plan.write.Update? && |intents| > 0 && intents[|intents| - 1].runId == id)
      ensures faults >= old(faults)
      ensures faults == old(faults) ==> Finished(PlanOf(old(State()), Remind(tenant, id, requireDue, customerKnown, now)), stop)
    {
      hide ApplyEffects, CountIntents, RemindedRun, MayAct;
      ghost var db, op := State(), Remind(tenant, id, requireDue, customerKnown, now);
      NothingDone(db, op);
      var due := CheckDue(tenant, id, CollectPaymentReminder, requireDue, now);
      if !due {
        return false, if faults == old(faults) then 2 else 0;
      }
      var policy := GetPolicy(tenant);
      EffectsKeepRuns(db, PolicyEffects(db, tenant));
      if policy.Err? {
        return false, 0;
      }
      stop := |PolicyEffects(db, tenant)|;
      PolicyFirst(db, op);
      if !customerKnown {
        return false, stop + 2;
      }
      PolicyEffectsKeepIntents(db, tenant);
      var listed := ListIntents(id);
      var intentType := PaymentMethodRequired;
      if listed + 1 >= |policy.value.reminderSchedule| && |policy.value.reminderSchedule| > 0 {
        intentType := FinalAttempt;
      }
      var intent := Intent(id, tenant, intentType, Queued, listed + 1, now, None);
      EffectsStep(db, PolicyEffects(db, tenant), CreateIntent(intent));
      var queued := CreateIntentRow(intent);
      if !queued {
        return false, stop;
      }
      var updated, eventType := RecordReminder(runs[id], policy.value, listed, now);
      var event := Event(id, eventType, updated.state, Some(CollectPaymentReminder), updated.reason,
                         updated.attemptCount, now);
      ok, stop := UpdateAndLog(id, updated, event, db, PlanOf(db, op));
    }

    method DispatchReminderIntent(tenant: string, index: nat, delivered: bool, now: Time) returns (ok: bool, ghost stop: nat)
      modifies this
      ensures State() == Perform(old(State()), PlanOf(old(State()), Dispatch(tenant, index, delivered, now)), stop)
      ensures ok ==> delivered && Finished(PlanOf(old(State()), Dispatch(tenant, index, delivered, now)), stop)
      ensures faults >= old(faults)
      ensures faults == old(faults) ==> Finished(PlanOf(old(State()), Dispatch(tenant, index, delivered, now)), stop)
    {
      ghost var db, op := State(), Dispatch(tenant, index, delivered, now);
      NothingDone(db, op);
      var readable := Available();
      if !readable {
        return false, 0;
      }
      if index >= |intents| || intents[index].runId >= |runs| || runs[intents[index].runId].tenant != tenant {
        return false, 2;
      }
      var intent := intents[index];
      var run := runs[intent.runId];
      var updated := intent.(tenant := tenant);
      var eventType, reason := NotificationSent, ReminderDispatched;
      if delivered {
        updated := updated.(status := Dispatched, dispatchedAt := Some(now));
      } else {
        updated := updated.(status := NotDelivered, dispatchedAt := None);
        eventType, reason := NotificationFailed, ReminderNotDispatched;
      }
      ghost var call, write := CallResend(intent.runId), UpdateIntent(index, updated);
      ResendThen(db, intent.runId, write);
      hide ApplyEffects;
      ok := UpdateIntentRow(index, updated);
      if !ok {
        return false, 1;
      }
      ok := CreateEventRow(Event(intent.runId, eventType, run.state, Some(CollectPaymentReminder), reason,
                                 run.attemptCount, now));
      stop := if ok then 4 else 3;
      ok := ok && delivered;
    }

    method PauseDunningRun(tenant: string, id: nat, now: Time) returns (ok: bool, ghost stop: nat)
      modifies this
      ensures State() == Perform(old(State()), PlanOf(old(State()), Pause(tenant, id, now)), stop)
      ensures ok ==> Finished(PlanOf(old(State()), Pause(tenant, id, now)), stop)
                     && id < |runs| && runs[id].state == Paused && runs[id].paused
      ensures faults == old(faults) ==>
                (ok <==> id < |old(runs)| && old(runs)[id].tenant == tenant && old(runs)[id].resolvedAt == None
                         && !old(runs)[id].paused && old(runs)[id].state != Paused)
      ensures faults >= old(faults)
      ensures faults == old(faults) ==> Finished(PlanOf(old(State()), Pause(tenant, id, now)), stop)
    {
      NothingDone(State(), Pause(tenant, id, now));
      var readable := Available();
      if !readable {
        return false, 0;
      }
      if id >= |runs| || runs[id].tenant != tenant {
        return false, 2;
      }
      var run := runs[id];
      if run.resolvedAt.Some? || run.paused || run.state == Paused {
        return false, 2;
      }
      run := run.(paused := true, state := Paused, nextActionAt := None, nextActionType := None);
      run := run.(reason := PausedByOperator, updatedAt := now);
      var event := Event(id, RunPaused, run.state, None, run.reason, run.attemptCount, now);
      ok, stop := UpdateAndLog(id, run, event, State(), PlanOf(State(), Pause(tenant, id, now)));
    }

    method ResumeDunningRun(tenant: string, id: nat, world: World) returns (ok: bool, ghost stop: nat)
      modifies this
      ensures State() == Perform(old(State()), PlanOf(old(State()), Resume(tenant, id, world)), stop)
      ensures ok ==> Finished(PlanOf(old(State()), Resume(tenant, id, world)), stop)
      ensures faults >= old(faults)
      ensures faults == old(faults) ==> Finished(PlanOf(old(State()), Resume(tenant, id, world)), stop)
    {
      hide Evaluate, ApplyEffects;
      ghost var db, plan := State(), PlanOf(State(), Resume(tenant, id, world));
      NothingDone(db, Resume(tenant, id, world));
      var readable := Available();
      if !readable {
        return false, 0;
      }
      if id >= |runs| || runs[id].tenant != tenant {
        return false, 2;
      }
      var run := runs[id];
      if run.resolvedAt.Some? || !(run.paused || run.state == Paused) {
        return false, 2;
      }
      var policy := GetPolicy(tenant);
      EffectsKeepRuns(db, PolicyEffects(db, tenant));
      if policy.Err? {
        return false, 0;
      }
      var evaluated := Evaluate(policy.value, world);
      if evaluated.Err? {
        return false, |plan.before| + 2;
      }
      var eval := evaluated.value;
      run := run.(paused := false, updatedAt := world.now);
      var eventType := RunResumed;
      if eval.Ineligible? {
        run := run.(state := Resolved, nextActionAt := None, nextActionType := None);
        run := run.(resolvedAt := Some(world.now), resolution := Some(eval.resolution), reason := eval.reason);
        eventType := RunResolved;
      } else {
        run := run.(state := eval.state, nextActionAt := eval.at, nextActionType := eval.action);
        run := run.(resolvedAt := None, resolution := None, reason := eval.reason);
      }
      var event := Event(id, eventType, run.state, run.nextActionType, run.reason, run.attemptCount, world.now);
      ok, stop := UpdateAndLog(id, run, event, db, plan);
    }

    method ResolveDunningRun(tenant: string, id: nat, now: Time) returns (ok: bool, ghost stop: nat)
      modifies this
      ensures State() == Perform(old(State()), PlanOf(old(State()), Resolve(tenant, id, now)), stop)
      ensures ok ==> Finished(PlanOf(old(State()), Resolve(tenant, id, now)), stop)
                     && id < |runs| && runs[id].state == Resolved
      ensures faults == old(faults) ==>
                (ok <==> id < |old(runs)| && old(runs)[id].tenant == tenant && old(runs)[id].resolvedAt == None)
      ensures faults >= old(faults)
      ensures faults == old(faults) ==> Finished(PlanOf(old(State()), Resolve(tenant, id, now)), stop)
    {
      NothingDone(State(), Resolve(tenant, id, now));
      var readable := Available();
      if !readable {
        return false, 0;
      }
      if id >= |runs| || runs[id].tenant != tenant || runs[id].resolvedAt.Some? {
        return false, 2;
      }
      var run := runs[id].(paused := false, state := Resolved, nextActionAt := None, nextActionType := None);
      run := run.(resolvedAt := Some(now), resolution := Some(OperatorResolved), reason := ResolvedByOperator, updatedAt := now);
      var event := Event(id, RunResolved, run.state, None, run.reason, run.attemptCount, now);
      ok, stop := UpdateAndLog(id, run, event, State(), PlanOf(State(), Resolve(tenant, id, now)));
    }

    /** Used when a payment arrives; an error of the event write is ignored. */
    method ResolveRunByInvoiceID(tenant: string, invoice: string, reason: string, now: Time)
      returns (ok: bool, ghost stop: nat)
      modifies this
      ensures State() == Perform(old(State()), PlanOf(old(State()), ResolveByInvoice(tenant, invoice, reason, now)), stop)
      ensures faults >= old(faults)
      ensures faults == old(faults) ==> Finished(PlanOf(old(State()), ResolveByInvoice(tenant, invoice, reason, now)), stop)
      ensures faults == old(faults) && ActiveRun(old(runs), tenant, invoice).Some? ==>
                var id := ActiveRun(old(runs), tenant, invoice).value;
                && ok && |runs| == |old(runs)| && |events| == |old(events)| + 1
                && runs[id].state == Resolved && runs[id].resolution == Some(PaymentSucceeded)
                && runs[id].resolvedAt == Some(now) && !runs[id].paused && runs[id].nextActionType == None
    {
      NothingDone(State(), ResolveByInvoice(tenant, invoice, reason, now));
      var readable := Available();
      if !readable {
        return true, 0;
      }
      var activeRun := FindActiveRun(tenant, invoice);
      if activeRun.None? {
        return true, 2;
      }
      var id := activeRun.value;
      var run := runs[id].(paused := false, state := Resolved, nextActionAt := None, nextActionType := None);
      run := run.(resolvedAt := Some(now), resolution := Some(PaymentSucceeded), reason := Given(reason), updatedAt := now);
      ok := UpdateRunRow(id, run);
      if !ok {
        return false, 0;
      }
      var logged := CreateEventRow(Event(id, RunResolved, run.state, None, Given(reason), run.attemptCount, now));
      stop := if logged then 2 else 1;
    }

    // --- batches -------------------------------------------------------------

    predicate DueFor(run: Run, tenant: string, action: ActionType, now: Time) {
      && run.tenant == tenant && run.resolvedAt == None && !run.paused && run.nextActionType == Some(action)
      && run.nextActionAt.Some? && run.nextActionAt.value <= now
    }

    /** The due run with the earliest action, and among those the oldest. */
    method NextDueRun(tenant: string, action: ActionType, now: Time) returns (r: Option<nat>)
      ensures r.None? ==> forall i | 0 <= i < |runs| :: !DueFor(runs[i], tenant, action, now)
      ensures r.Some? ==> r.value < |runs| && DueFor(runs[r.value], tenant, action, now)
                          && forall i | 0 <= i < |runs| && DueFor(runs[i], tenant, action, now) ::
                               || runs[r.value].nextActionAt.value < runs[i].nextActionAt.value
                               || (runs[r.value].nextActionAt == runs[i].nextActionAt
                                   && runs[r.value].createdAt <= runs[i].createdAt)
    {
      r := None;
      for i := 0 to |runs|
        invariant r.None? ==> forall j | 0 <= j < i :: !DueFor(runs[j], tenant, action, now)
        invariant r.Some? ==> r.value < i && DueFor(runs[r.value], tenant, action, now)
                              && forall j | 0 <= j < i && DueFor(runs[j], tenant, action, now) ::
                                   || runs[r.value].nextActionAt.value < runs[j].nextActionAt.value
                                   || (runs[r.value].nextActionAt == runs[j].nextActionAt
                                       && runs[r.value].createdAt <= runs[j].createdAt)
      {
        if DueFor(runs[i], tenant, action, now) {
          if r.None? {
            r := Some(i);
          } else {
            var best := runs[r.value];
            if runs[i].nextActionAt.value < best.nextActionAt.value
               || (runs[i].nextActionAt == best.nextActionAt && runs[i].createdAt < best.createdAt) {
              r := Some(i);
            }
          }
        }
      }
    }

    /** A batch is a history of due retries, one per processed run. It stops at its limit, or when
        nothing is due any more; an error listing the due runs also ends it, silently. */
    method ProcessRetryPaymentBatch(tenant: string, requested: int, now: Time)
      returns (ok: bool, processed: int, dispatched: int, failed: int, ghost h: seq<Step>)
      modifies this
      ensures ok <==> requested <= 100
      ensures State() == Exec(old(State()), h)
      ensures |h| == processed == dispatched + failed && 0 <= dispatched && 0 <= failed
      ensures processed <= if requested <= 0 then 1 else requested
      ensures DueRetries(old(State()), h, tenant, now)
      ensures ok && faults == old(faults) && processed < (if requested <= 0 then 1 else requested) ==>
                !exists i :: 0 <= i < |runs| && runs[i].tenant == tenant && runs[i].resolvedAt == None && !runs[i].paused
                             && runs[i].nextActionType == Some(RetryPayment)
                             && runs[i].nextActionAt.Some? && runs[i].nextActionAt.value <= now
      ensures faults >= old(faults)
    {
      hide PlanOf, Exec, Perform, Finished, EventDone, DueRetries;
      ok, processed, dispatched, failed, h := requested <= 100, 0, 0, 0, [];
      NoRetries(State(), tenant, now);
      if !ok {
        return;
      }
      var limit := if requested <= 0 then 1 else requested;
      while processed < limit
        invariant 0 <= processed <= limit && processed == dispatched + failed && 0 <= dispatched && 0 <= failed
        invariant faults >= old(faults)
        invariant |h| == processed && State() == Exec(old(State()), h) && DueRetries(old(State()), h, tenant, now)
      {
        var listed := Available();
        if !listed {
          return;
        }
        var due := NextDueRun(tenant, RetryPayment, now);
        if due.None? {
          return;
        }
        assert MayAct(State(), tenant, due.value, RetryPayment, true, now);
        processed := processed + 1;
        var statusCode: int := *;
        var unreachable: bool := *;
        ghost var stop;
        var accepted;
        accepted, stop := DispatchRetryPayment(tenant, due.value, true, statusCode, unreachable, now);
        ghost var s := Step(Retry(tenant, due.value, true, !unreachable && 200 <= statusCode < 300, now), stop);
        ExecStep(old(State()), h, s);
        OneMoreRetry(old(State()), h, s, tenant, now);
        h := h + [s];
        if accepted {
          dispatched := dispatched + 1;
        } else {
          failed := failed + 1;
        }
      }
    }

    method RemindAndDeliver(tenant: string, id: nat, now: Time, ghost db: Db, ghost h0: seq<Step>)
      returns (queued: bool, sent: bool, ghost h: seq<Step>)
      requires State() == Exec(db, h0) && DueReminders(db, h0, tenant, now)
      requires MayAct(State(), tenant, id, CollectPaymentReminder, true, now)
      modifies this
      ensures State() == Exec(db, h) && DueReminders(db, h, tenant, now) && CountReminders(h) == CountReminders(h0) + 1
      ensures sent ==> queued
      ensures faults >= old(faults)
    {
      hide PlanOf, Perform, Finished, Exec, DueReminders, CountReminders, MayAct;
      var customerKnown: bool := *;
      ghost var stop;
      queued, stop := QueueCollectPaymentReminder(tenant, id, true, customerKnown, now);
      ghost var s := Step(Remind(tenant, id, true, customerKnown, now), stop);
      OneMoreReminder(db, h0, s, tenant, now);
      h := h0 + [s];
      if !queued {
        return false, false, h;
      }
      var delivered: bool := *;
      ghost var index := |intents| - 1;
      sent, stop := DispatchReminderIntent(tenant, |intents| - 1, delivered, now);
      s := Step(Dispatch(tenant, index, delivered, now), stop);
      OneMoreReminder(db, h, s, tenant, now);
      h := h + [s];
    }

    /** Each processed run is reminded and its intent delivered. A reminder that cannot be queued
        ends the batch with an error; one that cannot be delivered does not. */
    method ProcessCollectPaymentReminderBatch(tenant: string, requested: int, now: Time)
      returns (ok: bool, processed: int, dispatched: int, failed: int, ghost h: seq<Step>)
      modifies this
      ensures ok ==> requested <= 100
      ensures State() == Exec(old(State()), h) && DueReminders(old(State()), h, tenant, now)
      ensures CountReminders(h) == processed == dispatched + failed && 0 <= dispatched && 0 <= failed
      ensures processed <= if requested <= 0 then 1 else requested
      ensures ok && faults == old(faults) && processed < (if requested <= 0 then 1 else requested) ==>
                !exists i :: 0 <= i < |runs| && runs[i].tenant == tenant && runs[i].resolvedAt == None && !runs[i].paused
                             && runs[i].nextActionType == Some(CollectPaymentReminder)
                             && runs[i].nextActionAt.Some? && runs[i].nextActionAt.value <= now
      ensures faults >= old(faults)
    {
      hide Exec, DueReminders, CountReminders;
      ok, processed, dispatched, failed, h := requested <= 100, 0, 0, 0, [];
      NoReminders(State(), tenant, now);
      if !ok {
        return;
      }
      var limit := if requested <= 0 then 1 else requested;
      while processed < limit
        invariant ok && 0 <= processed <= limit && processed == dispatched + failed && 0 <= dispatched && 0 <= failed
        invariant faults >= old(faults)
        invariant State() == Exec(old(State()), h) && DueReminders(old(State()), h, tenant, now) && CountReminders(h) == processed
      {
        var listed := Available();
        if !listed {
          return;
        }
        var due := NextDueRun(tenant, CollectPaymentReminder, now);
        if due.None? {
          return;
        }
        assert MayAct(State(), tenant, due.value, CollectPaymentReminder, true, now);
        processed := processed + 1;
        var sent;
        ok, sent, h := RemindAndDeliver(tenant, due.value, now, old(State()), h);
        if sent {
          dispatched := dispatched + 1;
        } else {
          failed := failed + 1;
          if !ok {
            return;
          }
        }
      }
    }
  }

  /** Asking for a delivery leaves the store alone. */
  lemma ResendThen(db: Db, runId: nat, write: Effect)
    ensures var es := [CallResend(runId), write];
            es[..1] == [CallResend(runId)] && ApplyEffects(db, es[..1]) == db && ApplyEffects(db, es) == ApplyEffect(db, write)
  {
    var es := [CallResend(runId), write];
    assert es[..1][..0] == [] && es[..1] == [CallResend(runId)];
    hide ApplyEffect;
    assert ApplyEffect(db, CallResend(runId)) == db by {
      CallChangesNothing(db, runId);
    }
  }

  lemma CallChangesNothing(db: Db, runId: nat)
    ensures ApplyEffect(db, CallResend(runId)) == db
  {
  }

  lemma PolicyFirst(db: Db, op: Op)
    requires op.Remind? && MayAct(db, op.tenant, op.id, CollectPaymentReminder, op.requireDue, op.now)
    ensures EffectsDone(PlanOf(db, op), |PolicyEffects(db, op.tenant)|) == PolicyEffects(db, op.tenant)
    ensures |PolicyEffects(db, op.tenant)| <= |PlanOf(db, op).before|
  {
  }

  lemma PolicyEffectsKeepIntents(db: Db, tenant: string)
    ensures ApplyEffects(db, PolicyEffects(db, tenant)).intents == db.intents
  {
    var es := PolicyEffects(db, tenant);
    assert es != [] ==> es[..0] == [];
  }

  lemma NothingDone(db: Db, op: Op)
    ensures Perform(db, PlanOf(db, op), 0) == db
  {
    hide PlanOf;
    assert PlanOf(db, op).before[..0] == [];
  }
}
