/**
  What a retry, a reminder, a delivery and a policy update leave behind when no access to the
  store fails, and what delays and the default policy mean.
 */
module DunningActions {
  import opened Common
  import opened Text
  import opened Dunning
  import opened DunningHistory
  import opened DunningLog
  import opened DunningBounds
  import opened DunningSchedules
  import opened DunningEffects

  // ---------------------------------------------------------------------------
  // Delays
  // ---------------------------------------------------------------------------

  /** "n" followed by d, h or m is n days, hours or minutes, as a wrapping count of nanoseconds. */
  lemma DelayMeaning(n: nat)
    requires n < TWO_63
    ensures ParseDelay(Decimal(n) + "m") == Ok(Wrap64(n * 60_000_000_000))
    ensures ParseDelay(Decimal(n) + "h") == Ok(Wrap64(n * 3_600_000_000_000))
    ensures ParseDelay(Decimal(n) + "d") == Ok(Wrap64(n * 86_400_000_000_000))
  {
    DelayOf(n, 'm');
    DelayOf(n, 'h');
    DelayOf(n, 'd');
    hide Wrap64, ParseDelay, Decimal;
  }

  lemma DelayOf(n: nat, unit: char)
    requires n < TWO_63 && unit in ['d', 'h', 'm']
    ensures ParseDelay(Decimal(n) + [unit])
         == Ok(Wrap64(n * if unit == 'd' then 86_400_000_000_000 else if unit == 'h' then 3_600_000_000_000 else 60_000_000_000))
  {
    var s := Decimal(n) + [unit];
    NormalOfDelay(n, unit);
    AtoiOfDecimal(n);
    assert s[..|s| - 1] == Decimal(n);
    hide Wrap64, Normal, Atoi, Decimal;
  }

  lemma NormalOfDelay(n: nat, unit: char)
    requires unit in ['d', 'h', 'm']
    ensures Normal(Decimal(n) + [unit]) == Decimal(n) + [unit]
  {
    var s := Decimal(n) + [unit];
    hide Decimal;
    assert Trim(s) == s;
    assert Lower(s) == s;
  }

  /** Nothing is accepted but a number that is not negative with one of these units behind it. */
  lemma DelayAcceptedIff(value: string)
    ensures ParseDelay(value).Ok?
       <==> var text := Normal(value);
            && |text| >= 2 && text[|text| - 1] in {'d', 'h', 'm'}
            && Atoi(text[..|text| - 1]).Ok? && Atoi(text[..|text| - 1]).value >= 0
  {
    hide Normal, Atoi, Wrap64;
  }

  // ---------------------------------------------------------------------------
  // Policies
  // ---------------------------------------------------------------------------

  /** A tenant that was never given a policy has an enabled one: three retries after 1, 3 and 5 days,
      reminders at once and after 2 and 5 days, no grace period, and a manual review at the end. */
  lemma DefaultPolicyMeaning(db: Db, tenant: string)
    requires tenant !in db.policies
    ensures var policy := PolicyOf(db, tenant);
            && policy.enabled && policy.maxRetryAttempts == 3 && RetryCap(policy) == 3
            && policy.gracePeriodDays == 0 && policy.finalAction == ManualReview
            && |policy.retrySchedule| == |policy.reminderSchedule| == 3
            && ParseDelay(policy.retrySchedule[0]) == Ok(DAY) && ParseDelay(policy.retrySchedule[1]) == Ok(3 * DAY)
            && ParseDelay(policy.retrySchedule[2]) == Ok(5 * DAY)
            && ParseDelay(policy.reminderSchedule[0]) == Ok(0) && ParseDelay(policy.reminderSchedule[1]) == Ok(2 * DAY)
            && ParseDelay(policy.reminderSchedule[2]) == Ok(5 * DAY)
  {
    DayDelay('0');
    DayDelay('1');
    DayDelay('2');
    DayDelay('3');
    DayDelay('5');
    hide ParseDelay;
    assert DEFAULT_POLICY.retrySchedule == [['1', 'd'], ['3', 'd'], ['5', 'd']];
    assert DEFAULT_POLICY.reminderSchedule == [['0', 'd'], ['2', 'd'], ['5', 'd']];
  }

  /** The schedule a request asks for, with its delays, or the one there was if it asks for none. */
  ghost predicate Rescheduled(asked: Option<seq<string>>, before: seq<string>, after: seq<string>) {
    if asked == None then after == before
    else |after| == |asked.value| && forall i | 0 <= i < |after| :: ParseDelay(after[i]) == ParseDelay(asked.value[i])
  }

  ghost predicate Unparsable(asked: Option<seq<string>>) {
    asked.Some? && exists i :: 0 <= i < |asked.value| && ParseDelay(asked.value[i]).Err?
  }

  /** Putting a policy is refused exactly if a schedule entry does not parse or a number is negative;
      otherwise the tenant is under what was asked for, and keeps what was not. Nothing else changes. */
  lemma PutPolicyOutcome(db: Db, s: Step)
    requires s.op.PutPolicy? && Finished(PlanOf(db, s.op), s.stop)
    ensures var req, before, after := s.op.req, PolicyOf(db, s.op.tenant), PolicyOf(Next(db, s), s.op.tenant);
            if Unparsable(req.retrySchedule) || Unparsable(req.reminderSchedule) || req.maxRetryAttempts < 0 || req.gracePeriodDays < 0
            then after == before
            else
              && after.enabled == (if req.enabled == None then before.enabled else req.enabled.value)
              && after.finalAction == (if req.finalAction == None then before.finalAction else req.finalAction.value)
              && after.maxRetryAttempts == req.maxRetryAttempts && after.gracePeriodDays == req.gracePeriodDays
              && Rescheduled(req.retrySchedule, before.retrySchedule, after.retrySchedule)
              && Rescheduled(req.reminderSchedule, before.reminderSchedule, after.reminderSchedule)
    ensures Next(db, s).runs == db.runs && Next(db, s).events == db.events && Next(db, s).intents == db.intents
    ensures forall t | t != s.op.tenant :: PolicyOf(Next(db, s), t) == PolicyOf(db, t)
  {
    var req, before := s.op.req, PolicyOf(db, s.op.tenant);
    hide Next, UpdatedPolicy, Rescheduled, Unparsable;
    UpdatedPolicyMeaning(before, req);
    PutNext(db, s);
    hide PlanOf;
  }

  lemma PutNext(db: Db, s: Step)
    requires s.op.PutPolicy? && Finished(PlanOf(db, s.op), s.stop)
    ensures var updated := UpdatedPolicy(PolicyOf(db, s.op.tenant), s.op.req);
            Next(db, s) == db.(policies := db.policies[s.op.tenant :=
              if updated.Ok? then updated.value else PolicyOf(db, s.op.tenant)])
  {
    FinishedTables(db, s);
    PutEffects(db, s.op.tenant, UpdatedPolicy(PolicyOf(db, s.op.tenant), s.op.req));
    hide Next, UpdatedPolicy, ApplyEffects, PolicyEffects, PolicyOf;
  }

  lemma UpdatedPolicyMeaning(before: Policy, req: PolicyRequest)
    ensures UpdatedPolicy(before, req).Err?
       <==> Unparsable(req.retrySchedule) || Unparsable(req.reminderSchedule) || req.maxRetryAttempts < 0 || req.gracePeriodDays < 0
    ensures UpdatedPolicy(before, req).Ok? ==>
              var after := UpdatedPolicy(before, req).value;
              && after.enabled == (if req.enabled == None then before.enabled else req.enabled.value)
              && after.finalAction == (if req.finalAction == None then before.finalAction else req.finalAction.value)
              && after.maxRetryAttempts == req.maxRetryAttempts && after.gracePeriodDays == req.gracePeriodDays
              && Rescheduled(req.retrySchedule, before.retrySchedule, after.retrySchedule)
              && Rescheduled(req.reminderSchedule, before.reminderSchedule, after.reminderSchedule)
  {
    hide ParseDelay, NormalizeSchedule;
    if req.retrySchedule.Some? && ValidSchedule(req.retrySchedule.value) {
      NormalizeKeepsDelays(req.retrySchedule.value);
    }
    if req.reminderSchedule.Some? && ValidSchedule(req.reminderSchedule.value) {
      NormalizeKeepsDelays(req.reminderSchedule.value);
    }
  }

  lemma PutEffects(db: Db, tenant: string, updated: Result<Policy>)
    ensures var es := PolicyEffects(db, tenant) + if updated.Ok? then [UpsertPolicy(tenant, updated.value)] else [];
            var policy := if updated.Ok? then updated.value else PolicyOf(db, tenant);
            ApplyEffects(db, es) == db.(policies := db.policies[tenant := policy])
  {
    var es := PolicyEffects(db, tenant);
    StoredFirst(db, tenant);
    if updated.Ok? {
      assert (es + [UpsertPolicy(tenant, updated.value)])[..|es|] == es;
    } else {
      assert es + [] == es;
    }
    hide PolicyOf;
  }

  /** The policy an operation goes by is stored, if it was not. */
  lemma StoredFirst(db: Db, tenant: string)
    ensures ApplyEffects(db, PolicyEffects(db, tenant)) == db.(policies := db.policies[tenant := PolicyOf(db, tenant)])
  {
    var es := PolicyEffects(db, tenant);
    if es != [] {
      assert es[..0] == [];
      assert ApplyEffects(db, []) == db;
    } else {
      assert db.policies[tenant := db.policies[tenant]] == db.policies;
    }
  }

  lemma StoredThen(db: Db, tenant: string, e: Effect)
    ensures ApplyEffects(db, PolicyEffects(db, tenant) + [e])
         == ApplyEffect(db.(policies := db.policies[tenant := PolicyOf(db, tenant)]), e)
  {
    var es := PolicyEffects(db, tenant);
    StoredFirst(db, tenant);
    assert (es + [e])[..|es|] == es;
    hide PolicyOf, ApplyEffect;
  }

  // ---------------------------------------------------------------------------
  // Retries, reminders and deliveries
  // ---------------------------------------------------------------------------

  /** A run may be acted on: its tenant's, unresolved, unpaused, waiting for that action, and due if
      that is asked for. */
  predicate Waits(db: Db, op: Op, action: ActionType)
    requires op.Retry? || op.Remind?
  {
    && op.id < |db.runs| && db.runs[op.id].tenant == op.tenant && db.runs[op.id].resolvedAt == None
    && !db.runs[op.id].paused && db.runs[op.id].nextActionType == Some(action)
    && (op.requireDue && db.runs[op.id].nextActionAt.Some? ==> db.runs[op.id].nextActionAt.value <= op.now)
  }

  /** A run that gives up pauses or is escalated, as its policy says, with nothing left to do. */
  function Exhausted(run: Run, policy: Policy, reason: Reason): Run {
    run.(state := if policy.finalAction == PauseRun then Paused else Escalated,
         paused := policy.finalAction == PauseRun, nextActionAt := None, nextActionType := None, reason := reason)
  }

  /** How a retry leaves a run that had made n attempts before. An accepted one waits for its result. A
      rejected one is due again after entry n + 1 of the schedule, unless the schedule or the maximum
      is used up. */
  function Retried(run: Run, policy: Policy, accepted: bool, now: Time): Run {
    var n := run.attemptCount + 1;
    var tried := run.(attemptCount := n, lastAttemptAt := Some(now), updatedAt := now);
    if accepted then
      tried.(state := AwaitingRetryResult, nextActionAt := None, nextActionType := None, reason := RetryRequested)
    else if n >= |policy.retrySchedule| || (policy.maxRetryAttempts > 0 && n >= policy.maxRetryAttempts)
            || ParseDelay(policy.retrySchedule[n]).Err? then
      Exhausted(tried, policy, RetriesExhausted)
    else
      tried.(state := Scheduled, nextActionAt := Some(now + ParseDelay(policy.retrySchedule[n]).value),
             nextActionType := Some(RetryPayment), reason := RetryRefused)
  }

  /** A retry calls the gateway once for a run that waits for it, records the attempt and logs it;
      otherwise it calls nothing and changes nothing. */
  lemma RetryOutcome(db: Db, s: Step)
    requires s.op.Retry? && Finished(PlanOf(db, s.op), s.stop)
    ensures var id, policy := s.op.id, PolicyOf(db, s.op.tenant);
            if Waits(db, s.op, RetryPayment) then
              var run := Retried(db.runs[id], policy, s.op.accepted, s.op.now);
              && CountRetries(EffectsDone(PlanOf(db, s.op), s.stop), id) == 1
              && Next(db, s) == db.(
                   policies := db.policies[s.op.tenant := policy],
                   runs := db.runs[id := run],
                   events := db.events + [Event(id, if s.op.accepted then RetryAttempted else RetryFailed, run.state,
                                                Some(RetryPayment), run.reason, run.attemptCount, s.op.now)])
            else
              Next(db, s) == db && EffectsDone(PlanOf(db, s.op), s.stop) == []
  {
    hide ParseDelay;
    FinishedTables(db, s);
    NoEffects(db);
    StoredThen(db, s.op.tenant, CallRetry(s.op.id, s.op.accepted));
    PlanCalls(db, s.op, s.op.id);
    if s.op.id < |db.runs| && !db.runs[s.op.id].paused {
      RetriedIs(db.runs[s.op.id], PolicyOf(db, s.op.tenant), s.op.accepted, s.op.now);
    }
    hide RetryAccepted, RetryRejected, Retried, ApplyEffects, PolicyEffects, PolicyOf, CountRetries;
  }

  lemma RetriedIs(run: Run, policy: Policy, accepted: bool, now: Time)
    requires !run.paused
    ensures Retried(run, policy, accepted, now) == if accepted then RetryAccepted(run, now) else RetryRejected(run, policy, now)
  {
    hide ParseDelay;
  }

  /** How the k-th reminder of a run, k counted up to 101, leaves it: waiting for entry k of the
      schedule, or with nothing left to do if there is none. */
  function Reminded(run: Run, policy: Policy, k: nat, now: Time): Run {
    var told := run.(updatedAt := now);
    if k >= |policy.reminderSchedule| || ParseDelay(policy.reminderSchedule[k]).Err? then
      Exhausted(told, policy, RemindersExhausted)
    else
      told.(state := AwaitingPaymentSetup, nextActionAt := Some(now + ParseDelay(policy.reminderSchedule[k]).value),
            nextActionType := Some(CollectPaymentReminder), reason := SetupPending)
  }

  /** A reminder queues an intent for a run that waits for it, moves the run on and logs that. It
      changes no run when the run does not wait for it or the customer is not found. */
  lemma RemindOutcome(db: Db, s: Step)
    requires s.op.Remind? && Finished(PlanOf(db, s.op), s.stop)
    ensures var id, policy, now := s.op.id, PolicyOf(db, s.op.tenant), s.op.now;
            if Waits(db, s.op, CollectPaymentReminder) && s.op.customerKnown then
              var earlier := CountIntents(db.intents, id);
              var k := if earlier > 100 then 101 else earlier + 1;
              var run := Reminded(db.runs[id], policy, k, now);
              var last := policy.reminderSchedule != [] && k >= |policy.reminderSchedule|;
              var kind := if run.nextActionType == Some(CollectPaymentReminder) then PaymentSetupPending
                          else if policy.finalAction == PauseRun then RunPaused else RunEscalated;
              Next(db, s) == db.(
                policies := db.policies[s.op.tenant := policy],
                runs := db.runs[id := run],
                intents := db.intents + [Intent(id, s.op.tenant, if last then FinalAttempt else PaymentMethodRequired, Queued,
                                                k, now, None)],
                events := db.events + [Event(id, kind, run.state, Some(CollectPaymentReminder), run.reason, run.attemptCount, now)])
            else
              Next(db, s).runs == db.runs && Next(db, s).intents == db.intents && Next(db, s).events == db.events
  {
    hide RemindedRun, Reminded, PolicyEffects, PolicyOf, CountIntents, ParseDelay, Next, Finished, PlanOf;
    RemindPlanWhole(db, s.op);
    if Waits(db, s.op, CollectPaymentReminder) && s.op.customerKnown {
      RemindedIs(db.runs[s.op.id], PolicyOf(db, s.op.tenant), ListedIntents(db, s.op.id), s.op.now);
      ActNext(db, s, CreateIntent(ReminderIntent(db, s.op)));
    } else {
      FinishedTables(db, s);
      NoEffects(db);
      StoredFirst(db, s.op.tenant);
    }
  }

  /** A plan of one effect, one run update and one event, carried out. */
  lemma ActNext(db: Db, s: Step, e: Effect)
    requires Finished(PlanOf(db, s.op), s.stop) && PlanOf(db, s.op).before == PolicyEffects(db, s.op.tenant) + [e]
    requires PlanOf(db, s.op).write.Update? && PlanOf(db, s.op).write.id < |db.runs| && PlanOf(db, s.op).event.Some?
    requires e.CreateIntent? || e.CallRetry?
    ensures var plan := PlanOf(db, s.op);
            Next(db, s) == db.(
              policies := db.policies[s.op.tenant := PolicyOf(db, s.op.tenant)],
              runs := db.runs[plan.write.id := plan.write.run],
              intents := db.intents + (if e.CreateIntent? then [e.intent] else []),
              events := db.events + [plan.event.value])
  {
    hide PlanOf, PolicyEffects, PolicyOf;
    FinishedTables(db, s);
    StoredThen(db, s.op.tenant, e);
  }

  lemma RemindPlanWhole(db: Db, op: Op)
    requires op.Remind?
    ensures if Waits(db, op, CollectPaymentReminder) && op.customerKnown then
              var run := RemindedRun(db.runs[op.id], PolicyOf(db, op.tenant), ListedIntents(db, op.id), op.now);
              var kind := if run.nextActionAt.Some? then PaymentSetupPending
                          else if PolicyOf(db, op.tenant).finalAction == PauseRun then RunPaused else RunEscalated;
              PlanOf(db, op) == Plan(PolicyEffects(db, op.tenant) + [CreateIntent(ReminderIntent(db, op))], Update(op.id, run),
                                     Some(EventOf(op.id, kind, run, Some(CollectPaymentReminder), op.now)))
            else
              PlanOf(db, op) == NOTHING || PlanOf(db, op) == Plan(PolicyEffects(db, op.tenant), NoWrite, None)
  {
    hide RemindedRun, ListedIntents, PolicyOf, PolicyEffects, ReminderIntentType, EventOf;
  }

  lemma RemindedIs(run: Run, policy: Policy, listed: nat, now: Time)
    requires !run.paused
    ensures Reminded(run, policy, listed + 1, now) == RemindedRun(run, policy, listed, now)
    ensures RemindedRun(run, policy, listed, now).nextActionAt.Some?
       <==> RemindedRun(run, policy, listed, now).nextActionType == Some(CollectPaymentReminder)
  {
    hide ParseDelay;
  }

  /** Delivering an intent marks it delivered, with the time, or not delivered, and logs which; the run
      is left alone. */
  lemma DispatchOutcome(db: Db, s: Step)
    requires s.op.Dispatch? && Finished(PlanOf(db, s.op), s.stop)
    requires s.op.index < |db.intents| && db.intents[s.op.index].runId < |db.runs|
    requires db.runs[db.intents[s.op.index].runId].tenant == s.op.tenant
    ensures var intent := db.intents[s.op.index];
            var run := db.runs[intent.runId];
            Next(db, s) == db.(
              intents := db.intents[s.op.index := intent.(
                tenant := s.op.tenant, status := if s.op.delivered then Dispatched else NotDelivered,
                dispatchedAt := if s.op.delivered then Some(s.op.now) else None)],
              events := db.events + [Event(intent.runId, if s.op.delivered then NotificationSent else NotificationFailed,
                                           run.state, Some(CollectPaymentReminder),
                                           if s.op.delivered then ReminderDispatched else ReminderNotDispatched,
                                           run.attemptCount, s.op.now)])
  {
    FinishedTables(db, s);
    var es := PlanOf(db, s.op).before;
    assert es[..1] == [es[0]] && es[..1][..0] == [];
    assert ApplyEffects(db, es[..1]) == db;
  }
}
