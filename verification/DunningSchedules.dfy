/**
  Left alone, a run works through its policy's schedule once, in order, and then gives up.
 */
module DunningSchedules {
  import opened Common
  import opened Text
  import opened Dunning
  import opened DunningHistory
  import opened DunningLog
  import opened DunningBounds

  // ---------------------------------------------------------------------------
  // Stored policies have valid schedules
  // ---------------------------------------------------------------------------

  ghost predicate PolicyOk(policy: Policy) {
    ValidSchedule(policy.retrySchedule) && ValidSchedule(policy.reminderSchedule)
  }

  ghost predicate PoliciesOk(db: Db) {
    forall t | t in db.policies :: PolicyOk(db.policies[t])
  }

  /** Normalizing a schedule that was accepted keeps its length, its order and its delays. */
  lemma {:induction false} NormalizeKeepsDelays(values: seq<string>)
    requires ValidSchedule(values)
    ensures var out := NormalizeSchedule(values);
            |out| == |values| && forall i | 0 <= i < |out| :: ParseDelay(out[i]) == ParseDelay(values[i])
  {
    hide ParseDelay, Normal;
    if values != [] {
      var rest, last := values[..|values| - 1], values[|values| - 1];
      NormalizeKeepsDelays(rest);
      NormalKeepsDelay(last);
      assert ParseDelay(values[|values| - 1]).Ok?;
    }
  }

  lemma NormalKeepsDelay(value: string)
    ensures ParseDelay(Normal(value)) == ParseDelay(value)
    ensures ParseDelay(value).Ok? ==> Normal(value) != ""
  {
    NormalIdempotent(value);
    hide Normal, Atoi;
  }

  lemma DefaultPolicyOk()
    ensures PolicyOk(DEFAULT_POLICY)
  {
    hide ParseDelay;
    DayDelay('0');
    DayDelay('1');
    DayDelay('2');
    DayDelay('3');
    DayDelay('5');
    assert DEFAULT_POLICY.retrySchedule == ["1d", "3d", "5d"];
    assert DEFAULT_POLICY.reminderSchedule == ["0d", "2d", "5d"];
  }

  lemma DayDelay(digit: char)
    requires '0' <= digit <= '9'
    ensures ParseDelay([digit, 'd']) == Ok(Wrap64((digit as int - '0' as int) * DAY))
  {
    var s := [digit, 'd'];
    assert Trim(s) == s && Lower(s) == s;
    assert s[..1] == [digit];
    assert [digit][..0] == "";
    assert Digits([digit]) == Ok(digit as int - '0' as int);
  }

  lemma UpdatedPolicyOk(policy: Policy, req: PolicyRequest)
    requires PolicyOk(policy) && UpdatedPolicy(policy, req).Ok?
    ensures PolicyOk(UpdatedPolicy(policy, req).value)
  {
    hide ParseDelay, NormalizeSchedule;
    if req.retrySchedule.Some? {
      NormalizeKeepsDelays(req.retrySchedule.value);
    }
    if req.reminderSchedule.Some? {
      NormalizeKeepsDelays(req.reminderSchedule.value);
    }
  }

  lemma PlanPoliciesOk(db: Db, op: Op)
    requires PoliciesOk(db)
    ensures forall e | e in PlanOf(db, op).before && e.UpsertPolicy? :: PolicyOk(e.policy)
  {
    DefaultPolicyOk();
    hide Evaluate, NextRetryActionAt, NextReminderActionAt, Trim, CountIntents, UpdatedPolicy, MayAct, PolicyOk;
    if op.PutPolicy? && UpdatedPolicy(PolicyOf(db, op.tenant), op.req).Ok? {
      UpdatedPolicyOk(PolicyOf(db, op.tenant), op.req);
    }
  }

  lemma {:induction false} EffectsKeepPoliciesOk(db: Db, es: seq<Effect>)
    requires PoliciesOk(db) && forall e | e in es && e.UpsertPolicy? :: PolicyOk(e.policy)
    ensures PoliciesOk(ApplyEffects(db, es))
  {
    hide PolicyOk;
    if es != [] {
      assert forall e | e in es[..|es| - 1] :: e in es;
      EffectsKeepPoliciesOk(db, es[..|es| - 1]);
      assert es[|es| - 1] in es;
    }
  }

  /** In every history every stored policy has schedules that parse to the last entry. */
  lemma {:induction false} PoliciesStayOk(db: Db, h: seq<Step>)
    requires PoliciesOk(db)
    ensures PoliciesOk(Exec(db, h))
  {
    hide PlanOf, PolicyOk;
    if h != [] {
      var before, s := Exec(db, h[..|h| - 1]), h[|h| - 1];
      PoliciesStayOk(db, h[..|h| - 1]);
      PlanPoliciesOk(before, s.op);
      var es := EffectsDone(PlanOf(before, s.op), s.stop);
      assert forall e | e in es :: e in PlanOf(before, s.op).before;
      EffectsKeepPoliciesOk(before, es);
    }
  }

  // ---------------------------------------------------------------------------
  // Retries
  // ---------------------------------------------------------------------------

  function Delay(schedule: seq<string>, i: nat): int
    requires ValidSchedule(schedule) && i < |schedule|
  {
    ParseDelay(schedule[i]).value
  }

  function FailedRetry(tenant: string, id: nat, now: Time): Step {
    Step(Retry(tenant, id, false, false, now), 4)
  }

  /** Failing retries at the given times. */
  function FailedRetries(tenant: string, id: nat, nows: seq<Time>): seq<Step> {
    seq(|nows|, i requires 0 <= i < |nows| => FailedRetry(tenant, id, nows[i]))
  }

  function RetriesMade(policy: Policy): nat {
    if RetryCap(policy) == 0 then 1 else RetryCap(policy)
  }

  /** What n failing retries leave of a run that was waiting for its first. */
  ghost predicate AfterRetries(run: Run, policy: Policy, nows: seq<Time>)
    requires PolicyOk(policy)
  {
    var n, made := |nows|, RetriesMade(policy);
    if n == 0 then run.state == RetryDue && run.nextActionType == Some(RetryPayment) && run.attemptCount == 0
                   && !run.paused && run.resolvedAt == None
    else if n < made then
      && run.state == Scheduled && run.nextActionType == Some(RetryPayment) && run.attemptCount == n
      && !run.paused && run.resolvedAt == None
      && run.nextActionAt == Some(nows[n - 1] + Delay(policy.retrySchedule, n))
    else
      && run.attemptCount == made && run.nextActionType == None && run.reason == RetriesExhausted
      && run.resolvedAt == None
      && run.paused == (policy.finalAction == PauseRun)
      && run.state == (if policy.finalAction == PauseRun then Paused else Escalated)
  }

  lemma RejectedRun(run: Run, policy: Policy, nows: seq<Time>, now: Time)
    requires PolicyOk(policy) && AfterRetries(run, policy, nows) && |nows| < RetriesMade(policy)
    ensures AfterRetries(RetryRejected(run, policy, now), policy, nows + [now])
  {
    hide ParseDelay;
    var k := |nows| + 1;
    if k < RetriesMade(policy) {
      assert ParseDelay(policy.retrySchedule[k]).Ok?;
    }
  }

  lemma CallChangesNothing(db: Db, id: nat, accepted: bool)
    ensures ApplyEffects(db, [CallRetry(id, accepted)]) == db && ApplyEffects(db, []) == db
  {
    assert [CallRetry(id, accepted)][..0] == [];
  }

  lemma FailedRetryStep(db: Db, tenant: string, id: nat, now: Time)
    requires tenant in db.policies && Known(db, tenant, id)
    ensures var s := FailedRetry(tenant, id, now);
            var may := MayAct(db, tenant, id, RetryPayment, false, now);
            && Finished(PlanOf(db, s.op), s.stop)
            && PlanOf(db, s.op).before == (if may then [CallRetry(id, false)] else [])
            && Next(db, s).policies == db.policies
            && Next(db, s).runs ==
               if may then db.runs[id := RetryRejected(db.runs[id], db.policies[tenant], now)] else db.runs
  {
    hide RetryRejected, EventOf;
    var s := FailedRetry(tenant, id, now);
    StepTables(db, s);
    CallChangesNothing(db, id, false);
    var plan := PlanOf(db, s.op);
    assert plan.before == (if MayAct(db, tenant, id, RetryPayment, false, now) then [CallRetry(id, false)] else []);
    hide MayAct, ApplyEffects;
  }

  lemma OneFailedRetry(db: Db, tenant: string, id: nat, nows: seq<Time>, now: Time)
    requires tenant in db.policies && Known(db, tenant, id) && PolicyOk(db.policies[tenant])
    requires AfterRetries(db.runs[id], db.policies[tenant], nows)
    ensures var db' := Next(db, FailedRetry(tenant, id, now));
            && db'.policies == db.policies && Known(db', tenant, id)
            && AfterRetries(db'.runs[id], db.policies[tenant], nows + [now])
    ensures CountRetries(PlanOf(db, FailedRetry(tenant, id, now).op).before, id)
         == if |nows| < RetriesMade(db.policies[tenant]) then 1 else 0
  {
    hide RetryRejected, PlanOf, Next, CountRetries, ParseDelay;
    FailedRetryStep(db, tenant, id, now);
    if |nows| < RetriesMade(db.policies[tenant]) {
      RejectedRun(db.runs[id], db.policies[tenant], nows, now);
      RejectedKeepsTenant(db.runs[id], db.policies[tenant], now);
    }
    CountFew(PlanOf(db, FailedRetry(tenant, id, now).op).before, id);
  }

  lemma RejectedKeepsTenant(run: Run, policy: Policy, now: Time)
    ensures RetryRejected(run, policy, now).tenant == run.tenant
  {
    hide NextRetryActionAt;
  }

  /** From a fresh run without re-evaluation, failing retries stop after exactly max(1, L) payment
      requests: the j-th leaves the run scheduled after the j-th delay of the schedule, and the last
      one pauses or escalates it as the policy says. */
  lemma {:induction false} RetriesFollowSchedule(db: Db, tenant: string, id: nat, nows: seq<Time>)
    requires tenant in db.policies && Known(db, tenant, id) && PolicyOk(db.policies[tenant])
    requires AfterRetries(db.runs[id], db.policies[tenant], [])
    ensures var db' := Exec(db, FailedRetries(tenant, id, nows));
            && db'.policies == db.policies && Known(db', tenant, id)
            && AfterRetries(db'.runs[id], db.policies[tenant], nows)
    ensures CountRetries(Performed(db, FailedRetries(tenant, id, nows)), id)
         == if |nows| < RetriesMade(db.policies[tenant]) then |nows| else RetriesMade(db.policies[tenant])
  {
    hide Next, PlanOf, AfterRetries, RetriesMade, PolicyOk, CountRetries;
    if nows == [] {
      CountFew([], id);
    } else {
      var rest, now := nows[..|nows| - 1], nows[|nows| - 1];
      assert nows == rest + [now];
      RetriesFollowSchedule(db, tenant, id, rest);
      var h, s := FailedRetries(tenant, id, rest), FailedRetry(tenant, id, now);
      assert FailedRetries(tenant, id, nows)[..|h|] == h && FailedRetries(tenant, id, nows)[|h|] == s;
      var before := Exec(db, h);
      OneFailedRetry(before, tenant, id, rest, now);
      FailedRetryStep(before, tenant, id, now);
      CountRetriesConcat(Performed(db, h), PlanOf(before, s.op).before, id);
    }
  }

  // ---------------------------------------------------------------------------
  // Reminders
  // ---------------------------------------------------------------------------

  /** A reminder whose customer is found. */
  function Reminder(tenant: string, id: nat, now: Time): Step {
    Step(Remind(tenant, id, false, true, now), 4)
  }

  function Reminders(tenant: string, id: nat, nows: seq<Time>): seq<Step> {
    seq(|nows|, i requires 0 <= i < |nows| => Reminder(tenant, id, nows[i]))
  }

  /** How many reminders a schedule allows, if any number: beyond a page of intents the count of
      earlier reminders stops growing, and so does the position in the schedule. */
  function RemindersMade(schedule: seq<string>): Option<nat> {
    if |schedule| == 0 then Some(1)
    else if |schedule| <= INTENT_LIST_LIMIT + 1 then Some(|schedule|)
    else None
  }

  function Listed(n: nat): nat {
    if n > INTENT_LIST_LIMIT then INTENT_LIST_LIMIT else n
  }

  predicate RemindersOver(schedule: seq<string>, n: nat) {
    RemindersMade(schedule).Some? && n >= RemindersMade(schedule).value
  }

  /** What n reminders leave of a run that was waiting for its first. */
  ghost predicate AfterReminders(run: Run, policy: Policy, nows: seq<Time>)
    requires PolicyOk(policy)
  {
    var n := |nows|;
    if RemindersOver(policy.reminderSchedule, n) then
      && run.nextActionType == None && run.reason == RemindersExhausted && run.resolvedAt == None
      && run.paused == (policy.finalAction == PauseRun)
      && run.state == (if policy.finalAction == PauseRun then Paused else Escalated)
    else
      && run.state == AwaitingPaymentSetup && run.nextActionType == Some(CollectPaymentReminder)
      && !run.paused && run.resolvedAt == None
      && (n > 0 ==> Listed(n - 1) + 1 < |policy.reminderSchedule|
                    && run.nextActionAt == Some(nows[n - 1] + Delay(policy.reminderSchedule, Listed(n - 1) + 1)))
  }

  lemma RemindedRunIs(run: Run, policy: Policy, nows: seq<Time>, now: Time)
    requires PolicyOk(policy) && AfterReminders(run, policy, nows) && !RemindersOver(policy.reminderSchedule, |nows|)
    ensures AfterReminders(RemindedRun(run, policy, Listed(|nows|), now), policy, nows + [now])
    ensures RemindedRun(run, policy, Listed(|nows|), now).tenant == run.tenant
  {
    hide ParseDelay;
    var k := Listed(|nows|) + 1;
    if k < |policy.reminderSchedule| {
      assert ParseDelay(policy.reminderSchedule[k]).Ok?;
    }
  }

  lemma FinalIntent(run: Run, policy: Policy, listed: nat, now: Time)
    requires PolicyOk(policy)
    ensures ReminderIntentType(policy.reminderSchedule, listed) == FinalAttempt
       <==> policy.reminderSchedule != [] && RemindedRun(run, policy, listed, now).nextActionType == None
    ensures policy.reminderSchedule == [] ==> RemindedRun(run, policy, listed, now).nextActionType == None
  {
    hide ParseDelay;
    if listed + 1 < |policy.reminderSchedule| {
      assert ParseDelay(policy.reminderSchedule[listed + 1]).Ok?;
      assert RemindedRun(run, policy, listed, now).nextActionType == Some(CollectPaymentReminder);
    } else {
      assert RemindedRun(run, policy, listed, now).nextActionType == None;
    }
  }

  /** The intent a reminder queues is marked as the final attempt if and only if it leaves the run
      without a next action and the schedule is not empty; an empty schedule is exhausted by the
      first reminder, whose intent is not marked. */
  lemma FinalAttemptIff(db: Db, s: Step)
    requires s.op.Remind? && Finished(PlanOf(db, s.op), s.stop) && PlanOf(db, s.op).write.Update?
    requires PolicyOk(PolicyOf(db, s.op.tenant))
    ensures var db' := Next(db, s);
            && s.op.id < |db'.runs| && |db'.intents| == |db.intents| + 1 && db.intents <= db'.intents
            && db'.intents[|db.intents|].runId == s.op.id
            && var schedule, exhausted := PolicyOf(db, s.op.tenant).reminderSchedule, db'.runs[s.op.id].nextActionType == None;
               && (db'.intents[|db.intents|].intentType == FinalAttempt <==> exhausted && schedule != [])
               && (schedule == [] ==> exhausted)
  {
    var policy, listed := PolicyOf(db, s.op.tenant), ListedIntents(db, s.op.id);
    FinalIntent(db.runs[s.op.id], policy, listed, s.op.now);
    RemindPlanIs(db, s.op);
    QueueAddsIntent(db, s.op.tenant, ReminderIntent(db, s.op));
    hide PlanOf, RemindedRun, ReminderIntentType, ListedIntents, PolicyOk, PolicyOf, PolicyEffects, ApplyEffects;
  }

  function ReminderIntent(db: Db, op: Op): Intent
    requires op.Remind?
  {
    var listed := ListedIntents(db, op.id);
    Intent(op.id, op.tenant, ReminderIntentType(PolicyOf(db, op.tenant).reminderSchedule, listed), Queued, listed + 1, op.now, None)
  }

  lemma RemindPlanIs(db: Db, op: Op)
    requires op.Remind? && PlanOf(db, op).write.Update?
    ensures op.id < |db.runs|
    ensures PlanOf(db, op).before == PolicyEffects(db, op.tenant) + [CreateIntent(ReminderIntent(db, op))]
    ensures PlanOf(db, op).write
         == Update(op.id, RemindedRun(db.runs[op.id], PolicyOf(db, op.tenant), ListedIntents(db, op.id), op.now))
  {
    hide RemindedRun, ListedIntents, PolicyOf, PolicyEffects, ReminderIntentType, EventOf;
  }

  lemma QueueAddsIntent(db: Db, tenant: string, intent: Intent)
    ensures ApplyEffects(db, PolicyEffects(db, tenant) + [CreateIntent(intent)]).intents == db.intents + [intent]
    ensures ApplyEffects(db, PolicyEffects(db, tenant) + [CreateIntent(intent)]).runs == db.runs
  {
    var es := PolicyEffects(db, tenant);
    EffectsKeepRuns(db, es);
    assert (es + [CreateIntent(intent)])[..|es|] == es;
    assert ApplyEffects(db, es).intents == db.intents by {
      if es != [] {
        assert es[..0] == [];
      }
    }
  }

  lemma ReminderStep(db: Db, tenant: string, id: nat, now: Time)
    requires tenant in db.policies && Known(db, tenant, id)
    ensures var s := Reminder(tenant, id, now);
            var may := MayAct(db, tenant, id, CollectPaymentReminder, false, now);
            && Next(db, s).policies == db.policies
            && CountIntents(Next(db, s).intents, id) == CountIntents(db.intents, id) + (if may then 1 else 0)
            && Next(db, s).runs ==
               if may then db.runs[id := RemindedRun(db.runs[id], db.policies[tenant], ListedIntents(db, id), now)] else db.runs
  {
    hide RemindedRun, ListedIntents;
    var s := Reminder(tenant, id, now);
    StepTables(db, s);
    var es := PlanOf(db, s.op).before;
    assert ApplyEffects(db, []) == db;
    if es != [] {
      assert es[..0] == [];
      assert ApplyEffects(db, es) == ApplyEffect(db, es[0]);
      assert (db.intents + [es[0].intent])[..|db.intents|] == db.intents;
    }
  }

  /** From a fresh run without re-evaluation, reminders use the delays of the schedule in order and
      the run gives up after exactly max(1, |schedule|) of them if the schedule has at most 101
      entries; a longer schedule is never exhausted. */
  lemma {:induction false} RemindersFollowSchedule(db: Db, tenant: string, id: nat, nows: seq<Time>)
    requires tenant in db.policies && Known(db, tenant, id) && PolicyOk(db.policies[tenant])
    requires AfterReminders(db.runs[id], db.policies[tenant], []) && CountIntents(db.intents, id) == 0
    ensures var db' := Exec(db, Reminders(tenant, id, nows));
            var made := RemindersMade(db.policies[tenant].reminderSchedule);
            && db'.policies == db.policies && Known(db', tenant, id)
            && AfterReminders(db'.runs[id], db.policies[tenant], nows)
            && CountIntents(db'.intents, id) == if made.Some? && |nows| >= made.value then made.value else |nows|
  {
    hide Next, PlanOf, AfterReminders, PolicyOk, RemindedRun, CountIntents, ParseDelay;
    if nows != [] {
      var rest, now := nows[..|nows| - 1], nows[|nows| - 1];
      assert nows == rest + [now];
      RemindersFollowSchedule(db, tenant, id, rest);
      var h, s := Reminders(tenant, id, rest), Reminder(tenant, id, now);
      assert Reminders(tenant, id, nows)[..|h|] == h && Reminders(tenant, id, nows)[|h|] == s;
      OneReminder(Exec(db, h), tenant, id, rest, now);
    }
  }

  lemma OneReminder(db: Db, tenant: string, id: nat, nows: seq<Time>, now: Time)
    requires tenant in db.policies && Known(db, tenant, id) && PolicyOk(db.policies[tenant])
    requires AfterReminders(db.runs[id], db.policies[tenant], nows)
    requires var made := RemindersMade(db.policies[tenant].reminderSchedule);
             CountIntents(db.intents, id) == if made.Some? && |nows| >= made.value then made.value else |nows|
    ensures var db' := Next(db, Reminder(tenant, id, now));
            var made := RemindersMade(db.policies[tenant].reminderSchedule);
            && db'.policies == db.policies && Known(db', tenant, id)
            && AfterReminders(db'.runs[id], db.policies[tenant], nows + [now])
            && CountIntents(db'.intents, id) == if made.Some? && |nows| + 1 >= made.value then made.value else |nows| + 1
  {
    hide Next, PlanOf, RemindedRun, CountIntents, ParseDelay;
    ReminderStep(db, tenant, id, now);
    if !RemindersOver(db.policies[tenant].reminderSchedule, |nows|) {
      RemindedRunIs(db.runs[id], db.policies[tenant], nows, now);
    }
  }

  // ---------------------------------------------------------------------------
  // Retries are armed in practice
  // ---------------------------------------------------------------------------

  /** An unpaid finalized invoice of an active customer with a payment method. */
  function FailedPayment(now: Time): World {
    World(now, InvoiceView("finalized", "failed", None, "customer"), FoundCustomer(true), FoundSetup(true, true))
  }

  lemma FailedPaymentArmsRetry(policy: Policy, now: Time)
    requires PolicyOk(policy) && policy.enabled
    ensures ArmsRetry(policy, FailedPayment(now))
  {
    hide ParseDelay, Normal;
    FailedPaymentText();
    var schedule := policy.retrySchedule;
    assert schedule != [] ==> ParseDelay(schedule[0]).Ok?;
  }

  lemma FailedPaymentText()
    ensures Normal("finalized") == "finalized" && Normal("failed") == "failed" && Trim("customer") == "customer"
  {
    assert Lower("finalized") == "finalized" && Lower("failed") == "failed";
  }
}
