/**
  Dunning: chasing the payment of an overdue invoice.

  A run moves through its states by retrying the payment, reminding the customer to set
  a payment method up, and being re-evaluated against the invoice. This module holds the
  records, the scheduling and evaluation rules, and for every operation the `Plan` of what
  it does to the store, decided from what the operation reads.
 */
module Dunning {
  import opened Common
  import opened Text

  // ---------------------------------------------------------------------------
  // Records
  // ---------------------------------------------------------------------------

  datatype RunState =
    Scheduled | RetryDue | AwaitingPaymentSetup | AwaitingRetryResult | Resolved | Paused | Escalated | Exhausted

  datatype ActionType = RetryPayment | CollectPaymentReminder

  datatype Resolution = PaymentSucceeded | InvoiceNotCollectible | OperatorResolved | ResolvedByEscalation

  datatype EventType =
    | DunningStarted | RetryScheduled | RetryAttempted | RetrySucceeded | RetryFailed
    | PaymentSetupPending | PaymentSetupReady | NotificationSent | NotificationFailed
    | RunPaused | RunResumed | RunEscalated | RunResolved

  datatype Reason =
    | CustomerIdMissing | CustomerNotFound | CustomerInactive | SetupMissing | SetupPending | SetupReady
    | PaymentReprocessing | NotCollectible | Paid | RetryRequested | RetryRefused | RetriesExhausted
    | RemindersExhausted | PausedByOperator | ResolvedByOperator | ReminderDispatched | ReminderNotDispatched
    | Given(text: string)

  datatype FinalAction = ManualReview | PauseRun | WriteOffLater

  datatype Policy = Policy(
    enabled: bool, retrySchedule: seq<string>, maxRetryAttempts: int,
    reminderSchedule: seq<string>, finalAction: FinalAction, gracePeriodDays: int)

  datatype Run = Run(
    tenant: string, invoice: string, customer: string, state: RunState, reason: Reason,
    attemptCount: nat, lastAttemptAt: Option<Time>,
    nextActionAt: Option<Time>, nextActionType: Option<ActionType>,
    paused: bool, resolvedAt: Option<Time>, resolution: Option<Resolution>,
    createdAt: Time, updatedAt: Time)

  datatype Event = Event(
    runId: nat, eventType: EventType, state: RunState, action: Option<ActionType>, reason: Reason,
    attemptCount: nat, createdAt: Time)

  datatype IntentType = PaymentMethodRequired | FinalAttempt

  datatype IntentStatus = Queued | Dispatched | NotDelivered

  datatype Intent = Intent(
    runId: nat, tenant: string, intentType: IntentType, status: IntentStatus, sequence: nat,
    createdAt: Time, dispatchedAt: Option<Time>)

  /** The store. A run's id is its position; events and intents are in order of creation. */
  datatype Db = Db(policies: map<string, Policy>, runs: seq<Run>, events: seq<Event>, intents: seq<Intent>)

  // ---------------------------------------------------------------------------
  // Scheduling
  // ---------------------------------------------------------------------------

  const MINUTE: int := 60_000_000_000
  const HOUR: int := 60 * MINUTE
  const DAY: int := 24 * HOUR

  /** "3d", "12h" or "30m". The duration is a wrapping 64-bit count of nanoseconds. */
  function ParseDelay(value: string): Result<int64> {
    var trimmed := Normal(value);
    if |trimmed| < 2 then Err
    else
      var n, unit := Atoi(trimmed[..|trimmed| - 1]), trimmed[|trimmed| - 1];
      if n.Err? || n.value < 0 then Err
      else if unit == 'd' then Ok(Wrap64(n.value * DAY))
      else if unit == 'h' then Ok(Wrap64(n.value * HOUR))
      else if unit == 'm' then Ok(Wrap64(n.value * MINUTE))
      else Err
  }

  predicate ValidSchedule(schedule: seq<string>) {
    forall i | 0 <= i < |schedule| :: ParseDelay(schedule[i]).Ok?
  }

  function NormalizeSchedule(values: seq<string>): seq<string> {
    if values == [] then []
    else
      var rest, last := NormalizeSchedule(values[..|values| - 1]), Normal(values[|values| - 1]);
      if last == "" then rest else rest + [last]
  }

  /** When the first action of a freshly evaluated run is due. */
  function ScheduleFromPolicy(now: Time, gracePeriodDays: int, schedule: seq<string>): Result<Time> {
    var base := if gracePeriodDays > 0 then now + Wrap64(gracePeriodDays * DAY) else now;
    if schedule == [] then Ok(base)
    else
      match ParseDelay(schedule[0])
      case Err => Err
      case Ok(delay) => Ok(base + delay)
  }

  /** When the next action is due, or None when the schedule is exhausted. */
  function NextReminderActionAt(now: Time, schedule: seq<string>, nextIndex: nat): Option<Time> {
    if nextIndex >= |schedule| then None
    else
      match ParseDelay(schedule[nextIndex])
      case Err => None
      case Ok(delay) => Some(now + delay)
  }

  function NextRetryActionAt(now: Time, policy: Policy, attemptCount: nat): Option<Time> {
    if policy.maxRetryAttempts > 0 && attemptCount >= policy.maxRetryAttempts then None
    else NextReminderActionAt(now, policy.retrySchedule, attemptCount)
  }

  /** The effective retry cap. */
  function RetryCap(policy: Policy): nat {
    if policy.maxRetryAttempts <= 0 || policy.maxRetryAttempts > |policy.retrySchedule| then |policy.retrySchedule|
    else policy.maxRetryAttempts
  }

  // ---------------------------------------------------------------------------
  // Policy
  // ---------------------------------------------------------------------------

  const DEFAULT_POLICY := Policy(true, ["1d", "3d", "5d"], 3, ["0d", "2d", "5d"], ManualReview, 0)

  function PolicyOf(db: Db, tenant: string): Policy {
    if tenant in db.policies then db.policies[tenant] else DEFAULT_POLICY
  }

  datatype PolicyRequest = PolicyRequest(
    enabled: Option<bool>, retrySchedule: Option<seq<string>>, maxRetryAttempts: int,
    reminderSchedule: Option<seq<string>>, finalAction: Option<FinalAction>, gracePeriodDays: int)

  function UpdatedPolicy(policy: Policy, req: PolicyRequest): Result<Policy> {
    if req.retrySchedule.Some? && !ValidSchedule(req.retrySchedule.value) then Err
    else if req.maxRetryAttempts < 0 then Err
    else if req.reminderSchedule.Some? && !ValidSchedule(req.reminderSchedule.value) then Err
    else if req.gracePeriodDays < 0 then Err
    else Ok(Policy(
              if req.enabled.Some? then req.enabled.value else policy.enabled,
              if req.retrySchedule.Some? then NormalizeSchedule(req.retrySchedule.value) else policy.retrySchedule,
              req.maxRetryAttempts,
              if req.reminderSchedule.Some? then NormalizeSchedule(req.reminderSchedule.value) else policy.reminderSchedule,
              if req.finalAction.Some? then req.finalAction.value else policy.finalAction,
              req.gracePeriodDays))
  }

  // ---------------------------------------------------------------------------
  // Evaluation
  // ---------------------------------------------------------------------------

  datatype InvoiceView = InvoiceView(
    invoiceStatus: string, paymentStatus: string, paymentOverdue: Option<bool>, customer: string)

  datatype CustomerLookup = NoCustomer | FoundCustomer(active: bool)

  datatype SetupLookup = NoSetup | FoundSetup(ready: bool, defaultPaymentMethodPresent: bool)

  /** What an operation finds outside the dunning tables: the clock, the invoice, the customer. */
  datatype World = World(now: Time, view: InvoiceView, customer: CustomerLookup, setup: SetupLookup)

  predicate Succeeded(view: InvoiceView) {
    Normal(view.paymentStatus) == "succeeded" || Normal(view.paymentStatus) == "paid"
  }

  predicate RequiresDunning(view: InvoiceView) {
    && Normal(view.invoiceStatus) == "finalized"
    && !Succeeded(view)
    && (view.paymentOverdue == Some(true)
        || Normal(view.paymentStatus) == "failed" || Normal(view.paymentStatus) == "pending")
  }

  /** SetupReady, or why the default payment method cannot be charged. */
  function Readiness(world: World): Reason {
    if Trim(world.view.customer) == "" then CustomerIdMissing
    else
      match world.customer
      case NoCustomer => CustomerNotFound
      case FoundCustomer(active) =>
        if !active then CustomerInactive
        else
          match world.setup
          case NoSetup => SetupMissing
          case FoundSetup(ready, present) => if ready && present then SetupReady else SetupPending
  }

  datatype Evaluation =
    | Ineligible(reason: Reason, resolution: Resolution)
    | Eligible(state: RunState, reason: Reason, action: Option<ActionType>, at: Option<Time>)

  function Evaluate(policy: Policy, world: World): Result<Evaluation> {
    if !RequiresDunning(world.view) then
      Ok(if Succeeded(world.view) then Ineligible(Paid, PaymentSucceeded)
         else Ineligible(NotCollectible, InvoiceNotCollectible))
    else if Readiness(world) == SetupReady && Normal(world.view.paymentStatus) == "pending" then
      Ok(Eligible(AwaitingRetryResult, PaymentReprocessing, None, None))
    else
      var ready := Readiness(world) == SetupReady;
      match ScheduleFromPolicy(world.now, policy.gracePeriodDays,
                               if ready then policy.retrySchedule else policy.reminderSchedule)
      case Err => Err
      case Ok(at) =>
        if ready then Ok(Eligible(RetryDue, SetupReady, Some(RetryPayment), Some(at)))
        else Ok(Eligible(AwaitingPaymentSetup, Readiness(world), Some(CollectPaymentReminder), Some(at)))
  }

  predicate RunMatches(run: Run, eval: Evaluation)
    requires eval.Eligible?
  {
    run.state == eval.state && run.reason == eval.reason && run.nextActionType == eval.action && run.nextActionAt == eval.at
  }

  function TransitionEventType(previous: RunState, next: RunState): EventType {
    if previous == AwaitingRetryResult && (next == RetryDue || next == Scheduled) then RetryFailed
    else if next == Resolved then RunResolved
    else if previous == AwaitingPaymentSetup && (next == RetryDue || next == AwaitingRetryResult) then PaymentSetupReady
    else if next == AwaitingPaymentSetup then PaymentSetupPending
    else if next == RetryDue || next == Scheduled then RetryScheduled
    else if next == Paused then RunPaused
    else DunningStarted
  }

  // ---------------------------------------------------------------------------
  // Plans
  // ---------------------------------------------------------------------------

  /** Effects that touch neither the runs nor the event log. */
  datatype Effect =
    | UpsertPolicy(tenant: string, policy: Policy)
    | CallRetry(runId: nat, accepted: bool)
    | CallResend(runId: nat)
    | CreateIntent(intent: Intent)
    | UpdateIntent(index: nat, intent: Intent)

  datatype RunWrite = NoWrite | Create(run: Run) | Update(id: nat, run: Run)

  /** What an operation does, in order: effects, at most one run write, at most one event. */
  datatype Plan = Plan(before: seq<Effect>, write: RunWrite, event: Option<Event>)

  const NOTHING := Plan([], NoWrite, None)

  function ApplyEffect(db: Db, e: Effect): Db {
    match e
    case UpsertPolicy(tenant, policy) => db.(policies := db.policies[tenant := policy])
    case CreateIntent(intent) => db.(intents := db.intents + [intent])
    case UpdateIntent(i, intent) => if i < |db.intents| then db.(intents := db.intents[i := intent]) else db
    case CallRetry(_, _) => db
    case CallResend(_) => db
  }

  function ApplyEffects(db: Db, es: seq<Effect>): Db {
    if es == [] then db else ApplyEffect(ApplyEffects(db, es[..|es| - 1]), es[|es| - 1])
  }

  function ApplyWrite(db: Db, w: RunWrite): Db {
    match w
    case NoWrite => db
    case Create(run) => db.(runs := db.runs + [run])
    case Update(id, run) => if id < |db.runs| then db.(runs := db.runs[id := run]) else db
  }

  /** The effects that took place when the operation failed at its stop-th access to the store. */
  function EffectsDone(plan: Plan, stop: nat): seq<Effect> {
    if stop < |plan.before| then plan.before[..stop] else plan.before
  }

  predicate WriteDone(plan: Plan, stop: nat) {
    plan.write != NoWrite && stop > |plan.before|
  }

  predicate EventDone(plan: Plan, stop: nat) {
    plan.event.Some? && stop > |plan.before| + 1
  }

  predicate Finished(plan: Plan, stop: nat) {
    stop > |plan.before| + 1
  }

  /** Operations are not transactions: a failure leaves what was done before it. */
  function Perform(db: Db, plan: Plan, stop: nat): Db {
    var db1 := ApplyEffects(db, EffectsDone(plan, stop));
    var db2 := if WriteDone(plan, stop) then ApplyWrite(db1, plan.write) else db1;
    if EventDone(plan, stop) then db2.(events := db2.events + [plan.event.value]) else db2
  }

  function EventOf(id: nat, eventType: EventType, run: Run, action: Option<ActionType>, now: Time): Event {
    Event(id, eventType, run.state, action, run.reason, run.attemptCount, now)
  }

  function PolicyEffects(db: Db, tenant: string): seq<Effect> {
    if tenant in db.policies then [] else [UpsertPolicy(tenant, DEFAULT_POLICY)]
  }

  predicate Active(run: Run, tenant: string, invoice: string) {
    run.tenant == tenant && run.invoice == invoice && run.resolvedAt == None
  }

  /** The latest unresolved run of an invoice. */
  function ActiveRun(runs: seq<Run>, tenant: string, invoice: string): (r: Option<nat>)
    ensures r.Some? ==> r.value < |runs| && Active(runs[r.value], tenant, invoice)
                        && forall i | r.value < i < |runs| :: !Active(runs[i], tenant, invoice)
    ensures r.None? ==> forall i | 0 <= i < |runs| :: !Active(runs[i], tenant, invoice)
  {
    if runs == [] then None
    else if Active(runs[|runs| - 1], tenant, invoice) then Some(|runs| - 1)
    else ActiveRun(runs[..|runs| - 1], tenant, invoice)
  }

  predicate Known(db: Db, tenant: string, id: nat) {
    id < |db.runs| && db.runs[id].tenant == tenant
  }

  function ResolvedRun(run: Run, resolution: Resolution, reason: Reason, now: Time): Run {
    run.(state := Resolved, nextActionAt := None, nextActionType := None,
         resolvedAt := Some(now), resolution := Some(resolution), reason := reason, updatedAt := now)
  }

  function EvaluatedRun(run: Run, eval: Evaluation, now: Time): Run
    requires eval.Eligible?
  {
    run.(state := eval.state, reason := eval.reason, nextActionAt := eval.at, nextActionType := eval.action,
         resolvedAt := None, resolution := None, updatedAt := now)
  }

  function EnsurePlan(db: Db, tenant: string, invoice: string, world: World): Plan {
    var policy := PolicyOf(db, tenant);
    var eval := Evaluate(policy, world);
    var start := Plan(PolicyEffects(db, tenant), NoWrite, None);
    if Trim(invoice) == "" then NOTHING
    else if !policy.enabled || eval.Err? then start
    else
      match ActiveRun(db.runs, tenant, invoice)
      case None =>
        if eval.value.Ineligible? then start
        else
          var run := Run(tenant, invoice, world.view.customer, eval.value.state, eval.value.reason, 0, None,
                         eval.value.at, eval.value.action, false, None, None, world.now, world.now);
          start.(write := Create(run),
                 event := Some(EventOf(|db.runs|, DunningStarted, run, run.nextActionType, world.now)))
      case Some(id) =>
        var run := db.runs[id];
        if eval.value.Ineligible? then
          var resolved := ResolvedRun(run, eval.value.resolution, eval.value.reason, world.now);
          var kind := if run.state == AwaitingRetryResult && eval.value.resolution == PaymentSucceeded
                      then RetrySucceeded else RunResolved;
          start.(write := Update(id, resolved), event := Some(EventOf(id, kind, resolved, None, world.now)))
        else if run.paused || RunMatches(run, eval.value) then start
        else
          var updated := EvaluatedRun(run, eval.value, world.now).(customer := world.view.customer);
          start.(write := Update(id, updated),
                 event := Some(EventOf(id, TransitionEventType(run.state, updated.state), updated,
                                       updated.nextActionType, world.now)))
  }

  /** Retries and reminders share their guards. */
  predicate MayAct(db: Db, tenant: string, id: nat, action: ActionType, requireDue: bool, now: Time) {
    && Known(db, tenant, id)
    && db.runs[id].resolvedAt == None
    && !db.runs[id].paused
    && db.runs[id].nextActionType == Some(action)
    && (requireDue && db.runs[id].nextActionAt.Some? ==> db.runs[id].nextActionAt.value <= now)
  }

  /** Where a run goes when its schedule is exhausted. */
  function GivenUp(run: Run, policy: Policy, reason: Reason): Run {
    var stopped := run.(nextActionAt := None, nextActionType := None, reason := reason);
    if policy.finalAction == PauseRun then stopped.(paused := true, state := Paused) else stopped.(state := Escalated)
  }

  function AttemptedRun(run: Run, now: Time): Run {
    run.(attemptCount := run.attemptCount + 1, lastAttemptAt := Some(now), updatedAt := now)
  }

  function RetryAccepted(run: Run, now: Time): Run {
    AttemptedRun(run, now).(state := AwaitingRetryResult, nextActionAt := None, nextActionType := None,
                            reason := RetryRequested)
  }

  function RetryRejected(run: Run, policy: Policy, now: Time): Run {
    var attempted := AttemptedRun(run, now);
    match NextRetryActionAt(now, policy, attempted.attemptCount)
    case None => GivenUp(attempted, policy, RetriesExhausted)
    case Some(at) =>
      attempted.(state := Scheduled, nextActionAt := Some(at), nextActionType := Some(RetryPayment), reason := RetryRefused)
  }

  function RetryPlan(db: Db, tenant: string, id: nat, requireDue: bool, accepted: bool, now: Time): Plan {
    if !MayAct(db, tenant, id, RetryPayment, requireDue, now) then NOTHING
    else
      var run := if accepted then RetryAccepted(db.runs[id], now)
                 else RetryRejected(db.runs[id], PolicyOf(db, tenant), now);
      Plan(PolicyEffects(db, tenant) + [CallRetry(id, accepted)], Update(id, run),
           Some(EventOf(id, if accepted then RetryAttempted else RetryFailed, run, Some(RetryPayment), now)))
  }

  const INTENT_LIST_LIMIT: nat := 100

  function CountIntents(intents: seq<Intent>, id: nat): nat {
    if intents == [] then 0
    else CountIntents(intents[..|intents| - 1], id) + if intents[|intents| - 1].runId == id then 1 else 0
  }

  /** Intents are listed one page at a time, so no more than a page is ever counted. */
  function ListedIntents(db: Db, id: nat): nat {
    var n := CountIntents(db.intents, id);
    if n > INTENT_LIST_LIMIT then INTENT_LIST_LIMIT else n
  }

  function ReminderIntentType(schedule: seq<string>, listed: nat): IntentType {
    if listed + 1 >= |schedule| && |schedule| > 0 then FinalAttempt else PaymentMethodRequired
  }

  function RemindedRun(run: Run, policy: Policy, listed: nat, now: Time): Run {
    match NextReminderActionAt(now, policy.reminderSchedule, listed + 1)
    case None => GivenUp(run.(updatedAt := now), policy, RemindersExhausted)
    case Some(at) =>
      run.(updatedAt := now, state := AwaitingPaymentSetup, nextActionAt := Some(at),
           nextActionType := Some(CollectPaymentReminder), reason := SetupPending)
  }

  function ReminderPlan(db: Db, tenant: string, id: nat, requireDue: bool, customerKnown: bool, now: Time): Plan {
    if !MayAct(db, tenant, id, CollectPaymentReminder, requireDue, now) then NOTHING
    else if !customerKnown then Plan(PolicyEffects(db, tenant), NoWrite, None)
    else
      var policy, listed := PolicyOf(db, tenant), ListedIntents(db, id);
      var run := RemindedRun(db.runs[id], policy, listed, now);
      var intent := Intent(id, tenant, ReminderIntentType(policy.reminderSchedule, listed), Queued, listed + 1, now, None);
      var kind := if run.nextActionAt.Some? then PaymentSetupPending
                  else if policy.finalAction == PauseRun then RunPaused else RunEscalated;
      Plan(PolicyEffects(db, tenant) + [CreateIntent(intent)], Update(id, run),
           Some(EventOf(id, kind, run, Some(CollectPaymentReminder), now)))
  }

  /** Delivering a queued intent; it leaves the run alone. */
  function DispatchPlan(db: Db, tenant: string, index: nat, delivered: bool, now: Time): Plan {
    if index >= |db.intents| || !Known(db, tenant, db.intents[index].runId) then NOTHING
    else
      var intent := db.intents[index];
      var updated := intent.(tenant := tenant, status := if delivered then Dispatched else NotDelivered,
                             dispatchedAt := if delivered then Some(now) else None);
      var kind := if delivered then NotificationSent else NotificationFailed;
      var reason := if delivered then ReminderDispatched else ReminderNotDispatched;
      Plan([CallResend(intent.runId), UpdateIntent(index, updated)], NoWrite,
           Some(EventOf(intent.runId, kind, db.runs[intent.runId], Some(CollectPaymentReminder), now).(reason := reason)))
  }

  function PausePlan(db: Db, tenant: string, id: nat, now: Time): Plan {
    if !Known(db, tenant, id) || db.runs[id].resolvedAt.Some? || db.runs[id].paused || db.runs[id].state == Paused
    then NOTHING
    else
      var run := db.runs[id].(paused := true, state := Paused, nextActionAt := None, nextActionType := None,
                              reason := PausedByOperator, updatedAt := now);
      Plan([], Update(id, run), Some(EventOf(id, RunPaused, run, None, now)))
  }

  function ResumePlan(db: Db, tenant: string, id: nat, world: World): Plan {
    if !Known(db, tenant, id) || db.runs[id].resolvedAt.Some? || !(db.runs[id].paused || db.runs[id].state == Paused)
    then NOTHING
    else
      var start := Plan(PolicyEffects(db, tenant), NoWrite, None);
      var run := db.runs[id].(paused := false);
      match Evaluate(PolicyOf(db, tenant), world)
      case Err => start
      case Ok(Ineligible(reason, resolution)) =>
        var resolved := ResolvedRun(run, resolution, reason, world.now);
        start.(write := Update(id, resolved), event := Some(EventOf(id, RunResolved, resolved, None, world.now)))
      case Ok(eval) =>
        var resumed := EvaluatedRun(run, eval, world.now);
        start.(write := Update(id, resumed),
               event := Some(EventOf(id, RunResumed, resumed, resumed.nextActionType, world.now)))
  }

  function ResolvePlan(db: Db, tenant: string, id: nat, now: Time): Plan {
    if !Known(db, tenant, id) || db.runs[id].resolvedAt.Some? then NOTHING
    else
      var run := ResolvedRun(db.runs[id].(paused := false), OperatorResolved, ResolvedByOperator, now);
      Plan([], Update(id, run), Some(EventOf(id, RunResolved, run, None, now)))
  }

  function ResolveByInvoicePlan(db: Db, tenant: string, invoice: string, reason: string, now: Time): Plan {
    match ActiveRun(db.runs, tenant, invoice)
    case None => NOTHING
    case Some(id) =>
      var run := ResolvedRun(db.runs[id].(paused := false), PaymentSucceeded, Given(reason), now);
      Plan([], Update(id, run), Some(EventOf(id, RunResolved, run, None, now)))
  }

  function PutPolicyPlan(db: Db, tenant: string, req: PolicyRequest): Plan {
    var updated := UpdatedPolicy(PolicyOf(db, tenant), req);
    Plan(PolicyEffects(db, tenant) + if updated.Ok? then [UpsertPolicy(tenant, updated.value)] else [], NoWrite, None)
  }

  datatype Op =
    | Ensure(tenant: string, invoice: string, world: World)
    | Retry(tenant: string, id: nat, requireDue: bool, accepted: bool, now: Time)
    | Remind(tenant: string, id: nat, requireDue: bool, customerKnown: bool, now: Time)
    | Dispatch(tenant: string, index: nat, delivered: bool, now: Time)
    | Pause(tenant: string, id: nat, now: Time)
    | Resume(tenant: string, id: nat, world: World)
    | Resolve(tenant: string, id: nat, now: Time)
    | ResolveByInvoice(tenant: string, invoice: string, reason: string, now: Time)
    | PutPolicy(tenant: string, req: PolicyRequest)

  function PlanOf(db: Db, op: Op): Plan {
    match op
    case Ensure(tenant, invoice, world) => EnsurePlan(db, tenant, invoice, world)
    case Retry(tenant, id, requireDue, accepted, now) => RetryPlan(db, tenant, id, requireDue, accepted, now)
    case Remind(tenant, id, requireDue, known, now) => ReminderPlan(db, tenant, id, requireDue, known, now)
    case Dispatch(tenant, index, delivered, now) => DispatchPlan(db, tenant, index, delivered, now)
    case Pause(tenant, id, now) => PausePlan(db, tenant, id, now)
    case Resume(tenant, id, world) => ResumePlan(db, tenant, id, world)
    case Resolve(tenant, id, now) => ResolvePlan(db, tenant, id, now)
    case ResolveByInvoice(tenant, invoice, reason, now) => ResolveByInvoicePlan(db, tenant, invoice, reason, now)
    case PutPolicy(tenant, req) => PutPolicyPlan(db, tenant, req)
  }
}
