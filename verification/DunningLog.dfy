/**
  The event log accounts for the runs: in a history whose store writes all succeed, the
  log alone tells every run's state and number of attempts.
 */
module DunningLog {
  import opened Common
  import opened Dunning
  import opened DunningHistory

  function LastEvent(events: seq<Event>, id: nat): Option<Event> {
    if events == [] then None
    else if events[|events| - 1].runId == id then Some(events[|events| - 1])
    else LastEvent(events[..|events| - 1], id)
  }

  /** A retry_failed event in state retry_due reports a failed payment found by a re-evaluation;
      every other one, and every retry_attempted, is an attempt. */
  predicate IsAttempt(e: Event) {
    e.eventType == RetryAttempted || (e.eventType == RetryFailed && e.state != RetryDue)
  }

  function CountAttempts(events: seq<Event>, id: nat): nat {
    if events == [] then 0
    else CountAttempts(events[..|events| - 1], id)
         + if events[|events| - 1].runId == id && IsAttempt(events[|events| - 1]) then 1 else 0
  }

  ghost predicate Accounts(events: seq<Event>, id: nat, run: Run) {
    && LastEvent(events, id).Some?
    && LastEvent(events, id).value.state == run.state
    && LastEvent(events, id).value.attemptCount == run.attemptCount
    && CountAttempts(events, id) == run.attemptCount
  }

  ghost predicate LogOk(db: Db) {
    && (forall id | 0 <= id < |db.runs| :: Accounts(db.events, id, db.runs[id]))
    && (forall i | 0 <= i < |db.events| :: db.events[i].runId < |db.runs|)
  }

  /** Every operation of the history got through all its accesses to the store. */
  ghost predicate Clean(db: Db, h: seq<Step>) {
    h == [] || (
      && Clean(db, h[..|h| - 1])
      && Finished(PlanOf(Exec(db, h[..|h| - 1]), h[|h| - 1].op), h[|h| - 1].stop))
  }

  /** Each plan logs the run as the plan leaves it, and an attempt exactly when it makes one. */
  ghost predicate EventFits(db: Db, op: Op, plan: Plan) {
    match plan.write
    case NoWrite =>
      plan.event.Some? ==>
        && plan.event.value.runId < |db.runs| && !IsAttempt(plan.event.value)
        && plan.event.value.state == db.runs[plan.event.value.runId].state
        && plan.event.value.attemptCount == db.runs[plan.event.value.runId].attemptCount
    case Create(run) =>
      && plan.event.Some? && plan.event.value.runId == |db.runs| && !IsAttempt(plan.event.value)
      && plan.event.value.state == run.state && plan.event.value.attemptCount == run.attemptCount
    case Update(id, run) =>
      && plan.event.Some? && plan.event.value.runId == id && (IsAttempt(plan.event.value) <==> op.Retry?)
      && plan.event.value.state == run.state && plan.event.value.attemptCount == run.attemptCount
  }

  lemma EnsureEventFits(db: Db, op: Op)
    requires op.Ensure?
    ensures EventFits(db, op, PlanOf(db, op))
  {
    hide Evaluate, Text.Trim;
    EvaluationOk(PolicyOf(db, op.tenant), op.world);
  }

  lemma ActEventFits(db: Db, op: Op)
    requires op.Retry? || op.Remind?
    ensures EventFits(db, op, PlanOf(db, op))
  {
    hide NextRetryActionAt, NextReminderActionAt, CountIntents;
  }

  lemma PlanEventFits(db: Db, op: Op)
    ensures EventFits(db, op, PlanOf(db, op))
  {
    hide EnsurePlan, RetryPlan, ReminderPlan, Evaluate, UpdatedPolicy, EventFits;
    match op
    case Ensure(_, _, _) => EnsureEventFits(db, op);
    case Retry(_, _, _, _, _) => ActEventFits(db, op);
    case Remind(_, _, _, _, _) => ActEventFits(db, op);
    case _ => OtherEventFits(db, op);
  }

  lemma OtherEventFits(db: Db, op: Op)
    requires !op.Ensure? && !op.Retry? && !op.Remind?
    ensures EventFits(db, op, PlanOf(db, op))
  {
    hide EnsurePlan, RetryPlan, ReminderPlan, Evaluate, UpdatedPolicy;
  }

  lemma LogAppend(events: seq<Event>, e: Event, id: nat)
    ensures LastEvent(events + [e], id) == if e.runId == id then Some(e) else LastEvent(events, id)
    ensures CountAttempts(events + [e], id) == CountAttempts(events, id) + if e.runId == id && IsAttempt(e) then 1 else 0
  {
    assert (events + [e])[..|events|] == events;
  }

  lemma {:induction false} NoEventsYet(events: seq<Event>, id: nat)
    requires forall i | 0 <= i < |events| :: events[i].runId != id
    ensures CountAttempts(events, id) == 0
  {
    if events != [] {
      NoEventsYet(events[..|events| - 1], id);
    }
  }

  lemma StepKeepsLog(db: Db, s: Step)
    requires Inv(db) && LogOk(db) && Finished(PlanOf(db, s.op), s.stop)
    ensures LogOk(Next(db, s))
  {
    hide PlanOf, RunOk, Next, LastEvent, CountAttempts, IsAttempt;
    var plan := PlanOf(db, s.op);
    PlanEventFits(db, s.op);
    StepTables(db, s);
    if plan.write.Update? {
      UpdateIsTransition(db, s.op);
    }
    if plan.write.Create? {
      CreateIsFresh(db, s.op);
      NoEventsYet(db.events, |db.runs|);
    }
    if plan.event.Some? {
      forall id | 0 <= id < |Next(db, s).runs| ensures Accounts(Next(db, s).events, id, Next(db, s).runs[id]) {
        LogAppend(db.events, plan.event.value, id);
      }
    } else {
      assert Next(db, s).events == db.events;
    }
  }

  /** In a clean history the last event of every run carries the run's current state and attempt
      count, and the attempt count is the number of attempt events. */
  lemma {:induction false} LogAccountsForRuns(h: seq<Step>)
    requires Clean(EMPTY, h)
    ensures LogOk(Exec(EMPTY, h))
  {
    hide Next, PlanOf, LogOk;
    if h == [] {
      NoRunsNoEvents();
    } else {
      LogAccountsForRuns(h[..|h| - 1]);
      HistoryFromEmpty(h[..|h| - 1]);
      StepKeepsLog(Exec(EMPTY, h[..|h| - 1]), h[|h| - 1]);
    }
  }

  lemma NoRunsNoEvents()
    ensures LogOk(EMPTY)
  {
  }

  // ---------------------------------------------------------------------------
  // The log counts the payment requests
  // ---------------------------------------------------------------------------

  function CountRetries(es: seq<Effect>, id: nat): nat {
    if es == [] then 0
    else CountRetries(es[..|es| - 1], id) + if RetriesRun(es[|es| - 1], id) then 1 else 0
  }

  lemma {:induction false} CountRetriesConcat(a: seq<Effect>, b: seq<Effect>, id: nat)
    ensures CountRetries(a + b, id) == CountRetries(a, id) + CountRetries(b, id)
  {
    if b == [] {
      assert a + b == a;
    } else {
      CountRetriesConcat(a, b[..|b| - 1], id);
      assert (a + b)[..|a + b| - 1] == a + b[..|b| - 1];
    }
  }

  /** A plan calls the payment gateway once if it is a retry that passes its guards, else never. */
  lemma PlanCalls(db: Db, op: Op, id: nat)
    ensures CountRetries(PlanOf(db, op).before, id)
         == if op.Retry? && op.id == id && PlanOf(db, op).write.Update? then 1 else 0
  {
    hide Evaluate, NextRetryActionAt, NextReminderActionAt, Text.Trim, CountIntents, UpdatedPolicy, MayAct, CountRetries;
    var before := PlanOf(db, op).before;
    CountFew(before, id);
  }

  lemma CountFew(es: seq<Effect>, id: nat)
    requires |es| <= 2
    ensures CountRetries(es, id) == (if |es| > 0 && RetriesRun(es[0], id) then 1 else 0)
                                   + (if |es| > 1 && RetriesRun(es[1], id) then 1 else 0)
  {
    if |es| > 0 {
      assert |es| > 1 ==> es[..|es| - 1][0] == es[0];
      assert CountRetries(es[..0], id) == 0;
    }
  }

  /** In a clean history a run's attempt count is the number of payment requests made for it. */
  lemma {:induction false} AttemptsAreRequests(h: seq<Step>, id: nat)
    requires Clean(EMPTY, h)
    ensures CountRetries(Performed(EMPTY, h), id)
         == if id < |Exec(EMPTY, h).runs| then Exec(EMPTY, h).runs[id].attemptCount else 0
  {
    hide Next, PlanOf, Transition, RunOk, CountRetries;
    if h == [] {
      CountFew([], id);
    } else {
      var rest, s := h[..|h| - 1], h[|h| - 1];
      var db := Exec(EMPTY, rest);
      AttemptsAreRequests(rest, id);
      HistoryFromEmpty(rest);
      CountRetriesConcat(Performed(EMPTY, rest), PlanOf(db, s.op).before, id);
      PlanCalls(db, s.op, id);
      AttemptStep(db, s, id);
    }
  }

  lemma AttemptStep(db: Db, s: Step, id: nat)
    requires Inv(db) && Finished(PlanOf(db, s.op), s.stop)
    ensures var runs := Next(db, s).runs;
            (if id < |runs| then runs[id].attemptCount else 0)
            == (if id < |db.runs| then db.runs[id].attemptCount else 0)
             + (if s.op.Retry? && s.op.id == id && PlanOf(db, s.op).write.Update? then 1 else 0)
  {
    hide PlanOf, RunOk, Next;
    StepTables(db, s);
    if PlanOf(db, s.op).write.Update? {
      UpdateIsTransition(db, s.op);
    }
    if PlanOf(db, s.op).write.Create? {
      CreateIsFresh(db, s.op);
    }
  }
}
