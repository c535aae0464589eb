/**
  What every history of dunning operations keeps.

  A history is any sequence of operations on one store, each of which may fail at any of
  its accesses to the store and leave what it did up to there.
 */
module DunningHistory {
  import opened Common
  import opened Dunning

  datatype Step = Step(op: Op, stop: nat)

  function Next(db: Db, s: Step): Db {
    Perform(db, PlanOf(db, s.op), s.stop)
  }

  function Exec(db: Db, h: seq<Step>): Db {
    if h == [] then db else Next(Exec(db, h[..|h| - 1]), h[|h| - 1])
  }

  lemma ExecStep(db: Db, h: seq<Step>, s: Step)
    ensures Exec(db, h + [s]) == Next(Exec(db, h), s)
  {
    hide Next;
    assert (h + [s])[..|h|] == h;
  }

  lemma {:induction false} ExecConcat(db: Db, g: seq<Step>, h: seq<Step>)
    ensures Exec(db, g + h) == Exec(Exec(db, g), h)
  {
    hide Next;
    if h == [] {
      assert g + h == g;
    } else {
      ExecConcat(db, g, h[..|h| - 1]);
      assert (g + h)[..|g + h| - 1] == g + h[..|h| - 1];
    }
  }

  const EMPTY := Db(map[], [], [], [])

  // ---------------------------------------------------------------------------
  // What one step does to the tables
  // ---------------------------------------------------------------------------

  lemma {:induction false} EffectsKeepRuns(db: Db, es: seq<Effect>)
    ensures ApplyEffects(db, es).runs == db.runs && ApplyEffects(db, es).events == db.events
  {
    if es != [] {
      EffectsKeepRuns(db, es[..|es| - 1]);
    }
  }

  lemma StepTables(db: Db, s: Step)
    ensures var plan := PlanOf(db, s.op);
            && Next(db, s).runs == (if WriteDone(plan, s.stop) then ApplyWrite(db, plan.write).runs else db.runs)
            && Next(db, s).events == db.events + (if EventDone(plan, s.stop) then [plan.event.value] else [])
  {
    hide PlanOf;
    EffectsKeepRuns(db, EffectsDone(PlanOf(db, s.op), s.stop));
  }

  // ---------------------------------------------------------------------------
  // The shape of a run
  // ---------------------------------------------------------------------------

  ghost predicate RunOk(run: Run) {
    && (run.resolvedAt.Some? <==> run.state == Resolved)
    && (run.resolution.Some? <==> run.state == Resolved)
    && (run.nextActionAt.Some? <==> run.nextActionType.Some?)
    && (run.nextActionType == Some(RetryPayment) <==> run.state == RetryDue || run.state == Scheduled)
    && (run.nextActionType == Some(CollectPaymentReminder) <==> run.state == AwaitingPaymentSetup)
    && (run.state == Paused ==> run.paused)
    && (run.paused ==> run.state == Paused || run.state == Resolved)
    && (run.attemptCount > 0 <==> run.lastAttemptAt.Some?)
    && run.state != Exhausted
  }

  ghost predicate AllRunsOk(runs: seq<Run>) {
    forall i | 0 <= i < |runs| :: RunOk(runs[i])
  }

  predicate Reevaluates(op: Op) { op.Ensure? || op.Resume? }

  /** What an operation may do to a run it updates. */
  ghost predicate Transition(before: Run, after: Run, id: nat, op: Op) {
    && RunOk(after)
    && before.resolvedAt == None
    && after.tenant == before.tenant == op.tenant && after.invoice == before.invoice && after.createdAt == before.createdAt
    && (op.Ensure? ==> op.invoice == before.invoice)
    && (op.Retry? || op.Remind? || op.Pause? || op.Resume? || op.Resolve? ==> op.id == id)
    && (after.attemptCount == before.attemptCount + if op.Retry? then 1 else 0)
    && (before.paused ==> after.paused || after.resolvedAt.Some? || op.Resume?)
    && (op.Retry? || op.Remind? ==> !before.paused)
    && (after.nextActionType == Some(RetryPayment) ==> op.Retry? || Reevaluates(op))
    && (after.state == RetryDue ==> Reevaluates(op))
    && (after.state == Scheduled ==> op.Retry?)
    && (op.Retry? ==> before.nextActionType == Some(RetryPayment) && after.state != RetryDue
                      && (op.accepted ==> after.nextActionType == None))
    && (op.Remind? ==> before.nextActionType == Some(CollectPaymentReminder))
  }

  lemma EvaluationOk(policy: Policy, world: World)
    ensures var eval := Evaluate(policy, world);
            eval.Ok? && eval.value.Eligible? ==>
              && eval.value.state in {RetryDue, AwaitingPaymentSetup, AwaitingRetryResult}
              && (eval.value.at.Some? <==> eval.value.action.Some?)
              && (eval.value.action == Some(RetryPayment) <==> eval.value.state == RetryDue)
              && (eval.value.action == Some(CollectPaymentReminder) <==> eval.value.state == AwaitingPaymentSetup)
  {
    hide RequiresDunning, Readiness, ScheduleFromPolicy, Succeeded;
  }

  lemma EnsureTransition(db: Db, op: Op)
    requires AllRunsOk(db.runs) && op.Ensure? && PlanOf(db, op).write.Update?
    ensures var w := PlanOf(db, op).write;
            w.id < |db.runs| && Transition(db.runs[w.id], w.run, w.id, op)
  {
    hide Evaluate, Text.Trim;
    EvaluationOk(PolicyOf(db, op.tenant), op.world);
  }

  lemma ResumeTransition(db: Db, op: Op)
    requires AllRunsOk(db.runs) && op.Resume? && PlanOf(db, op).write.Update?
    ensures var w := PlanOf(db, op).write;
            w.id < |db.runs| && Transition(db.runs[w.id], w.run, w.id, op)
  {
    hide Evaluate;
    EvaluationOk(PolicyOf(db, op.tenant), op.world);
  }

  lemma ActTransition(db: Db, op: Op)
    requires AllRunsOk(db.runs) && (op.Retry? || op.Remind?) && PlanOf(db, op).write.Update?
    ensures var w := PlanOf(db, op).write;
            w.id < |db.runs| && Transition(db.runs[w.id], w.run, w.id, op)
  {
    hide NextRetryActionAt, NextReminderActionAt, CountIntents;
  }

  /** Every run write is a legal transition of an unresolved run. */
  lemma UpdateIsTransition(db: Db, op: Op)
    requires AllRunsOk(db.runs) && PlanOf(db, op).write.Update?
    ensures var w := PlanOf(db, op).write;
            w.id < |db.runs| && Transition(db.runs[w.id], w.run, w.id, op)
  {
    hide EnsurePlan, RetryPlan, ReminderPlan, ResumePlan;
    match op
    case Ensure(_, _, _) => EnsureTransition(db, op);
    case Resume(_, _, _) => ResumeTransition(db, op);
    case Retry(_, _, _, _, _) => ActTransition(db, op);
    case Remind(_, _, _, _, _) => ActTransition(db, op);
    case _ =>
  }

  /** A run is created only for an invoice that has no unresolved one. */
  lemma CreateIsFresh(db: Db, op: Op)
    requires PlanOf(db, op).write.Create?
    ensures var run := PlanOf(db, op).write.run;
            && RunOk(run) && run.resolvedAt == None && run.attemptCount == 0 && !run.paused && run.state != Scheduled
            && op.Ensure? && run.tenant == op.tenant && run.invoice == op.invoice
            && forall i | 0 <= i < |db.runs| :: !Active(db.runs[i], run.tenant, run.invoice)
  {
    hide Evaluate, NextRetryActionAt, NextReminderActionAt, Text.Trim, CountIntents;
    if op.Ensure? {
      EvaluationOk(PolicyOf(db, op.tenant), op.world);
    }
  }

  // ---------------------------------------------------------------------------
  // Every history: shape, uniqueness, resolved runs
  // ---------------------------------------------------------------------------

  /** No invoice has two unresolved runs. */
  ghost predicate UniqueActive(runs: seq<Run>) {
    forall i, j | 0 <= i < j < |runs| && runs[i].resolvedAt == None ::
      !Active(runs[j], runs[i].tenant, runs[i].invoice)
  }

  ghost predicate Inv(db: Db) {
    AllRunsOk(db.runs) && UniqueActive(db.runs)
  }

  /** What may happen to the run table in one step. */
  lemma StepRuns(db: Db, s: Step)
    requires AllRunsOk(db.runs)
    ensures var runs := Next(db, s).runs;
            && |db.runs| <= |runs| <= |db.runs| + 1
            && (forall i | 0 <= i < |db.runs| :: runs[i] == db.runs[i] || Transition(db.runs[i], runs[i], i, s.op))
            && (|runs| > |db.runs| ==> WriteDone(PlanOf(db, s.op), s.stop) && PlanOf(db, s.op).write == Create(runs[|db.runs|]))
  {
    hide PlanOf, Transition, RunOk;
    StepTables(db, s);
    if PlanOf(db, s.op).write.Update? {
      UpdateIsTransition(db, s.op);
    }
  }

  lemma StepKeepsInv(db: Db, s: Step)
    requires Inv(db)
    ensures Inv(Next(db, s))
  {
    hide PlanOf, RunOk, Next;
    StepRuns(db, s);
    var runs := Next(db, s).runs;
    if |runs| > |db.runs| {
      CreateIsFresh(db, s.op);
    }
    forall i, j | 0 <= i < j < |runs| && runs[i].resolvedAt == None
      ensures !Active(runs[j], runs[i].tenant, runs[i].invoice)
    {
      assert j < |db.runs| ==> !Active(db.runs[j], db.runs[i].tenant, db.runs[i].invoice);
    }
  }

  /** In every history each run keeps its shape and each invoice has at most one unresolved run. */
  lemma {:induction false} EveryHistoryKeepsInv(db: Db, h: seq<Step>)
    requires Inv(db)
    ensures Inv(Exec(db, h))
  {
    hide Inv, Next;
    if h != [] {
      EveryHistoryKeepsInv(db, h[..|h| - 1]);
      StepKeepsInv(Exec(db, h[..|h| - 1]), h[|h| - 1]);
    }
  }

  lemma HistoryFromEmpty(h: seq<Step>)
    ensures Inv(Exec(EMPTY, h))
  {
    EveryHistoryKeepsInv(EMPTY, h);
  }

  /** Ids stay valid, and name the same tenant and invoice. */
  lemma {:induction false} RunsPersist(db: Db, h: seq<Step>, id: nat)
    requires Inv(db) && id < |db.runs|
    ensures id < |Exec(db, h).runs|
    ensures Exec(db, h).runs[id].tenant == db.runs[id].tenant && Exec(db, h).runs[id].invoice == db.runs[id].invoice
  {
    hide Inv, Next, RunOk;
    if h != [] {
      var before := Exec(db, h[..|h| - 1]);
      RunsPersist(db, h[..|h| - 1], id);
      EveryHistoryKeepsInv(db, h[..|h| - 1]);
      assert AllRunsOk(before.runs) by { InvRuns(before); }
      StepRuns(before, h[|h| - 1]);
    }
  }

  lemma InvRuns(db: Db)
    requires Inv(db)
    ensures AllRunsOk(db.runs)
  {
  }

  /** A resolved run record never changes again. */
  lemma {:induction false} ResolvedForever(db: Db, h: seq<Step>, id: nat)
    requires Inv(db) && id < |db.runs| && db.runs[id].state == Resolved
    ensures id < |Exec(db, h).runs| && Exec(db, h).runs[id] == db.runs[id]
  {
    hide Next;
    if h != [] {
      var before := Exec(db, h[..|h| - 1]);
      ResolvedForever(db, h[..|h| - 1], id);
      EveryHistoryKeepsInv(db, h[..|h| - 1]);
      StepRuns(before, h[|h| - 1]);
    }
  }

  // ---------------------------------------------------------------------------
  // Every history: no unwanted contact
  // ---------------------------------------------------------------------------

  /** All effects of a history, in order. */
  function Performed(db: Db, h: seq<Step>): seq<Effect> {
    if h == [] then []
    else
      var before, s := Exec(db, h[..|h| - 1]), h[|h| - 1];
      Performed(db, h[..|h| - 1]) + EffectsDone(PlanOf(before, s.op), s.stop)
  }

  predicate RetriesRun(e: Effect, id: nat) { e.CallRetry? && e.runId == id }

  predicate RemindsRun(e: Effect, id: nat) { e.CreateIntent? && e.intent.runId == id }

  predicate Contacts(e: Effect, id: nat) { RetriesRun(e, id) || RemindsRun(e, id) }

  /** A payment is retried, or a reminder queued, only for a run whose next action it is. */
  lemma ContactsGuarded(db: Db, op: Op, e: Effect, id: nat)
    requires e in PlanOf(db, op).before
    ensures RetriesRun(e, id) ==> op.Retry? && op.id == id && MayAct(db, op.tenant, id, RetryPayment, op.requireDue, op.now)
                                  && e.accepted == op.accepted
    ensures RemindsRun(e, id) ==>
              op.Remind? && op.id == id && MayAct(db, op.tenant, id, CollectPaymentReminder, op.requireDue, op.now)
  {
    hide Evaluate, NextRetryActionAt, NextReminderActionAt, Text.Trim, CountIntents, UpdatedPolicy, MayAct;
  }

  predicate Silenced(run: Run) { run.paused || run.resolvedAt.Some? }

  lemma SilencedStep(db: Db, s: Step, id: nat)
    requires Inv(db) && id < |db.runs| && Silenced(db.runs[id])
    requires !(s.op.Resume? && s.op.id == id)
    ensures id < |Next(db, s).runs| && Silenced(Next(db, s).runs[id])
    ensures forall e | e in EffectsDone(PlanOf(db, s.op), s.stop) :: !Contacts(e, id)
  {
    hide PlanOf, RunOk, Next;
    StepRuns(db, s);
    forall e | e in EffectsDone(PlanOf(db, s.op), s.stop) ensures !Contacts(e, id) {
      assert e in PlanOf(db, s.op).before;
      ContactsGuarded(db, s.op, e, id);
    }
  }

  /** From a pause until the next resume, and forever after a resolve, a run issues no payment
      retry and queues no reminder. */
  lemma {:induction false} SilenceKept(db: Db, h: seq<Step>, id: nat)
    requires Inv(db) && id < |db.runs| && Silenced(db.runs[id])
    requires forall s | s in h :: !(s.op.Resume? && s.op.id == id)
    ensures id < |Exec(db, h).runs| && Silenced(Exec(db, h).runs[id])
    ensures forall e | e in Performed(db, h) :: !Contacts(e, id)
  {
    hide Inv, Next, PlanOf, Contacts;
    if h != [] {
      var rest, s := h[..|h| - 1], h[|h| - 1];
      assert h == rest + [s];
      SilenceKept(db, rest, id);
      EveryHistoryKeepsInv(db, rest);
      SilencedStep(Exec(db, rest), s, id);
    }
  }

  lemma {:induction false} ResolvedSilence(db: Db, h: seq<Step>, id: nat)
    requires Inv(db) && id < |db.runs| && db.runs[id].state == Resolved
    ensures forall e | e in Performed(db, h) :: !Contacts(e, id)
  {
    hide Next, PlanOf, Contacts, RunOk;
    if h != [] {
      var rest, s := h[..|h| - 1], h[|h| - 1];
      ResolvedSilence(db, rest, id);
      ResolvedForever(db, rest, id);
      EveryHistoryKeepsInv(db, rest);
      ResolvedStepSilent(Exec(db, rest), s, id);
    }
  }

  lemma ResolvedStepSilent(db: Db, s: Step, id: nat)
    requires Inv(db) && id < |db.runs| && db.runs[id].state == Resolved
    ensures forall e | e in EffectsDone(PlanOf(db, s.op), s.stop) :: !Contacts(e, id)
  {
    hide PlanOf, Next;
    forall e | e in EffectsDone(PlanOf(db, s.op), s.stop) ensures !Contacts(e, id) {
      assert e in PlanOf(db, s.op).before;
      ContactsGuarded(db, s.op, e, id);
    }
  }

  /** Whether an operation re-evaluates a given run. */
  predicate ReevaluatesRun(op: Op, id: nat, run: Run) {
    (op.Resume? && op.id == id) || (op.Ensure? && op.tenant == run.tenant && op.invoice == run.invoice)
  }

  lemma NoRetryStep(db: Db, s: Step, id: nat)
    requires Inv(db) && id < |db.runs| && db.runs[id].nextActionType != Some(RetryPayment)
    requires !ReevaluatesRun(s.op, id, db.runs[id])
    ensures id < |Next(db, s).runs| && Next(db, s).runs[id].nextActionType != Some(RetryPayment)
    ensures forall e | e in EffectsDone(PlanOf(db, s.op), s.stop) :: !RetriesRun(e, id)
  {
    hide PlanOf, RunOk, Next;
    StepRuns(db, s);
    forall e | e in EffectsDone(PlanOf(db, s.op), s.stop) ensures !RetriesRun(e, id) {
      assert e in PlanOf(db, s.op).before;
      ContactsGuarded(db, s.op, e, id);
    }
  }

  /** A run that is not waiting for a retry gets none until it is re-evaluated. */
  lemma {:induction false} NoRetryWithoutReevaluation(db: Db, h: seq<Step>, id: nat)
    requires Inv(db) && id < |db.runs| && db.runs[id].nextActionType != Some(RetryPayment)
    requires forall s | s in h :: !ReevaluatesRun(s.op, id, db.runs[id])
    ensures id < |Exec(db, h).runs| && Exec(db, h).runs[id].nextActionType != Some(RetryPayment)
    ensures forall e | e in Performed(db, h) :: !RetriesRun(e, id)
  {
    hide Inv, Next, PlanOf, RetriesRun;
    if h != [] {
      var rest, s := h[..|h| - 1], h[|h| - 1];
      assert h == rest + [s];
      NoRetryWithoutReevaluation(db, rest, id);
      EveryHistoryKeepsInv(db, rest);
      RunsPersist(db, rest, id);
      NoRetryStep(Exec(db, rest), s, id);
    }
  }

  /** After an accepted retry that was recorded, no other retry is issued before an Ensure or
      Resume has re-evaluated the run. */
  lemma AcceptedRetriesAreSeparated(db: Db, s: Step, h: seq<Step>, id: nat)
    requires Inv(db) && s.op.Retry? && s.op.accepted && s.op.id == id && WriteDone(PlanOf(db, s.op), s.stop)
    requires id < |db.runs| && forall t | t in h :: !ReevaluatesRun(t.op, id, db.runs[id])
    ensures forall e | e in Performed(Next(db, s), h) :: !RetriesRun(e, id)
  {
    hide PlanOf, RunOk, Next;
    StepKeepsInv(db, s);
    StepRuns(db, s);
    RetryWrites(db, s);
    UpdateIsTransition(db, s.op);
    NoRetryWithoutReevaluation(Next(db, s), h, id);
  }

  lemma RetryWrites(db: Db, s: Step)
    requires s.op.Retry? && WriteDone(PlanOf(db, s.op), s.stop)
    ensures s.op.id < |db.runs| && PlanOf(db, s.op).write.Update? && PlanOf(db, s.op).write.id == s.op.id
    ensures Next(db, s).runs == db.runs[s.op.id := PlanOf(db, s.op).write.run]
  {
    StepTables(db, s);
  }

  /** Recorded matters: whenever a retry may be issued, one whose run write then fails leaves the
      run as it was, and the very same retry is issued again. */
  lemma LostWriteRepeatsRetry(db: Db, op: Op)
    requires op.Retry? && MayAct(db, op.tenant, op.id, RetryPayment, op.requireDue, op.now)
    ensures var s := Step(op, |PlanOf(db, op).before|);
            && CallRetry(op.id, op.accepted) in EffectsDone(PlanOf(db, op), s.stop)
            && Next(db, s).runs == db.runs
            && CallRetry(op.id, op.accepted) in PlanOf(Next(db, s), op).before
  {
    var s := Step(op, |PlanOf(db, op).before|);
    StepTables(db, s);
    assert PlanOf(db, op).before[s.stop - 1] == CallRetry(op.id, op.accepted);
    var again := PlanOf(Next(db, s), op).before;
    assert again[|again| - 1] == CallRetry(op.id, op.accepted);
  }
}
