/**
  How often a payment can be retried under a fixed policy, and what re-evaluation does to
  that bound.
 */
module DunningBounds {
  import opened Common
  import opened Dunning
  import opened DunningHistory

  // ---------------------------------------------------------------------------
  // A policy stays what it is until it is put
  // ---------------------------------------------------------------------------

  lemma {:induction false} EffectsKeepPolicy(db: Db, es: seq<Effect>, tenant: string)
    requires forall e | e in es && e.UpsertPolicy? && e.tenant == tenant :: e.policy == PolicyOf(db, tenant)
    ensures PolicyOf(ApplyEffects(db, es), tenant) == PolicyOf(db, tenant)
  {
    if es != [] {
      assert forall e | e in es[..|es| - 1] :: e in es;
      EffectsKeepPolicy(db, es[..|es| - 1], tenant);
      assert es[|es| - 1] in es;
    }
  }

  lemma PlanKeepsPolicy(db: Db, op: Op, tenant: string)
    requires !(op.PutPolicy? && op.tenant == tenant)
    ensures forall e | e in PlanOf(db, op).before && e.UpsertPolicy? && e.tenant == tenant :: e.policy == PolicyOf(db, tenant)
  {
    hide Evaluate, NextRetryActionAt, NextReminderActionAt, Text.Trim, CountIntents, UpdatedPolicy, MayAct;
  }

  /** No step of a history puts the tenant's policy. */
  ghost predicate NeverPuts(h: seq<Step>, tenant: string) {
    forall s | s in h :: !(s.op.PutPolicy? && s.op.tenant == tenant)
  }

  lemma StepKeepsPolicy(db: Db, s: Step, tenant: string)
    requires !(s.op.PutPolicy? && s.op.tenant == tenant)
    ensures PolicyOf(Next(db, s), tenant) == PolicyOf(db, tenant)
  {
    hide PlanOf;
    PlanKeepsPolicy(db, s.op, tenant);
    var es := EffectsDone(PlanOf(db, s.op), s.stop);
    assert forall e | e in es :: e in PlanOf(db, s.op).before;
    EffectsKeepPolicy(db, es, tenant);
  }

  /** The policy a tenant is under, stored or by default, changes only when it is put. */
  lemma {:induction false} PolicyFixed(db: Db, h: seq<Step>, tenant: string)
    requires NeverPuts(h, tenant)
    ensures PolicyOf(Exec(db, h), tenant) == PolicyOf(db, tenant)
  {
    hide Next;
    if h != [] {
      var rest, s := h[..|h| - 1], h[|h| - 1];
      assert h == rest + [s];
      PolicyFixed(db, rest, tenant);
      StepKeepsPolicy(Exec(db, rest), s, tenant);
    }
  }

  // ---------------------------------------------------------------------------
  // The bound
  // ---------------------------------------------------------------------------

  /** Whether a step arms run id for a retry: writes it in state retry_due. */
  predicate Arms(db: Db, s: Step, id: nat) {
    var plan := PlanOf(db, s.op);
    && WriteDone(plan, s.stop)
    && plan.write.run.state == RetryDue
    && (plan.write.Update? ==> plan.write.id == id)
    && (plan.write.Create? ==> |db.runs| == id)
  }

  function Armings(db: Db, h: seq<Step>, id: nat): nat {
    if h == [] then 0
    else Armings(db, h[..|h| - 1], id) + if Arms(Exec(db, h[..|h| - 1]), h[|h| - 1], id) then 1 else 0
  }

  /** One attempt per arming, plus the retries scheduled in between, of which there are at most cap - 1. */
  ghost predicate Bounded(run: Run, armings: nat, cap: nat) {
    && (run.state == Scheduled ==> 0 < run.attemptCount < cap)
    && (run.attemptCount > 0 || run.state == RetryDue ==> armings > 0)
    && run.attemptCount + (if run.state == RetryDue then 1 else 0) <= armings + (if cap > 0 then cap - 1 else 0)
  }

  /** A rejected retry is rescheduled only below the cap. */
  lemma RejectedBelowCap(run: Run, policy: Policy, now: Time)
    ensures RetryRejected(run, policy, now).state == Scheduled ==> run.attemptCount + 1 < RetryCap(policy)
  {
    hide ParseDelay;
  }

  lemma ScheduledBelowCap(db: Db, s: Step)
    requires PlanOf(db, s.op).write.Update? && PlanOf(db, s.op).write.run.state == Scheduled && AllRunsOk(db.runs)
    ensures PlanOf(db, s.op).write.run.attemptCount < RetryCap(PolicyOf(db, s.op.tenant))
  {
    hide RetryRejected, PlanOf, RunOk;
    UpdateIsTransition(db, s.op);
    RetryScheduledBelowCap(db, s.op);
  }

  lemma RetryScheduledBelowCap(db: Db, op: Op)
    requires op.Retry? && PlanOf(db, op).write.Update? && PlanOf(db, op).write.run.state == Scheduled
    ensures PlanOf(db, op).write.run.attemptCount < RetryCap(PolicyOf(db, op.tenant))
  {
    hide NextRetryActionAt;
    RejectedBelowCap(db.runs[op.id], PolicyOf(db, op.tenant), op.now);
  }

  lemma BoundStep(db: Db, s: Step, id: nat, armings: nat)
    requires Inv(db) && id < |Next(db, s).runs|
    requires id < |db.runs| ==> Bounded(db.runs[id], armings, RetryCap(PolicyOf(db, db.runs[id].tenant)))
    requires id >= |db.runs| ==> armings == 0
    ensures Bounded(Next(db, s).runs[id], armings + (if Arms(db, s, id) then 1 else 0),
                    RetryCap(PolicyOf(db, Next(db, s).runs[id].tenant)))
  {
    hide PlanOf, RunOk, Next, RetryCap;
    var plan := PlanOf(db, s.op);
    StepTables(db, s);
    if WriteDone(plan, s.stop) {
      if plan.write.Create? {
        CreateIsFresh(db, s.op);
      } else {
        UpdateIsTransition(db, s.op);
        if plan.write.id == id {
          UpdateBounded(db, s, armings);
        }
      }
    }
  }

  lemma UpdateBounded(db: Db, s: Step, armings: nat)
    requires Inv(db) && PlanOf(db, s.op).write.Update?
    requires var id := PlanOf(db, s.op).write.id;
             id < |db.runs| && Bounded(db.runs[id], armings, RetryCap(PolicyOf(db, db.runs[id].tenant)))
    ensures var w := PlanOf(db, s.op).write;
            Bounded(w.run, armings + (if w.run.state == RetryDue then 1 else 0), RetryCap(PolicyOf(db, w.run.tenant)))
  {
    hide PlanOf, RetryCap;
    UpdateIsTransition(db, s.op);
    if PlanOf(db, s.op).write.run.state == Scheduled {
      ScheduledBelowCap(db, s);
    }
  }

  /** Under a policy that is not put, stored or by default, with effective cap L, in every history
      from an empty run table: a scheduled run has made between 1 and L - 1 attempts, and no run has
      made more than max(0, L - 1) attempts plus one for each time it was armed. */
  lemma {:induction false} RetryBound(db: Db, h: seq<Step>, id: nat, tenant: string)
    requires db.runs == [] && NeverPuts(h, tenant)
    ensures Inv(Exec(db, h))
    ensures id < |Exec(db, h).runs| && Exec(db, h).runs[id].tenant == tenant ==>
              Bounded(Exec(db, h).runs[id], Armings(db, h, id), RetryCap(PolicyOf(db, tenant)))
    ensures id >= |Exec(db, h).runs| ==> Armings(db, h, id) == 0
  {
    hide Next, PlanOf, RunOk, RetryCap, Bounded, Inv, Arms, Transition;
    NoRunsInv(db);
    EveryHistoryKeepsInv(db, h);
    if h != [] {
      var rest, s := h[..|h| - 1], h[|h| - 1];
      assert h == rest + [s];
      var before := Exec(db, rest);
      RetryBound(db, rest, id, tenant);
      PolicyFixed(db, rest, tenant);
      InvRuns(before);
      StepGrows(before, s, id);
      if id < |Next(before, s).runs| && Next(before, s).runs[id].tenant == tenant {
        BoundStep(before, s, id, Armings(db, rest, id));
      }
      if id >= |Next(before, s).runs| {
        NoArmingYet(before, s, id);
      }
    }
  }

  lemma NoRunsInv(db: Db)
    requires db.runs == []
    ensures Inv(db)
  {
  }

  lemma StepGrows(db: Db, s: Step, id: nat)
    requires AllRunsOk(db.runs)
    ensures |db.runs| <= |Next(db, s).runs|
    ensures id < |db.runs| ==> Next(db, s).runs[id].tenant == db.runs[id].tenant
  {
    hide Next, RunOk, PlanOf;
    StepRuns(db, s);
  }

  lemma NoArmingYet(db: Db, s: Step, id: nat)
    requires Inv(db) && id >= |Next(db, s).runs|
    ensures !Arms(db, s, id)
  {
    hide PlanOf, RunOk;
    StepTables(db, s);
    if PlanOf(db, s.op).write.Update? {
      UpdateIsTransition(db, s.op);
    }
  }

  /** A run armed only once respects the cap (one attempt is made even under a cap of zero). */
  lemma OneArmingRespectsCap(db: Db, h: seq<Step>, id: nat, tenant: string)
    requires db.runs == [] && NeverPuts(h, tenant)
    requires id < |Exec(db, h).runs| && Exec(db, h).runs[id].tenant == tenant && Armings(db, h, id) <= 1
    ensures var cap := RetryCap(PolicyOf(db, tenant));
            Exec(db, h).runs[id].attemptCount <= if cap == 0 then 1 else cap
  {
    hide RetryCap;
    RetryBound(db, h, id, tenant);
  }

  // ---------------------------------------------------------------------------
  // The cap is not a bound on attempts
  // ---------------------------------------------------------------------------

  /** Re-evaluate and retry, n times over; every payment request is accepted and every payment fails. */
  function Alternation(tenant: string, invoice: string, world: World, n: nat): seq<Step> {
    if n == 0 then []
    else Alternation(tenant, invoice, world, n - 1)
         + [Step(Ensure(tenant, invoice, world), 4), Step(Retry(tenant, 0, false, true, world.now), 4)]
  }

  /** The evaluation arms a retry. */
  predicate ArmsRetry(policy: Policy, world: World) {
    var eval := Evaluate(policy, world);
    policy.enabled && eval.Ok? && eval.value.Eligible? && eval.value.state == RetryDue
  }

  /** The store's only run waits for the result of an accepted retry, its n-th attempt. */
  ghost predicate WaitsAfter(db: Db, tenant: string, invoice: string, n: nat) {
    && |db.runs| == 1
    && Active(db.runs[0], tenant, invoice) && !db.runs[0].paused
    && db.runs[0].state == AwaitingRetryResult
    && db.runs[0].attemptCount == n
  }

  /** The store's only run is armed, n attempts on. */
  ghost predicate ArmedAfter(db: Db, tenant: string, invoice: string, n: nat) {
    && |db.runs| == 1
    && Active(db.runs[0], tenant, invoice) && !db.runs[0].paused
    && db.runs[0].state == RetryDue && db.runs[0].nextActionType == Some(RetryPayment)
    && db.runs[0].attemptCount == n
  }

  function EnsureStep(tenant: string, invoice: string, world: World): Step {
    Step(Ensure(tenant, invoice, world), 4)
  }

  function AcceptedRetry(tenant: string, now: Time): Step {
    Step(Retry(tenant, 0, false, true, now), 4)
  }

  /** Ensuring arms the run, whatever it was waiting for. */
  lemma EnsureArms(db: Db, tenant: string, invoice: string, world: World, n: nat)
    requires ArmsRetry(PolicyOf(db, tenant), world) && Text.Trim(invoice) != ""
    requires (n == 0 && db.runs == []) || WaitsAfter(db, tenant, invoice, n)
    ensures ArmedAfter(Next(db, EnsureStep(tenant, invoice, world)), tenant, invoice, n)
    ensures Arms(db, EnsureStep(tenant, invoice, world), 0)
    ensures tenant in Next(db, EnsureStep(tenant, invoice, world)).policies
  {
    hide Evaluate, Text.Trim;
    var s := EnsureStep(tenant, invoice, world);
    EvaluationOk(PolicyOf(db, tenant), world);
    StepTables(db, s);
    PolicyAfterEnsure(db, s);
    hide Next, PolicyOf;
  }

  lemma RetryWaits(db: Db, tenant: string, invoice: string, n: nat, now: Time)
    requires |db.runs| == 1 && Active(db.runs[0], tenant, invoice) && !db.runs[0].paused
    requires db.runs[0].nextActionType == Some(RetryPayment) && db.runs[0].attemptCount == n
    ensures WaitsAfter(Next(db, AcceptedRetry(tenant, now)), tenant, invoice, n + 1)
    ensures !Arms(db, AcceptedRetry(tenant, now), 0)
  {
    hide RetryRejected;
    StepTables(db, AcceptedRetry(tenant, now));
    hide Next;
  }

  lemma {:induction false} Rounds(db: Db, tenant: string, invoice: string, world: World, start: nat, n: nat)
    requires ArmsRetry(PolicyOf(db, tenant), world) && Text.Trim(invoice) != ""
    requires (start == 0 && db.runs == []) || WaitsAfter(db, tenant, invoice, start)
    ensures var h := Alternation(tenant, invoice, world, n);
            && NeverPuts(h, tenant)
            && (n > 0 || db.runs != [] ==> WaitsAfter(Exec(db, h), tenant, invoice, start + n))
            && (n == 0 ==> Exec(db, h) == db)
            && Armings(db, h, 0) == n
  {
    hide Next, ArmsRetry, Text.Trim, WaitsAfter, Arms, ArmedAfter, PolicyOf;
    if n > 0 {
      var rest := Alternation(tenant, invoice, world, n - 1);
      var ensure, retry := EnsureStep(tenant, invoice, world), AcceptedRetry(tenant, world.now);
      Rounds(db, tenant, invoice, world, start, n - 1);
      assert Alternation(tenant, invoice, world, n) == (rest + [ensure]) + [retry];
      PolicyFixed(db, rest, tenant);
      var before := Exec(db, rest);
      ExecStep(db, rest, ensure);
      ExecStep(db, rest + [ensure], retry);
      ArmingsStep(db, rest, ensure, 0);
      ArmingsStep(db, rest + [ensure], retry, 0);
      OneRound(before, tenant, invoice, world, start + n - 1);
    }
  }

  lemma OneRound(db: Db, tenant: string, invoice: string, world: World, n: nat)
    requires ArmsRetry(PolicyOf(db, tenant), world) && Text.Trim(invoice) != ""
    requires (n == 0 && db.runs == []) || WaitsAfter(db, tenant, invoice, n)
    ensures var ensure, retry := EnsureStep(tenant, invoice, world), AcceptedRetry(tenant, world.now);
            && WaitsAfter(Next(Next(db, ensure), retry), tenant, invoice, n + 1)
            && Arms(db, ensure, 0) && !Arms(Next(db, ensure), retry, 0)
  {
    hide Next, WaitsAfter, ArmsRetry, Arms;
    EnsureArms(db, tenant, invoice, world, n);
    RetryWaits(Next(db, EnsureStep(tenant, invoice, world)), tenant, invoice, n, world.now);
  }

  lemma ArmingsStep(db: Db, h: seq<Step>, s: Step, id: nat)
    ensures Armings(db, h + [s], id) == Armings(db, h, id) + if Arms(Exec(db, h), s, id) then 1 else 0
  {
    hide Arms;
    assert (h + [s])[..|h|] == h;
  }

  /** No cap bounds the number of attempts: under every policy that arms retries, whatever its
      maximum, a run reaches any number of attempts, because re-evaluation does not look at it. */
  lemma CapIsNotABound(db: Db, tenant: string, invoice: string, world: World, n: nat)
    requires db.runs == [] && ArmsRetry(PolicyOf(db, tenant), world) && Text.Trim(invoice) != "" && n > 0
    ensures var after := Exec(db, Alternation(tenant, invoice, world, n));
            |after.runs| == 1 && after.runs[0].tenant == tenant && after.runs[0].attemptCount == n
  {
    Rounds(db, tenant, invoice, world, 0, n);
    hide Exec;
  }

  // ---------------------------------------------------------------------------
  // Ensuring twice
  // ---------------------------------------------------------------------------

  lemma ActiveRunIs(runs: seq<Run>, tenant: string, invoice: string, id: nat)
    requires UniqueActive(runs) && id < |runs| && Active(runs[id], tenant, invoice)
    ensures ActiveRun(runs, tenant, invoice) == Some(id)
  {
    hide ActiveRun;
  }

  lemma PolicyAfterEnsure(db: Db, s: Step)
    requires s.op.Ensure? && Text.Trim(s.op.invoice) != "" && Finished(PlanOf(db, s.op), s.stop)
    ensures s.op.tenant in Next(db, s).policies && Next(db, s).policies[s.op.tenant] == PolicyOf(db, s.op.tenant)
  {
    hide Evaluate, Text.Trim;
    var es := PolicyEffects(db, s.op.tenant);
    assert PlanOf(db, s.op).before == es;
    assert es[..0] == [];
    assert ApplyEffects(db, []) == db;
  }

  /** With the clock, the invoice, the customer and the policy unchanged, ensuring a run a second
      time does nothing at all. */
  lemma EnsureIdempotent(db: Db, s: Step)
    requires Inv(db) && s.op.Ensure? && Finished(PlanOf(db, s.op), s.stop)
    ensures PlanOf(Next(db, s), s.op) == NOTHING
  {
    hide Evaluate, Text.Trim, RunOk, ActiveRun, Next;
    var tenant, invoice := s.op.tenant, s.op.invoice;
    if Text.Trim(invoice) != "" {
      PolicyAfterEnsure(db, s);
      StepTables(db, s);
      StepKeepsInv(db, s);
      var plan, runs := PlanOf(db, s.op), Next(db, s).runs;
      match plan.write {
        case NoWrite =>
          assert runs == db.runs;
        case Create(run) =>
          ActiveRunIs(runs, tenant, invoice, |db.runs|);
        case Update(id, run) =>
          if run.resolvedAt == None {
            ActiveRunIs(runs, tenant, invoice, id);
          } else {
            NoOtherActive(db, runs, tenant, invoice, id);
          }
      }
    }
  }

  lemma NoOtherActive(db: Db, runs: seq<Run>, tenant: string, invoice: string, id: nat)
    requires UniqueActive(db.runs) && id < |db.runs| && Active(db.runs[id], tenant, invoice)
    requires |runs| == |db.runs| && runs[id].resolvedAt.Some? && forall i | 0 <= i < |runs| && i != id :: runs[i] == db.runs[i]
    ensures ActiveRun(runs, tenant, invoice) == None
  {
    var r := ActiveRun(runs, tenant, invoice);
    if r.Some? {
      ActiveRunIs(db.runs, tenant, invoice, r.value);
      ActiveRunIs(db.runs, tenant, invoice, id);
    }
  }
}
