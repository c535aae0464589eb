/**
  When a bound on payment attempts holds, and how tight the bound by armings is.
 */
module DunningCap {
  import opened Common
  import opened Text
  import opened Dunning
  import opened DunningHistory
  import opened DunningBounds
  import opened DunningSchedules
  import opened DunningOutcomes

  /** Whatever the history, as long as the tenant's policy is not put, its runs keep to a bound on attempts. */
  ghost predicate Keeps(db: Db, h: seq<Step>, id: nat, tenant: string, bound: nat) {
    NeverPuts(h, tenant) && id < |Exec(db, h).runs| && Exec(db, h).runs[id].tenant == tenant ==>
      Exec(db, h).runs[id].attemptCount <= bound
  }

  /** The effective cap, and any other number, bounds a tenant's attempts if and only if its policy,
      stored or by default, is disabled. */
  lemma BoundHoldsIff(db: Db, tenant: string, bound: nat)
    requires db.runs == [] && PolicyOk(PolicyOf(db, tenant))
    ensures (forall h, id: nat :: Keeps(db, h, id, tenant, bound)) <==> !PolicyOf(db, tenant).enabled
  {
    hide PolicyOk, PolicyOf, Exec;
    if PolicyOf(db, tenant).enabled {
      var world := FailedPayment(0);
      FailedPaymentArmsRetry(PolicyOf(db, tenant), 0);
      SomeInvoice();
      CapIsNotABound(db, tenant, "invoice", world, bound + 1);
      Rounds(db, tenant, "invoice", world, 0, bound + 1);
      assert !Keeps(db, Alternation(tenant, "invoice", world, bound + 1), 0, tenant, bound);
    } else {
      forall h, id: nat ensures Keeps(db, h, id, tenant, bound) {
        if NeverPuts(h, tenant) {
          DisabledCreatesNothing(db, h, tenant);
        }
      }
    }
  }

  lemma SomeInvoice()
    ensures Trim("invoice") == "invoice"
  {
  }

  lemma {:induction false} DisabledCreatesNothing(db: Db, h: seq<Step>, tenant: string)
    requires db.runs == [] && !PolicyOf(db, tenant).enabled && NeverPuts(h, tenant)
    ensures forall i | 0 <= i < |Exec(db, h).runs| :: Exec(db, h).runs[i].tenant != tenant
  {
    hide Next, PolicyOf, Inv, RunOk;
    NoRunsInv(db);
    if h != [] {
      var rest, s := h[..|h| - 1], h[|h| - 1];
      assert h == rest + [s];
      DisabledCreatesNothing(db, rest, tenant);
      PolicyFixed(db, rest, tenant);
      EveryHistoryKeepsInv(db, rest);
      InvRuns(Exec(db, rest));
      NoneOfTenant(Exec(db, rest), s, tenant);
    }
  }

  lemma NoneOfTenant(db: Db, s: Step, tenant: string)
    requires AllRunsOk(db.runs) && !PolicyOf(db, tenant).enabled
    requires forall i | 0 <= i < |db.runs| :: db.runs[i].tenant != tenant
    ensures forall i | 0 <= i < |Next(db, s).runs| :: Next(db, s).runs[i].tenant != tenant
  {
    hide Next, PolicyOf, RunOk, PlanOf;
    StepRuns(db, s);
    if |Next(db, s).runs| > |db.runs| {
      CreateIsFresh(db, s.op);
      if s.op.tenant == tenant {
        DisabledEnsure(db, s);
      }
    }
  }

  // ---------------------------------------------------------------------------
  // The bound by armings is attained
  // ---------------------------------------------------------------------------

  function Repeat(now: Time, n: nat): (r: seq<Time>)
    ensures |r| == n
  {
    seq(n, i => now)
  }

  /** Ensure, reject all the retries the schedule has, accept one, and re-evaluate and accept a - 1 times more. */
  function Worst(policy: Policy, tenant: string, invoice: string, world: World, a: nat): seq<Step>
    requires a >= 1
  {
    Opening(tenant, invoice, world, Repeat(world.now, if RetryCap(policy) > 0 then RetryCap(policy) - 1 else 0))
    + Alternation(tenant, invoice, world, a - 1)
  }

  /** One arming: some retries are rejected and the next is accepted. */
  function Opening(tenant: string, invoice: string, world: World, nows: seq<Time>): seq<Step> {
    [EnsureStep(tenant, invoice, world)] + FailedRetries(tenant, 0, nows) + [AcceptedRetry(tenant, world.now)]
  }

  /** For every number a of armings, under every policy that arms retries, some history has exactly a
      armings and exactly a + max(0, L - 1) attempts. */
  lemma BoundAttained(db: Db, tenant: string, invoice: string, world: World, a: nat)
    requires db.runs == [] && Trim(invoice) != "" && a >= 1
    requires PolicyOk(PolicyOf(db, tenant)) && ArmsRetry(PolicyOf(db, tenant), world)
    ensures var h, cap := Worst(PolicyOf(db, tenant), tenant, invoice, world, a), RetryCap(PolicyOf(db, tenant));
            && NeverPuts(h, tenant) && Armings(db, h, 0) == a
            && |Exec(db, h).runs| == 1 && Exec(db, h).runs[0].tenant == tenant
            && Exec(db, h).runs[0].attemptCount == a + if cap > 0 then cap - 1 else 0
  {
    var policy := PolicyOf(db, tenant);
    var nows := Repeat(world.now, if RetryCap(policy) > 0 then RetryCap(policy) - 1 else 0);
    OpeningThenRounds(db, tenant, invoice, world, nows, a);
    hide Exec, Armings, NeverPuts, PolicyOk, ArmsRetry, PolicyOf, Trim;
  }

  lemma OpeningThenRounds(db: Db, tenant: string, invoice: string, world: World, nows: seq<Time>, a: nat)
    requires db.runs == [] && Trim(invoice) != "" && a >= 1
    requires PolicyOk(PolicyOf(db, tenant)) && ArmsRetry(PolicyOf(db, tenant), world)
    requires |nows| < RetriesMade(PolicyOf(db, tenant))
    ensures var h := Opening(tenant, invoice, world, nows) + Alternation(tenant, invoice, world, a - 1);
            && NeverPuts(h, tenant) && Armings(db, h, 0) == a
            && |Exec(db, h).runs| == 1 && Exec(db, h).runs[0].tenant == tenant
            && Exec(db, h).runs[0].attemptCount == |nows| + a
  {
    hide *;
    var start, rest := Opening(tenant, invoice, world, nows), Alternation(tenant, invoice, world, a - 1);
    FirstArming(db, tenant, invoice, world, nows);
    PolicyFixed(db, start, tenant);
    OneRunWaits(Exec(db, start), tenant, invoice, |nows| + 1);
    Rounds(Exec(db, start), tenant, invoice, world, |nows| + 1, a - 1);
    NeverPutsConcat(start, rest, tenant);
    ExecConcat(db, start, rest);
    ArmingsConcat(db, start, rest, 0);
    OneRunWaits(Exec(db, start + rest), tenant, invoice, |nows| + a);
  }

  lemma NeverPutsConcat(g: seq<Step>, h: seq<Step>, tenant: string)
    requires NeverPuts(g, tenant) && NeverPuts(h, tenant)
    ensures NeverPuts(g + h, tenant)
  {
  }

  lemma OneRunWaits(db: Db, tenant: string, invoice: string, n: nat)
    requires WaitsAfter(db, tenant, invoice, n)
    ensures |db.runs| == 1 && db.runs[0].tenant == tenant && db.runs[0].attemptCount == n
  {
  }

  lemma {:induction false} ArmingsConcat(db: Db, g: seq<Step>, h: seq<Step>, id: nat)
    ensures Armings(db, g + h, id) == Armings(db, g, id) + Armings(Exec(db, g), h, id)
  {
    hide Arms, Next;
    if h == [] {
      assert g + h == g;
    } else {
      var rest, s := h[..|h| - 1], h[|h| - 1];
      ArmingsConcat(db, g, rest, id);
      ExecConcat(db, g, rest);
      assert g + h == (g + rest) + [s];
      ArmingsStep(db, g + rest, s, id);
    }
  }

  /** Arming the run once, rejecting some retries and accepting the next. */
  lemma FirstArming(db: Db, tenant: string, invoice: string, world: World, nows: seq<Time>)
    requires db.runs == [] && Trim(invoice) != ""
    requires PolicyOk(PolicyOf(db, tenant)) && ArmsRetry(PolicyOf(db, tenant), world)
    requires |nows| < RetriesMade(PolicyOf(db, tenant))
    ensures var h := Opening(tenant, invoice, world, nows);
            && NeverPuts(h, tenant) && Armings(db, h, 0) == 1
            && WaitsAfter(Exec(db, h), tenant, invoice, |nows| + 1)
  {
    hide *;
    var ensure, retry := EnsureStep(tenant, invoice, world), AcceptedRetry(tenant, world.now);
    var armed, failed := Next(db, ensure), FailedRetries(tenant, 0, nows);
    EnsureIsEnsure(tenant, invoice, world);
    StepKeepsPolicy(db, ensure, tenant);
    EnsureArms(db, tenant, invoice, world, 0);
    StoredPolicy(armed, tenant);
    RejectedStayOne(armed, tenant, invoice, nows);
    RetryWaits(Exec(armed, failed), tenant, invoice, |nows|, world.now);
    OpeningExec(db, tenant, invoice, world, nows);
  }

  lemma StoredPolicy(db: Db, tenant: string)
    requires tenant in db.policies
    ensures PolicyOf(db, tenant) == db.policies[tenant]
  {
  }

  lemma EnsureIsEnsure(tenant: string, invoice: string, world: World)
    ensures EnsureStep(tenant, invoice, world).op.Ensure?
  {
  }

  lemma OpeningExec(db: Db, tenant: string, invoice: string, world: World, nows: seq<Time>)
    ensures var ensure, failed, retry := EnsureStep(tenant, invoice, world), FailedRetries(tenant, 0, nows), AcceptedRetry(tenant, world.now);
            var h, armed := Opening(tenant, invoice, world, nows), Next(db, ensure);
            && NeverPuts(h, tenant)
            && Exec(db, h) == Next(Exec(armed, failed), retry)
            && Armings(db, h, 0) == (if Arms(db, ensure, 0) then 1 else 0) + Armings(armed, failed, 0)
                                    + (if Arms(Exec(armed, failed), retry, 0) then 1 else 0)
  {
    var ensure, failed, retry := EnsureStep(tenant, invoice, world), FailedRetries(tenant, 0, nows), AcceptedRetry(tenant, world.now);
    assert NeverPuts(Opening(tenant, invoice, world, nows), tenant);
    assert Opening(tenant, invoice, world, nows) == [ensure] + failed + [retry];
    hide *;
    ExecOne(db, ensure);
    ExecConcat(db, [ensure], failed);
    ArmingsConcat(db, [ensure], failed, 0);
    ExecStep(db, [ensure] + failed, retry);
    ArmingsStep(db, [ensure] + failed, retry, 0);
  }

  lemma ExecOne(db: Db, s: Step)
    ensures Exec(db, [s]) == Next(db, s)
    ensures Armings(db, [s], 0) == if Arms(db, s, 0) then 1 else 0
  {
    hide Arms, Next;
    ExecStep(db, [], s);
    ArmingsStep(db, [], s, 0);
    assert [] + [s] == [s];
  }

  lemma {:induction false} RejectedStayOne(db: Db, tenant: string, invoice: string, nows: seq<Time>)
    requires ArmedAfter(db, tenant, invoice, 0) && tenant in db.policies
    requires PolicyOk(db.policies[tenant]) && |nows| < RetriesMade(db.policies[tenant])
    ensures var db' := Exec(db, FailedRetries(tenant, 0, nows));
            && |db'.runs| == 1 && Active(db'.runs[0], tenant, invoice) && !db'.runs[0].paused
            && db'.runs[0].nextActionType == Some(RetryPayment) && db'.runs[0].attemptCount == |nows|
            && db'.policies == db.policies && AfterRetries(db'.runs[0], db.policies[tenant], nows)
            && Armings(db, FailedRetries(tenant, 0, nows), 0) == 0
  {
    hide PolicyOk, Next, RetryRejected, Arms, Delay, RetryCap;
    if nows != [] {
      var rest, now := nows[..|nows| - 1], nows[|nows| - 1];
      assert nows == rest + [now];
      RejectedStayOne(db, tenant, invoice, rest);
      var h, s := FailedRetries(tenant, 0, rest), FailedRetry(tenant, 0, now);
      assert FailedRetries(tenant, 0, nows) == h + [s];
      ExecStep(db, h, s);
      ArmingsStep(db, h, s, 0);
      OneFailedRetry(Exec(db, h), tenant, 0, rest, now);
      FailedRetryStep(Exec(db, h), tenant, 0, now);
      RejectedDoesNotArm(Exec(db, h), tenant, now);
    }
  }

  lemma RejectedDoesNotArm(db: Db, tenant: string, now: Time)
    requires |db.runs| == 1
    ensures !Arms(db, FailedRetry(tenant, 0, now), 0)
    ensures RetryRejected(db.runs[0], PolicyOf(db, tenant), now).invoice == db.runs[0].invoice
  {
    hide NextRetryActionAt;
  }
}
