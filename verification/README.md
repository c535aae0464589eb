# Usage billing control plane: a verified model

The project models the parts of the billing control plane that move money and proves what
they keep: pricing, the usage and billed ledgers with replay and reconciliation, dunning,
invoice finalization, billing provider connections with their secrets, and invoice
explainability. `dafny verify dfyconfig.toml` checks all of it.

| files | part |
|---|---|
| `Common`, `Text`, `Ordering`, `Canonical` | 64-bit wrap-around, trimming and parsing, sorting, when sorting is order independent |
| `Pricing` | flat, graduated and package amounts; a graduated loop proved against a per-unit price |
| `Ledger`, `Replay`, `ReplayProcessor`, `Reconcile` | grouping usage and billed entries, corrective replay, the reconciliation report |
| `Dunning`, `DunningHistory`, `DunningLog`, `DunningBounds`, `DunningSchedules`, `DunningOutcomes`, `DunningEffects`, `DunningActions`, `DunningCap`, `DunningService` | the rules, every history of operations, the event log, retry bounds, schedules, what a re-evaluation amounts to, what each operation leaves behind, and the service's methods |
| `Finalization` | finalizing calls that interleave and stop between any two effects |
| `SecretStore`, `Connections`, `ConnectionService` | the secret map, the connection lifecycle, the service's methods and the recheck batch |
| `Explainability` | filtering, sorting, paging and digesting an invoice's lines |

Where the source updates things in place the model is a method or a class. Every access to
a store may fail; a class counts failures in a ghost field `faults`, and each of its methods
is proved to do a prefix of the operation's specification in general and all of it when
nothing failed. State machines (`Next`, `Exec`) are defined over those specifications, so a
lemma about all histories holds of every sequence of calls.

Things the proofs bring out about the code as it is:

- The retry maximum does not bound a run's attempts, because re-evaluation re-arms a run
  without reading the attempt count (`CapIsNotABound`): the maximum, like any other number,
  is a bound if and only if the policy is disabled (`BoundHoldsIff`). What bounds attempts is
  the number of armings (`RetryBound`), and that bound is attained (`BoundAttained`).
- Every re-evaluation starts the wait afresh. An action that was due and is still called for
  is put off if and only if grace period and first delay add up to something positive
  (`EnsurePostponesIff`): under the default policy a retry is, a reminder is not
  (`DefaultWaits`). If re-evaluations keep coming before that wait is over, the run is never
  acted on (`EnsuresCanStarve`).
- Under a disabled policy Ensure leaves the runs of paid invoices open (`DisabledEnsure`).
- A payment retry whose run write is lost is issued again (`LostWriteRepeatsRetry`).
- A reminder schedule longer than 101 entries is never exhausted, because earlier intents
  are counted from one page of 100 (`RemindersFollowSchedule`).
- A complete replay settles its scope if and only if its clock lies inside the job's window
  or there was nothing to correct; outside the window every attempt appends the same
  corrections again (`CompleteSettlesIff`, `OutsideWindowRepeats`).
- Two customers can share a group if and only if one id is the other with `:`, or with `::`
  and anything, behind it (`SharedKeyIff`).
- A report's AbsDeltaGTE filter also hides a difference of -2^63, whose size wraps around
  (`FilterKeeps`).
- Wrap-around breaks monotone pricing exactly when the exact charge does not fit 64 bits
  (`ReturnedMonotoneIff`); splitting properties have their own exact conditions
  (`SurchargesIff`, `DiscountsIff`).
- An empty reminder schedule is exhausted by the first reminder without marking it as the
  final attempt (`FinalAttemptIff`).
- A zero-amount invoice stopped between its two updates stays paid and unsettled for ever.
- A key rotation whose record write is lost leaves the connection without any secret, for
  good (`WholeIff`, `LostForever`).
- Explainability lines are canonical if and only if fees that agree on sort key and trimmed
  id give the same line (`CanonicalIff`); a page whose 64-bit offset wraps serves wrong
  lines or panics (`PageIff`, `HugePagesWrap`).

## Model

| member | source | states |
|---|---|---|
| Pricing.ComputeAmountCents | internal/domain/pricing.go:175-253 | A flat rule charges its amount once for any positive quantity and nothing for none; a package rule charges whole packages and overage for the rest; negative quantities, unknown modes and negative prices are refused; in every mode the amount is the exact price modulo 2^64 |
| Pricing.PackageAmount | internal/domain/pricing.go:237-249 | n whole packages and m < size further units cost n package prices and m overage prices |
| Pricing.ComputeGraduated | internal/domain/pricing.go:189-236 | The tier loop succeeds iff the quantity is reached by well-formed tiers, and then charges each unit 1..q the price of the first tier that reaches it |
| Pricing.NextUnitCosts | internal/domain/pricing.go:193-236 | Each further unit adds the price of the first tier that is unbounded or goes that far to what is returned |
| Pricing.GraduatedSucceedsIff | internal/domain/pricing.go:189-236 | A positive quantity can be charged iff some tier goes that far behind bounded, ordered, non-negative ones, and the tier behind it is non-negative if it is bounded |
| Pricing.NoUsageSucceedsIff | internal/domain/pricing.go:189-236 | No usage can be charged iff there is a first tier and its signs are right |
| Pricing.GraduatedDownwardClosed | internal/domain/pricing.go:196-236 | Although tiers are validated lazily, success at a quantity implies success at every smaller one |
| Pricing.GraduatedMonotone | internal/domain/pricing.go:193-236 | The exact graduated charge grows with the quantity |
| Pricing.ReturnedMonotoneIff | internal/domain/pricing.go:175-253 | In every mode the amounts returned up to a quantity grow iff the exact charge of that quantity fits 64 bits and, once it fills a package, a package costs at least the overage it replaces |
| Pricing.SumBounded | internal/domain/pricing.go:193-236 | Any run of units costs between 0 and its length times the largest visited price |
| Pricing.GraduatedNoOverflow | internal/domain/pricing.go:193-236 | When quantity times the largest visited price is below 2^63 no partial sum and no product of the loop overflows, and the amount is exact |
| Pricing.ExactWhenItFits | internal/domain/pricing.go:175-253 | The amount is the exact price iff the exact price fits 64 bits |
| Pricing.SplittingWithDiscounts | internal/domain/pricing.go:193-236 | With non-increasing tier prices, the exact charge of a+b is at most that of a plus that of b |
| Pricing.DiscountsIff | internal/domain/pricing.go:193-236 | The amounts returned obey this for every split of every quantity up to q iff the exact charge of q/2 fits 64 bits (prices up to 2^62) |
| Pricing.SplittingWithSurcharges | internal/domain/pricing.go:193-236 | With non-decreasing tier prices, the exact charge of a+b is at least that of a plus that of b |
| Pricing.SurchargesIff | internal/domain/pricing.go:193-236 | The amounts returned obey this for every split of every quantity up to q iff the exact charge of q fits 64 bits |
| Pricing.PackageMonotoneIff | internal/domain/pricing.go:237-249 | The exact package price is monotone iff a package costs at least what a full overage up to it costs |
| Ledger.GroupedStep | internal/replay/processor.go:80-104 | Adding one event or entry changes exactly its own group, by its own amount |
| Ledger.PostEvent | internal/replay/processor.go:80-92 | One turn of the usage loop is one step of the grouping |
| Ledger.PostEntry | internal/replay/processor.go:93-104 | One turn of the billed loop is one step of the grouping |
| Ledger.GroupsPartition | internal/reconcile/service.go:66-86 | The totals of the groups add up to the total of all postings |
| Ledger.PostingTotals | internal/reconcile/service.go:66-86 | All postings carry exactly the events' quantities and the entries' amounts |
| Ledger.SharedKeyIff | internal/replay/processor.go:80-104 | Two different customers can share a group iff one id runs on from the other with a colon, or with the separator and anything |
| Ledger.KeyInjective | internal/replay/processor.go:80-104 | Between customers that do not clash in that way the grouping key tells customer and meter |
| Ledger.NoColonNoClash | internal/replay/processor.go:80-104 | Customer ids without colons never clash |
| Ledger.GroupNamesCustomerAndMeter | internal/replay/processor.go:80-104 | For a customer that clashes with none, a group carries that customer's and meter's name and exactly their usage and charges |
| Ledger.ListedEvents | internal/store/postgres_usage.go:412-500 | What a filter lists is the events of its tenant, customer and meter from its start to its end |
| Ledger.ListedEntries | internal/store/postgres_usage.go:412-500 | The same for billed entries, with source and replay job |
| Replay.AttemptCorrects | internal/replay/processor.go:107-143 | Posting an attempt's adjustments sets the billed total of exactly the groups it corrected to the computed amount, also under wrap-around |
| Replay.AttemptSeen | internal/replay/processor.go:77-143 | Later attempts see that iff the attempt's clock lies in the job's window, and no change otherwise |
| Replay.GroupInScope | internal/replay/processor.go:38-57 | A job sees only groups of its own customer and meter, and in them exactly the events and entries of its tenant in its window |
| Replay.AdjustmentsAreOfJob | internal/replay/processor.go:127-135 | Every adjustment is of the job's tenant, and of its customer and meter if it names them |
| Replay.PricedIff | internal/replay/processor.go:108-121 | A group can be priced iff the tenant has its meter and the meter's rule, and the rule charges for its quantity |
| Replay.AttemptsProgress | internal/replay/processor.go:38-143 | Over any number of attempts each group's billed total is what it was or what it should be |
| Replay.CompleteSettlesIff | internal/replay/processor.go:38-143 | A complete attempt settles its scope iff its clock lies in the window or there was nothing to correct |
| Replay.NothingLeftToAdjust | internal/replay/processor.go:118-125 | In a settled scope a further attempt creates no entry |
| Replay.ReplayConverges | internal/replay/processor.go:38-143 | After any attempts that failed part way, in any iteration order, one complete attempt in the window bills every group exactly what its usage costs and leaves nothing to adjust |
| Replay.ReplayBillsCustomers | internal/replay/processor.go:38-143 | After a converged replay a customer that clashes with none has been billed, per meter, exactly what the meter's rule makes of its usage in the job's tenant and window |
| Replay.OutsideWindowRepeats | internal/replay/processor.go:106-143 | With the clock outside the window every further attempt appends the same corrections again |
| ReplayProcessor.Processor.StartReplayJob | internal/store/postgres_replay.go:300-349 | Only a queued job of the tenant is claimed |
| ReplayProcessor.Processor.FailReplayJob | internal/replay/processor.go:145-151 | Records the job as failed |
| ReplayProcessor.Processor.RetryReplayJob | internal/store/postgres_replay.go:242-298 | Exactly the tenant's failed jobs are queued again |
| ReplayProcessor.Processor.ProcessJobByID | internal/replay/processor.go:19-36 | A redelivered job that is not queued changes nothing; a queued one appends the adjustments of an attempt, all of its own tenant, customer and meter, and ends done iff every group could be priced |
| ReplayProcessor.Processor.ProcessClaimedJob | internal/replay/processor.go:38-68 | Every entry written is of the job's tenant, customer and meter; success means a complete attempt and counts the tenant's events of that customer and meter in the window; failure leaves a partial attempt and a failed job |
| ReplayProcessor.Processor.ApplyAdjustments | internal/replay/processor.go:77-143 | Appends exactly the adjustments of the groups it corrected, each once; succeeds iff all groups could be priced and no write failed, and then it corrected all |
| ReplayProcessor.AggregateRows | internal/replay/processor.go:80-104 | The two loops compute the grouping of events and entries |
| Reconcile.GenerateReport | internal/reconcile/service.go:34-150 | Succeeds iff both tables can be read and every group can be priced, and then returns the report of the filter, for the default tenant if none is named: the shown rows, strictly sorted by customer and meter, with their totals |
| Reconcile.PricedIff | internal/reconcile/service.go:91-109 | The same for the report, which also checks that meter and rule are the tenant's |
| Reconcile.AggregateRows | internal/reconcile/service.go:66-86 | The report's two loops compute the same grouping as replay's |
| Reconcile.ReportUnique | internal/reconcile/service.go:88-150 | There is only one such report, so map iteration order does not show |
| Reconcile.TotalsBalance | internal/reconcile/service.go:108-140 | Under every filter the total delta is total computed minus total billed |
| Reconcile.MismatchOnlyKeepsDelta | internal/reconcile/service.go:111-140 | Turning MismatchOnly on keeps the total delta and the mismatch count and drops exactly the clean rows |
| Reconcile.UnfilteredConserves | internal/reconcile/service.go:34-140 | With no row filter, quantities add up to all events of the tenant and customer in the window, and total billed to all their entries from the source and job asked for |
| Reconcile.RowMeaning | internal/reconcile/service.go:66-136 | A row shows the customer's usage of the meter, what the meter's rule charges for it, what was billed, and the difference |
| Reconcile.FilterKeeps | internal/reconcile/service.go:111-122 | A row filter drops exactly the rows without a difference, or with one smaller in size than asked (or of -2^63), and changes none |
| Reconcile.RowsInOrder | internal/reconcile/service.go:142-147 | Rows are ordered by customer, and a customer's by meter |
| Ordering.StringLessIff | internal/reconcile/service.go:142-147 | Strings are ordered by the first character in which they differ, a prefix before what it begins |
| Reconcile.SettledReportsClean | internal/reconcile/service.go:91-140 | A settled ledger gives a report with no mismatch and no delta |
| Reconcile.ReplayThenReportClean | internal/reconcile/service.go:34-150 | After a complete replay in the window, with no meter restriction, the report of the same tenant, customer and window is clean |
| Dunning.ActiveRun | internal/store/postgres_dunning.go:254-280 | Finds the latest unresolved run of the invoice iff there is one |
| DunningHistory.UpdateIsTransition | internal/service/dunning_service.go:217-976 | Every write of a run is a legal transition of an unresolved run |
| DunningHistory.CreateIsFresh | internal/service/dunning_service.go:298-336 | A run is created only by Ensure, unresolved, unpaused and with no attempt, for an invoice without an unresolved run |
| DunningHistory.StepRuns | internal/service/dunning_service.go:217-976 | A step changes one run by a legal transition or adds one |
| DunningHistory.EveryHistoryKeepsInv | internal/service/dunning_service.go:217-976 | In every history, whatever fails, each run keeps its shape (resolved, next action, paused, attempt and state fields agree) and each invoice has at most one unresolved run |
| DunningHistory.HistoryFromEmpty | internal/service/dunning_service.go:217-976 | So do all histories from an empty store |
| DunningHistory.ResolvedForever | internal/service/dunning_service.go:889-976 | A resolved run record never changes again |
| DunningHistory.ContactsGuarded | internal/service/dunning_service.go:589-619 | A retry is issued or a reminder queued only for an unresolved, unpaused run whose next action it is |
| DunningHistory.SilenceKept | internal/service/dunning_service.go:603-611 | From a pause until the next resume a run issues no retry and queues no reminder |
| DunningHistory.ResolvedSilence | internal/service/dunning_service.go:1428-1436 | Nor does it ever after it was resolved |
| DunningHistory.NoRetryWithoutReevaluation | internal/service/dunning_service.go:1428-1465 | A run not waiting for a retry gets none until Ensure or Resume re-evaluates it |
| DunningHistory.AcceptedRetriesAreSeparated | internal/service/dunning_service.go:1449-1490 | After a recorded accepted retry there is no other retry before a re-evaluation |
| DunningHistory.LostWriteRepeatsRetry | internal/service/dunning_service.go:1449-1526 | A retry whose run write fails is issued again |
| DunningLog.PlanEventFits | internal/service/dunning_service.go:1388-1409 | Each operation logs the run as it leaves it, and an attempt event exactly when it makes an attempt |
| DunningLog.LogAccountsForRuns | internal/service/dunning_service.go:274-376 | In a history without failures every run's last event carries its state and attempt count, and the attempt count is the number of attempt events |
| DunningLog.AttemptsAreRequests | internal/service/dunning_service.go:1449-1490 | In such a history a run's attempt count is the number of payment requests made for it |
| DunningBounds.PolicyFixed | internal/service/dunning_service.go:162-215 | The policy a tenant is under, stored or by default, changes only by PutPolicy of that tenant |
| DunningBounds.RejectedBelowCap | internal/service/dunning_service.go:1632-1637 | A rejected retry is rescheduled only below the cap |
| DunningBounds.RetryBound | internal/service/dunning_service.go:1163-1637 | Under a policy that is not put, stored or by default, with cap L, in every history a scheduled run has made 1 to L-1 attempts, and no run more than max(0, L-1) plus its armings |
| DunningBounds.OneArmingRespectsCap | internal/service/dunning_service.go:1492-1513 | A run armed at most once makes at most max(1, L) attempts |
| DunningBounds.CapIsNotABound | internal/service/dunning_service.go:1163-1222 | Under every policy that arms retries a run reaches any number of attempts |
| DunningCap.BoundHoldsIff | internal/service/dunning_service.go:1163-1637 | The cap, or any number, bounds the attempts of a tenant's runs in all histories iff the tenant's policy is disabled |
| DunningCap.BoundAttained | internal/service/dunning_service.go:1163-1637 | For every a some history has exactly a armings and a + max(0, L-1) attempts |
| DunningBounds.EnsureIdempotent | internal/service/dunning_service.go:241-384 | With everything unchanged a second Ensure does nothing at all |
| DunningSchedules.NormalizeKeepsDelays | internal/service/dunning_service.go:1639-1684 | Normalizing an accepted schedule keeps its length, order and delays |
| DunningSchedules.DefaultPolicyOk | internal/service/dunning_service.go:1354-1367 | The default policy's schedules parse |
| DunningSchedules.UpdatedPolicyOk | internal/service/dunning_service.go:177-215 | An accepted update keeps schedules that parse to the last entry |
| DunningSchedules.PoliciesStayOk | internal/service/dunning_service.go:162-215 | So does every history |
| DunningSchedules.RetriesFollowSchedule | internal/service/dunning_service.go:1492-1513 | Without re-evaluation failing retries stop after exactly max(1, L) requests, use the delays in order, and then pause or escalate |
| DunningSchedules.RemindersFollowSchedule | internal/service/dunning_service.go:620-686 | Reminders do the same for schedules of at most 101 entries; longer ones are never exhausted |
| DunningSchedules.FinalAttemptIff | internal/service/dunning_service.go:620-686 | The intent a reminder queues is marked final iff the reminder leaves the run without a next action and the schedule is not empty; an empty schedule is exhausted unmarked |
| DunningSchedules.FailedPaymentArmsRetry | internal/service/dunning_service.go:1163-1250 | A failed payment with a ready payment method arms a retry under every enabled policy |
| DunningOutcomes.EvaluationFollows | internal/service/dunning_service.go:1163-1250 | Under an accepted policy an evaluation never fails, is eligible iff the invoice is finalized, unpaid, and overdue or failed or pending, and picks state, reason and due time by whether the customer can be charged |
| DunningOutcomes.EnsureOutcome | internal/service/dunning_service.go:217-384 | After an Ensure under an enabled policy the invoice has an unresolved run iff it is finalized, unpaid, and overdue or failed or pending; unless paused it waits for what invoice and customer call for, due after grace period and first delay |
| DunningEffects.EnsureByStatus | internal/service/dunning_service.go:1369-1386 | The same by cases of invoice status, payment status and the overdue flag |
| DunningEffects.EnsureStarts | internal/service/dunning_service.go:298-336 | An invoice to be chased without an unresolved run gets one, with its customer, no attempt and a started event |
| DunningEffects.EnsureReevaluates | internal/service/dunning_service.go:338-384 | An unresolved run is left alone if paused or waiting as it should; otherwise it is set waiting so and the change is logged by what it was and what the customer's payment method is |
| DunningEffects.EnsureCloses | internal/service/dunning_service.go:250-296 | The unresolved run of an invoice not to be chased is closed, as paid iff it was paid, and that is logged |
| DunningOutcomes.DisabledEnsure | internal/service/dunning_service.go:231-235 | Under a disabled policy an Ensure leaves every run and the log alone |
| DunningOutcomes.DueAfterEnsure | internal/service/dunning_service.go:338-363 | After an Ensure a batch may act on the run iff it is not paused, the action is the one invoice and customer call for, and grace period and first delay are over |
| DunningOutcomes.EnsurePostponesIff | internal/service/dunning_service.go:343-363 | An Ensure puts off an action that was due and is still called for iff grace period and first delay are positive together |
| DunningOutcomes.DefaultWaits | internal/service/dunning_service.go:1354-1367 | By default a retry waits a day and a reminder not at all |
| DunningOutcomes.EnsuresCanStarve | internal/service/dunning_service.go:338-376 | If every batch comes before the wait started by the last Ensure is over, no batch ever retries the run's payment or reminds its customer |
| DunningOutcomes.ResumeOutcome | internal/service/dunning_service.go:785-887 | A resumed run is resolved iff the invoice no longer needs dunning, by payment iff it was paid, and otherwise waits like one just ensured |
| DunningEffects.PauseOutcome | internal/service/dunning_service.go:735-783 | Exactly the unresolved, unpaused runs are paused, with nothing left to do, and that is logged |
| DunningEffects.ResumeEffect | internal/service/dunning_service.go:785-887 | Exactly the paused, unresolved runs are resumed, waiting for what invoice and customer call for, or closed, and that is logged |
| DunningEffects.ResolveOutcome | internal/service/dunning_service.go:889-938 | Every unresolved run is closed by the operator, and that is logged |
| DunningEffects.ResolveByInvoiceOutcome | internal/service/dunning_service.go:942-976 | A payment closes the invoice's unresolved run, whatever it waited for, as paid, and logs it; the invoice has no unresolved run then |
| DunningEffects.NothingToResolve | internal/service/dunning_service.go:946-949 | Without an unresolved run it does nothing |
| DunningEffects.PaidForGood | internal/service/dunning_service.go:942-976 | After it no history retries the payment, reminds the customer or changes the run |
| DunningActions.RetryOutcome | internal/service/dunning_service.go:1411-1549 | A retry of a waiting run makes one request, counts it, leaves the run awaiting the result, scheduled by the next entry, or exhausted, and logs which; any other retry does nothing |
| DunningActions.RemindOutcome | internal/service/dunning_service.go:589-719 | A reminder of a waiting run queues one intent with its number and kind, moves the run to the next entry or exhausts it, and logs which |
| DunningActions.DispatchOutcome | internal/service/dunning_service.go:1252-1352 | A delivery marks its intent delivered or not, logs which, and leaves the run alone |
| DunningActions.PutPolicyOutcome | internal/service/dunning_service.go:177-215 | A request is refused iff an entry does not parse or a number is negative; otherwise the policy is what was asked for and keeps what was not |
| DunningActions.DelayMeaning | internal/service/dunning_service.go:1660-1684 | n with m, h or d is n minutes, hours or days |
| DunningActions.DelayAcceptedIff | internal/service/dunning_service.go:1660-1684 | Nothing else parses |
| DunningActions.DefaultPolicyMeaning | internal/service/dunning_service.go:1354-1367 | The default policy retries after 1, 3 and 5 days, reminds at once and after 2 and 5 days, and ends in a review |
| DunningService.Service.GetPolicy | internal/service/dunning_service.go:162-175 | Answers the tenant's policy, creating the default one first if there is none |
| DunningService.Service.PutTenantPolicy | internal/service/dunning_service.go:177-215 | Carries out a prefix of its plan, all of it when no access fails |
| DunningService.Service.EnsureRunForInvoice | internal/service/dunning_service.go:217-384 | Likewise: creates, re-evaluates, resolves or leaves the invoice's run |
| DunningService.Service.DispatchRetryPayment | internal/service/dunning_service.go:1411-1549 | Likewise; succeeds iff the gateway accepted and everything was recorded |
| DunningService.Service.QueueCollectPaymentReminder | internal/service/dunning_service.go:589-719 | Likewise; success means the run advanced and the last intent is its own |
| DunningService.Service.DispatchReminderIntent | internal/service/dunning_service.go:1252-1352 | Likewise; success means the intent was delivered |
| DunningService.Service.PauseDunningRun | internal/service/dunning_service.go:735-783 | Likewise; with no failed access it succeeds iff the run is the tenant's, unresolved and unpaused |
| DunningService.Service.ResumeDunningRun | internal/service/dunning_service.go:785-887 | Likewise, with a re-evaluation |
| DunningService.Service.ResolveDunningRun | internal/service/dunning_service.go:889-938 | Likewise; with no failed access it succeeds iff the run is the tenant's and unresolved |
| DunningService.Service.ResolveRunByInvoiceID | internal/service/dunning_service.go:942-976 | Likewise; with no failed access the invoice's unresolved run, if any, is resolved as paid now, unpaused and idle, with one event |
| DunningService.Service.FindActiveRun | internal/store/postgres_dunning.go:254-280 | The loop finds the latest unresolved run of the invoice |
| DunningService.Service.NextDueRun | internal/store/postgres_dunning.go:352-411 | Finds a due run of earliest action time, then oldest, iff one is due |
| DunningService.Service.ProcessRetryPaymentBatch | internal/service/dunning_service.go:1044-1098 | The batch is a history of retries, each of a run due at that point, one per processed run; counts add up, and below its limit with no failure nothing due is left |
| DunningService.Service.ProcessCollectPaymentReminderBatch | internal/service/dunning_service.go:978-1038 | The same for reminders, each followed by its delivery |
| Finalization.KeyIdentifiesInvoice | internal/service/invoice_finalization_service.go:100-107 | Idempotency keys identify invoices |
| Finalization.EffectOk | internal/service/invoice_finalization_service.go:66-132 | Every effect of a call keeps intents unique and exact, and never unlinks an intent |
| Finalization.EveryRunKeepsInv | internal/service/invoice_finalization_service.go:56-132 | So does every interleaving of calls stopped anywhere |
| Finalization.ExactlyOncePayment | internal/service/invoice_finalization_service.go:56-132 | An invoice has at most one intent, for exactly its total, and a finalized invoice carries its own intent's id |
| Finalization.StoppedCallsCanBeCompleted | internal/service/invoice_finalization_service.go:100-132 | One undisturbed call finalizes a draft non-zero invoice however far earlier calls came, reusing their intent |
| Finalization.LinkedIntentIsReused | internal/service/invoice_finalization_service.go:100-127 | The intent used is the one the invoice was already linked to |
| Finalization.ZeroAmountOutcome | internal/service/invoice_finalization_service.go:67-98 | A zero-amount call creates no intent and leaves the invoice draft, paid and unsettled, or paid and settled, by where it stopped |
| Finalization.NonDraftIsLeftAlone | internal/service/invoice_finalization_service.go:61-63 | A non-draft invoice is rejected by every later call and stays as it is |
| Finalization.Finalizer.CreatePaymentIntent | internal/service/invoice_finalization_service.go:100-118 | The gateway answers a known key with its intent and creates one otherwise |
| Finalization.Finalizer.Finalize | internal/service/invoice_finalization_service.go:56-170 | Carries out a prefix of the call's effects, all four when nothing fails, and succeeds only when what it reports was done |
| SecretStore.RefNamesConnectionIff | internal/service/billing_secret_store.go:141-156 | The connection id read back from a reference is the one it was made for iff that has no slash |
| SecretStore.NoPathNoConnection | internal/service/billing_secret_store.go:149-156 | A reference without slashes names no connection, and its secret is filed as rotated |
| SecretStore.PutGetRoundTrip | internal/service/billing_secret_store.go:38-73 | Secrets can be put iff the id and some key are not blank, read back normalized (as given iff they were normalized), and disturb no other entry |
| SecretStore.RotationIsLocal | internal/service/billing_secret_store.go:112-139 | Rotation succeeds iff the old secret is there, its reference names a connection and some key is left; it keeps the HMAC key, files the new key under the connection the reference names, removes the old reference and touches nothing else |
| SecretStore.MemoryStore.PutConnectionSecrets | internal/service/billing_secret_store.go:38-59 | Files normalized valid secrets under a new reference, or changes nothing |
| SecretStore.MemoryStore.GetConnectionSecrets | internal/service/billing_secret_store.go:61-73 | Finds what is stored under the trimmed reference |
| SecretStore.MemoryStore.UpdateConnectionSecrets | internal/service/billing_secret_store.go:75-95 | Replaces an existing entry by valid secrets, or changes nothing |
| SecretStore.MemoryStore.RotateStripeSecret | internal/service/billing_secret_store.go:112-128 | Is a rotation, or changes nothing |
| Connections.RotationOutcome | internal/service/billing_provider_connection_service.go:304-337 | A rotation goes ahead iff the connection is enabled, the key not blank and the old secret there |
| Connections.StepKeepsInv | internal/service/billing_provider_connection_service.go:134-389 | Every operation, its record write failing or not, keeps references filed under their own connections, distinct, and connected keys verified |
| Connections.ConnectedMeansVerified | internal/service/billing_provider_connection_service.go:339-389 | In every history a connected connection that has a secret stores the Stripe key the verifier last accepted |
| Connections.WholeIff | internal/service/billing_provider_connection_service.go:322-337 | A step takes a connection's secret away iff it is a rotation that goes ahead and whose record write fails |
| Connections.ConnectedHasVerifiedKey | internal/service/billing_provider_connection_service.go:248-389 | In every history without such a step a connected connection has its secret and it is the accepted one |
| Connections.LostSecretIsPermanent | internal/service/billing_provider_connection_service.go:304-389 | No operation repairs a connection that lost its secret; it can only be disabled |
| Connections.LostForever | internal/service/billing_provider_connection_service.go:304-389 | That holds over every further history |
| Connections.DisabledIsAbsorbing | internal/service/billing_provider_connection_service.go:521-537 | A disabled connection's record never changes again |
| Connections.CreateEffect | internal/service/billing_provider_connection_service.go:134-200 | The trimmed keys are filed and a pending connection added, or the secret taken back; blank ids and blank keys are refused |
| Connections.HmacEffect | internal/service/billing_provider_connection_service.go:287-302 | The HMAC key is replaced and the Stripe key kept, unless no key would be left |
| Connections.RotateEffect | internal/service/billing_provider_connection_service.go:304-337 | A rotation leaves the connection pending and unsynced under its new reference |
| Connections.SyncEffect | internal/service/billing_provider_connection_service.go:339-389 | A refusal takes the connection out of connected, an acceptance connects it as of now, and the first time is kept |
| Connections.DisableEffect | internal/service/billing_provider_connection_service.go:521-537 | An enabled connection is disabled as of now |
| ConnectionService.DueIsExact | internal/service/billing_provider_connection_service.go:493-506 | A connection is due iff it is not disabled and was never synced, or not for at least the time given |
| ConnectionService.DueIsDecreasing | internal/store/postgres_billing.go:127-204 | The due connections are listed from newest to oldest, none twice |
| ConnectionService.EachDueCheckedOnce | internal/service/billing_provider_connection_service.go:463-519 | No connection is checked twice, only due ones are, the others stay as they were, and a batch through all that is due checks every one |
| ConnectionService.SyncsKeepInv | internal/service/billing_provider_connection_service.go:463-519 | A batch keeps what every history keeps |
| ConnectionService.Service.CreateBillingProviderConnection | internal/service/billing_provider_connection_service.go:134-200 | Succeeds iff provider, environment, scope and owner, name, actor and keys are valid and no access failed; an invalid request changes nothing; a valid one is the creation step |
| ConnectionService.Service.UpdateWebhookHmacKey | internal/service/billing_provider_connection_service.go:287-302 | Is the HMAC update step, or nothing when the record cannot be read |
| ConnectionService.Service.RotateBillingProviderConnectionSecret | internal/service/billing_provider_connection_service.go:304-337 | Is the rotation step, or nothing when the record cannot be read |
| ConnectionService.Service.SyncBillingProviderConnection | internal/service/billing_provider_connection_service.go:339-389 | Is a sync step with the verifier's answer; success means connected and synced now, failure leaves the sync time |
| ConnectionService.Service.DisableBillingProviderConnection | internal/service/billing_provider_connection_service.go:521-537 | Is the disabling step; success means disabled |
| ConnectionService.Service.RecheckBillingProviderConnectionsBatch | internal/service/billing_provider_connection_service.go:463-519 | Terminates; checked = healthy + failed is at most the limit, checked + skipped at most scanned; it syncs the first due connections in order, all of them unless the limit or a failed listing stops it, and counts as healthy those now synced |
| Canonical.SortIsStable | internal/service/invoice_explainability_service.go:259-284 | Sorting keeps tied elements in the order they came in |
| Canonical.SortPermutation | internal/service/invoice_explainability_service.go:259-284 | Sorting rearranges positions, and elements that tie stay in the order of theirs |
| Canonical.OrderIndependentIff | internal/service/invoice_explainability_service.go:259-284 | A sorted list looks the same for every order of arrival iff ties look alike |
| Explainability.NewInvoiceExplainabilityOptions | internal/service/invoice_explainability_service.go:34-64 | Accepts iff the sort is known and page and limit are not negative; keeps exactly the normalized non-blank types |
| Explainability.KeptIff | internal/service/invoice_explainability_service.go:313-319 | A fee is kept iff no type was asked for or its own, however written, was |
| Explainability.RowLessMeaning | internal/service/invoice_explainability_service.go:259-284 | The comparator orders by key, then fee id, and ties only when both agree |
| Explainability.BeforeIsStrictWeak | internal/service/invoice_explainability_service.go:259-284 | It is a strict weak order in all four modes |
| Explainability.RowsPermute | internal/service/invoice_explainability_service.go:123-130 | The same fees in another order give the same rows |
| Explainability.CanonicalIff | internal/service/invoice_explainability_service.go:123-150 | The sorted lines, and so the digest's input, are the same for every order of the fees iff kept fees that agree on sort key and trimmed id give the same line |
| Explainability.DistinctIdsAreCanonical | internal/service/invoice_explainability_service.go:123-150 | In particular when the trimmed fee ids are distinct |
| Explainability.LinesOfFees | internal/service/invoice_explainability_service.go:116-137 | Each line is that of one fee asked for, with the fee's own amount, taxes and total (or their sum), each such fee has one, and they are in the order asked for |
| Explainability.NothingLost | internal/service/invoice_explainability_service.go:116-137 | With no type asked for, amounts and taxes of the lines add up to those of the fees |
| Explainability.PageDefaults | internal/service/invoice_explainability_service.go:286-311 | Without page and limit everything is served, a page not named is the first, and without a limit the first page holds everything |
| Explainability.PageIff | internal/service/invoice_explainability_service.go:286-311 | A page holds the lines its number and limit promise iff its offset fits 64 bits or wraps past the end |
| Explainability.HugePagesWrap | internal/service/invoice_explainability_service.go:286-311 | Page 2^32+1 of limit 2^32 serves the first page again; page 3 of limit 2^62 panics |
| Explainability.PagesPartition | internal/service/invoice_explainability_service.go:286-311 | For every positive limit pages 1..ceil(n/limit) put together are the whole list; a later page is empty iff its offset does not wrap into the list |
| Explainability.SortExplainabilityRows | internal/service/invoice_explainability_service.go:259-284 | Sorts the array in place, stably |
| Explainability.BuildInvoiceExplainability | internal/service/invoice_explainability_service.go:110-152 | Fails iff the invoice id is blank; digests the whole sorted list of the lines of the fees asked for, whatever page is asked for, and pages that list |

## Left out

- HTTP, sessions, authentication, Temporal workflows, metrics, configuration and the SQL text are not modelled; redelivery is a repeated call.
- Dunning operations run one after another: two processes that read and write the same run at once are outside the model. Finalizing calls do interleave.
- Clocks, the payment gateway's answer, the verifier's answer, mail delivery and random references are parameters or arbitrary choices; each operation reads its clock once, and random references are taken never to repeat.
- The gateway is taken to answer a repeated idempotency key with the intent it has; retention limits of such keys are not modelled.
- Tenant, invoice and run ids are taken as already trimmed; run and connection ids are positions in their tables, except that a connection also has its own id text.
- ConnectionService.Service.RecheckBillingProviderConnectionsBatch: connections are taken to have been created at different instants, so that the listing's tie-break by id does not matter.
- Lower-casing covers ASCII letters only; free text (metadata, display names, error messages) is dropped or carried as one opaque value.
- RefreshRunsForCustomer, the read-only listings and summaries of dunning, and policy names would only add easy members.
- Updating a connection's display name, environment and scope, and provisioning a workspace from a connection, are not modelled.
- ConnectionService.Service.UpdateWebhookHmacKey: models only the HMAC part of the update.
- Webhook effects on invoices, PDF rendering, invoice numbering and invoice generation are not part of this model.
- Finalization.Finalizer.Finalize: a tenant without a usable billing connection counts as a failed access, like any other read error before the first effect.
- JSON decoding, CSV writing, hashing, the AWS secret store and cursor codecs are foreign libraries; a stored secret is the decoded record.
- Explainability.BuildInvoiceExplainability: starts from decoded fees, and item names, rule references and properties are one opaque value per line.
- Explainability.PageIff: supposes at most 2^62 lines, more than fit an address space.
- The library's sorts are modelled by a stable insertion sort, which in place is what `SortExplainabilityRows` does.
