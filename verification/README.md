# ApprovalFlow, verified

A Dafny model of ApprovalFlow, an invoice workflow of event-driven services over a
compare-and-swap key-value store, and proofs of what the workflow promises.
`dafny verify dfyconfig.toml` checks all of it.

**The store.** `StateStore` and `CasLoop` model the etag store and its loops as objects; the
writes of other tasks at each suspension point are a script, so a contract holds under every
interference. `CasMachine` runs any number of tasks, one `get` or `try_save` at a time.

**The protocols.** Each protocol is a step function (`PaymentSaga`, `Approval`, `Dedupe`,
`AuditTrail`, `Fingerprint`, `Intake`), a run of which is any interleaving of calls, failed
publishes, failed writes, crashes and redeliveries (`Runs`). The invariants are in the `*Safety`
and `*Laws` modules, the guarantees in the `*Theorems`, `SagaOverspend`, `SagaEvents`,
`SagaRejections` and `ApprovalAuthority` modules. The services themselves
(`PaymentService`, `PaymentSubscriber`, `ApprovalService`, `AuditService`, `IntakeService`) are
classes whose methods write their fields step by step and are proved to take exactly the steps
of the protocol, so that the guarantees hold of them. A debit, a credit or any other `cas_update`
is one protocol step, which is what `CasLoop` and `CasMachine` prove of the loop.

**The kernels.** The validator's cents arithmetic, the router, the decision pipeline, the SMS
segmenter and the LLM adapter's retry budget. `EndToEnd` joins decision, approval, payment
and audit.

## Hypotheses, and where the code and its documentation differ

- Calls of `PaymentSaga.handle` for one invoice do not overlap (`saga.py` lines 36-39 accept that
  they might); calls for different invoices interleave freely.
- `saga.py` lines 21-25 name two crash windows and say both fail in the safe direction, "never
  overspend". There is a third: a stop between the committed `release` and the `compensated` marker
  (lines 225-229). The retry releases again, or pays. `SagaScenario.ThirdWindowOverspends` is a run
  that pays 200 cents from a budget of 100. The exact condition is `SagaOverspend.OverspendIff`: further
  deliveries, without any further stop, can overspend a department if and only if the stops in that
  window have gained it more than the stops before the `reserved` marker lost it.
- A stop between the terminal marker and the publish loses the payment event for good
  (`SagaEvents.EventIsOutIff`): the terminal-state check makes every redelivery a no-op.
- A payment event that was delivered, marked and then cut off by a crash, or by an exception whose forget failed, is
  acked as a duplicate ever after; its saga can stay unfinished with the budget held. `PaymentSubscriber.StuckIff`
  says that nothing else does this.
- `api.py` lines 187-192 of the approval service argue that re-adding an id after a rollback is
  enough against the self-healing queue. It is not, because `get_queue` reads and evicts in two steps
  (lines 98-115): `ApprovalTheorems.StaleEvictionStrands` ends with a pending escalation in no queue
  and nothing logged. The dequeue of a verdict call whose record was reopened meanwhile does the same
  (`ReopenDuringVerdictStrands`). `ApprovalSafety.QueueBreaksIff` and `ApprovalTheorems.QueueHoldsIff` say, for
  every run, exactly which steps break the queue.
- A record can be reopened while the verdict call that sent it back is still publishing. A verdict given since is
  then undone by that call's rollback, which is unconditional (`ApprovalTheorems.RevertUndoesLaterVerdict`), or
  contradicted by its late publish (`LatePublishMisdelivers`). `VerdictUndoneIff` and `ApprovalSafety.DeliveryBreaksIff`
  say exactly which steps of any run do so; `CalmRunsAreSafe` says that without such a reopening none does.
- The broker may take a resolution while the service sees an error (lines 156-162 call that at-least-once).
  After the rollback the next verdict may differ, and both are out: `ApprovalTheorems.UnacknowledgedContradicts`.
- `trail.py` lines 11-18 call the empty list of ceiling violations a proof of compliance. The index is
  keyed by invoice: a second auto-approval of an invoice is not indexed, so its violation can go
  unreported (`AuditTheorems.SecondApprovalIsNotIndexed`). `AckedViolationReportedIff` has the condition,
  which is the guard of the write: it is reported exactly when, at that write, the index had its row or none
  for its invoice.
- The dashboard books a payment as automatic when `decided_by == "router"`
  (`services/intake/src/subscriptions.py` line 111), which an approver with that id also satisfies:
  `IntakeLaws.BucketRightIff` and `BucketsFollowRoutes`.
- Intake publishes a submission before it saves `evaluating`. A decision that arrives in between is
  marked, acked and lost: `IntakeLaws.EarlyDecisionIsLost`, `DecisionAppliesIff`. The population laws
  hold with that window open; resubmissions and event handlers run one at a time.
- A fingerprint joins vendor, number and total with `|` (`fingerprint.py` line 40), which does not tell
  "a|b", "c" from "a", "b|c": `Fingerprint.BarsCollide`. Without that character it tells invoices apart
  (`SameFingerprintIff`).
- Python's `ROUND_HALF_UP` rounds ties away from zero, also for negative amounts (`Money`).

## Model

| member | source | states |
|---|---|---|
| StateStore.YieldingStateStore.Get | libs/afcommon/afcommon/state.py:25-29 | the value and etag current after the suspension; only other tasks wrote meanwhile |
| StateStore.YieldingStateStore.TrySave | libs/afcommon/afcommon/state.py:31-38 | true exactly when the etag is still current (or, without one, the key absent) after the suspension; then the value is stored under a fresh etag, else nothing is written and a conflict is counted |
| StateStore.YieldingStateStore.Delete | libs/afcommon/afcommon/state.py:40-41 | removes the key and nothing else |
| CasLoop.EtagGuards | libs/afcommon/afcommon/state.py:31-38 | an etag that is still current vouches for the value read with it; a stale one means the key was written since |
| CasLoop.CasUpdate | libs/afcommon/afcommon/state.py:134-146 | under any interference: one atomic write that replaces exactly the value the update function saw, or no write at all; exhaustion only after `max_retries` foreign writes of the key |
| CasLoop.TryRegister | libs/afcommon/afcommon/state.py:149-154 | true exactly when this call created the key; false leaves it alone |
| CasMachine.Linearizable | libs/afcommon/afcommon/state.py:134-146 | for any number of tasks in any interleaving, every value is the fold of the committed updates in commit order, and each returned call committed exactly once, on the value it replaced |
| CasMachine.ConflictNeedsContention | libs/afcommon/afcommon/state.py:141-146 | a call that raises CasConflict committed nothing, and at least `max_retries` other writes hit its key while it ran |
| Budgets.BudgetStore.SeedIfAbsent | services/payment/src/budgets.py:37-46 | writes only budgets that were missing, so a spent budget is never reset |
| Budgets.BudgetStore.Reserve | services/payment/src/budgets.py:53-73 | True is one debit of the amount from enough; False writes nothing and there was too little or no such department; a conflict blames ten foreign writes |
| Budgets.BudgetStore.Release | services/payment/src/budgets.py:75-88 | one credit of the amount, or nothing for an unknown department |
| Budgets.BudgetStore.GetRemaining | services/payment/src/budgets.py:48-51 | what the department holds at that moment, after seeding |
| Budgets.ReserveMeans | services/payment/src/budgets.py:53-73 | a reserve answered True is one write that takes the amount out of at least as much; False is that the department holds less than the amount or is unknown |
| Budgets.ReleaseMeans | services/payment/src/budgets.py:75-88 | a release answered True is one write that adds the amount to what the department held; False is that there is no such department |
| Budgets.KeysDiffer | services/payment/src/budgets.py:91-92 | two departments never share a budget key |
| Budgets.OthersUntouched | services/payment/src/budgets.py:91-92 | a reserve or release for one department writes no other department's budget |
| BudgetRuns.BudgetLedger | services/payment/src/budgets.py:53-88 | in every interleaving of seedings, reserves and releases: a department's budget is never negative, and equal to its seed minus the reserves plus the releases committed for that department; an answer is one commit |
| BudgetRuns.NoOverspend | services/payment/src/budgets.py:53-73 | from any moment the department has a budget, reserves committed without a release in between take together no more than was left |
| BudgetRuns.OtherDepartmentKeepsIts | services/payment/src/budgets.py:53-92 | whatever is committed for one department leaves what every other one holds |
| SagaSafety.RunKeepsInv | services/payment/src/saga.py:119-241 | the saga invariant holds after every run: calls agree with the durable records, events with the records, budgets with the ledger |
| SagaTheorems.SagaLedger | services/payment/src/saga.py:202-239 | with no call in flight, remaining = seed - reserved or paid - stops before the `reserved` marker + stops before the `compensated` marker, through every interleaving and crash |
| SagaTheorems.ConservedIff | services/payment/src/saga.py:21-43 | money is conserved exactly when what stops before the `reserved` marker lost equals what stops before the `compensated` marker gained |
| SagaOverspend.OverspendIff | services/payment/src/saga.py:21-43 | from any reachable moment without calls in flight, deliveries without further stops can overspend a department if and only if stops have gained it more than they lost it |
| SagaTheorems.PaidWithinSeed | services/payment/src/saga.py:197-239 | at every moment, calls in flight or not, the paid total is within the seed if stops have gained no more than they lost |
| SagaTheorems.NeverOverspent | services/payment/src/saga.py:21-25 | in particular without a stop in the release window |
| SagaTheorems.ProviderAgrees | services/payment/src/saga.py:219-239 | a provider record only with `reserved` or `paid`; `paid` carries the provider's reference; compensated and rejected sagas have none |
| SagaTheorems.OnePaymentEvent | services/payment/src/saga.py:243-293 | at most one payment event per invoice over all deliveries, and it says what the terminal record says |
| SagaEvents.EventIsOutIff | services/payment/src/saga.py:134-136 | a finished saga's event is out exactly when no stop came between its terminal marker and the publish |
| SagaEvents.EventIsLost | services/payment/src/saga.py:234-239 | the delivery of any covered fresh invoice, stopped before its publish, has paid and told nobody, and no redelivery does anything |
| SagaTheorems.DurableFactsAreFinal | services/payment/src/saga.py:134-144 | terminal records, payment references, departments, amounts and correlation ids never change, whatever later deliveries carry |
| SagaTheorems.OpenedWithinCeiling | services/payment/src/saga.py:146-195 | a saga past its opening checks carries a positive amount, within the ceiling of the automatic request that opened it |
| SagaScenario.PayFresh | services/payment/src/saga.py:191-239 | an uninterrupted covered delivery debits once, registers one payment, leaves `paid` and publishes exactly its completion |
| SagaScenario.DeclineRestores | services/payment/src/saga.py:219-231 | an uninterrupted decline leaves every budget as it was, no payment, `compensated`, and exactly its failure event |
| SagaScenario.ResumeStarted | services/payment/src/saga.py:202-241 | a saga left at `started`, from any state: an uninterrupted undeclined redelivery that the department can cover debits it once, registers one payment, leaves `paid` and publishes the completion |
| SagaScenario.ResumeStartedShort | services/payment/src/saga.py:202-215 | the same redelivery when the department has too little rejects the saga, moves no money and says so |
| SagaScenario.ThirdWindowOverspends | services/payment/src/saga.py:222-231 | one stop after `release` lets a department pay 200 cents from 100 |
| SagaRejections.RejectedOnlyIfShort | services/payment/src/saga.py:202-215 | in every run a saga is rejected only after a step of its call that asked the budget when the department was unknown or had less than the amount |
| SagaRejections.CompensatedOnlyFor | services/payment/src/saga.py:157-231 | in every run a compensated saga names its reason, and some step found just that: an amount not positive, one above the automatic ceiling and not reserved, or a decline that needs flag and scenario and no earlier payment |
| PaymentService.PaymentService.Handle | services/payment/src/saga.py:119-241 | stopped after any number of writes, takes the protocol's steps for this delivery and no other; when it returns, it returns the durable terminal record, and sagas, budgets, provider and events are what the record and the request call for, case by case from what there was before: nothing for a finished saga, a refusal, a rejection, a payment, or a decline given back |
| PaymentService.PaymentService.WriteMarker | services/payment/src/saga.py:243-276 | `_transition` is the protocol's marker step, and what follows it |
| PaymentService.PaymentService.Register | services/payment/src/provider.py:48-55 | the first payment reference wins; a later one is thrown away |
| PaymentService.PaymentService.LookUp | services/payment/src/provider.py:35-46 | an existing reference is returned whatever the scenario; otherwise a decline needs the flag and a scenario that starts with "payment-failure", and nothing is written |
| PaymentSubscriber.PaymentSubscriber.OnEvent | services/payment/src/subscriptions.py:86-150 | an event that is no auto-approval and no approved verdict, or is repeated, touches nothing; an acked one settled its payment from its own amount, department, scenario and correlation id, with the ceiling if it was automatic; a failed one is unmarked again if the forget works; an uninterrupted delivery finishes the saga exactly when it is wanted and unmarked |
| PaymentSubscriber.StuckIff | services/payment/src/subscriptions.py:98-116 | redeliveries of a wanted event of an unfinished saga are acked without effect exactly when that delivery crashed after its mark or failed to take it back |
| PaymentSubscriber.PaidOnlyIfAuthorized | services/payment/src/subscriptions.py:94-142 | a saga past its opening checks carries out an auto-approved decision within its ceiling, or an approved verdict, for its invoice |
| PaymentSubscriber.ProviderPaysOnlyAuthorized | services/payment/src/subscriptions.py:94-142 | whatever the provider has paid had such an event |
| Approval.RemoveIsExact | services/approval/src/repo.py:63-79 | removing an id drops it, once and for all from a queue without repeats, and no other |
| Approval.RemoveCutsOut | services/approval/src/repo.py:63-79 | the first occurrence goes and the others keep their order |
| ApprovalTheorems.CalmRunsAreSafe | services/approval/src/api.py:121-220 | while no record is reopened under a verdict call, every such call holds its record alone, no step misdelivers, and only stale evictions strand an escalation |
| ApprovalSafety.QueueBreaksIff | services/approval/src/api.py:98-115 | a step of any run breaks the queue guarantee of an escalation exactly when it is an eviction or dequeue of that id while it is pending and nothing will re-queue it |
| ApprovalTheorems.QueueHoldsIff | services/approval/src/api.py:187-217 | over a whole run the guarantee holds throughout if and only if no such step was taken |
| ApprovalTheorems.QueueAgreement | services/approval/src/subscriptions.py:141-184 | in every run without such a step, a pending escalation with nothing in flight is in the queue, or owed a redelivery, or a failed rollback or forget was logged, or a call was killed |
| ApprovalSafety.DeliveryBreaksIff | services/approval/src/api.py:172-217 | a step of any run breaks "resolved means delivered" exactly when it acknowledges the resolution of the only call in flight on a record that says something else by then |
| ApprovalTheorems.DeliveredHoldsIff | services/approval/src/api.py:138-204 | over a whole run "resolved means delivered" holds throughout if and only if no such step was taken |
| ApprovalTheorems.ResolvedMeansDelivered | services/approval/src/api.py:138-204 | in every run without such a step, with no publish or rollback in flight, the last acknowledged resolution tells a resolved record field by field, unless its rollback failed loudly |
| ApprovalTheorems.LatePublishMisdelivers | services/approval/src/api.py:172-173 | a run that ends with an approved, settled record whose last acknowledged resolution is a send-back |
| ApprovalTheorems.VerdictUndoneIff | services/approval/src/api.py:179-194 | a step of any run parts a record from its last published resolution exactly when it is a rollback of a verdict on it, its reopening, or the publish of another resolution |
| ApprovalTheorems.RevertUndoesLaterVerdict | services/approval/src/api.py:179-194 | a run in which the rollback of a send-back undoes a published approval given after the reopening |
| ApprovalTheorems.PublishedOncePerReview | services/approval/src/api.py:128-174 | in every run, however many approvers race and publishes fail, at most one acknowledged publish plus one per reopening |
| ApprovalTheorems.OutOncePerReview | services/approval/src/api.py:156-162 | and that is all that is out for an invoice none of whose publishes went unacknowledged |
| ApprovalTheorems.UnacknowledgedContradicts | services/approval/src/api.py:156-162 | a run in which an unacknowledged approval and an acknowledged rejection of one invoice are both out |
| ApprovalAuthority.DecisionIsLatest | services/approval/src/subscriptions.py:87-109 | in every run an escalation holds the decision of the event that last created or reopened it |
| ApprovalAuthority.CorrelationIsFirst | services/approval/src/subscriptions.py:87-109 | in every run an escalation keeps the correlation id of the event that created it |
| ApprovalAuthority.EvictionsReadResolved | services/approval/src/api.py:98-115 | in every run an id is evicted only after a read of its record as resolved |
| ApprovalAuthority.ResolutionsAreBacked | services/approval/src/api.py:128-173 | every resolution the broker took, acknowledged or not, tells the status, approver and comment of a verdict on a pending escalation; its amount, scenario and department are those of the human-review event that had last created or reopened the escalation before that verdict, its correlation id that of the one that created it |
| ApprovalTheorems.VerdictsAreFinal | services/approval/src/api.py:128-136 | a settled approval or rejection never changes, in any run whatever |
| ApprovalTheorems.StaleEvictionStrands | services/approval/src/api.py:98-115 | a run in which a stale eviction leaves a pending escalation in no queue |
| ApprovalTheorems.ReopenDuringVerdictStrands | services/approval/src/api.py:206-207 | a run in which the dequeue of a finished verdict removes the reopened escalation |
| ApprovalService.ApprovalService.SubmitVerdict | services/approval/src/api.py:121-220 | record, queue, answer, published resolution and protocol steps for every outcome of resolve, publish, rollback and dequeue, field by field |
| ApprovalService.ApprovalService.RollBack | services/approval/src/api.py:187-204 | pending again and queued again, or logged as failed |
| ApprovalService.ApprovalService.GetQueue | services/approval/src/api.py:95-118 | shows every readable pending escalation of the queue, oldest first and ties in queue order, and evicts exactly the ones that read back as resolved |
| ApprovalService.ApprovalService.OnDecisionMade | services/approval/src/subscriptions.py:87-184 | filtered and repeated events change nothing; an acked one escalated a new invoice, reopened one sent back as pending on the new decision with the resolution cleared and the correlation id kept, and left any other record; a failed one is unmarked if the forget works |
| ApprovalService.ApprovalService.SaveNew | services/approval/src/repo.py:12-15 | creates the escalation exactly when there was none |
| Dedupe.AtMostOnce | libs/afcommon/afcommon/dedupe.py:31-55 | at most one delivery of an event is inside the body at a time, none once it completed, and at most one ever completes, whatever bodies and forgets fail |
| Dedupe.CompletedStaysMarked | libs/afcommon/afcommon/dedupe.py:31-33 | a completed event stays marked for good |
| ApprovalDedupe.RunSimulates | services/approval/src/subscriptions.py:132-184 | every run of the approval service is a run of the dedupe protocol |
| ApprovalDedupe.OneDeliveryPerEvent | services/approval/src/subscriptions.py:136-184 | at most one delivery of a decision is being processed, and its mark is set all that time |
| AuditTheorems.TrailsOnlyGrow | services/audit/src/trail.py:36-50 | every trail and the index are prefixes of what they become, through any deliveries and failures |
| AuditTheorems.TrailsAreFaithful | services/audit/src/trail.py:36-50 | an event is recorded at most once, in its own trail, as it was sent |
| AuditTheorems.IndexIsFaithful | services/audit/src/trail.py:58-68 | at most one row per invoice, each the projection of a recorded auto-approval |
| AuditTheorems.AckedIsRecorded | services/audit/src/subscriptions.py:79-105 | a delivery that ran to its end left its event in the trail and its auto-approval's invoice in the index |
| AuditTheorems.CompliantMeansEmpty | services/audit/src/trail.py:77-87 | if every auto-approval is within its ceiling, no violation is reported, in every run |
| AuditTheorems.ViolationReportedIff | services/audit/src/trail.py:58-87 | a violation is reported for good exactly when, as the handler came to write its row, the index had that row or none for its invoice |
| AuditTheorems.AckedViolationReportedIff | services/audit/src/subscriptions.py:94-105 | every acked violating auto-approval came to that write, and is reported exactly under that condition |
| AuditTheorems.ViolationIsReported | services/audit/src/trail.py:58-61 | so all acked violations are reported while an invoice is auto-approved once, or always with the same figures |
| AuditTheorems.SecondApprovalIsNotIndexed | services/audit/src/trail.py:58-68 | a run whose second auto-approval of an invoice exceeds its ceiling and is not reported |
| AuditTheorems.OneRecorderPerEvent | services/audit/src/subscriptions.py:83-104 | audit's runs are dedupe runs, so one delivery of an event records at a time |
| AuditService.AuditService.Record | services/audit/src/subscriptions.py:79-105 | trail, index and marks after a duplicate, a clean delivery, and a failure at either write |
| AuditService.ReplayIsHarmless | services/audit/src/trail.py:36-68 | recording again after a partial failure ends where a clean recording ends |
| AuditService.AuditService.GetTrail | services/audit/src/trail.py:52-56 | every recorded event, oldest first, ties in recording order |
| AuditService.AuditService.CeilingViolations | services/audit/src/trail.py:77-87 | the rows over their ceiling, in order |
| Fingerprint.CheckAndRegister | services/decision/src/fingerprint.py:57-87 | the answer is whether this id owns the fingerprint, under any interference; at most the first registration is written |
| Fingerprint.SingleOwner | services/decision/src/fingerprint.py:57-87 | in every interleaving all True answers of a fingerprint go to one id, and the answer to an id never changes |
| Fingerprint.DuplicateHasOwner | services/decision/src/fingerprint.py:77-87 | a False answer means another id owns the fingerprint for good |
| Fingerprint.SameInvoicePassesOnce | services/decision/src/fingerprint.py:24-41 | two ids with the same vendor, number and cents never both pass, whatever the digest |
| Fingerprint.SameFingerprintIff | services/decision/src/fingerprint.py:24-41 | without "|" in them and for a digest without collisions, fingerprints are equal exactly when vendor and number are, and the cents, or the texts of totals that do not parse |
| Fingerprint.BarsCollide | services/decision/src/fingerprint.py:24-41 | with a "|" in vendor or number two different invoices share a fingerprint, whatever the digest |
| Money.RoundHalfUpIsNearest | services/decision/src/validators.py:124-144 | the conversion picks the nearest cent and, of two, the one farther from zero |
| Validators.Validate | services/decision/src/validators.py:147-285 | the hard stops are exactly the documented rules that apply, in that order; the reported fields are exactly the unusable ones, once each; if there are none, the amount is total times rate in cents, to half a cent |
| Validators.ConvertToUsd | services/decision/src/validators.py:166-203 | the amount in USD cents, at the rate for a foreign currency that has one, and whether currency or amount stop the invoice |
| Validators.AddLines | services/decision/src/validators.py:205-222 | the line items in cents, and whether any of them is unusable |
| ValidatorLaws.StopsFollowTheRules | services/decision/src/validators.py:152-160 | hard stops are a repeat-free subsequence of the documented order, and each is there exactly when its rule applies |
| ValidatorLaws.ReconciliationBound | services/decision/src/validators.py:224-235 | with n items and neither GLOBAL-MALFORMED nor GLOBAL-MATH, items, tax and total agree to strictly less than (n+2)/2 cents |
| ValidatorLaws.ExactPasses | services/decision/src/validators.py:205-235 | an invoice in whole cents that adds up exactly is not stopped by GLOBAL-MATH |
| Validators.ConversionBound | services/decision/src/validators.py:182-195 | with nothing malformed the amount is within half a cent of total * rate * 100 for a converted currency, and of total * 100 otherwise |
| ValidatorLaws.WellFormedIff | services/decision/src/validators.py:92-222 | no field is reported exactly when the total is an amount in range, the rate of a foreign currency that has one is too, and every item and the tax, where given, are |
| ValidatorLaws.StopsAre | services/decision/src/validators.py:186-268 | when each rule stops an invoice, with the limits of $1,000, $25 and $1,500 |
| Router.AutoReachableIff | services/decision/src/router.py:110-193 | whether any agent can get an invoice auto-approved is decided without the agent |
| Router.RoutesAreMonotone | services/decision/src/router.py:143-193 | more violations or fraud signals or less confidence never move the route towards auto-approval |
| Router.CeilingIs | services/decision/src/router.py:71-107 | the ceiling is the vendor's base, trusted or not, or the cap of saas or of meals with a headcount where that is tighter |
| Router.AlwaysApproveIsMostPermissive | services/decision/src/router.py:12-18 | no agent, present or not, gets further than one that always approves, with confidences up to 1 |
| Router.ReasonsAreGiven | services/decision/src/router.py:122-193 | the route for every agent answer, and the violations it names: auto-approval exactly with full consent, none; automatic rejection exactly for an agent's MEAL-03; human review hides no hard stop and no fraud signal |
| Router.AutoApprovalIsSafe | services/decision/src/router.py:71-107 | every auto-approval, for every agent: well-formed, reconciled, receipted above $25, known vendor, within ceiling and caps; in a foreign currency total * rate is at most $1,000 and the standard ceiling, up to half a cent, even when trusted |
| Router.MalformedIsEscalated | services/decision/src/validators.py:270-279 | one unusable field and the invoice goes to a human with GLOBAL-MALFORMED named, unless an agent rejects it |
| Pipeline.DecisionPipeline.HandleSubmission | services/decision/src/pipeline.py:83-172 | what is registered, asked and published for every agent answer and publish outcome, payload field by field; duplicates never reach the agent |
| Pipeline.OneInvoicePerFingerprint | services/decision/src/pipeline.py:89-93 | two invoices with one fingerprint are never both published past `duplicate` |
| Pipeline.SameInvoiceDecidedOnce | services/decision/src/fingerprint.py:24-41 | of all submissions with one vendor, number and cents, one invoice at most is decided on |
| Pipeline.PublishedAutoIsSafe | services/decision/src/pipeline.py:145-171 | a published auto-approval is within the ceiling it publishes and comes from a sound invoice |
| EndToEnd.PaymentAcceptsAutoApprovals | services/payment/src/saga.py:151-195 | payment's own ceiling check never refuses what the pipeline auto-approved; a first delivery opens the saga exactly when the amount is positive, and a delivery that runs to its end is never a ceiling violation |
| EndToEnd.NoCeilingViolations | services/audit/src/trail.py:77-87 | with all auto decisions among the pipeline's published ones, the audit list of violations is empty in every run |
| EndToEnd.VerdictsAreOnDecisions | services/approval/src/api.py:163-173 | the figures of a verdict event are those of a published decision that asked for human review of that invoice |
| EndToEnd.MoneyMovesOnAuthority | services/payment/src/subscriptions.py:94-142 | whatever is paid, through all crashes, carries out a published decision: an auto-approval whose recorded submission is well-formed, reconciled, of a known vendor and worth that amount, or a decision for human review that was then approved |
| Text.StripIsExact | services/intake/src/status.py:47-63 | stripping takes off the surrounding whitespace and nothing else |
| Text.SpacesAre | services/notification/src/segmenter.py:16 | whitespace is exactly Python's 29 characters, and no printing ASCII character but the space |
| IntakeLaws.PopulationLaws | services/intake/src/subscriptions.py:55-122 | the eight laws between dashboard counters and the records by status, after any duplicate, unknown or out-of-order events |
| IntakeLaws.PaidCentsAreCounted | services/intake/src/subscriptions.py:104-113 | each paid invoice was paid once, and both buckets add up to what was paid |
| IntakeLaws.AbsorbingIsFinal | services/intake/src/status.py:15-63 | rejected, duplicate, paid, payment-failed and submit-failed records never change again |
| IntakeLaws.BucketsFollowRoutes | services/intake/src/subscriptions.py:111-112 | the automatic bucket is what was paid on auto-approvals, if no approver is called "router" |
| IntakeLaws.BucketRightIff | services/intake/src/status.py:44-52 | an approved invoice is booked as human-approved exactly when the approver's id is not "router" |
| IntakeLaws.EarlyDecisionIsLost | services/intake/src/api.py:49-61 | a decision between a submission's publish and its second save has no effect, then or on redelivery |
| IntakeLaws.DecisionAppliesIff | services/intake/src/status.py:30-34 | a first-time decision counts exactly when the record is being evaluated |
| IntakeService.IntakeService.Submit | services/intake/src/api.py:43-66 | record, counters and answer for both outcomes of the publish |
| IntakeService.IntakeService.Resubmit | services/intake/src/api.py:91-109 | only from `needs_info`; the save stands even if the publish fails |
| IntakeService.IntakeService.OnEvent | services/intake/src/subscriptions.py:55-122 | the record and the counters move exactly when the event is new and the record waits for it; the status, decider and reasoning it then has, event by event |
| IntakeService.DashboardIsExact | services/intake/src/api.py:112-114 | after any calls the dashboard counts exactly the records there are |
| SmsSegmenter.MinSmsSegments | services/notification/src/segmenter.py:5-36 | the least number of segments over all ways to cut the words into groups that fit or are single words; for a text written as words with single spaces these are its words |
| SmsSegmenter.SplitAtSpace | services/notification/src/segmenter.py:16 | whitespace separates words (with OneWord, all of `str.split`) |
| SmsSegmenter.SplitJoins | services/notification/src/segmenter.py:16 | splitting a text written with single spaces gives back its words |
| SmsSegmenter.TextOfWords | services/notification/src/segmenter.py:5-36 | for a text of words with single spaces, the segments are the fewest over its words; two words need one segment exactly when they fit 160 characters with the space |
| SmsSegmenter.OptimalIsGreedy | services/notification/src/segmenter.py:10-12 | one greedy pass computes that minimum, and nothing else is minimal |
| SmsSegmenter.AppendingNeverSaves | services/notification/src/segmenter.py:24-34 | a longer message never needs fewer segments |
| SmsSegmenter.SegmentBounds | services/notification/src/segmenter.py:24-34 | at most 2*floor((L+1)/162)+1 segments for joined length L, and at least (L+1)/161 when every word fits |
| Handrolled.HandrolledAgent.RequestWithBackoff | services/decision/src/agents/handrolled.py:144-193 | which reply ends a conversation, requests spent and seconds slept, for every provider |
| Handrolled.HandrolledAgent.Evaluate | services/decision/src/agents/handrolled.py:106-142 | exactly the requests of one conversation and, after content that does not parse, of one corrective one, at most `max_attempts` in all; total backoff at most 0.5*(2^(max_attempts-1)-1) |
| Handrolled.OnlyValidatedContent | services/decision/src/agents/handrolled.py:113-142 | only content that parses, of a request that was sent, is returned |
| Handrolled.FirstReplyDecides | services/decision/src/agents/handrolled.py:144-187 | transport errors, 429 and 5xx are repeated until the first other reply: content that parses is the answer with nothing more asked, a client error or an empty envelope ends it |
| Handrolled.SecondReplyDecides | services/decision/src/agents/handrolled.py:115-142 | content that does not parse is asked for once more on what is left of the budget, and the first reply to that which is no transport error, 429 or 5xx is final |
| Handrolled.WorstCase | services/decision/src/agents/handrolled.py:160-177 | a provider that never answers attains both bounds; with three attempts it costs 1.5 seconds of sleep |

## Left out

- DaprStateStore, its HTTP error matching, the publisher and the audit invoke client: the store is the in-memory contract and a publish is an arbitrary success or failure.
- FastAPI routing, auth, logging, dependency wiring, the UI and deployment files: no protocol content.
- Retrieval, the stub agent, the evaluation suite, notification rendering and its providers.
- Trust history and configuration storage: trust is an input of the pipeline and thresholds are arbitrary integers.
- sha256: any function of the joined text; only `Fingerprint.SameFingerprintIff` supposes that it has no collisions.
- The decimal context's 28-digit rounding: a product or conversion is exact or fails, and floats (confidence, its floor, rates) are reals without NaN or infinities.
- The notes of the validator and the synthesized texts of the router: a payload's reasoning is the agent's own text, which the code too leaves as it is only for an auto-approval. Timestamps and uuids beyond freshness and order.
- Overlapping `handle` calls for one invoice.
- PaymentService.PaymentService.Handle: the loops inside `reserve`, `release` and `cas_update` are single steps here; their retries and CasConflict are in Budgets and CasLoop, and such a conflict is one of the stops.
- ApprovalService.ApprovalService.SubmitVerdict: other calls may be in flight before it starts, but none moves while it runs; the interleavings are those of Approval.
- Pipeline.DecisionPipeline.HandleSubmission: the registry lookup is one step; interleaved registrations are in Fingerprint.
- IntakeService.IntakeService.Resubmit: two overlapping resubmissions of one invoice are not modelled, because the laws are about handlers that run one at a time.
- Intake's `GET` endpoints and the enrichment with the audit trail, which only read.
