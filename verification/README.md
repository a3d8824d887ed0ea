# ReviveOS: a verified model

ReviveOS recovers failed payments. A webhook stores the failure and an outbox row in
one transaction; a relay hands outbox rows to a task queue; workers analyse the
payment, choose an action, check it against the merchant's policy, ask the payment
provider to charge again and verify the answer; an audit ledger chains hashes of what
was done. This project models those parts in Dafny and proves what they keep.

`dafny verify dfyconfig.toml` checks all of it.

| file | what it models |
|---|---|
| `Outbox.dfy`, `OutboxDelivery.dfy`, `OutboxAttempts.dfy` | the relay as a protocol of interleaved steps, with crashes, lost sessions, failed statements, lost acknowledgements, and a queue that forgets task ids |
| `OutboxRelay.dfy`, `OutboxDrain.dfy` | `ProcessBatch` as code, shown to be a run of that protocol whatever goes on between its statements, and what repeated batches publish while some rows are refused |
| `Webhook.dfy`, `Ingestion.dfy` | the `payment.failed` transaction statement by statement, and the way from delivery to accepted task |
| `PolicyEngine.dfy`, `Executor.dfy`, `ExecutorRuns.dfy` | the policy guards, `ExecuteWorkflow` and the pipeline's writes, and what sequential runs keep |
| `LocalProvider.dfy`, `ExecutorRace.dfy` | the executor against the local provider, and several workers on one workflow |
| `AuditChain.dfy`, `AuditAppend.dfy` | verification of the hash chain, interleaved and serial appends, and rewritten histories |
| `WorkflowStates.dfy` | the table of allowed transitions |
| `Classification.dfy`, `Reply.dfy`, `Decision.dfy`, `Pipeline.dfy` | failure codes, the language model's reply, prediction, candidates, ranking and fallback, the analysis that puts them together, and what the policy then lets through |
| `SdkRetry.dfy`, `Lehmer.dfy` | the SDK's request loop, and the generator of the synthetic dataset |
| `Prelude.dfy` | `Option`, facts about finite sets, and upper case |

How it is modelled:

- Objects whose methods change rows are classes; each method's new state is a function
  of the old one, and the lemmas are about that function over whole runs.
- What the program does not control (answers of the queue and the provider, which
  statements fail, when sessions end, who runs when) is a parameter or an action of
  its own. Postgres is followed in that a failed statement aborts its transaction and
  the commit is then a rollback.
- The digest (SHA-256, section 6.2 of FIPS 180-4) is any function to 64-character
  strings. It is not assumed injective, so uniqueness is always stated as "or two of
  the strings hashed here collide".
- Money, scores and probabilities are reals. The logistic function is any strictly
  increasing function into (0, 1).

## Where the code differs from what is said about it

- A published outbox row was accepted exactly once only while its task id is kept.
  `OutboxDelivery.DuplicateIffUnsettled` gives the exact moment from which the queue
  may forget it: the row's mark is committed and no loop still carries the row. A loop
  goes on after its session is lost, so neither the commit nor the lock alone suffices
  (`OutboxDelivery.UnsettledHappens`).
- A row can be published only if fewer refused rows than the batch size are strictly
  older, and must be only if fewer are no newer (`OutboxDrain.MayBePublishedIff`,
  `OutboxDrain.MustBePublishedIff`).
- The event id is stored before the effects and in another transaction, so an event
  whose effects fail is answered as a duplicate ever after (`Ingestion.AbandonLoses`).
- "Makes tampering detectable": the digest has no key, so any events can be put in the
  place of all rows from any index on, with their hashes computed anew, and the chain
  verifies. Only a hash kept elsewhere shows it, and that exactly unless the new
  history is a prefix of the old one or two inputs collide
  (`AuditAppend.RewrittenHistory`). Nor does the payload hash show a `|` moved between
  actor and action (`AuditChain.FieldsAmbiguousIff`).
- Appends without a lock break the chain for good (`AuditAppend.StaleInsertHappens`,
  `AuditAppend.VerifiesIffNoStaleInsert`).
- The retry limit, the finality of RECOVERED and counting an amount once hold exactly
  when one worker runs at a time (`ExecutorRace`). The worker pool has ten.
- A workflow is not always settled in a bounded number of calls. It is exactly when none
  of four statements fails: counting the attempts, recording one, and the two kinds of
  status write. Deaths, analyses and other failures in between do not matter
  (`ExecutorRuns.TerminatesIff`).
- `ValidateTransition` is called nowhere. The executor also writes FAILED, to which the
  table leads from no state (`ExecutorRuns.FailedIff`, `ExecutorRuns.StatusWritesArePaths`).
- MODIFY never comes out of the executor's policy request, which leaves the attempt
  number at zero (`Executor.NeverModified`).
- When the confidence cannot be read, or was never stored, the executor takes 0.85. The
  pipeline goes on when storing a decision fails, so a fallback NO_ACTION whose decision
  was lost is charged under the default policy (`Pipeline.UnstoredNoActionIsCharged`,
  and exactly when in `Pipeline.FallbackNoActionChargesIff`).
- NO_ACTION and ESCALATION are executed like any other action: the executor does not look
  at which action it was given before it asks the provider to charge, other than for the
  opt-out and the once-only checks (`ExecutorRuns.ChargesIff`).
- A model that calls its confidence "unlikely" or "impossible" is read as 0.85, since the
  words "likely" and "possible" are looked for first (`Reply.UnlikelyReadsHigh`).
- The SDK's comment says that 5xx replies are retried; the loop retries every status
  but 2xx, 400, 401 and 403.

## Model

| member | source | states |
|---|---|---|
| Outbox.SelectionExists | packages/utils/outbox/outbox.go:101-110 | The locking SELECT always has an answer: unlocked pending rows, oldest first, all of them or a full batch with nothing older left out |
| Outbox.StepKeepsInv | packages/utils/outbox/outbox.go:89-181 | Every step of any relay and of its surroundings keeps the protocol's invariant: disjoint locks, pending rows under lock, delivered rows behind every mark, and an exact balance of accepted and forgotten ids |
| Outbox.CommitKeepsInv | packages/utils/outbox/outbox.go:176-180 | A commit publishes only rows that were still pending and whose task was accepted, and its count is exactly what it turned published; on an aborted or lost transaction it changes nothing |
| Outbox.RememberedIsDelivered | packages/utils/outbox/outbox.go:139-151 | The conflict branch is sound: a task id the queue knows was accepted with this very row's content |
| Outbox.AtMostOnceWhileRemembered | packages/utils/outbox/outbox.go:100-173 | In every reachable state accepts minus forgets of a row's task is 1 if the queue remembers the id and 0 otherwise, and live transactions lock disjoint rows |
| Outbox.PublishedWereDelivered | packages/utils/outbox/outbox.go:138-181 | No loss: in every reachable state each row is pending or had its own content accepted, and the published rows are as many as the relays' counts add up to |
| OutboxDelivery.ExactlyOnceWithRetention | packages/utils/outbox/outbox.go:138-174 | When ids are forgotten only after their row is settled, every published row was accepted exactly once over the whole run, and none twice |
| OutboxDelivery.SettledForever | packages/utils/outbox/outbox.go:138-174 | A settled row stays settled and is never accepted again, whatever happens later |
| OutboxDelivery.DuplicateIffUnsettled | packages/utils/outbox/outbox.go:141-151 | After the queue forgets an id, some continuation accepts the row again if and only if the row was not settled |
| OutboxDelivery.UnsettledHappens | packages/utils/outbox/outbox.go:138-180 | For every row, a state is reached in which its id is remembered and the row not settled, before its mark is committed and also after, and forgetting there can lead to a second acceptance |
| OutboxAttempts.AttemptsCountRecordings | packages/utils/outbox/outbox.go:151-173 | Over any run a row's attempts are exactly the committed recordings of its failures; a published row shows no error, an unpublished one shows one exactly when it has been recorded |
| OutboxAttempts.StepKeepsColumns | packages/utils/outbox/outbox.go:89-181 | Every step leaves a row's content and age alone and adds to its attempts exactly its own committed recording; a new row has none |
| OutboxRelay.IdleIff | packages/utils/outbox/outbox.go:77-110 | A relay made with any size at all selects nothing only when no unlocked row is pending |
| OutboxRelay.TaskQueue.EnqueueTask | packages/utils/outbox/outbox.go:141-151 | A new id is accepted and remembered, a known one conflicts and changes nothing, a failure with a lost reply may still have been accepted |
| OutboxRelay.OthersLeaveBatch | packages/utils/outbox/outbox.go:94-110 | Whatever the others do in between, a relay's batch, locks and uncommitted writes stay, unless its session is lost |
| OutboxRelay.Relay.SelectEvents | packages/utils/outbox/outbox.go:100-131 | The select step, with the payloads of the rows in the order read |
| OutboxRelay.Relay.EnqueueEvent | packages/utils/outbox/outbox.go:138-151 | One enqueue of the payload read before is the protocol's enqueue step of the row as it is now |
| OutboxRelay.Relay.WriteUpdate | packages/utils/outbox/outbox.go:151-173 | Column by column: one attempt more and the error for a refused row, published without an error and counted for one that was taken, nothing on a transaction that is not open, and an aborted one when the update fails |
| OutboxRelay.Relay.UpdateEvent | packages/utils/outbox/outbox.go:151-173 | This update is the protocol's update step |
| OutboxRelay.Relay.CommitBatch | packages/utils/outbox/outbox.go:176-180 | The commit step; the call returns what it adds to the reported total, and 0 on an error |
| OutboxRelay.Relay.ProcessBatch | packages/utils/outbox/outbox.go:89-181 | From any reachable state, with the surroundings free to take any protocol steps in every pause: the call leaves a run of the protocol in which its own steps are exactly its script, and returns what its last step, the commit, adds to the reported total |
| OutboxDrain.FaultFreeBatch | packages/utils/outbox/outbox.go:137-180 | Without faults but refusals the call publishes exactly the selected rows that are not refused, with their attempts as they were and no error, and returns their number; each refused one has one attempt more and shows the error; all other rows are unchanged |
| OutboxDrain.BatchProgress | packages/utils/outbox/outbox.go:101-110 | Each batch publishes at least the smaller of all healthy rows and batch size minus refused rows, and leaves the refused rows and all ages alone |
| OutboxDrain.RunKeepsRows | packages/utils/outbox/outbox.go:137-180 | Over any number of batches the refused rows stay pending and all ages stay |
| OutboxDrain.DrainsDespitePoison | packages/utils/outbox/outbox.go:101-180 | Over n batches the healthy rows shrink by n times batch size minus refused rows or are all published |
| OutboxDrain.MayBePublishedIff | packages/utils/outbox/outbox.go:101-110 | Some run of batches publishes a healthy row if and only if fewer than a batch of refused rows are strictly older, rows of equal age included |
| OutboxDrain.MustBePublishedIff | packages/utils/outbox/outbox.go:101-110 | Every run publishes it, after at most one batch more than there are other healthy rows no newer, if and only if fewer than a batch of other refused rows are no newer |
| OutboxDrain.NeverPublished | packages/utils/outbox/outbox.go:101-110 | With a whole batch of refused rows older, it is pending after any number of batches |
| Webhook.WebhookStore.ResolveCustomer | apps/api/handlers/webhook.go:407-523 | The customer of the payment that is tried again, else one by email or phone, else a new one; it goes through exactly when none of its statements fails |
| Webhook.WebhookStore.WritePayment | apps/api/handlers/webhook.go:549-602 | Payment FAILED and workflow SCHEDULED, written exactly when the transaction was sound and none of the statements fails, ignored failures included |
| Webhook.WebhookStore.IngestPaymentFailed | apps/api/handlers/webhook.go:365-632 | All writes and the outbox row take effect if and only if no statement fails and the commit is not rejected, otherwise none does; the answer is 200 exactly when the commit is also acknowledged |
| Webhook.StoredPayment | apps/api/handlers/webhook.go:366-386 | The payment row a committed failure leaves: its amount in rupees is a hundredth of the paise, or 1000 for none; its code the first of error code, error reason and GATEWAY_ERROR that is there; its reference the event's |
| Webhook.PlaceholderIff | apps/api/handlers/webhook.go:421-440 | Placeholders are exactly the addresses that begin with void@ in any letter case |
| Webhook.StoredCustomer | apps/api/handlers/webhook.go:472-523 | It is put down to the customer of the payment tried again, else to the one found by address or number, else to a new one with just these or an address made from the reference; no other customer changes |
| Webhook.StoredRest | apps/api/handlers/webhook.go:525-632 | The workflow is scheduled with the action it had or a delayed retry, the subscription is past due, the event processed, and the outbox row pending with the task to analyse this payment |
| Webhook.TaskNamesPayment | apps/api/handlers/webhook.go:604-612 | No two payments have the same task |
| Webhook.LaterDeliveryFindsPayment | apps/api/handlers/webhook.go:549-553 | A later failure with the same reference, as its own, as a link's or as the payment it tries again, finds the stored payment |
| Webhook.LaterDeliveryFindsCustomer | apps/api/handlers/webhook.go:489-503 | A later failure from the same address, or without one from the same number, finds a customer |
| Ingestion.StepKeepsInv | apps/api/handlers/webhook.go:182-200 | Every step keeps each seen event at one place only: with a handler, in one effect, or lost |
| Ingestion.EndToEnd | apps/api/handlers/webhook.go:182-632 | For deliveries in any order and repetition an event takes effect at most once and yields at most one outbox row, with at most one accepted task while the queue remembers it, and the row is pending or delivered |
| Ingestion.RowsAreEffects | apps/api/handlers/webhook.go:604-612 | Over any run the outbox holds exactly the rows of committed failures and of other producers |
| Ingestion.CommittedTogether | apps/api/handlers/webhook.go:388-632 | Every effect with a row was one step of the run, before which the row was not there and after which it stands beside the payment FAILED and the workflow SCHEDULED |
| Ingestion.TakenUpIff | apps/api/handlers/webhook.go:182-200 | A delivery is taken up if and only if its event is not stored and its insert succeeds; a failed insert leaves nothing behind |
| Ingestion.TakesEffectIff | apps/api/handlers/webhook.go:204-365 | A capture always takes effect, failures and links exactly with the id they are about, and nothing else does |
| Ingestion.CaptureLeaves | apps/api/handlers/webhook.go:288-344 | A capture marks just the payment it finds, recovers its workflow and counts its amount in rupees once |
| Ingestion.ClosureLeaves | apps/api/handlers/webhook.go:346-363 | A closed link cancels just the payment it finds and halts its workflow |
| Ingestion.CreationLeaves | apps/api/handlers/webhook.go:204-286 | A created link adds a pending payment and a scheduled workflow that offers the link, and leaves alone those that are there |
| Ingestion.OutboxIsReachable | apps/api/handlers/webhook.go:604-612 | The outbox of any ingestion run is a reachable state of the relay's protocol, by the run's own outbox steps |
| Ingestion.ExactlyOnceEndToEnd | apps/api/handlers/webhook.go:182-632 | When task ids are forgotten only after their rows are settled, an event delivered any number of times has its task accepted at most once over the whole run, and exactly once when its row is published |
| Ingestion.EventDuplicateIff | packages/utils/outbox/outbox.go:138-151 | For an event's remembered task, forgetting its id can lead to a second acceptance if and only if its row is not settled |
| Ingestion.LostForEver | apps/api/handlers/webhook.go:182-200 | An event that was stored and lost its transaction never takes effect, however often it is delivered |
| Ingestion.AbandonLoses | apps/api/handlers/webhook.go:182-200 | It is lost exactly when its handler ends without its effect |
| PolicyEngine.PolicyTable.GetMerchantPolicy | services/policy-engine/engine.go:45-74 | The stored policy, or the defaults for no merchant, a missing row or a failed read; a missing row is then stored unless that fails, and nothing else changes |
| PolicyEngine.MayProceedIff | services/policy-engine/engine.go:77-176 | The ordered guards let execution go on exactly when every limit holds at once |
| PolicyEngine.VerdictIff | services/policy-engine/engine.go:101-169 | Which verdict, for which reason, and in which order: who is blocked, who goes to a human, and when a retry is put off for 24 hours |
| Executor.NeverModified | apps/worker/internal/executor/executor.go:256-322 | The executor's own request never comes back modified |
| Executor.RecoveryStore.ExecuteWorkflow | apps/worker/internal/executor/executor.go:71-524 | Verdict and all rows after a call, for each guard, each provider answer and each failing statement |
| Executor.RecoveryStore.AttemptRecovery | apps/worker/internal/executor/executor.go:324-507 | The part behind the guards: attempt, provider call, notification, verification and outcome |
| Executor.RecoveryStore.RecordRecovery | apps/worker/internal/executor/executor.go:438-488 | Payment CAPTURED, workflow RECOVERED and one recovered outcome together, or nothing |
| Executor.RecoveryStore.StoreAnalysis | apps/worker/internal/pipeline/pipeline.go:245-409 | The pipeline's writes, each stored or not, and the status advance only from ANALYZING |
| Executor.LaterDeathIsFailure | apps/worker/internal/executor/executor.go:343-507 | A worker that dies after the provider call leaves what a call leaves whose remaining statements fail |
| ExecutorRuns.ResolvedForEver | apps/worker/internal/executor/executor.go:145-152 | From RECOVERED, HALTED or FAILED no number of calls and analyses changes the status, charges, notifies or records anything |
| ExecutorRuns.EscalationRepeats | apps/worker/internal/executor/executor.go:278-316 | Any number of calls with the same inputs leaves an escalated workflow exactly as the first one did |
| ExecutorRuns.VerdictOf | apps/worker/internal/executor/executor.go:145-322 | The verdict of every call and its reason, by the first of its stops as they stand before it; without one it charges |
| ExecutorRuns.EscalatedIff | apps/worker/internal/executor/executor.go:296-316 | Exactly when a step writes ESCALATED: no opted-out contact or used-up limit stops it first, and fraud is at 0.70, or nothing blocks it and the confidence is too low or the amount too high |
| ExecutorRuns.HaltedIff | apps/worker/internal/executor/executor.go:196-295 | Exactly when a step writes HALTED: an opted-out contact, or short of fraud a policy that allows no retry or a one-time action done before |
| ExecutorRuns.FailedIff | apps/worker/internal/executor/executor.go:235-254 | FAILED is written exactly when, before the call, the limit is used up, or this permitted attempt is the last and its verification does not succeed |
| ExecutorRuns.StatusWritesArePaths | apps/worker/internal/executor/executor.go:495-501 | A status write of executor or pipeline is a path of allowed transitions exactly when it is not one of those calls |
| ExecutorRuns.RecoveryStep | apps/worker/internal/executor/executor.go:445-472 | A step adds a recovered outcome, with the call's amount, exactly when it makes the workflow RECOVERED, and then the provider had confirmed it |
| ExecutorRuns.NoFalseRecovery | apps/worker/internal/executor/executor.go:154-194 | Over any run with any failures: RECOVERED if and only if there is one recovered outcome, never two; then the payment is CAPTURED, a call was confirmed by the provider, and its amount is all that counts |
| ExecutorRuns.ChargesIff | apps/worker/internal/executor/executor.go:145-343 | Exactly when a call asks the provider to charge, for every combination of failing reads |
| ExecutorRuns.ChargeRecords | apps/worker/internal/executor/executor.go:324-507 | What a charge leaves, column by column: the attempt's action, number and status after the provider's answer, the call's facts, and the outcome with its attempt and amount |
| ExecutorRuns.ReconciliationRecords | apps/worker/internal/executor/executor.go:154-194 | A payment found captured is recovered with its amount, without an attempt, a call or a notice |
| ExecutorRuns.AnalysisShows | apps/worker/internal/pipeline/pipeline.go:245-409 | What an analysis leaves for the next call: score, confidence, action, and the advance from ANALYZING, each exactly when its writes succeed |
| ExecutorRuns.FraudScoreEscalates | apps/worker/internal/pipeline/pipeline.go:245-249 | A fraud score of 0.70 or more from an analysis sends the next call to a human, at whatever confidence and amount |
| ExecutorRuns.NotifiesIff | apps/worker/internal/executor/executor.go:391-437 | Exactly when a step notifies the customer: a permitted charge, not for NO_ACTION, an address, and no opt-out |
| ExecutorRuns.GatedHistory | apps/worker/internal/executor/executor.go:196-343 | Over any run, with workers dying and any statements failing: each provider call was within the amount threshold and the opt-out, and within the fraud limit and confidence threshold unless that very read may fail; calls are at most the attempts and fewer only by the workers that died in between; attempts are numbered 1, 2, 3, ... unless the count may fail; a payment link or method update is executed at most once unless the duplicate check may fail |
| ExecutorRuns.OptOutIsSilent | apps/worker/internal/executor/executor.go:391-437 | Over any run a customer who has opted out is never notified, whatever fails |
| ExecutorRuns.RetriesBounded | apps/worker/internal/executor/executor.go:223-254 | With a constant limit and a count that can be read the attempts never exceed the limit, or the number there was before, whatever else fails |
| ExecutorRuns.CallMakesProgress | apps/worker/internal/executor/executor.go:494-507 | A call in which none of the four blocking statements fails settles the workflow or uses up one attempt below the limit |
| ExecutorRuns.Terminates | apps/worker/internal/executor/executor.go:235-254 | For any provider answers, any failures of the other six statements, and any deaths and analyses in between, at most max(1, limit - attempts) calls reach RECOVERED, HALTED, FAILED or ESCALATED |
| ExecutorRuns.StuckWith | apps/worker/internal/executor/executor.go:224-343 | For each of the four blocking failures a workflow that stays unsettled for every number of such calls |
| ExecutorRuns.TerminatesIff | apps/worker/internal/executor/executor.go:224-343 | The bound holds for all workflows and runs under the allowed failures if and only if none of the four is allowed |
| ExecutorRuns.BoundIsReached | apps/worker/internal/executor/executor.go:494-507 | The bound is exact: a provider that keeps failing keeps a permitted retry SCHEDULED until the last attempt makes it FAILED |
| LocalProvider.LocalPaymentProvider.GetPayment | services/payment-provider/local.go:26-136 | The first read copies the application's payment, even when that is answered with an error although it took effect; later reads change nothing |
| LocalProvider.LocalPaymentProvider.CreateRetryAttempt | services/payment-provider/local.go:144-252 | A captured record answers success without a new attempt; otherwise one attempt is logged and counted and the code decides, unless the commit is rejected; a commit whose acknowledgement is lost does so behind an error |
| LocalProvider.LocalPaymentProvider.VerifyPayment | services/payment-provider/local.go:255-298 | The record's status, or an error when there is none |
| LocalProvider.ProviderAgrees | services/payment-provider/local.go:150-240 | Whatever fails and whoever dies: the counter is the length of the attempt log, which is at most the executor's calls and these at most its attempts, and RECOVERED implies a captured record |
| LocalProvider.CapturedForEver | services/payment-provider/local.go:150-165 | CAPTURED is absorbing |
| LocalProvider.CountsAreEqual | services/payment-provider/local.go:200-240 | Without failures counter, log and attempts are equal, and a captured record means RECOVERED |
| LocalProvider.HardDeclineNeverRecovers | services/payment-provider/local.go:165-200 | A payment whose code is EXPIRED_CARD, INVALID_ACCOUNT, CARD_BLOCKED, STOLEN_CARD or DO_NOT_HONOR, in any letter case, is not RECOVERED after any number of calls |
| LocalProvider.ChargeDecides | services/payment-provider/local.go:165-240 | A charge recovers the workflow if and only if the code is none of those five and missing funds come with a positive amount |
| LocalProvider.SoftDeclineRecovers | services/payment-provider/local.go:174-189 | After any calls, TIMEOUT, BANK_UNAVAILABLE, NETWORK_ERROR and PROCESSING_ERROR, and INSUFFICIENT_FUNDS at a positive amount, recover at the first faultless charge |
| LocalProvider.LogTellsStatus | services/payment-provider/local.go:191-240 | Over any run with any faults only the last logged attempt can have succeeded, and it has exactly when the record is captured |
| LocalProvider.RetryKeepsLog | services/payment-provider/local.go:144-252 | A retry appends at most one attempt with its own amount, and an answer that is no error says what the record says |
| ExecutorRace.RaceBound | apps/worker/internal/executor/executor.go:224-254 | k workers record at most limit + k - 1 attempts, each numbered at most the limit |
| ExecutorRace.RaceBoundIsReached | apps/worker/internal/executor/executor.go:333-342 | For every k and limit some interleaving reaches that bound |
| ExecutorRace.NoFalseRecoveryInRaces | apps/worker/internal/executor/executor.go:445-472 | Even in a race nothing says recovered before the provider has captured |
| ExecutorRace.RecoveredOnceIffAlone | apps/worker/runner/runner.go:31-43 | The amount is counted at most once in every interleaving if and only if there is at most one worker |
| ExecutorRace.RecoveredIsFinalIffAlone | apps/worker/internal/executor/executor.go:494-501 | No step takes a reachable RECOVERED back if and only if there is at most one worker; a second one writes SCHEDULED or FAILED over it |
| ExecutorRace.CallIsARun | apps/worker/internal/executor/executor.go:71-524 | Every call of the sequential executor that can count the attempts, whatever else fails, is a run of one worker of the race |
| ExecutorRace.DeathIsARun | apps/worker/internal/executor/executor.go:333-343 | So is a call whose worker dies right after recording its attempt |
| AuditChain.VerifyChain | packages/utils/audit/audit.go:113-192 | True exactly for nonempty chains without a fault; otherwise the first faulty row and the first check it fails |
| AuditChain.PrefixVerifies | packages/utils/audit/audit.go:132-191 | Every prefix of a verified chain verifies |
| AuditChain.EqualInputs | packages/utils/audit/audit.go:90-98 | Genesis and link inputs, 64 and 129 characters long, never meet, and equal inputs come from equal links |
| AuditChain.HashedText | packages/utils/audit/audit.go:85-98 | The hashed strings to the letter, for one event and one link |
| AuditChain.TamperEvident | packages/utils/audit/audit.go:146-188 | Two verified chains that share a hash, last in one, are row by row equal up to there in every hash and payload, at the same index, or two of the strings hashed collide |
| AuditChain.SameHeadSameHistory | packages/utils/audit/audit.go:146-188 | One last hash means one history: equal length, actors, actions and metadata, when no actor or action holds the separator |
| AuditChain.KnownHashIffPrefix | packages/utils/audit/audit.go:146-188 | The last hash of a verified chain is among those of another if and only if the chain is a prefix of the other, entry by entry, or two of the strings hashed collide |
| AuditChain.FieldsAmbiguousIff | packages/utils/audit/audit.go:85-86 | Another event has the same payload string if and only if the actor or the action holds the separator |
| AuditAppend.AuditLedger.AppendAuditLog | packages/utils/audit/audit.go:60-110 | A call alone adds the linked row and keeps a verified chain verified; without a workflow id it does nothing |
| AuditAppend.InsertKeepsInv | packages/utils/audit/audit.go:73-109 | An insert by any interleaved writer keeps: verified while no insert was stale, stuck from the first stale one on |
| AuditAppend.StaleInsertSticks | packages/utils/audit/audit.go:73-109 | A row that does not go right after the head its writer read leaves a row that no later insert can link |
| AuditAppend.StuckNeverVerifies | packages/utils/audit/audit.go:146-158 | A stuck chain that verified would contain a collision, which covers cycles of hashes |
| AuditAppend.VerifiesIffNoStaleInsert | packages/utils/audit/audit.go:73-109 | For all interleavings of begins, reads, inserts and rollbacks the log verifies if and only if every insert's head was still the head, up to a collision |
| AuditAppend.StaleInsertHappens | packages/utils/audit/audit.go:73-109 | Two writers that both read before either inserts leave a stale insert |
| AuditAppend.SerialAppendsVerify | packages/utils/audit/audit.go:60-110 | Any sequence of serial appends at increasing times extends a verified chain to a verified one that records exactly their events, in order |
| AuditAppend.RewrittenHistory | packages/utils/audit/audit.go:113-192 | From any index on, any events can take the place of a verified chain's rows so that it verifies; its last hash is an old one exactly when it is a prefix of the old chain, or two inputs collide |
| WorkflowStates.ExecutionIsGated | packages/types/state.go:24-71 | In a run from FAILED each EXECUTING comes two steps after POLICY_CHECK or ESCALATED, each after its own |
| WorkflowStates.EntriesIff | packages/types/state.go:24-71 | The table read backwards: from exactly which states each state is entered |
| WorkflowStates.RunLength | packages/types/state.go:24-71 | A run from FAILED has at most 9 + 8 n + 4 e states, for n visits to NEXT_ATTEMPT and e to ESCALATED |
| WorkflowStates.RunLengthIsTight | packages/types/state.go:24-71 | For all n and e a run that ends RECOVERED has exactly that many |
| WorkflowStates.ReachesIff | packages/types/state.go:24-89 | One state reaches another exactly when they are equal, or the first is not terminal and the second is not FAILED |
| Decision.Predict | packages/recovery/probability.go:18-72 | The accumulated and clamped score is the probability function the lemmas are about |
| Decision.PredictIsMonotone | packages/recovery/probability.go:18-72 | Within 0.25 and 0.95, and never lower for more successes, fewer failures, an earlier attempt and a smaller amount, also across the jump at an empty history |
| Decision.PredictWithin | packages/recovery/probability.go:60-71 | Between 0.25 and 0.95 the prediction is the logistic of the score, and outside the nearer bound |
| Decision.BaseScores | packages/recovery/probability.go:18-38 | The score of a first middling attempt by an unknown customer in each category |
| Decision.ScoreSteps | packages/recovery/probability.go:40-58 | What history, attempts and amount add to it in every category |
| Decision.GenerateCandidates | packages/recovery/nba.go:38-113 | The candidates of each category with their scores, NO_ACTION last |
| Decision.SelectBestAction | packages/recovery/nba.go:116-128 | The first of the candidates with the highest score, or NO_ACTION for none |
| Decision.SafeFallback | services/ai-provider/ollama.go:245-269 | Generating and ranking gives the one-threshold decision below, with the probability as confidence |
| Decision.FallbackIsFirstBest | packages/recovery/nba.go:38-128 | NO_ACTION wins exactly below 1/4, 5/17 or 5/16 by category, and never for the escalated ones; otherwise the first candidate wins |
| Decision.SecondChoice | packages/recovery/nba.go:38-113 | The second candidate of each category, its delay, and the probability from which it beats doing nothing |
| Decision.PredictedNoAction | services/ai-provider/ollama.go:245-269 | After the prediction's floor the fallback is NO_ACTION only for missing funds below 5/17 and an exceeded limit below 5/16 |
| Decision.NoActionConfidence | services/ai-provider/ollama.go:245-269 | A predicted NO_ACTION has a stored confidence that reaches a merchant threshold if and only if the threshold is at most 0.312 |
| Decision.StoredIsNearest | database/migrations/000002_reviveos_rebuild.up.sql:30-30 | A stored confidence is the nearest number in thousandths |
| Classification.FirstGroupDecides | packages/types/classifier.go:29-57 | A code with a word of some group goes to the first such group, whatever words of later ones it holds, in any letter case |
| Classification.UnknownIff | packages/types/classifier.go:58-64 | A code is of an unknown category exactly when it holds none of the words |
| Classification.OwnName | packages/types/classifier.go:58-63 | Every category's own standard name, in any letter case, is classified as that category, so the fallback for these names is never needed |
| Reply.OwnAction | services/ai-provider/ollama.go:337-364 | Each of the seven actions, in any letter case, is read as itself |
| Reply.OtherWords | services/ai-provider/ollama.go:337-364 | Words that name none of them are read as a delayed retry |
| Reply.ConfidenceInWords | services/ai-provider/ollama.go:301-311 | Which words read as 0.85, 0.70 and 0.40, in which order, and that all else reads as 0.80 |
| Reply.PercentOrShare | services/ai-provider/ollama.go:271-300 | A share and the percentage that says the same read the same, as a number and in a text |
| Pipeline.AnalyzePayment | apps/worker/internal/pipeline/pipeline.go:94-431 | A call leaves the workflow that the classified code, the history, the attempts so far, the prediction and the model's reply or the fallback come to, with each write stored or not |
| Pipeline.AnalysisOfNamed | apps/worker/internal/pipeline/pipeline.go:155-409 | For a payment whose code is a category's name and without the model: the prediction is that category's at one attempt more than recorded, and action and stored confidence are its fallback |
| Pipeline.AnalysisOfReply | apps/worker/internal/pipeline/pipeline.go:343-409 | With the model, the action it names and its confidence to the thousandth are stored instead |
| Pipeline.PredictionFalls | apps/worker/internal/pipeline/pipeline.go:155-278 | On the same facts a later analysis never predicts more, since attempts only grow |
| Pipeline.TooUnlikelyForEver | apps/worker/internal/pipeline/pipeline.go:155-409 | Without the model, a payment that has become too unlikely for the merchant's threshold is not charged after any further calls, deaths and analyses and one more analysis whose prediction and decision are stored |
| Pipeline.StaysTooUnlikely | apps/worker/internal/pipeline/pipeline.go:155-409 | Over any run whose analyses see the same facts, stored or not: once a stored confidence is below the threshold the workflow is never charged again |
| Pipeline.FallbackChargesAboveThreshold | services/policy-engine/engine.go:143-149 | A fallback charges only when the confidence stored by this analysis, or the one from before when none was stored, reaches the merchant's threshold |
| Pipeline.FallbackNoActionChargesIff | apps/worker/internal/pipeline/pipeline.go:361-409 | Under a threshold above 0.312 a fallback NO_ACTION is charged if and only if its decision was not stored or the confidence cannot be read, and the checks then let it through |
| Pipeline.UnstoredNoActionIsCharged | apps/worker/internal/pipeline/pipeline.go:398-402 | A concrete payment, under the default policy and with no failing executor statement, whose fallback NO_ACTION is charged because its decision row was not stored |
| Reply.UnlikelyReadsHigh | services/ai-provider/ollama.go:301-310 | Every text confidence with "unlikely" or "impossible" and no number reads as 0.85 |
| SdkRetry.HttpClient.Request | packages/sdk/src/client.ts:56-103 | The first decisive reply among the first maxRetries + 1 decides, otherwise the last; nothing is sent after it, and the pauses are the backoffs before the retries |
| SdkRetry.DecisiveIff | packages/sdk/src/client.ts:66-98 | Which replies end a call, and with which success or error: 2xx, 400, 401 and 403, and no others |
| SdkRetry.TotalBackoffBounded | packages/sdk/src/client.ts:58-62 | n pauses add up to at most 3000 n and at most 200 (2^n - 1) + 50 n milliseconds |
| SdkRetry.PausesBetween | packages/sdk/src/client.ts:58-62 | The pauses from both sides: 200, 400, 800 and 1600 ms, then 3000 ms each, with up to 50 ms of jitter below the cap |
| Lehmer.SeededIff | apps/web/src/lib/syntheticDataset.ts:4-6 | Exactly the seeds that give a proper state: all that are not negative, and the negative ones but one residue, which sticks at 0 |
| Lehmer.SeedIsState | apps/web/src/lib/syntheticDataset.ts:4-6 | A seed from 1 to 2^31 - 2 is its own first state, a multiple of the modulus becomes the last state, and every other one its remainder |
| Lehmer.DatasetSeed | apps/web/src/lib/syntheticDataset.ts:13-13 | The dataset's seed 42 starts at 42 and steps to 705894 |
| Lehmer.Generator.constructor | apps/web/src/lib/syntheticDataset.ts:4-6 | The seed reduced with JavaScript's remainder and shifted into range |
| Lehmer.Generator.Next | apps/web/src/lib/syntheticDataset.ts:7-10 | The next state and output, in [0, 1) exactly from a proper state, with a product below 2^53 |
| Lehmer.StepIsPermutation | apps/web/src/lib/syntheticDataset.ts:8-8 | The step maps 1 .. 2^31 - 2 onto itself, and multiplication by 1407677000 undoes it |
| Lehmer.PeriodByPrimes | apps/web/src/lib/syntheticDataset.ts:8-8 | A count of steps that returns, and does not when divided by any of its primes, divides every count that returns |
| Lehmer.ReturnsIff | apps/web/src/lib/syntheticDataset.ts:8-8 | Every state is back after n steps if and only if 2^31 - 2 divides n |
| Lehmer.FullPeriod | apps/web/src/lib/syntheticDataset.ts:4-11 | From any state the generator is back exactly at the multiples of 2^31 - 2 draws and comes by every other state: it is one cycle |

## Left out

- OutboxRelay.Relay.ProcessBatch: a call whose BEGIN or SELECT fails, or that has no pool or client, returns before it reads or writes anything and has no step; the polling loop around it is not modelled beyond repeated calls.
- Webhook.WebhookStore.IngestPaymentFailed: how email, phone and the reference to an earlier payment are picked from the nested and untyped parts of the body; the row ids the database makes up are parameters.
- Ingestion.EndToEnd: speaks of deliveries with an event id; without the header the program makes up an id from the clock, and nothing is deduplicated. The other kinds of events commit as a whole, without their statements in between, and a capture is looked up by one relation instead of a list of references.
- Executor.RecoveryStore.ExecuteWorkflow: one workflow of a payment; audit entries, the restored subscription and the text of notices are not modelled, and a notice counts as sent when it is handed to the notification provider.
- Pipeline.AnalyzePayment: one payment with its workflow row, which is made as `Executor.RecoveryStore.constructor` makes it when it is missing; the risk service's answer and the model's are inputs. How a percentage or a number is found in a text is an input too, and of the two model services it is the local one whose answers are read.
- ExecutorRace.RaceBound: the limit is one constant, and the count is read; policies that change between calls are not covered.
- ExecutorRuns.ResolvedForEver: executor and pipeline only. The dashboard's resume and override handlers, the webhook and the Razorpay provider's synchronisation write statuses unconditionally.
- AuditAppend.VerifiesIffNoStaleInsert: insert and commit are one step, since a row is visible from its commit on; rows with one timestamp come back in an order the database does not promise and stand in order of insertion here. Rows that other handlers insert without hashes are not part of the chain.
- AuditChain.FieldsAmbiguousIff: metadata is an abstract printer whose output never ends in a separator followed by other output, as holds for JSON text; JSON itself and jsonb's number formats are not modelled.
- LocalProvider.LocalPaymentProvider.CreateRetryAttempt: failure codes are upper-cased in ASCII only; customer details, gateway messages and time stamps are left out.
- Decision.PredictIsMonotone: exact reals; rounding of floating-point numbers is not modelled, except for the stored confidence's three decimals.
- Decision.SafeFallback: reasons and explanation texts are not modelled.
- SdkRetry.HttpClient.Request: the parsing of a successful body, headers and the timeout inside one request are not modelled; a reply stands for the outcome of one request.
- Lehmer.Generator.Next: exact reals for the quotient; the product needs no rounding, as its clause on 53 bits says.
- HTTP, SQL text, Redis and the queue's internals, mail, SMS and Razorpay calls, the language model, logging and configuration stand behind the tables, queues and answers above.
- Receivables, promises to pay, checkout funnels, risk scores and the learning engine would add only facts about single branches.
- The web pages, the command line, seed data and simulators are left out.
