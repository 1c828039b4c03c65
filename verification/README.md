# RecoverAI: a verified model of the payment recovery protocol

RecoverAI receives payment webhooks, opens a recovery case for each failed
payment, lets a deterministic engine, a merchant policy and a language model
agree on one action, schedules that action through a transactional outbox and
carries it out against a payment provider. Webhooks, dispatchers and workers run
concurrently; messages are delivered at least once and workers crash.

No single function shows that this is right, so the project models the protocol
as one transition system over the shared tables (payments, cases, actions,
outbox, inbox, audit log), the message queue and a log of provider calls, and
proves what holds in every state of every run. Beside it stand a second version
of the protocol in which captures are taken apart into read, cancellation and
unguarded write, the race between guarded and unguarded writers of one case row,
the retry backoff, and the paired simulation.

## Layout

| file | contents |
|---|---|
| `Domain.dfy` | statuses, action types, the transition table |
| `Policy.dfy` | failure classification, engine, policy, agent, and the rule that combines them |
| `Decisions.dfy` | what these answer, from the text of codes and categories, the limits and the counts |
| `Tables.dfy` | rows, queries, and each transaction as a function from tables to tables |
| `Store.dfy` | the services as they are written: methods on mutable tables, each proved equal to its transaction |
| `Invariants.dfy` | the invariant of the tables and what every transaction keeps |
| `Protocol.dfy` | the transition system: states, steps, runs |
| `Safety.dfy` | the invariant of the whole system and its preservation by every step |
| `Theorems.dfy`, `Progress.dfy`, `Execution.dfy`, `Webhooks.dfy`, `Waiting.dfy`, `Metrics.dfy` | results about every reachable state and every run |
| `Ledger.dfy`, `Deliveries.dfy` | the audit log, the outbox and the due times are exact; every delivery row by row |
| `LateCaptures.dfy` | the protocol with captures taken apart, and what survives |
| `Runs.dfy` | whole runs from empty tables that show what the failing properties need |
| `Writers.dfy` | guarded and unguarded writers with read and write apart |
| `Backoff.dfy`, `Simulation.dfy`, `Sums.dfy` | retry delays; the two-strategy experiment; sums over sets |

The proof has one spine. `Services.Store` ties the imperative code to
transaction functions; `Invariants` shows that every transaction keeps the
table invariant and only moves rows forward; `Safety.StepKeeps` and
`Safety.RunKeeps` lift this to every step and every run, with the workers' stale
readings, the queue and the open dispatcher batches included; `Ledger` shows on
top of it that log, announcements and due times are exactly what the rows bear
out, so a transaction that wrote another entry, row or time would not pass; the
results in
`Theorems`, `Execution`, `Webhooks`, `BoundedWaiting` and `Metrics` follow for every state
that a run from empty tables can reach.

## Steps of the model

- A webhook delivery is one atomic step.
- A decision is a read step followed by one atomic step that starts at its first
  guarded update, because that update locks the row until commit.
- An execution is five steps: claim-read (with the policy re-check), claim
  compare-and-set, provider call, read before finalising, finalise.
- A dispatcher batch begins (and locks its rows), publishes row by row, and then
  commits or aborts; on abort the messages already enqueued stay.
- Crash of a worker, redelivery of a message, retry and failure of a task, and
  the passage of time are steps of their own.
- At every step that reads them, the merchant's policy limits and the reply of
  the language model are arbitrary, and so are the answers of the provider and
  of the message broker.

## Assumptions

- Webhook atomicity is assumed by the model and not enforced by the code. The
  webhook assigns status and version without a guard
  (`app/domain/recovery.py:10-14`) and takes no row lock
  (`app/webhooks/handlers.py:289-326`). The `Writers` module drops this
  assumption for one case row and says exactly when such a write is sound:
  when nothing was written to the row since the webhook read it. The
  `LateCaptures` module drops it for captures in the whole protocol. There the
  open actions are looked up before the case is written, as in the code, where
  the bulk update runs before the flush.
- Two webhooks that insert the same payment or case for the first time at the
  same moment: one of them is answered as a duplicate
  (`app/webhooks/razorpay.py:152-162`). This lies below the model's step size.
- A row's id is its position in its table; rows are never deleted. This stands
  for the tables' generated keys, and the unique constraints
  (`app/models/recovery.py:86-102`, `app/models/recovery.py:193-203`,
  `app/models/webhook_event.py:88-92`) become lookups before inserts.
- All processes read one clock that never goes back, in hours. Audit entries are
  ordered by commit.
- An outbox row's creation time is the moment of its transaction's step. In the
  database it is the start of the transaction
  (`app/models/outbox_event.py:88-92`), so a long transaction can commit a row
  that sorts in front of one that already waits. `BoundedWaiting` depends on
  this not happening: such a row would have to be counted among the rows in
  front.
- Floating-point numbers are real numbers. In the backoff this hides that from
  attempt 1024 on the power of two no longer converts to a float and the
  computation raises an error; a task makes at most five retries.

## What the proofs found

- **At most one provider call per case** holds in every run. It rests on "one
  action per case", which no database key enforces, and on APPROVED never being
  returned to.
- **A capture may name the wrong case.** If the notes of a capture name another
  case of the same merchant, that case is settled and the captured payment's own
  case stays live. `Webhooks.CapturedIsNeverLiveIff` shows that this is the only
  way for a captured payment to have a live case;
  `Webhooks.MisdirectedRunExists` builds such a run.
- **The inbox key has no merchant in it.** After any run, a first failure opens a
  case if and only if no accepted delivery, to whichever merchant, carried its
  event id (`Webhooks.FirstFailureOpensCaseIff`); `Webhooks.CollisionRunExists`
  gives the colliding run for every such failure.
- **A provider call may follow the recovery of its case**: exactly when an
  accepted capture for the case comes between claim and call
  (`Execution.CallFollowsRecoveryIff`). `Runs.CallAfterRecoveryIsReached` builds
  such a run, from empty tables to the call.
- **An execution can end if and only if some worker holds it**
  (`Execution.ExecutionCanEndIff`). A worker that is lost between claim and
  finalisation, by a crash or because its task is retried or fails, leaves the
  action EXECUTING for good. The design document leaves this to a reconciliation
  process that the repository does not contain.
- **The per-case limits never bite**: whenever the policy is asked, its three
  counts are zero (`Theorems.PolicyAlwaysSeesZeroCounts`).
- **The policy's own answer is not always one it would approve**; it is exactly
  when the case is live and has actions left (`Policy.AnswerApprovableIff`). What
  is scheduled is nevertheless always approved (`Policy.ScheduledIsApproved`).
- **Retry delays stop growing at the cap**: a capped retry may be shorter than
  the one before it (`Backoff.DelaysGrowExactlyWhileUncapped`).
- **A late webhook can undo a terminal state** and give out a version twice once
  its read and its write are apart (`Writers.LateWebhookUndoesStop`). Still, one
  action and one provider call per case survive, RECOVERED stays final and other
  terminal states are left for it alone. What is lost is the freshness of claims:
  a late capture leaves an APPROVED action in its recovered case, exactly when the
  action was created after the capture had looked for open actions
  (`LateCaptures.LateCaptureMissesActionIff`, `Runs.LateCaptureMissesAction`).

## Model

| member | source | states |
|---|---|---|
| `Theorems.AtMostOneCallPerCase` | app/services/action_executor.py:315-352 | In every reachable state two different provider calls belong to different cases, under any interleaving, redelivery, retry, repeated publication and crash |
| `Theorems.ClaimIsNeverStale` | app/services/action_executor.py:77-192 | Although the claim read the case earlier, when its compare-and-set wins the case is ACTION_SCHEDULED at that instant; the win starts execution and leaves all cases alone, or cancels the action and stops the case; a loss changes no table |
| `Theorems.ClaimOutcomes` | app/services/action_executor.py:113-192 | What a claim writes and answers given that its reading is right while the action is APPROVED: all tables and the answer of a win, of a refusal and of a loss |
| `Theorems.ClaimIsNeverEarly` | app/tasks/recovery.py:320-359 | No claim is attempted before the decision time plus 24 hours for a WAIT of the engine, plus one hour for any other WAIT |
| `Execution.CallFollowsRecoveryIff` | app/services/action_executor.py:315-352 | After a winning claim and any run at whose end the worker still holds the action, the call can be made, and the case is RECOVERED at that moment if and only if an accepted capture for it came in between, and ACTION_SCHEDULED otherwise |
| `Execution.RunDuringExecution` | app/services/action_executor.py:159-286 | As long as an action stays EXECUTING, whoever holds it, the status of its case becomes RECOVERED exactly by accepted captures for it and changes by nothing else |
| `Runs.HoldingIsReached` | app/services/action_executor.py:77-192 | Under every configuration a run from empty tables brings a worker to hold an action: failure, dispatch, decision, dispatch, claim |
| `Runs.CallAfterRecoveryIsReached` | app/services/action_executor.py:315-352 | Under every configuration a run from empty tables makes a provider call for a case that is RECOVERED |
| `Execution.WebhookAtCase` | app/webhooks/handlers.py:289-430 | What any webhook does to any existing case past FAILED: an accepted capture whose target is the case recovers it with one more version if it is live, and every other webhook leaves it as it is |
| `Theorems.AuditRebuildsEveryCase` | app/webhooks/handlers.py:203-221 | Replaying the audit log gives the exact status and version of every existing case, and nothing for a case that does not exist |
| `Theorems.CaseAndActionAreCoupled` | app/tasks/recovery.py:278-359 | In every reachable state a case has at most one action; FAILED, ANALYSING and ACTION_SELECTED are never committed; ELIGIBLE has no action; ACTION_SCHEDULED, WAITING, STOPPED and ESCALATED have exactly one, of the type and status that go with them; RECOVERED has none that is open |
| `Theorems.DecisionNeverStallsHalfway` | app/tasks/recovery.py:167-171 | A decision goes through to the end exactly when the case is still ELIGIBLE, to version 5 with one more action, and otherwise changes nothing: the branches for an existing action and for later state conflicts are never taken |
| `Theorems.OnlyExecutableActionsAreCalled` | app/services/action_executor.py:195-239 | A worker that has claimed an action holds one of the three executable types, so the unsupported-type error is never raised |
| `Theorems.PolicyAlwaysSeesZeroCounts` | app/services/policy_service.py:65-117 | For every ELIGIBLE case, and for every action when it is left out of the count, all three counts are zero |
| `Theorems.CountsAreSizes` | app/services/policy_service.py:65-117 | The three counts are the sizes of three sets of the case's actions: neither denied nor cancelled; of these the reminders; links that are pending, approved or executing |
| `Theorems.CountIsZero` | app/services/policy_service.py:65-117 | The counts of a case whose only action is the excluded one are zero |
| `Theorems.VersionsNeverRepeat` | app/services/recovery_cases.py:17-51 | Between any two moments of a run a case's version does not fall, equal versions mean equal rows, a terminal row is frozen, and no version exceeds 7 |
| `Theorems.GuardHoldsIffUntouched` | app/services/recovery_cases.py:35-51 | A guarded update made any number of steps after its read changes the row exactly when the row is still as it was read |
| `Theorems.NoWorkIsLost` | app/tasks/recovery.py:409-485 | Every ELIGIBLE case and every APPROVED executable action has its outbox row, and the row is pending, or given up on at the maximum of attempts, or has a message queued or in flight, or its task is on record as given up |
| `Theorems.OutboxRowsAreSound` | app/outbox/dispatcher.py:39-68 | PENDING rows have attempts left, FAILED rows have used all of them, PUBLISHED rows were enqueued, and each row is committed as published once if it is PUBLISHED and never otherwise |
| `Theorems.CommitCountsAttempts` | app/outbox/dispatcher.py:42-68 | A committed batch counts one attempt for each of its pending rows, sets PUBLISHED, FAILED at the maximum or PENDING, and changes no other column |
| `Theorems.RetriesEndAtFive` | app/tasks/recovery.py:441-478 | A task that raises is queued again with one retry more until it has used five, and then giving up is on record |
| `Ledger.AuditIsExact` | app/services/action_executor.py:121-312 | In every reachable state each audit entry stands in the log exactly once if the rows bear it out and not at all otherwise: openings, decisions with kind and final status, claims, cancellations, successes, failures, recoveries |
| `Ledger.ActionHistory` | app/services/action_executor.py:180-312 | For one action: one claim entry exactly if it is EXECUTING, EXECUTED or FAILED, one success or failure entry exactly for that status, and the one decision entry of its case carries its kind |
| `Ledger.AnnouncementsAreExact` | app/webhooks/handlers.py:85-116 | In every reachable state a case is announced as eligible, an executable action as scheduled, and a case as recovered exactly if it is RECOVERED, each in one row of the case's merchant; a scheduled row waits for the time the case knows, the others wait for nothing |
| `Ledger.CasesKnowTheirDueTime` | app/tasks/recovery.py:320-359 | In every reachable state a case with an executable action has that action's creation time plus its delay as next action time, and every other case has none |
| `Ledger.RunIsExact` | app/tasks/recovery.py:409-485 | Every run keeps audit log, announcements and due times exact |
| `Execution.OrphanIsNeverResumed` | app/services/action_executor.py:159-170 | From any good state on, an EXECUTING action that no worker holds stays so, and is not handed to the provider |
| `Execution.LostExecutionIsNeverResumed` | app/tasks/recovery.py:465-485 | After a crash, a retry or a failure of the task between claim and finalisation, in every run that follows the action stays EXECUTING and no further provider call is made for it |
| `Execution.ExecutionCanEndIff` | docs/system-design.md:223 | In every reachable state an EXECUTING action can leave EXECUTING in some run if and only if some worker holds it |
| `Safety.StepKeeps` | app/tasks/recovery.py:409-485 | Every enabled step of any webhook, dispatcher, worker, crash, redelivery or retry keeps the invariant of the system |
| `Safety.StepEvolves` | app/services/recovery_cases.py:17-51 | Every step moves the tables only forward: captured payments and terminal cases frozen, versions rising, APPROVED never returned to, audit only appended |
| `Safety.RunKeeps` | app/tasks/recovery.py:409-485 | The same over whole runs |
| `Safety.WorkerStepKeeps` | app/services/action_executor.py:77-352 | Worker steps keep the invariant: readings of other workers stay usable, claims stay exclusive |
| `Safety.BatchBeginKeeps` | app/outbox/dispatcher.py:28-40 | Locking a batch of rows that nobody has locked keeps open batches disjoint |
| `Safety.BatchPublishKeeps` | app/outbox/dispatcher.py:42-68 | Enqueuing inside an open transaction keeps the invariant, whether the broker reports success or not |
| `Safety.BatchCommitKeeps` | app/outbox/dispatcher.py:42-68 | Committing a batch keeps the invariant of every row, also of rows locked by other dispatchers |
| `Safety.BatchAbortKeeps` | app/outbox/dispatcher.py:26-68 | Rolling a batch back while its messages stay enqueued keeps the invariant |
| `Safety.QueueStepKeeps` | app/tasks/recovery.py:441-485 | Delivery, redelivery, crash, retry, failure and acknowledgement keep the invariant: no message vanishes unrecorded |
| `Safety.ReceiveKeeps` | app/webhooks/razorpay.py:88-122 | A webhook keeps the invariant, the running workers included |
| `Safety.AttemptAllAt` | app/outbox/dispatcher.py:42-68 | After a batch each selected row was attempted once with its own result, and every other row is unchanged |
| `Invariants.MovesKeepInvariant` | app/tasks/recovery.py:284-374 | A transaction that moves one case with its action, one announcement and one audit entry that replays to the new standing keeps the table invariant |
| `Invariants.MarkRecoveredKeeps` | app/webhooks/handlers.py:289-359 | Settling a case keeps the table invariant and moves rows forward |
| `Invariants.CapturedKeeps` | app/webhooks/handlers.py:362-430 | So does a captured delivery |
| `Invariants.FailedKeeps` | app/webhooks/handlers.py:144-286 | So does a failed delivery, new payment or known |
| `Invariants.WebhookKeeps` | app/webhooks/razorpay.py:88-122 | So does the whole webhook transaction, duplicates and rejections included |
| `Invariants.DecideKeeps` | app/tasks/recovery.py:132-388 | So does a decision on a case row read at any earlier time; it never finds an action in its way nor its case moved on |
| `Invariants.DecisionIsOneJump` | app/tasks/recovery.py:151-351 | The guarded updates through ANALYSING and ACTION_SELECTED with a local version counter are one jump to the final status, three versions on |
| `Invariants.ClaimKeeps` | app/services/action_executor.py:77-192 | So does a claim made from an earlier reading |
| `Invariants.SuccessKeeps` | app/services/action_executor.py:242-286 | So does recording a success for an action under execution |
| `Invariants.FailureKeeps` | app/services/action_executor.py:289-312 | So does recording a failure |
| `Progress.EligibleDeliveryDecides` | app/tasks/recovery.py:132-388 | From every reachable state, delivering the message of an ELIGIBLE case and running it undisturbed gives exactly the state, written out row by row, in which the decision rule, asked with no earlier actions, is on record: final status, version 5, due time in case and announcement alike, one approved action, one audit entry |
| `Progress.CompletedIsDecided` | app/tasks/recovery.py:284-374 | What the decision transaction writes is that row-by-row description |
| `Progress.RecheckIsPermission` | app/services/action_executor.py:90-111 | The re-check at execution allows an APPROVED action exactly when the policy permits it with zero counts |
| `Progress.ScheduledDeliveryClaims` | app/services/action_executor.py:77-192 | From every reachable state, delivering the message of an APPROVED action and claiming it undisturbed starts its execution if the policy permits it with zero counts, and otherwise cancels it and stops the case |
| `Execution.HeldIsCarriedOut` | app/services/action_executor.py:242-352 | Whoever holds an action, before the call, after it or before the last write, can bring it to its end, with all tables given: called if it was not, EXECUTED or FAILED by the answer with the entry that says so, the case to WAITING after a success if it is still scheduled, also if a capture has settled the case or settles it between read and write |
| `Webhooks.RepeatIsNoOp` | app/webhooks/razorpay.py:96-110 | After an accepted delivery every later delivery with its event id changes nothing, whatever ran in between and whatever it carries |
| `Webhooks.EventIdsCollideAcrossMerchants` | app/models/webhook_event.py:88-92 | A first failure that would open a case is dropped after any accepted delivery under the same event id |
| `Webhooks.CaptureKeepsSettledIff` | app/webhooks/handlers.py:362-430 | A capture keeps captured payments free of live cases exactly when it does not name, for a payment with a live case, another case of the merchant |
| `Webhooks.FailureKeepsSettled` | app/webhooks/handlers.py:158-162 | A failed delivery never gives a captured payment a live case |
| `Webhooks.StepKeepsSettledIff` | app/webhooks/handlers.py:395-430 | Any step of the system keeps captured payments free of live cases exactly when it is not the acceptance of such a capture |
| `Webhooks.CapturedIsNeverLiveIff` | app/webhooks/handlers.py:144-430 | Over every run from empty tables: no captured payment has a live case at any moment if and only if every accepted capture is well addressed |
| `Webhooks.CapturedIsAbsorbing` | app/webhooks/handlers.py:158-162 | Along every run a captured payment's row never changes again |
| `Webhooks.MisdirectedRunExists` | app/webhooks/handlers.py:395-430 | Under every configuration there is a run in which a captured payment has a live case |
| `Webhooks.MisdirectedCaptureLeavesLiveCase` | app/webhooks/handlers.py:395-430 | Every misdirected capture leaves its own payment captured and that payment's case live and unchanged |
| `Deliveries.CaptureDoes` | app/webhooks/handlers.py:289-430 | In every reachable state, all tables after an accepted capture and its answer: the payment captured, first seen with its amount or known; no case, a terminal case, or a live case recovered with open actions cancelled, one announcement and one audit entry |
| `Deliveries.FailureDoes` | app/webhooks/handlers.py:144-286 | In every reachable state, all tables after an accepted failure and its answer: nothing for a captured payment, the amount for one with a case, a new case with category, announcement and audit entry for any other |
| `Deliveries.OtherDeliveriesDo` | app/webhooks/razorpay.py:88-175 | Unknown merchant, duplicate and invalid payload leave no trace; an unsupported event leaves its inbox row as ignored |
| `Webhooks.FirstFailureOpensCase` | app/webhooks/handlers.py:167-242 | The first failure of any payment of any active merchant adds exactly one FAILED payment, one ELIGIBLE case, its announcement, its audit entry and its inbox row, or is a duplicate for its event id alone |
| `Webhooks.InboxHoldsAccepted` | app/webhooks/razorpay.py:96-110 | After any run the inbox holds the ids of the accepted deliveries and no others |
| `Webhooks.FirstFailureOpensCaseIff` | app/models/webhook_event.py:88-92 | After any run from empty tables a first failure opens a case if and only if no accepted delivery of the run carried its event id; otherwise it changes nothing |
| `Webhooks.CollisionRunExists` | app/webhooks/razorpay.py:96-110 | For every failure, a run of one delivery to another merchant makes it a duplicate, though it would have opened a case before |
| `Webhooks.WebhookTouchesOneMerchant` | app/webhooks/handlers.py:119-141 | A webhook to one merchant leaves every payment, case, action, outbox and inbox row that belongs to another merchant exactly as it was, gives no row to another merchant, and adds only rows of its own merchant, also when its notes name another merchant's case |
| `Webhooks.LinkedRowsShareMerchant` | app/tasks/recovery.py:86-98 | In every reachable state linked payment, case, action and outbox rows exist and share one merchant, and the action a scheduled outbox row names belongs to the row's case |
| `BoundedWaiting.PassedOverAtMost` | app/outbox/dispatcher.py:28-68 | With batches of L and M attempts, a due row with k pending rows in front is passed over by at most k*M/L batches that begin from now on and commit, whatever fails and however many dispatchers run |
| `BoundedWaiting.PassingOverIsPaidFor` | app/outbox/dispatcher.py:28-68 | Along every run that does not pick the row, L times the committed batches never exceeds the attempts owed in front of it |
| `BoundedWaiting.CommitPaysOff` | app/outbox/dispatcher.py:42-68 | Committing a batch that passed the row over takes at least L from the attempts owed |
| `BoundedWaiting.OwedAfterAttempts` | app/outbox/dispatcher.py:42-68 | Attempting rows never adds to what is owed and takes at least one for each row in front |
| `BoundedWaiting.OwedIsBounded` | app/config.py:38-40 | What is owed in front of a row is at most the number of rows in front times the maximum of attempts |
| `Writers.GuardedWriteIsSound` | app/services/recovery_cases.py:35-51 | A guarded write succeeds exactly when nothing was written since its read, and keeps versions increasing and terminal states final |
| `Writers.UnguardedWriteIsSoundIff` | app/domain/recovery.py:6-14 | An unguarded write that changes the row keeps both exactly when nothing was written since its read |
| `Writers.SoundExactlyWhenTimely` | app/domain/recovery.py:6-14 | For any number of writers of both kinds in any order, the history of the row is sound exactly when no unguarded write came late |
| `Writers.LateWebhookUndoesStop` | app/webhooks/handlers.py:296-303 | A constructed race in which a webhook's late write leaves STOPPED for RECOVERED and gives out the same version twice |
| `LateCaptures.UndisturbedCaptureIsAtomic` | app/webhooks/handlers.py:296-340 | Read, look-up of open actions and unguarded write of a capture, with nothing in between, do exactly what the atomic delivery does |
| `LateCaptures.LateRunKeeps` | app/domain/recovery.py:6-14 | With captures taken apart and everything else in between, every run keeps the weaker invariant: one action per case, none in an ELIGIBLE case, claims exclusive, calls distinct |
| `LateCaptures.LateCapturesKeepOneCallPerCase` | app/services/action_executor.py:159-170 | In every state reachable with late captures no case has two actions or two provider calls |
| `LateCaptures.LateCapturesOnlyRecover` | app/domain/recovery.py:6-14 | Along every run with late captures RECOVERED is never left, other terminal states are left for RECOVERED only, and no case becomes ELIGIBLE again |
| `LateCaptures.LateClaimFindsScheduledOrRecovered` | app/services/action_executor.py:153-170 | With late captures an APPROVED executable action is in a scheduled or a recovered case |
| `LateCaptures.LateCaptureMissesActionIff` | app/webhooks/handlers.py:310-326 | An APPROVED action of the case survives the late write if and only if it was created after the capture had looked for open actions |
| `Runs.LateCaptureMissesAction` | app/webhooks/handlers.py:302-326 | Under every configuration a run with a late capture ends with an APPROVED executable action in a RECOVERED case |
| `Domain.LiveMayRecover` | app/domain/recovery_state.py:15-84 | The validation accepts RECOVERED from exactly the live statuses and RECOVERED itself |
| `Domain.TerminalHasNoExit` | app/domain/recovery_state.py:15-66 | The terminal statuses are exactly those that no transition leaves |
| `Domain.EnteredFrom` | app/domain/recovery_state.py:15-55 | The table read backwards: from which statuses each status is entered |
| `Domain.TableIsUnbounded` | app/domain/recovery_state.py:15-55 | The table alone has never-ending chains of every length, so the bound on versions comes from the code that drives it |
| `Policy.PolicyApprovesExactlyThePermitted` | app/domain/policy.py:35-104 | The ordered checks approve exactly the candidates that satisfy all conditions at once, keep an approved candidate, and never answer a denial with a link or a reminder |
| `Decisions.PolicyAnswers` | app/domain/policy.py:35-104 | Every answer with its delay, by conditions that do not depend on an order: ESCALATE exactly for a live high-value candidate that would be carried out, WAIT of one hour for a second active link, STOP for every other denial |
| `Decisions.PolicyReasons` | app/domain/policy.py:40-104 | Each reason is given exactly in its own situation |
| `Policy.AnswerApprovableIff` | app/domain/policy.py:40-104 | The policy's answer, asked about again, is approved exactly when the case is live and has actions left |
| `Policy.ParseInvertsValue` | app/agents/recovery_agent.py:102-116 | Parsing an action's value gives the action back, and no other text does |
| `Policy.AgentAnswers` | app/agents/recovery_agent.py:73-180 | Through both nodes and the outer fallback the agent is the action of a usable reply marked as the model's, or else the deterministic action marked as a fallback |
| `Policy.AgentFailureIsAgentFree` | app/tasks/recovery.py:214-258 | Whenever the model gives no usable reply the decision equals that of a system without an agent, delay and reason included |
| `Policy.AgentObeyedExactlyWhenPermitted` | app/tasks/recovery.py:226-258 | A usable reply is obeyed exactly when the policy permits it; otherwise the deterministic action stands, marked as not approved |
| `Policy.ScheduledIsApproved` | app/tasks/recovery.py:216-258 | For every reply, an executable action that is decided on is approved by the policy on the same inputs, also when it is a fallback that was not asked about again, and the case is not of high value |
| `Policy.DelayIsDetermined` | app/tasks/recovery.py:320-332 | The due delay depends on case and action alone: 24 hours for WAIT when the engine chose WAIT, one hour for any other WAIT, none otherwise |
| `Decisions.CodeDecidesCategory` | app/webhooks/handlers.py:44-59 | The category of a code by the words it mentions in whatever mixture of cases: the first of EXPIRED, INSUFFICIENT, NETWORK or TIMEOUT decides |
| `Decisions.CodeDecidesAction` | app/domain/recovery_engine.py:17-63 | From 1000 minor units on, the action as an equivalence on the text of the code: link iff it mentions EXPIRED, wait iff INSUFFICIENT and not EXPIRED, reminder iff NETWORK or TIMEOUT and neither, escalation iff it is not empty and mentions none, stop iff it is empty |
| `Decisions.CategoryDecidesAction` | app/domain/recovery_engine.py:34-63 | The engine's action and delay for each of the five categories |
| `Decisions.NormaliseIsNaming` | app/domain/recovery_engine.py:34-34 | Normalisation gives a word exactly for the ways of writing it: case and surrounding white space do not matter |
| `Decisions.SmallOrMissingStops` | app/domain/recovery_engine.py:28-34 | Below 1000 minor units, and without a category, the engine stops |
| `Decisions.AgentFreeDecision` | app/tasks/recovery.py:176-258 | The whole decision on a fresh case without a usable reply, from limits, amount and the engine's action |
| `Decisions.AgentDecision` | app/tasks/recovery.py:214-258 | The whole decision on a fresh case with a usable reply |
| `Policy.ClassifiedCategoriesAreNormal` | app/webhooks/handlers.py:44-59 | What the classification gives out survives the engine's normalisation unchanged |
| `Policy.EngineStopsExactlyWithoutCode` | app/domain/recovery_engine.py:17-63 | Classification and engine together give up on a recoverable amount exactly when the failure carried no code |
| `Metrics.MetricsAreCounts` | app/services/dashboard_service.py:21-58 | Total, recovered, stopped and escalated are the sizes of the sets of such cases of the merchant; the amount at risk and the recovered amount are the sums over the first two sets; the three are together at most the total and the recovered amount at most the amount at risk |
| `Metrics.RateIsPercentage` | app/services/dashboard_service.py:58-58 | The rate is the share of recovered cases in per cent, between 0 and 100, and 0 without cases |
| `Metrics.MetricsNeverDecrease` | app/services/dashboard_service.py:21-58 | Along every run no count and no amount of any merchant decreases |
| `Backoff.DelayIsBounded` | app/tasks/backoff.py:4-14 | For every attempt number, negative ones included, the rounded delay stays between half the maximal delay and the maximal delay, at most 60 seconds |
| `Backoff.EndsMayBeWaited` | app/tasks/backoff.py:4-14 | Both bounds are attained |
| `Backoff.DelayTable` | app/tasks/backoff.py:4-14 | The maximal delay: two seconds for the first attempt and for negative ones, doubled up to attempt 4, a minute from attempt 5 on |
| `Backoff.DelaysGrowExactlyWhileUncapped` | app/tasks/backoff.py:4-14 | Every possible delay of the next attempt is at least every possible delay of this one if and only if the next attempt is not capped, that is, up to attempt 4 |
| `Backoff.FiveRetriesWait` | app/tasks/recovery.py:441-478 | The five retries together wait between 31 and 62 seconds |
| `Simulation.SimulateOutcome` | app/simulation/outcomes.py:65-67 | Draws exactly once whatever the category and the action, and recovers exactly when the draw is below the tabled probability |
| `Simulation.StrategyResult.Take` | app/simulation/experiment.py:58-80 | One turn of the loop adds the payment, its action, its contacts and its outcome to the result, and uses one draw |
| `Simulation.RunExperiment` | app/simulation/experiment.py:45-100 | Both results are the tallies of their strategies in which payment i meets draw i of the shared stream |
| `Simulation.StrategyFollowsEngine` | app/simulation/recoverai.py:16-42 | From 1000 minor units on the strategy escalates what is of high value unless the engine stops, and otherwise follows the engine |
| `Simulation.DrawsThatRecover` | app/simulation/outcomes.py:3-67 | For each category, below and above the high-value threshold, the draws with which the baseline and the strategy recover a payment |
| `Simulation.CoveredIsDominated` | app/simulation/outcomes.py:3-67 | With every draw with which the baseline recovers a payment of at least 1000 minor units and a category other than "unknown", the strategy recovers it too |
| `Simulation.UncoveredIsNeverRecovered` | app/simulation/recoverai.py:16-42 | Every other payment is stopped and recovered with no draw |
| `Simulation.IncrementalRevenueDecomposes` | app/simulation/experiment.py:45-106 | For every population and stream the incremental revenue is what is gained on covered payments less what is forgone on the others; the gain is not negative and the loss at most the uncovered amounts |
| `Simulation.TallyAccountsForAll` | app/simulation/experiment.py:15-25 | For every strategy the action counts add up to the cases, those of links and reminders to the contacts, and every payment is counted once |
| `Simulation.TallyIsSums` | app/simulation/experiment.py:45-100 | For every strategy, cases and recoveries are the numbers of payments and of payments whose draw recovers them, and the two amounts are the sums over these sets |
| `Simulation.CountsAreSizes` | app/simulation/experiment.py:58-64 | Each action count is the number of payments on which the action was taken |
| `Simulation.HoursAreWeighted` | app/simulation/outcomes.py:70-74 | The hours are one for each payment recovered by a reminder, two by a link, 24 by a wait and 48 by an escalation |
| `Services.Store.AtomicTransitionRecoveryCase` | app/services/recovery_cases.py:17-51 | Refuses what the table refuses; otherwise changes the row and reports one row exactly when status and version match |
| `Services.Store.AtomicTransitionWithNextActionAt` | app/tasks/recovery.py:104-129 | The same, setting the due time with it |
| `Services.Store.TransitionRecoveryCase` | app/domain/recovery.py:6-14 | The unguarded writer: assigns status and next version if the table allows it, and nothing for the same status |
| `Services.Store.CreateRecoveryActionIdempotent` | app/services/recovery_actions.py:24-82 | Creates exactly when no action has the key; otherwise returns the one that has it and changes nothing |
| `Services.Store.AtomicActionTransition` | app/services/action_executor.py:56-74 | Changes the action and reports one row exactly when its status is the expected one |
| `Services.Store.InsertOutboxIfMissing` | app/webhooks/handlers.py:85-116 | Adds the announcement unless its key is there |
| `Services.Store.HandlePaymentFailed` | app/webhooks/handlers.py:144-286 | The handler's step-by-step writes amount to the failed-delivery transaction, outcome included |
| `Services.Store.MarkCaseRecovered` | app/webhooks/handlers.py:289-359 | Amounts to settling the case: status, cancelled open actions, audit, announcement |
| `Services.Store.HandlePaymentCaptured` | app/webhooks/handlers.py:362-430 | Amounts to the captured-delivery transaction, outcome included |
| `Services.Store.ProcessEvent` | app/webhooks/handlers.py:433-475 | Sends each event to its handler |
| `Services.Store.ReceiveWebhook` | app/webhooks/razorpay.py:88-122 | Inserting the inbox row first and rolling back on a rejection amounts to the webhook transaction |
| `Services.Store.CompleteDecision` | app/tasks/recovery.py:284-374 | The last two guarded updates, the announcement and the audit entry bring the case to the final status of the action exactly when the case is ANALYSING at the expected version, and change nothing otherwise |
| `Services.Store.RecordDecision` | app/tasks/recovery.py:260-374 | Creating the action and completing the decision amounts to the recording transaction on any tables: an existing action changes nothing, a selection conflict leaves the new action and nothing else |
| `Services.Store.HandleRecoveryCaseEligible` | app/tasks/recovery.py:132-388 | Three guarded updates with a local version counter amount to one jump to the final status, and a lost guard to nothing |
| `Services.Store.ClaimForExecution` | app/services/action_executor.py:113-192 | The claim from an earlier reading amounts to the claim transaction, outcome included |
| `Services.Store.FinalizeSuccess` | app/services/action_executor.py:242-286 | Amounts to recording a success; nothing unless action and case exist and the action is EXECUTING |
| `Services.Store.FinalizeFailure` | app/services/action_executor.py:289-312 | Amounts to recording a failure; nothing unless action and case exist; the case is not touched |
| `Services.Store.OldestAvailable` | app/outbox/dispatcher.py:28-40 | Finds a due, pending, unlocked row that is not taken, none older, if there is one |
| `Services.Store.SelectDue` | app/outbox/dispatcher.py:28-40 | The selection from a table in any order is what the query asks for: due, pending, unlocked, distinct, oldest first, and rows are left out only if it is full and only if none of them is older |
| `Services.Store.PublishAll` | app/outbox/dispatcher.py:42-68 | The loop attempts the selected rows once each in order with the broker's answers until a crash, and enqueues the accepted ones at once |
| `Services.Store.DispatchOutboxEvents` | app/outbox/dispatcher.py:20-76 | The run attempts exactly the selected rows once each with the broker's answers; a crash loses the table changes and keeps the enqueued messages; the returned number counts the accepted publications |
| `Services.EnqueuedExactlyAccepted` | app/outbox/dispatcher.py:42-68 | Exactly the accepted rows are enqueued |
| `Tables.HandleIgnoresInbox` | app/webhooks/handlers.py:433-475 | The handlers neither read nor write the inbox, so inserting its row first makes no difference |

## Left out

- Signature verification of webhooks: verified input is taken as given.
- Parsing of JSON and request bodies, routing, logging, health checks and settings; a payload that does not parse or validate is the one delivery `InvalidPayload`, which rolls back.
- The provider's HTTP client and the language model: oracles that may succeed, fail, or never return before the worker crashes.
- Database and broker internals: tables with unique keys, guarded updates and transactions; savepoints appear only as lookup-then-insert.
- Concurrent first inserts of one payment, case or inbox row: below the model's step size, as stated under Assumptions.
- Columns that no branch depends on: currency, failure text, provider references, error texts, reasons, payloads, and timestamps other than creation and due times.
- Creation of a merchant's default policy row: limits are arbitrary wherever they are read.
- Characters outside ASCII in case folding and trimming of failure codes and categories.
- `app/domain/money.py`: only non-negative amounts matter here.
- Rounding of rates and the average time to recovery on the dashboard, and its paging; floating-point arithmetic is done in real numbers throughout.
- Generation of random populations, the derived rates of a strategy result, scripts, labs, seed data and migrations.
- Theorems.NoWorkIsLost: a task that fails for good counts as giving up on record; the code leaves that record in the log and the broker's result, not in a table.
- Services.Store.ClaimForExecution: takes the rows as read before; the lookups that answer a missing action or case are in the read step of the protocol.
- Services.Store.DispatchOutboxEvents: a publication that reaches the broker and is still reported as failed appears in the protocol's publish step only.
- Services.Store.CompleteDecision: has no branch for a conflict at the final transition, which the row lock of the update before it excludes.
- Backoff.DelayIsBounded: over real numbers; the overflow from attempt 1024 on is not modelled.
- BoundedWaiting.PassedOverAtMost: rows that a long transaction commits with an earlier creation time than a waiting row are not modelled.
- LateCaptures.LateRunKeeps: takes captures apart and leaves failed deliveries atomic; what those write without a guard is the payment row.
