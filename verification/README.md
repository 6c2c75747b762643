# Supplier assurance: verified models

A Dafny model of three parts of the supplier assurance system, with proofs over every run.

**Governed actions and the transactional outbox.** An analyst proposes an action, somebody else approves or
rejects it, an executor applies it to the supplier system. Proposing also stores an outbox message, and workers
lease such messages and start the approval workflow in Step Functions. `Protocol` is one state machine for all of
it: each event is one database transaction, one external call or one crash, requests and workers interleave
freely, claims carry any clock reading and may skip any rows. `Invariant`, `TableProofs` and `StepProofs` hold the
inductive invariant; `Runs`, `Theorems`, `Leases`, `Commutation`, `SharedKeys` and `CrossTenant` say what follows
for whole runs; `Claims` and `RowLocks` are about claims, which the protocol takes as one step. `Store`,
`Governance`, `Dispatcher` and `InMemory` are the repositories, services and the dispatcher loop as classes over
mutable rows; each method is proved against its transaction, and an uninterrupted dispatch or request is proved to
be a run of the protocol. What the transactions write is pinned field by field, in the terms of the requests that
caused it: `Provenance` traces every stored field, event and receipt of a run back to the request it came from,
`Answers` gives the exact answers and tables of `propose`, `decide` and `execute` in every reachable state,
`Deliveries` says message by message what a dispatch publishes, and `Workflows` what workflows are started with,
what they report and what each step writes into a message row.

**The structural chunker.** `Splitter` is the overlapping splitting loop as a step machine and says exactly when it
ends, `BoundedSplitting` (in BoundedParts.dfy) proves the loop itself against an independent description of a
lossless overlapping split, `UniqueSplit` that this description fits one split only, and `Chunking` adds sections,
stripping and positions. `ChunkTexts` says where every line, piece and part stands in the texts of sections, parts
and chunks.

**Checkpointed reviews behind the API.** `ReviewGraph` is the review graph with its pause and its failures,
`ReviewApi` the start and resume handlers over the case repository, `ReviewRuns` what any sequence of requests
does to a case. `ReviewOrigins` traces findings and recommendation of every review back to the requests they came
from, and gives the exact answer and record of every request.

Hypotheses of the run theorems, in the system's own terms:

- `Sound`: hexadecimal text tells ids apart, the state machine ARN is well formed, `max_attempts` is positive.
- Each worker process has a worker id of its own (a lease is matched on `locked_by` only):
  a busy worker id claims nothing. `Leases.SharedWorkerIdBreaksBackoff` shows what a shared id would break.
- `ReceiptIsForThisAction` needs an idempotency key no other tenant uses. ADR 0004 calls the key tenant-scoped,
  but the supplier system looks receipts up by key alone (packages/governance/service.py:74); the model follows the
  code, `SharedKeys.SecondTenantGetsFirstReceipt` is a complete run that returns a foreign receipt, and
  `Theorems.ReceiptIsOwnExactlyWhen` is the exact condition.
- An action id is made of the proposer's tenant, the unique key has the case's. `CrossTenant.ProposalFailsExactlyWhen`
  says exactly when that ends a proposal in a raw integrity error, two runs in `CrossTenant` show it, one of them
  for an analyst acting for its own tenant, and `CrossTenant.OwnTenantProposersNeverFail` rules it out while every
  proposer acts for the case's tenant. `InMemory.CreateKeepsConsistentExactlyWhen` and
  `InMemory.RollbackRestoresExactlyWhen` say what the in-memory repository loses in that case, and
  `InMemory.AdministratorsActionIsLost` loses it.
- The splitter's constructor accepts every overlap below `max_chars`; `Splitter.TerminatesExactlyWhen` shows that
  two of those overlaps never end on long sections.
- The theorems of `ReviewRuns` are about cases on which one execution is started (one idempotency key); those of
  `ReviewOrigins` hold for any keys. Requests run one at a time. Any model call, checkpoint write or read-back may
  fail in any request.

## Model

| member | source | states |
|---|---|---|
| StepProofs.StepKeepsInv | packages/governance/service.py:153-257 | every transaction, external call and crash of any request or worker keeps the system invariant, from any state that has it |
| Runs.ReachableInv | packages/outbox/dispatcher.py:79-148 | the invariant holds in every state of every run |
| Runs.RowStep | packages/outbox/repositories.py:104-195 | in any reachable state any event leaves a message row alone, or leases, fails or publishes it as its holder's step says, and nothing else |
| Runs.RunEvolves | packages/governance/repositories.py:198-220 | between any two states of a run: no action, message, receipt, execution or audit event disappears, and each action moved only along its lifecycle |
| Runs.ExtendRun | packages/outbox/dispatcher.py:79-148 | whatever leads on from the end of a run makes a longer run, so the run theorems apply to every dispatch and request below |
| Transactions.InsertUnique | packages/persistence/models.py:138-144 | a commit the constraints accept keeps tenant and key unique |
| Theorems.EveryActionHasOneMessage | packages/outbox/repositories.py:127-165 | each committed action has exactly one outbox message, published exactly when the action has its workflow reference, and that reference names an execution started for this action |
| Theorems.ExecutionsBelongToActions | packages/outbox/dispatcher.py:32-52 | each external execution was started for one committed action, and no action has two |
| Theorems.SupplierAppliesOnce | packages/governance/service.py:217-257 | with any number of racing, crashed and retried executors the supplier applied an action at most once, after an audited approval by somebody other than its proposer, with the approved decision |
| Theorems.ExecutorsAgree | packages/governance/service.py:222-257 | any two `execute` calls that ever answered for an action gave the same receipt, and it is the stored one |
| Theorems.ReceiptIsForThisAction | packages/governance/service.py:60-84 | unless another tenant shares the key, the receipt carries this action's id and its approved decision |
| Theorems.LostRaceIsAnswered | packages/governance/service.py:252-257 | an executor whose compare-and-set was refused always finds the winner's receipt |
| Theorems.ExecutionCannotFail | packages/governance/service.py:226-257 | from the supplier call on, only a crash keeps `execute` from answering with a receipt, whatever other requests do: it never ends in a failure |
| Theorems.ReceiptIsOwnExactlyWhen | packages/governance/service.py:74-84 | in every run, whenever the supplier is called for an action, any receipt ever answered for that action is its own exactly when the supplier had none for the key, or one of this action's |
| Theorems.AuditIsHistory | packages/governance/repositories.py:190-221 | replaying an action's audit events from nothing gives its stored status, in every state; actions without a row have no events |
| Theorems.ReplayOfStory | packages/governance/service.py:164-257 | the only event histories there are: proposed, then approved or rejected, then from approved executed |
| Theorems.ActionsOnlyProgress | packages/governance/repositories.py:198-221 | from any state to any later one case, review, tenant, arguments, proposer and key stay, decision, receipt and reference are written once, approver differs from proposer, the log only grows |
| Theorems.PolledOutcomeStaysTrue | infra/iac/lib/production-stack.ts:184-191 | a polled outcome is final and stays true: success means approved or executed from then on, rejection means never executed and never seen by the supplier |
| Theorems.OneActionPerKey | packages/governance/repositories.py:147-180 | however many proposals race for one tenant and key, one action and one proposed event remain |
| Theorems.CommitIsAllOrNothing | packages/governance/repositories.py:152-180 | a proposal commit adds one action, one message and one event together, or changes no table |
| Theorems.ProposalIsAnswered | packages/governance/service.py:109-162 | however proposals race, from its begin on a proposal that does not crash holds its own action or was answered: with the stored action of its own case and review, found by the first look, the commit or the second look; with a conflict, only when its tenant used the key elsewhere; denied, only without permission; or with the integrity error; which fields its own action has, `Provenance.ActionsComeFromProposals` says |
| Theorems.RacersAreSettled | packages/governance/repositories.py:171-179 | the second look gives the stored action of the proposal's own case and review, a conflict, or an integrity error only while no row has its tenant and key |
| Provenance.ActionsComeFromProposals | packages/governance/service.py:114-130 | in every state of every run each stored action came from an earlier permitted proposal request: proposer is that principal's subject, id is made of its tenant and key, and tenant, case, review, key, creation time and every argument are the request's own |
| Provenance.ActionsStartPending | packages/governance/repositories.py:152-168 | an action first appears with a proposal commit: pending, undecided, without receipt or reference, and with one message about it that is due at once, unleased and untried |
| Provenance.DecisionsComeFromApprovers | packages/governance/service.py:172-192 | each decided action carries approver, comment, time and verdict of one earlier decision request, whose principal may approve for the action's tenant and is not the subject of the proposal request the action came from |
| Provenance.AuditTrailIsSigned | packages/governance/service.py:193-251 | the whole audit trail of each action, field by field: signed by the proposer, by the approver, and by the subject of an execution request that may execute for the tenant |
| Provenance.ExecutionsCarryTheirTime | packages/governance/service.py:226-237 | receipt and row of an executed action carry the time of a call the supplier really got |
| Provenance.RunSourced | packages/governance/service.py:100-257 | the induction behind these: in every state every action, request in hand, event and receipt has its source among the events so far |
| Answers.ProposeStores | packages/governance/service.py:109-162 | in every reachable state the first permitted proposal of a tenant under a key, its id free, stores exactly this row, this message and this event, and answers with the row |
| Answers.ProposeAnswers | packages/governance/service.py:109-161 | every other proposal changes nothing and is answered by the first of: denied, wrong case, the row of its key when case and review agree, conflict when not, the integrity error |
| Answers.ProposeRaces | packages/governance/repositories.py:140-180 | with a rival stored between look-up and commit: stored beside it, or answered from the rival's row, or the integrity error, and no other change |
| Answers.DecideAnswers | packages/governance/service.py:172-209 | the exact answer and tables of `decide`, check by check and column by column, event included |
| Answers.DecideRaces | packages/governance/service.py:193-209 | with another transition stored between read and compare-and-set: refused with the tables as that left them, unless the row is still pending, and then exactly the transition's columns change |
| Answers.ExecuteAnswers | packages/governance/service.py:219-257 | the exact answer, tables and supplier receipts of `execute`, check by check and column by column, event included |
| Answers.ExecuteRaces | packages/governance/service.py:226-257 | with another transition stored between read and compare-and-set: the supplier's receipt is recorded, or the winner's receipt answered, or a state error, each exactly when the row's status says so |
| Answers.UsedIsFound | packages/governance/repositories.py:223-234 | the look-up finds the row of that tenant and key, and nothing exactly when there is none |
| CrossTenant.ProposalFailsExactlyWhen | packages/governance/service.py:109-162 | in every reachable state, with any rival in between, a proposal ends in the integrity error if and only if the proposer is permitted, the case's tenant has not used the key, and some action holds the id made of the proposer's tenant and the key |
| CrossTenant.RefusedProposalFailsExactlyWhen | packages/governance/repositories.py:169-179 | with any steps of others between commit and second look: refused and not answered exactly when the id was taken at the commit and the case's tenant has not used the key by the second look |
| CrossTenant.OwnTenantProposersNeverFail | packages/governance/service.py:114-162 | while every proposer acts for the case's own tenant, no interleaving and no crash ever answers a request with the integrity error |
| CrossTenant.OwnTenantProposerIsRefused | packages/governance/service.py:115-118 | a run in which an analyst, acting for its own tenant under a key that tenant never used, is refused because an administrator's proposal for another tenant took the id |
| CrossTenant.AdministratorIsRefusedThenAnswered | packages/governance/service.py:115-118 | a run in which an administrator's proposal for another tenant is refused and, once that tenant used the key, the same proposal is answered with that tenant's action |
| Commutation.WritesCommute | packages/outbox/repositories.py:142-165 | the outbox's publication and a decision or execution commit commute, even on one action and when either is refused, and neither decides whether the other is accepted |
| Commutation.InterleavingsAgree | packages/governance/repositories.py:198-221 | however transitions and publications interleave, made from stale reads or not and whichever lose their compare-and-set, the tables end the same |
| Commutation.ExecutionLosesNothing | packages/governance/service.py:231-251 | in every run an execution commit changes status, receipt and its time only: the recorded approver and a reference written since the read both stay |
| Commutation.DecisionLosesNothing | packages/governance/service.py:185-206 | in every run a decision commit changes the four decision columns only, and nothing when it lost the race |
| Leases.HolderKnowsRow | packages/outbox/repositories.py:205-209 | while a worker still holds the lease, its snapshot is the row |
| Leases.AttemptsCountFailures | packages/outbox/repositories.py:186-195 | `attempt_count` equals the number of recorded failures over the whole run, never exceeds the maximum, and a message is dead-lettered exactly when it reaches it; crashes cost nothing |
| Leases.FinishedRowsStay | packages/outbox/repositories.py:144-165 | published and dead-lettered exclude each other, hold no lease and are never left: the row stays as it is |
| Leases.FailureBacksOff | packages/outbox/dispatcher.py:105-114 | the failure number n of the run, counting from zero, delays the row by base times 2 to the n, capped, from the dispatch's own time |
| Leases.AvailabilityNeverMovesBack | packages/outbox/repositories.py:186-195 | whatever the clocks of the workers read, a retry time never moves back |
| Leases.BackoffIsHonoured | packages/outbox/repositories.py:104-124 | after the failure number n no worker claims the message before that dispatch's time plus its delay |
| Leases.ExponentCapIsHarmless | packages/outbox/dispatcher.py:150-156 | within the ranges of the settings the exponent cap of 20 changes no delay, and delays never shrink |
| Leases.DelaysDouble | packages/outbox/dispatcher.py:150-156 | the first delay is the base, each failure doubles it up to the twentieth, the maximum bounds it |
| Leases.LeaseLasts | packages/outbox/repositories.py:120-124 | after a claim and without a release the row stays leased, by a claim no older |
| Leases.TakeoverWaitsForTimeout | packages/outbox/repositories.py:104-115 | two claims of one message with no release between them are at least the lock timeout apart in claim time |
| Leases.LostLeaseStaysLost | packages/outbox/repositories.py:120-124 | a worker that does not hold the lease does not hold it later either, unless it claims again |
| Leases.TakenOverWorkerIsHarmless | packages/outbox/repositories.py:142-146 | a worker whose lease was taken over changes no table with its acknowledgement or failure record: it raises, or finds the row published |
| Leases.SharedWorkerIdBreaksBackoff | packages/outbox/repositories.py:205-209 | from empty tables and for every positive lock timeout and backoff: two live processes under one worker id, where the stalled one passes the lease check with a stale count and moves the retry time back behind the backoff |
| Claims.SelectionIsDetermined | packages/outbox/repositories.py:105-119 | without ties in (available_at, created_at) a claim has no choice: exactly the first `batch_size` due rows in that order, which `ClaimTakesOldestDue` states on the columns |
| Claims.ClaimTakesOldestDue | packages/outbox/repositories.py:104-119 | on the columns: a claim takes due unskipped rows only, none twice, in ascending order of available_at, then created_at, and leaves a due unskipped row out only when the batch is full of rows that are no later |
| RowLocks.ConcurrentClaimsAreDisjoint | packages/outbox/repositories.py:118-124 | claims as transactions that lock what they select until they commit: however they overlap, abort, and mix with other writes, no two open claims hold one message |
| RowLocks.CommitIsClaimStep | packages/outbox/repositories.py:120-124 | when such a claim commits, it does exactly one atomic claim step of the protocol at that moment, losing no update made since its select |
| Claims.LeasedRowIsDueExactlyWhen | packages/outbox/repositories.py:104-115 | after a claim commits, a claimed row can be claimed again exactly from the end of the lock timeout on, and no other row's eligibility changed |
| Store.Earliest | packages/outbox/repositories.py:116-117 | finds a candidate no other candidate precedes; in the order `Claims.ClaimTakesOldestDue` states on the columns |
| Store.SelectDue | packages/outbox/repositories.py:105-121 | returns the first `batch_size` due, unskipped rows in dispatch order, all of them when there are fewer; which rows these are, oldest first, `Claims.ClaimTakesOldestDue` states on the columns |
| Store.SqlOutboxRepository.ClaimBatch | packages/outbox/repositories.py:78-125 | leases exactly the selected rows to the worker, changes no other row, and returns the leased rows in order, oldest first as `Claims.ClaimTakesOldestDue` states |
| Store.SqlOutboxRepository.MarkPublished | packages/outbox/repositories.py:127-165 | writes the reference and the publication together; on a published row nothing; every error leaves the tables alone |
| Store.SqlOutboxRepository.RecordFailure | packages/outbox/repositories.py:167-195 | counts the failure, releases the row and either delays or dead-letters it; without the lease an error and no change |
| Store.MessageRecord.Fail | packages/outbox/repositories.py:187-195 | the failure's in-place writes make the failed row of the transaction |
| Store.ActionRecord.Transition | packages/governance/repositories.py:210-219 | the column writes of a transition leave the reference and the proposal alone |
| Store.SqlActionRepository.GetByIdempotency | packages/governance/repositories.py:223-234 | finds the one action of that tenant and key, or says there is none |
| Store.SqlActionRepository.Commit | packages/governance/repositories.py:152-171 | all three rows, or none exactly when a primary key or unique constraint refuses them |
| Store.SqlActionRepository.CreateProposal | packages/governance/repositories.py:140-180 | looks up, commits, and looks up again when refused, with any proposal another request commits in between |
| Store.SqlActionRepository.SaveTransition | packages/governance/repositories.py:190-221 | compare-and-set on the status, with the audit event, or an error and no change |
| Dispatcher.CountersAddUp | packages/outbox/dispatcher.py:143-148 | when the loop ends, claimed is published plus retried plus dead-lettered |
| Dispatcher.DeliverSettles | packages/outbox/dispatcher.py:103-134 | one delivery touches its own row only; while its lease is held it raises nothing and publishes the row, or releases it with its computed retry time, or dead-letters it |
| Dispatcher.QuietBatchSettles | packages/outbox/dispatcher.py:102-134 | while the worker owns the batch nothing raises and every message ends published, dead-lettered or unlocked with its retry time |
| Dispatcher.ClaimIsOwned | packages/outbox/repositories.py:104-125 | in a reachable state the worker owns every message its claim returns |
| Dispatcher.QuietDispatchSettles | packages/outbox/dispatcher.py:92-148 | in every reachable state a dispatch nobody interferes with raises nothing, counts every claimed message once, and leaves each published, dead-lettered or unlocked with its retry time; which of these, `Deliveries.QuietDispatchPublishes` says |
| Deliveries.QuietDispatchPublishes | packages/outbox/dispatcher.py:92-148 | from every reachable state an undisturbed dispatch publishes a claimed message and sets its action's reference exactly when the action was readable, the start was answered, and the service took name and input or the ARN is unqualified; any other row is counted as failed under its error's name and delayed or dead-lettered; the workflow runs with the action's own input exactly when a start reached the service; the counters are the numbers of these messages |
| Deliveries.GoodDispatchPublishesAll | packages/outbox/dispatcher.py:134-148 | with every read and start answered and an unqualified ARN, published equals claimed and every claimed row is published |
| Deliveries.DeliveryIs | packages/outbox/dispatcher.py:103-134 | one delivery does exactly that to its own row, action and workflow, and nothing to those of any other action's message |
| Deliveries.OthersStaySame | packages/outbox/dispatcher.py:102-134 | a whole batch leaves rows, actions and workflows outside it alone |
| Workflows.RowColumns | packages/outbox/repositories.py:120-195 | in every run each event writes exactly these columns of a message row: both lease columns on a claim; count, error name, lease, and retry time or dead-letter time on a failure; publication, reference text and lease on a publication |
| Workflows.InputsAreTheActions | packages/workflows/approvals.py:51-66 | in every state of every run each execution has the name of one action's id and the input of that action: id, case, tenant, and a status the action went through |
| Workflows.PollReports | infra/iac/lib/production-stack.ts:184-191 | a poll leaves the workflow waiting exactly while the action is pending, succeeds exactly when it is approved or executed, and ends in rejection exactly when it is rejected |
| Workflows.TimeoutsExpire | infra/iac/lib/production-stack.ts:184-205 | a workflow times out only by the service's own time limit, never by what a poll found |
| Dispatcher.RaisedSuffixStays | packages/outbox/dispatcher.py:102-134 | when a dispatch raises, it does so at one message: all before it were delivered, its own acknowledgement or failure record raised and wrote nothing, and its row and every later row of the batch are as the loop found them: leases held, attempts unchanged |
| Dispatcher.DispatchIsRun | packages/outbox/dispatcher.py:102-148 | the delivery loop, uninterrupted, is a run of the protocol with the same tables and executions at the end |
| Dispatcher.DispatchOnceIsRun | packages/outbox/dispatcher.py:92-148 | and so is a whole dispatch, from its claim on |
| Dispatcher.ApprovalWorkflowStartHandler.Handle | packages/outbox/dispatcher.py:32-52 | starts the workflow of the stored action, or fails with the error of the first check that does not hold; exactly when it succeeds, `Deliveries.DeliveryIs` states on the rows |
| Dispatcher.OutboxDispatcher.DeliverBatch | packages/outbox/dispatcher.py:99-148 | the loop over mutable rows ends in the tables, executions and counters that the batch specification says |
| Dispatcher.OutboxDispatcher.DispatchOnce | packages/outbox/dispatcher.py:79-148 | claims the due rows and delivers them, from the tables as the claim left them |
| Approvals.RebuiltReference | packages/workflows/approvals.py:76-83 | the reference rebuilt from the configured ARN is the service's own exactly when that ARN is unqualified, otherwise an error |
| Approvals.RedeliveryIsStable | packages/workflows/approvals.py:49-83 | over any number of starts of an action, whatever its status became and however calls fared, every returned reference is the same and at most one execution was added |
| Approvals.RestartSucceedsExactlyWhen | packages/workflows/approvals.py:67-83 | a start that reaches the service succeeds exactly when the service accepts the name and input or the ARN is unqualified |
| Approvals.DistinctActionsHaveDistinctReferences | packages/workflows/approvals.py:51 | different action ids never share a reference |
| Governance.ExecutionIsRepeatable | packages/governance/service.py:222-223 | once `execute` answered with a receipt, every later permitted call gives the same receipt and changes nothing |
| Governance.ProposalIsRun | packages/governance/service.py:100-162 | an uninterrupted `propose` is a run of the protocol to the same answer and tables |
| Governance.DecisionIsRun | packages/governance/service.py:164-209 | an uninterrupted `decide` is a run of the protocol to the same answer and tables |
| Governance.ExecutionIsRun | packages/governance/service.py:217-257 | an uninterrupted `execute` is a run of the protocol to the same answer, tables and receipts |
| Governance.InMemorySupplierSystem.SetOnboardingDecision | packages/governance/service.py:66-84 | applies a decision once per key and repeats its receipt after that |
| Governance.GovernanceService.Propose | packages/governance/service.py:100-162 | the method over mutable rows gives the specified answer and tables, with any rival proposal in between; `Answers.ProposeStores`, `ProposeAnswers` and `ProposeRaces` state them on the fields |
| Governance.GovernanceService.Decide | packages/governance/service.py:164-209 | the method over mutable rows gives the specified answer and tables, with any transition committed in between; `Answers.DecideAnswers` and `DecideRaces` state them on the fields |
| Governance.GovernanceService.Execute | packages/governance/service.py:217-257 | the method over mutable rows gives the specified answer, tables and receipts, with any transition committed in between; `Answers.ExecuteAnswers` and `ExecuteRaces` state them on the fields |
| SharedKeys.SecondTenantGetsFirstReceipt | packages/governance/service.py:74-76 | a run from empty tables in which two tenants use one key and the second one's execution stores and returns the first one's receipt, for another decision |
| InMemory.RollbackRestoresExactlyWhen | packages/governance/repositories.py:88-96 | a creation whose audit write fails restores the maps exactly when the new id was free |
| InMemory.CreateKeepsConsistentExactlyWhen | packages/governance/repositories.py:83-97 | creating keeps actions and idempotency index consistent exactly when the key is known or the id is free |
| InMemory.AdministratorsActionIsLost | packages/governance/repositories.py:83-97 | two calls from empty maps after which a stored action is gone: removed by the rollback, its retry an internal error, or overwritten |
| InMemory.MemoryAgreesExactlyWhen | packages/governance/repositories.py:75-97 | for new actions the in-memory and the SQL repository give one answer and one state exactly under that condition |
| InMemory.SavingAgreesExactlyWhen | packages/governance/repositories.py:106-129 | both repositories refuse the same transitions with the same error and log alike; an accepted one leaves them in one state exactly when the saved action agrees with the row on every column SQL does not write, the reference among them |
| InMemory.CallsAreAllOrNothing | packages/governance/repositories.py:75-129 | after any sequence of calls and audit failures by proposers of the case's tenant, the maps agree, no stored action is missing, and every call that raises changes nothing |
| InMemory.InMemoryActionRepository.CreateProposal | packages/governance/repositories.py:75-97 | insert, then undo when the audit writer raises |
| InMemory.InMemoryActionRepository.SaveTransition | packages/governance/repositories.py:106-129 | compare-and-set with rollback: on every error the repository is unchanged |
| Splitter.Halts | packages/retrieval/chunking.py:103-116 | the loop ends by the measure of paragraphs left, text left, and whether the buffer must be flushed |
| Splitter.DoomedRunsForever | packages/retrieval/chunking.py:106-110 | with an overlap of `max_chars` less one or two, a section that does not fit one part is never finished |
| Splitter.TerminatesExactlyWhen | packages/retrieval/chunking.py:26-116 | for every accepted configuration: the loop ends if and only if overlap + 3 is at most `max_chars`, or the joined paragraphs fit in one part |
| BoundedSplitting.BoundedParts | packages/retrieval/chunking.py:99-119 | wherever the loop ends: fresh text without carried tails and separators is exactly the paragraphs in order, each later part starts with the last `overlap` characters of the one before, every part is non-empty and within `max_chars`, only the last may carry no fresh text, parts are as full as they can be, and (parts - 1)(max - 2 - overlap) is at most 3 times the text |
| UniqueSplit.SplitIsUnique | packages/retrieval/chunking.py:99-119 | that description leaves no choice: any two such splits of the same paragraphs are equal, part by part and piece by piece |
| ChunkTexts.PartsShowAndOverlap | packages/retrieval/chunking.py:103-119 | a part's text is the last `overlap` characters of the part before (all of it when shorter), then its pieces at computed offsets with an empty line before each, and nothing else |
| ChunkTexts.JoinedLengthCounts | packages/retrieval/chunking.py:106-110 | the length that decides termination counts every paragraph and two characters between each two |
| Chunking.SectionsPartitionLines | packages/retrieval/chunking.py:82-97 | every non-blank line that is no heading is in exactly one section, in order, under its nearest heading |
| Chunking.NearestHeadingIsNearest | packages/retrieval/chunking.py:87-92 | the heading a line gets is the last one before it, with none in between |
| Chunking.SectionHeadingIsNearest | packages/retrieval/chunking.py:87-97 | the heading of a section is the nearest one before each of its lines, none of which is a heading |
| ChunkTexts.NoHeadingYet | packages/retrieval/chunking.py:84-92 | lines before the first heading are under none |
| ChunkTexts.SectionsSpellTheirLines | packages/retrieval/chunking.py:87-97 | a section's text is its lines in order, each at the offset given by the lengths before it plus one for each earlier line, a line break between each two, and nothing else |
| ChunkTexts.WholeDocumentExactlyWhen | packages/retrieval/chunking.py:95-97 | a document is one section of its own text, without a heading, exactly when no line but headings has text |
| Chunking.StripCutsEnds | packages/retrieval/chunking.py:60 | stripping keeps one contiguous piece of the text |
| Chunking.StripRemovesOnlySpace | packages/retrieval/chunking.py:60-62 | stripping drops white space only, leaves stripped text, and never lengthens |
| ChunkTexts.SpacesAreWhiteSpace | packages/retrieval/chunking.py:60 | the characters that are stripped, by code point |
| Chunking.Sections | packages/retrieval/chunking.py:82-97 | the loop over lines yields the text of exactly those line ranges, or the whole document when there are none; `ChunkTexts.SectionsSpellTheirLines` says what that text is |
| Chunking.AppendParts | packages/retrieval/chunking.py:59-79 | appends one section's non-blank parts, stripped, numbered on from the chunks before |
| Chunking.ChunkDocument | packages/retrieval/chunking.py:31-80 | positions are 0 to n - 1, every chunk is non-empty, stripped and within `max_chars`, and the chunks are the stripped non-blank parts of a lossless split of every section, in order; `ChunkTexts.ChunksAreSpokenParts` and `ChunkTexts.PartsShowAndOverlap` say which text each one has |
| ChunkTexts.ChunksAreSpokenParts | packages/retrieval/chunking.py:57-79 | there is one chunk for each part that is not blank and no other: at the number of such parts before it, under its section's heading, with the part's text cut at its blank ends |
| Chunking.ChunkingEndsExactlyWhen | packages/retrieval/chunking.py:58-59 | what the chunking method asks of a document is exactly that the splitting loop ends on each of its sections |
| ReviewGraph.InvokeKeepsGraphOk | packages/graphs/supplier_review.py:159-241 | however a graph call ends, the findings are all three reports or none, and an end is either a cancellation the analyst chose or a recommendation no gate stood against; whose findings and decision these are, `ReviewOrigins.FirstRun` and `ResumedRun` say |
| ReviewGraph.InvokeEndsWhere | packages/graphs/supplier_review.py:133-157 | a first run that returns paused exactly when gated and never cancels; a resumed run that returns ended as the analyst decided; without failures every call returns |
| ReviewOrigins.FirstRun | packages/graphs/supplier_review.py:94-119 | exactly what a first call leaves: the financial, legal and security findings of this call once all three reported, the pause when gated, otherwise the decision the model made in this call |
| ReviewOrigins.ResumedRun | packages/graphs/supplier_review.py:140-157 | exactly what a resumed call leaves: the findings as they were, a cancellation on a rejection, on a confirmation the decision the model made in this call |
| ReviewGraph.SupplierReviewWorkflow.Start | packages/graphs/supplier_review.py:86-119 | starts one thread per execution id, or returns the existing one; what the first call leaves, `ReviewOrigins.FirstRun` says |
| ReviewGraph.SupplierReviewWorkflow.Resume | packages/graphs/supplier_review.py:133-157 | resumes a waiting thread; an ended one is returned as it is, any other refused; what a resumed call leaves, `ReviewOrigins.ResumedRun` says |
| ReviewApi.Api.PersistCompletedReview | apps/api/main.py:102-126 | stores the review, the case status and the event together, once |
| ReviewApi.Api.StartReviewExecution | apps/api/main.py:231-316 | the handler over mutable state makes the specified answer and system state, which `ReviewOrigins.RequestsAreAnswered` and `FirstStartRecords` state exactly |
| ReviewApi.Api.ResumeReviewExecution | apps/api/main.py:341-392 | the handler over mutable state makes the specified answer and system state, which `ReviewOrigins.RequestsAreAnswered` and `ResumeRecords` state exactly |
| ReviewApi.InMemoryCaseRepository.SaveReview | packages/persistence/repositories.py:109-117 | keeps the first review stored under an id |
| ReviewRuns.OtherCasesStay | packages/graphs/supplier_review.py:331-342 | a request changes nothing about any other case: status, events, executions and reviews, even when it names another case's execution |
| ReviewRuns.RunKeepsInv | apps/api/main.py:225-392 | the case invariant after any sequence of requests and failures |
| ReviewRuns.AuditedAtMostOnce | apps/api/main.py:246-316 | whatever fails: awaiting-input, resumed, completed and cancelled are audited at most once, the last two exclude each other, and started once for the execution plus once for each start lost before its first checkpoint |
| ReviewRuns.StatusFollowsExecution | apps/api/main.py:290-306 | the case status is determined by the audit trail and the execution, and a stored review is the result of its completed execution |
| ReviewRuns.SettledStep | packages/graphs/supplier_review.py:140-149 | one request leaves a settled case alone, and a permitted start answers with its execution |
| ReviewRuns.SettledStays | apps/api/main.py:351-392 | recorded ends, broken-off executions and cancellations that were never recorded absorb: no further requests change the case, its execution, review or audit trail |
| ReviewRuns.NextRequestRecords | apps/api/main.py:290-306 | an end that a failed request left unrecorded is recorded by the next permitted request or never; a cancellation if and only if no start of the execution had failed |
| ReviewRuns.CancellationCanBeLost | apps/api/main.py:294-306 | three concrete requests after which a cancelled execution stays unrecorded and its case failed, whatever is requested later |
| ReviewRuns.CalmHistory | apps/api/main.py:231-392 | when nothing fails, the execution's status gives the case status, the stored review and the exact count of every event, however requests repeat |
| ReviewOrigins.ReviewsKeepTheirOrigin | apps/api/main.py:231-392 | over any requests, with any keys and failures: exactly one request started each execution and fixed its gate and findings, and exactly one ended it if it ended: an answer of the analyst when gated, otherwise the start itself |
| ReviewOrigins.ReviewsCarryTheirRequests | packages/graphs/supplier_review.py:223-241 | each stored review and each completed answer carries the findings of the one request that started the execution and the decision made in the one that completed it, for the case and key of the first |
| ReviewOrigins.RequestsAreAnswered | apps/api/main.py:79-100 | the exact answer to any request: not found, forbidden, conflict, server error or the execution, each exactly when the case, the roles, the checkpoint and this call's failures say so |
| ReviewOrigins.FirstStartRecords | apps/api/main.py:246-316 | a first start appends started, then failed, awaiting-input or completed, signed by the workflow, and sets status and review accordingly |
| ReviewOrigins.RepeatedStartRecords | apps/api/main.py:290-306 | a repeated start records a completion without review, or a cancellation of a case in review, and otherwise changes nothing |
| ReviewOrigins.ResumeRecords | apps/api/main.py:351-392 | an answer that was taken appends resumed, signed by the analyst, and its end; one whose call failed appends nothing |
| ReviewOrigins.RepeatedResumeRecords | apps/api/main.py:371-392 | a resume of an execution that does not wait appends no answer: it records an unrecorded end or changes nothing |

## Left out

- Identifiers: `uuid5` is an injective constructor and `uuid4` never repeats; chunk ids and token counts are not modelled.
- Clocks are integers, delays whole seconds; time zones, JSON encoding and the pydantic models are not modelled.
- `SKIP LOCKED` is any set of skipped rows, sessions are atomic steps, and row locks are modelled for claims only (`RowLocks`); foreign keys and cascades are not modelled.
- The class methods run alone, apart from the rival proposal or interleaved transition they take as a parameter; every other interleaving is in `Protocol`.
- One process per worker id and at most one dispatch at a time in it.
- The in-memory action repository's unlocked `get`: its calls are sequential here, and the direct workflow start it makes before storing (packages/governance/service.py:131-133) is not modelled.
- The external reference of a receipt, the tool name and the audit payload texts.
- `complete_callback` and the local approval workflow.
- Step Functions beyond starts, polling and expiry: executions are never purged and their history is not modelled.
- Crash safety of `persist_completed_review`: its three writes are one step of an uninterrupted request.
- The status of a case with several review executions, and the review endpoint without checkpoints (apps/api/main.py:185-223): a cancelled execution replayed while another review runs resets the case again.
- Exactly-once model calls: a crash inside a node may repeat them.
- LangGraph's scheduler, checkpoint format and model prompts; of a parallel step only the join is modelled, and reports finish in a fixed order.
- The RuntimeError for a completed execution without a result: the graph invariant rules it out, so the handlers have no such branch.
- Chunking.ChunkDocument: asks that the splitting loop ends on every section, since the source never returns otherwise.
- Chunking.Sections: line splitting, the heading pattern and the paragraph pattern are inputs.
- Model providers, retrieval, embeddings, MCP transport, authentication, settings, secrets and infrastructure other than the status routing.
