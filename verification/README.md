# Payman, verified

Payman is a small billing service: invoices are drafted, edited, finalized and paid through
a payment provider, a background worker reconciles payments whose outcome was not seen, a
second worker delivers webhooks, and a Redis script limits the request rate. Its README
promises exactly-once creation of payment attempts and at most one successful payment per
invoice. This project models the service in Dafny and proves those promises, and the exact
conditions under which they hold, for any number of clients, keys and invoices and for every
interleaving of their requests.

`dafny verify dfyconfig.toml` checks everything.

## How the program is modelled

**Payment protocol** (`protocol.dfy`). The state `World` holds the clock, the tables
(invoices with their line items, attempts, idempotency records), the provider's outcome
store, and where every process is: each pay request, each edit, finalize or void request,
and the reconciliation worker. A `Step` is one database transaction, one charge call, one
service of a charge call by the provider, one reply, one poll, or the passing of time;
`Next(w, s, w')` says what it does, and a `Run` is any sequence of steps from the empty
system. `Bookkeeping.NextIsDeterministic` shows that a step fixes the whole new state.

- A transaction is one atomic step. One that fails, on a guard, on the range of an `INT`
  column, on a primary key, or on the unique index over (key, business, invoice), changes no
  table. `PayAbort`, `OpAbort`, `TickSkip` and `TickAbort` are the database errors and
  crashes that may happen anywhere.
- The gaps that the program leaves open are left open: between the lookup and the first
  transaction of a pay request, around the charge call, between the SELECT and the UPDATE of
  finalize and void, between the version check of an edit (which commits by itself) and the
  edit's transaction, between the worker's query, its poll and its write, and between the
  expiry query and each expiry transaction. The edit transaction is one step; that it is
  atomic is an assumption about the isolation of its statements.
- The provider may serve a charge call at any time after it was made, or never; the client
  sees a timeout, a transport error, an unusable response, or the stored outcome. The reply
  to `tok_timeout`, which the mock sends after 30 seconds, loses against the client's
  5-second timeout.
- The worker sleeps for a minute after each tick, also after one that failed; a restart of
  the process (`WorkerRestart`) may happen at any time and begins a tick at once. Requests
  that die with the process do so by `PayAbort` and `OpAbort`.
- The service is built with `cargo build --release`, so 64-bit arithmetic wraps; the model
  writes the wrap-around out.
- `calls`, `served`, `origin`, `lastClaim` and the `misses` of an attempt are history
  variables: no step depends on them. They let theorems speak about all charge calls made so
  far, the request that created an attempt, the attempt that last moved an invoice to
  Processing, and the times of the worker's not-found answers.

**Requests end to end** (`requests.dfy`, `answers.dfy`). What a client's request comes to is
stated from the request to its end, field by field and without the definitions of the steps:
which edit is applied, where a void and a finalize leave the invoice, when a lookup replays,
what a payer is told, which card is charged, and which error a refusal is.

**The service as it runs** (`payment_service.dfy`, `psp.dfy`). `Service` holds the tables in
fields and changes them in place, one method per transaction; each method's postcondition is
its protocol step, so everything proved about runs holds of it. `Tick` is the body of the
worker's loop: it returns the run it performed, and its postcondition says what it does to
every attempt (`ticks.dfy`).

**Ownership.** The final writes of a payment check neither the attempt's status nor, for the
request's own writes and the expiry, the invoice's state, and the SELECT of finalize does
not look at the version. At most one successful payment is therefore not true of every run.
`Ownership.SafeWrite` is the condition on the rows just before a write under which the write
does no harm, `OwnershipIffSafe` proves that it is exactly the condition, and two hypotheses
about a run imply it:

- single resolution: a final write lands on an attempt that is still pending, or repeats the
  success that is already recorded;
- honest versions: a finalize never presents a version that does not exist yet.

`Witnesses` has a concrete run for each of them in which a guarantee fails without it, and
one in which, under both, an unseen success lets a customer be charged twice;
`ChargedAtMostOnce` says exactly when that happens. Idempotency, truth of the answers, replay,
version consumption, agreement with the provider, absence of stranded invoices, bounded
resolution, frozen bills and the retry schedule need neither hypothesis.

**Rate limiter** (`rate_limiter.dfy`, `admission.dfy`). The script over a pruned, expiring
sorted set; an unbounded history of admissions; the proof that nobody can tell them apart;
and the proof that the resulting policy is optimal.

**Backoff** (`retry_schedule.dfy`, `retries.dfy`, `tick_pacing.dfy`). The documented pauses hold
up to retry 62; from then on the 64-bit power is gone and the computed pause is zero, so
what spaces the polls of an attempt is the sleep between ticks. The bound that follows, 544
answers in 24 hours where the schedule has room for 94, is reached by a run
(`retry_witness.dfy`).

**Webhooks** (`webhooks.dfy`) and **totals** (`money.dfy`, `ledger.dfy`) complete the model.

Where the code and the API document disagree, the model follows the code: only drafts can be
voided (the document also allows open invoices); finalize and void need a version in their
body (the document says they have none); finalizing a missing invoice is a database error
(the document says 404) and paying a missing or unpayable one is a conflict (404 and 422);
failed webhooks wait 1, 2, 4 and 8 minutes (the document says 2, 4, 8 and 16); a failed
payment moves its invoice from Processing to Open, which the declared state table forbids.

## Model

| member | source | states |
|---|---|---|
| `Guarantees.SoundRun` | src/services/payments.rs:42-282 | every state of every run satisfies all unconditional invariants together: attempts, records, requests and charge calls in step, no contradiction of the provider, no stranded invoice, versions spent once, balanced bills, retries on time |
| `Guarantees.OwnershipIffSafe` | src/services/payments.rs:113-222 | a run keeps one owner per invoice in all its states and makes only the moves of the state machine if and only if each final write and each committing finalize or void in it meets a condition on the rows it finds |
| `Guarantees.DisciplinedRunsAreSafe` | src/services/invoices.rs:398-443 | single resolution and honest versions together imply that condition at every step of a run |
| `Guarantees.AtMostOneSuccess` | README.MD:24-24 | in a safe run an invoice has at most one attempt that is pending or succeeded; it is Processing exactly when it has one pending and Paid exactly when it has one succeeded attempt |
| `Guarantees.TerminalStates` | src/models/invoice.rs:19-33 | in a safe run an invoice that is Paid or Void stays so |
| `Progress.NeverBackToDraft` | src/services/invoices.rs:223-229 | in every run an invoice that has left Draft never returns to it |
| `Guarantees.NeverUncollectible` | src/models/invoice.rs:27-30 | in every run no invoice is ever Uncollectible |
| `Guarantees.StatusesMatchOutcomes` | src/workers/payment_status_worker.rs:137-214 | in every run a succeeded attempt has a succeeded outcome at the provider with the same reference, a failed one that did not expire has a failed outcome with the same code, and every stored outcome belongs to an attempt |
| `Guarantees.AnswersAreTrue` | src/services/payments.rs:35-40 | in every run whatever a client is told about an attempt, first or in a replay, is true of the provider: a success is a stored success with its reference, a failure a stored failure with its code, never an expiry |
| `Guarantees.ChargedAtMostOnce` | src/bin/psp.rs:28-89 | in a safe run an invoice is charged once for every expired attempt with a stored success and at most once more; so with no such attempt at most once, and at most once if and only if none of them stands beside another charge |
| `Replay.RecordsMatchAttempts` | src/services/payments.rs:67-107 | in every run idempotency records and attempts are in bijection, and paired ones belong to the same invoice |
| `Replay.OneAttemptAndOneCallPerKey` | README.MD:23-23 | over a whole run at most one request per (key, business, invoice) creates an attempt, and no two charge calls belong to the same key |
| `Replay.DuplicateIsRejected` | migrations/20260607085337_column_to_idempotency_changes.sql:4-4 | a request that got past the lookup with a key that was ever recorded is rejected and its transaction leaves invoices, attempts and records as they were, the version check included |
| `Replay.ReplayReturnsTheResponse` | src/services/payments.rs:22-40 | once the request that created the attempt has returned, every replay of its key within 24 hours returns that very response, whatever happened in between |
| `Answers.LookupReplaysIffYoung` | src/services/payments.rs:22-40 | a fresh request is answered from its key's record if and only if that is younger than 24 hours |
| `Answers.ClaimCommits` | src/services/payments.rs:42-107 | the first transaction commits exactly for an Open invoice at the presented version with a fresh attempt and an unrecorded key, and then leaves a pending attempt with the request's invoice and card, its record, and the invoice in Processing; otherwise it is a conflict or a database error and changes nothing |
| `Answers.SendCalls` | src/services/payments.rs:109-110 | the charge call is for the request's own attempt and card |
| `Answers.ReplyIsRead` | src/workers/payment.rs:19-44 | which result each kind of reply gives, with its reference or code and the defaults for missing ones |
| `Answers.ReplyGivesOutcome` | src/workers/payment.rs:24-40 | in every run a readable reply gives the request the stored outcome and any other reply gives it none |
| `Answers.ResultIsTold` | src/services/payments.rs:112-284 | in every run the client is told, and the record keeps, what the attempt's row says after the last step: a success with its reference, a failure with its code, and the pending snapshot exactly for a timeout or network error; only a version at its maximum makes the step fail, and then nothing changes |
| `Answers.OnlyResolveCompletes` | src/services/payments.rs:112-284 | no other step completes a request |
| `Answers.OutcomesSuitCards` | src/bin/psp.rs:32-88 | in every run each stored outcome suits the card of its attempt, and each served call of a known card is stored |
| `Answers.OnlyChargingCardsPay` | src/bin/psp.rs:44-64 | in every run only attempts with one of the two charging tokens succeed or are charged, and only those with a declining one are declined |
| `Requests.VoidEndsVoid` | src/services/invoices.rs:460-513 | over whole runs a void that succeeds was asked for a draft of its owner at the presented version and leaves that invoice, and no other, Void at the next version |
| `Requests.FinalizeEndsOpen` | src/services/invoices.rs:390-445 | a finalize that succeeds was asked for a draft of its owner and leaves that invoice, and no other, Open at the version after the presented one |
| `Requests.VoidAlone` | src/services/invoices.rs:468-509 | without interference a void succeeds exactly on a draft of its owner at the presented version below the maximum |
| `Requests.FinalizeAlone` | src/services/invoices.rs:398-443 | without interference a finalize succeeds exactly there, too |
| `Requests.VoidSelected` | src/services/invoices.rs:468-489 | which voids pass the SELECT, and with which error the others are refused |
| `Requests.FinalizeSelected` | src/services/invoices.rs:398-420 | which finalizes pass the SELECT, whatever version they present, and with which error the others are refused |
| `Requests.Updated` | src/services/invoices.rs:491-509 | the UPDATE goes through exactly on the presented version of the owner's invoice, otherwise it is a conflict, or a database error at the maximum |
| `Requests.EditBegun` | src/services/invoices.rs:164-205 | which edits pass validation and version check, what they hand on, and with which error the others are refused |
| `Requests.EditEnds` | src/services/invoices.rs:207-332 | over whole runs the edit transaction applies the edit its client sent to the invoice it named, and goes through exactly for a draft of the owner, a date that is not past and a positive total |
| `Requests.EditApplied` | src/services/invoices.rs:210-265 | with which error an edit transaction is refused |
| `Requests.CreateRefused` | src/services/invoices.rs:22-52 | with which error a create is refused |
| `Replay.ReplayReturnsTheSnapshot` | src/services/payments.rs:87-107 | before that, or if that request died, a replay returns the pending snapshot of the same attempt, even if the worker has settled it |
| `Progress.VersionConsumedOnce` | src/services/invoices.rs:185-205 | in every run a version of an invoice admits at most one of all edits, finalizes, voids and pays |
| `Progress.OneAttemptPerVersion` | src/services/payments.rs:44-65 | in every run at most one of the pays that present one version of an invoice creates an attempt, and an invoice has fewer attempts than its version |
| `Progress.NoInvoiceStranded` | src/workers/payment_status_worker.rs:60-88 | in every run a Processing invoice has a pending attempt, the one that last moved it to Processing |
| `Progress.TickResolvesOverdue` | src/workers/payment_status_worker.rs:26-92 | after a tick whose expiry query was at t has worked off its list, with any steps of other processes in between, nothing created at or before t minus 24 hours is pending and no invoice is in a Processing period that such an attempt began, then or ever after |
| `Progress.BillFrozen` | src/services/invoices.rs:207-332 | in every run items, total and due date never change after an invoice has left Draft |
| `Progress.TotalsConserved` | src/services/invoices.rs:32-112 | every reachable invoice has at least one item, positive items and a positive total, and the total equals the sum of the items exactly when that sum fits in 64 bits |
| `Progress.RetriesSpread` | src/workers/payment_status_worker.rs:15-24 | in every run answer k for an attempt that the provider does not know comes at least 15 + 16(k - 4) minutes after answer 0 for k from 4 to 63, and at least 959 + (k - 63) minutes less one for every restart of the process for larger k |
| `Progress.NotFoundAnswersBounded` | src/workers/payment_status_worker.rs:26-47 | in every run an attempt gets at most 544 not-found answers, and one more for every restart |
| `Pacing.PacedStep` | src/workers/payment_status_worker.rs:15-35 | every step keeps answers spaced, the sleeping worker a minute away from the last one, and selected attempts within their 24 hours |
| `Ownership.StepKeepsOwnershipIffSafe` | src/workers/payment_status_worker.rs:60-88 | one step from an owned state keeps ownership and makes legal moves if and only if it is safe |
| `Ownership.HypothesesMakeSafe` | src/services/invoices.rs:422-443 | a step under single resolution is safe where the version guards of finalize and void are intact |
| `Ownership.GuardedStep` | src/services/invoices.rs:491-509 | under honest versions, between its SELECT and its UPDATE a finalize or void either holds a stale version or its invoice is still a draft |
| `Ownership.MovesAndTheTable` | src/models/invoice.rs:19-33 | the only move of the running system that the declared table forbids is Processing to Open, and the guard of finalize and void lets exactly drafts through; the other entries of the table |
| `Witnesses.LateFailureLetsTwoAttemptsSucceed` | src/services/payments.rs:203-215 | a run with honest versions in which a late failure write reopens an invoice that a newer attempt owns, two attempts succeed and the customer is charged twice |
| `Witnesses.FutureVersionBreaksOwnership` | src/services/invoices.rs:398-411 | a run in which a finalize with a version from the future reopens an invoice under a pending attempt |
| `Witnesses.ExpiryAllowsSecondCharge` | src/bin/psp.rs:66-83 | a run under both hypotheses in which a charge succeeds unseen, its attempt expires and the customer is charged again |
| `Agreement.AgreesStep` | src/services/payments.rs:109-222 | no step makes a request, the worker or an attempt contradict the stored outcome |
| `Agreement.HonestStep` | src/services/payments.rs:153-171 | every step keeps all answers given so far true, and gives true ones, because a record holds only what its request was told |
| `Agreement.StoreGrowsStep` | src/bin/psp.rs:40-40 | a stored outcome is never overwritten, because no attempt is charged twice |
| `Agreement.CallPspTellsTheTruth` | src/workers/payment.rs:19-44 | reading a complete stored outcome gives a result that reports it, with its reference or code |
| `Bookkeeping.CoreStep` | src/services/payments.rs:67-107 | every step keeps the bijection of attempts, originating requests and idempotency records, and each record holds what its request last stored |
| `Bookkeeping.TrafficStep` | src/services/payments.rs:109-110 | every step keeps that charge calls are for distinct committed attempts and that an unserved call has no stored outcome |
| `Bookkeeping.NextIsDeterministic` | src/services/payments.rs:13-285 | a step determines the whole state after it |
| `Effects.FinalWriteEffect` | src/services/payments.rs:117-151 | every final write, whoever makes it, gives one attempt its status and its invoice the state due to the kind of write, and touches no other attempt or invoice |
| `Effects.FinalWriteDetails` | src/services/payments.rs:203-215 | the request's final writes raise the version by one and the worker's leave it, and a success leaves the failure code |
| `Effects.ClaimHasEffect` | src/services/payments.rs:45-85 | a committing first transaction moves one Open invoice to Processing at the next version and adds one pending attempt for it |
| `Resolution.NotStrandedStep` | src/services/payments.rs:187-222 | every step that settles an attempt leaves its invoice outside Processing |
| `Resolution.CoversStep` | src/workers/payment_status_worker.rs:50-89 | while the worker expires attempts every pending attempt at or before its cutoff is still on its list, whatever others do |
| `Resolution.CollectibleStep` | src/models/invoice.rs:27-30 | no step makes an invoice Uncollectible |
| `Versions.VersionsGrowStep` | migrations/20260616114251_add_version_to_invoice.sql:2-2 | no step lowers a version |
| `Versions.CasConsumes` | src/services/invoices.rs:422-443 | an admitted edit, finalize, void or pay found the version it presented and left the next one |
| `Ledger.AccountsStep` | src/services/invoices.rs:253-306 | every step keeps the stored total equal to the fold over the stored positive items |
| `Ledger.FrozenStep` | src/services/invoices.rs:223-229 | no step changes the bill of an invoice outside Draft |
| `Ledger.CreateStoresOrLeavesNothing` | src/services/invoices.rs:17-120 | a refused create leaves no invoice; a create succeeds exactly when the customer is known, the machine total is positive, the date is not past and every item is positive, and then adds one draft with the requested items and date at version 1, whose total is the sum exactly when that fits, and changes nothing else |
| `Ledger.EditStoresOrLeavesNothing` | src/services/invoices.rs:207-332 | a refused edit transaction changes nothing, and one that goes through stores what was given with its exact total where that fits, keeps what was not, and leaves state, version and every other invoice alone |
| `Money.FoldIsWrappedSum` | src/services/invoices.rs:33-37 | the 64-bit fold ends at the truncated mathematical sum however often it wraps |
| `Money.NoIntermediateOverflow` | src/services/invoices.rs:255-258 | when the sum of positive items fits, no product and no prefix of the fold overflows |
| `Money.TotalExactIffFits` | src/services/invoices.rs:171-182 | for positive items the machine total is the sum if and only if the sum fits in 64 bits |
| `Money.OverflowWitness` | src/services/invoices.rs:39-43 | an item list that passes every check with a wrong positive total |
| `RetrySchedule.BackoffExact` | src/workers/payment_status_worker.rs:116-126 | the computed pause is min(2^k, 16) minutes if and only if k is at most 62, and zero for every larger k |
| `RetrySchedule.ScheduleFits94` | src/workers/payment_status_worker.rs:116-117 | the schedule of the comment, kept for ever, would fit at most 94 not-found answers into 24 hours |
| `RetryWitness.BoundIsReached` | src/workers/payment_status_worker.rs:117-117 | a run without restarts in which a network-error attempt gets 544 not-found answers within its 24 hours: the program's bound is exact, and the documented 94 does not hold |
| `Retries.OnTimeStep` | src/workers/payment_status_worker.rs:115-130 | every step keeps the retry columns of each attempt in line with the history of its not-found answers, and the worker's snapshot current |
| `Retries.NotFoundAnswersSpread` | src/workers/payment_status_worker.rs:117-126 | retry columns in line with the history imply the spacing of the not-found answers |
| `Commute.ResultsAgree` | src/workers/payment_status_worker.rs:137-141 | whenever in a run a request holds a final result for an attempt, and whenever in that run, before or after, the worker holds the provider's answer for it, the request's reports the worker's |
| `Commute.SuccessWritesSettle` | src/services/payments.rs:113-171 | in a safe run an attempt that has succeeded stays so with the same reference and a Paid invoice, whatever steps of the request, the worker and others follow |
| `Commute.SuccessVersion` | src/services/payments.rs:134-144 | in a safe run a succeeded attempt has no failure code and its invoice has the version its request presented, plus one for the claim, plus one if the request has recorded its success, and nothing for the worker's writes |
| `Commute.SuccessWritesCommute` | src/workers/payment_status_worker.rs:142-170 | any two safe runs that charge a request's attempt with the same outcome and in which the request has recorded it end with the same status, reference, failure code, Paid invoice and version, in whatever order and however often the worker wrote |
| `Commute.VersionsKeptStep` | src/services/payments.rs:45-65 | every safe step keeps the version of a live attempt's invoice at the presented one plus the writes of its own request |
| `Psp.MockPsp.Charge` | src/bin/psp.rs:28-89 | a charge stores a success for the two tokens that charge, a failure with its own code for the two that decline, under its attempt and nothing else, and nothing for the network-error and unknown tokens |
| `Psp.MockPsp.GetOutcome` | src/bin/psp.rs:91-102 | exactly the stored outcomes are found |
| `PaymentService.Service.constructor` | src/services/payments.rs:13-20 | an empty service is the initial state of the protocol |
| `PaymentService.Service.CreateInvoice` | src/services/invoices.rs:17-120 | the item loop with its refusals is the Create step: all items or no invoice |
| `PaymentService.Service.BeginEdit` | src/services/invoices.rs:164-205 | validation and version check of edit are the EditCas step |
| `PaymentService.Service.ApplyEdit` | src/services/invoices.rs:207-332 | the edit transaction is the EditApply step; refusals after the due date was written roll it back |
| `PaymentService.Service.BeginFinalize` | src/services/invoices.rs:398-420 | the SELECT of finalize is its step, without a version check |
| `PaymentService.Service.BeginVoid` | src/services/invoices.rs:468-489 | the SELECT of void is its step, with the version and the test for Open |
| `PaymentService.Service.CommitUpdate` | src/services/invoices.rs:422-445 | the guarded UPDATE of finalize and void is the OpUpdate step |
| `PaymentService.Service.PayLookup` | src/services/payments.rs:21-40 | the duplicate lookup is its step |
| `PaymentService.Service.PayClaim` | src/services/payments.rs:42-107 | the first transaction is its step, all or nothing |
| `PaymentService.Service.PaySend` | src/services/payments.rs:109-110 | the charge call is made after the commit |
| `PaymentService.Service.ServeCharge` | src/bin/psp.rs:28-89 | the provider's handler is the PspServe step |
| `PaymentService.Service.PayReply` | src/workers/payment.rs:7-44 | what the client makes of a reply is the PayReply step |
| `PaymentService.Service.PayResolve` | src/services/payments.rs:112-282 | the three resolution branches are the PayResolve step |
| `PaymentService.Service.SelectDue` | src/workers/payment_status_worker.rs:27-37 | the reconciliation query returns each due attempt once |
| `PaymentService.Service.Poll` | src/workers/payment_status_worker.rs:100-114 | one status request for the head of the list |
| `PaymentService.Service.WriteAnswer` | src/workers/payment_status_worker.rs:115-214 | the writes after an answer are the TickWrite step |
| `PaymentService.Service.SelectOverdue` | src/workers/payment_status_worker.rs:50-58 | the expiry query returns each overdue attempt once |
| `PaymentService.Service.ExpireHead` | src/workers/payment_status_worker.rs:60-89 | one expiry transaction is the ExpireWrite step |
| `PaymentService.Service.SettleFound` | src/workers/payment_status_worker.rs:139-214 | the transaction for a found outcome writes the attempt always and the invoice only from Processing |
| `PaymentService.Service.ReconcileAll` | src/workers/payment_status_worker.rs:41-47 | the reconciliation loop is a run of the protocol that keeps soundness and ownership, and does to the attempts exactly the visits on its list, in order |
| `PaymentService.Service.ExpireAll` | src/workers/payment_status_worker.rs:60-89 | the expiry loop is such a run, and expires exactly the attempts on its list |
| `PaymentService.Service.Tick` | src/workers/payment_status_worker.rs:26-92 | a whole tick is a run of the protocol; from a sound state each due attempt whose request to the provider gets through has its stored outcome or one more not-found answer, each overdue one has expired, no other has changed and nothing 24 hours old is pending; from an owned state the invoices of attempts with a stored outcome are Paid or Open as it says |
| `Ticks.LoopsMakeTick` | src/workers/payment_status_worker.rs:41-89 | the two loops over duplicate-free lists do to each attempt what a tick should, in whatever order the rows come |
| `Ticks.SettledInvoice` | src/workers/payment_status_worker.rs:142-212 | after a tick from an owned state the invoice of a due attempt with a stored failure is Open and with a stored success Paid |
| `Ticks.EveryPendingHasItsTurn` | src/workers/payment_status_worker.rs:27-35 | a pending attempt is due, waits for its next retry, or is overdue, and turns overdue at exactly 24 hours |
| `Ticks.PollIsTrue` | src/workers/payment_status_worker.rs:112-138 | the worker holds an answer only if it is what the provider stores then |
| `Ticks.AnswerIsWritten` | src/workers/payment_status_worker.rs:115-214 | in every sound state the worker writes a stored outcome with its reference or code, the invoice only from Processing, or one more retry after 1, 2, 4, 8, then 16 minutes |
| `Ticks.ExpiryIsWritten` | src/workers/payment_status_worker.rs:60-88 | in every sound state an expiry fails the attempt as a reconciliation timeout and opens its invoice, and touches nothing else of either |
| `RateLimiter.KeptCounts` | src/middleware/rate_limiter.rs:68-68 | with unique members the cardinality of the sorted set is the number of recent admissions |
| `RateLimiter.PruneKept` | src/middleware/rate_limiter.rs:65-66 | pruning at one cutoff what another kept leaves what the later of the two keeps |
| `RateLimiter.ScriptRefinesHistory` | src/middleware/rate_limiter.rs:57-79 | the script answers as the unbounded history would, whether or not the key has lapsed, and keeps representing it, even if the clock steps back by up to the second that the script adds to the expiry |
| `RateLimiter.Execute` | src/middleware/rate_limiter.rs:65-78 | the commands of the script on one key are the Script function |
| `RateLimiter.Limiter.IsAllowed` | src/middleware/rate_limiter.rs:81-108 | a request is allowed exactly when fewer than 100 admissions of its key lie in the window of the latest time, or Redis fails; the admission is counted exactly when the script was executed and admits; only its own key changes |
| `Admission.ScriptIsGreedy` | src/middleware/rate_limiter.rs:57-79 | over any arrivals in order every decision of the script is the decision over the unbounded history |
| `Admission.GreedyIsFeasible` | src/middleware/rate_limiter.rs:54-55 | that policy lets at most 100 requests into every window of 60 seconds, wherever it ends |
| `Admission.ScriptIsFeasible` | src/middleware/rate_limiter.rs:54-79 | so does the script |
| `Admission.GreedyAdmitsMost` | src/middleware/rate_limiter.rs:68-78 | no other choice with that property has admitted more requests after any prefix of the arrivals |
| `Admission.GreedyAdmitsEarliest` | src/middleware/rate_limiter.rs:68-78 | the k-th admission is never later than the k-th of any such choice |
| `Webhooks.PostKeepsRow` | src/workers/webhook.rs:101-133 | a post keeps a row's count, status and the spacing of its posts in line |
| `Webhooks.AbandonedSpan` | src/workers/webhook.rs:117-127 | five failed posts span at least 15 minutes |
| `Webhooks.PassProgress` | src/workers/webhook_worker.rs:36-54 | a pass keeps every row in order, makes one post per selected row and lowers the sum of posts left by at least as many |
| `Webhooks.AtMostFivePostsEach` | src/workers/webhook.rs:116-133 | in every run N deliveries cause at most 5N posts |
| `Webhooks.RowsInEveryRun` | src/workers/webhook.rs:96-133 | in every run a row is delivered if and only if the last of the posts that passes sent to it succeeded and all before failed, given up if and only if five failed, pending if and only if at most four were made and failed; a pending row is due from its creation or exactly 1, 2, 4 or 8 minutes after the write of its last failed post; five failures took at least 15 minutes |
| `Webhooks.HistoryIsPosts` | src/workers/webhook_worker.rs:36-54 | the post history of a row is exactly what the passes sent to it, in order |
| `Webhooks.Outbox.Dispatch` | src/workers/webhook.rs:11-60 | one new due row for each active endpoint |
| `Webhooks.Outbox.Deliver` | src/workers/webhook.rs:96-133 | one row changes as its post went: delivered on success, otherwise waiting again, or given up at the fifth failure |
| `Webhooks.Outbox.SelectDue` | src/workers/webhook_worker.rs:18-34 | at most ten distinct due rows, and all of them when there are fewer |
| `Webhooks.Outbox.ProcessPending` | src/workers/webhook_worker.rs:16-57 | a pass selects, posts each selected row once, and makes progress |

## Left out

- HTTP routing, handlers, JSON, configuration, tracing and shutdown: encoding an attempt and decoding it again is taken to be the identity.
- The SQL engine: transactions are atomic steps, so interleavings of single statements, row locks and isolation levels are not modelled.
- Edits of one draft whose statements interleave (delete and insert of line items by two transactions) are excluded by that atomicity.
- Several instances of the service, hence several reconciliation or webhook workers at once.
- Identifiers are not drawn at random: a clash of attempt or invoice identifiers is a database error, and the members that the rate limiter makes are unique.
- `updated_at` of invoices, descriptions of line items and the trimming of those descriptions.
- Tenant isolation: pay and the version check of edit do not filter by business.
- Customers, businesses, API keys, endpoint management, listing and reading invoices, email and length validation: they would only add easy members.
- HMAC signatures, hashing and authentication.
- A restart of the mock provider, which would forget its outcomes.
- Which webhook events a payment or a finalize dispatches, and the loss of one when the process dies after the commit.
- RateLimiter.Limiter.IsAllowed: does not cover a clock that steps back by more than a second on one key, where the expiry that the step sets can drop admissions that the window still covers; the whole-sequence theorems of `Admission` are about clocks that do not step back.
- Webhooks.PassProgress: covers passes without database errors; a crash between a post and the update of its row repeats the post.
- PaymentService.Service.Tick: is a tick without database errors and without steps of others in between; ticks with interference are the steps of the protocol, and `Progress.TickResolvesOverdue` covers them.
- PaymentService.Service.PayReply: takes from the network only replies that carry the stored outcome or nothing usable; a provider that lies is not modelled.
