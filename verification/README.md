# Recovery-case protocol: a verified model

RecoverAI turns failed payments into recovery cases and works each case through diagnosis, policy review,
payment-link execution and webhook resolution. Many database sessions do this at once: operators, an autonomous
cycle and webhook deliveries. This project models the shared tables and every transaction that acts on them, and
proves what holds over all interleavings of those transactions.

## How the model is built

- `domain.dfy`, `policy.dfy`, `ai_service.dfy`: the status graph, the policy engine and the AI retry loop.
- `records.dfy`: the tables (`Db`, and the mutable `Store` the services work through), the append-only log, and
  `CaseSession`, one session's copy of a case with its pending audit rows and its version-checked commit.
- `diagnosis.dfy`, `execution.dfy`, `webhooks.dfy`, `ingestion.dfy`: each transaction twice, as an imperative
  method on the store and as a function on `Db`; the method's contract says that they agree. A session works on
  the row it loaded, which may be arbitrarily stale when it commits, and goes by a date it read on any day between
  its load and its commit. A sweep is a load (the listed payments) and a later commit (a case for each, or nothing).
- `protocol.dfy`: the state machine. A state holds the database, the calendar, the sessions and sweeps in flight and
  the history of create calls; an action is one atomic step (a load, a commit, the external create call, a day
  passing).
  `Run` executes any list of actions, so a statement about `Run(INIT, actions, config)` for all `actions` is a
  statement about every interleaving of any number of sessions with any AI, provider and webhooks.
- `coherence.dfy`, `steps.dfy`, `lifecycle.dfy`: the inductive invariant. Rows change only with a higher version,
  so a snapshot is stale or exact; every create call owns its entry into EXECUTING; each case takes one legal step
  at a time.
- `audit_log.dfy`, `trail.dfy`, `money_trail.dfy`, `guarantees.dfy`, `books.dfy`, `accounts.dfy`, `live_links.dfy`,
  `summary.dfy`, `references.dfy`, `executors.dfy`: what follows from it for the audit trail, money, approvals, links,
  the summary, the unique constraints and cases that are EXECUTING.
- `scenarios.dfy`, `late_events.dfy`, `endless.dfy`: concrete runs, composed stage by stage, that reach the states
  the code does not rule out, each next to the exact condition.
- `queue.dfy`, `backlog.dfy`, `runs.dfy`, `world.dfy`, `outcomes.dfy`, `case_work.dfy`, `discovery.dfy`, `phases.dfy`,
  `orchestrator.dfy`, `spending.dfy`: the autonomous cycle, as loops over the imperative services. Everyone else may
  act before every load, during every external call, before and after every commit, between two cases, and between
  two passes.
- `answers.dfy`, `deeds.dfy`, `reports.dfy`: what each provider answer leads to; what a session has done, read off the
  states before and after each of its actions (verdicts, case rows written, links put on record, calls, lookups); and
  that the outcomes a pass reports are exactly that.

Row ids are positions, so creation order is position order. Amounts and days are integers, confidence is a real.
A commit is one atomic compare-version-and-apply, a rollback discards everything pending, a webhook's claim included.

## Where the code and its documentation differ

The model follows the code. Each point names the lemma that reaches the case and the one that says exactly when it
can happen.

- The cycle is documented never to raise for one case, but a violated unique constraint is not one of the caught
  domain errors, and the pass stops. There are two ways, and `Orchestrator.RunRecoveryCycle` stops exactly then. One
  of its executions meets a link whose provider reference or reference id is already recorded:
  `LateEvents.CollisionIsReachable` (two ambiguous creates reconciled to one link). Or its sweep meets a case that
  somebody else has opened for one of the payments it has listed: `LateEvents.OvertakenSweepIsReachable`, and then it
  opens none of its cases (`Ingestion.OpenableIff`). A pass whose provider never gives two answers the same reference
  or reference id, while nobody else opens cases, is never stopped and handles every case it listed. A provider that
  reports the attempt's own key back and never repeats its own references is of that kind
  (`References.EchoingIsDistinct`).
- `max_retry_count` is documented to end the FAILED loop. `Endless.LinksAreUnboundedIff`: a case can get any number
  of links exactly when the configuration lets one approval through, and the retry cap is not part of that
  condition. Only the recovery window ends the loop (`Guarantees.WindowBoundsTheLoop`).
- The execution budget counts executed outcomes, so provider calls that fail do not spend it. The bound that holds is
  `CallBound`: the diagnosis limit plus the budget, and nothing at all when the budget is zero or execution is off.
  `Spending.FailedCallsAreFree` attains it for every configuration that lets one approval through and all limits, and
  under any other configuration nobody is ever called (`Spending.NothingAdmittedNobodyCalled`). So a pass can make
  more calls than its budget exactly when the budget and the diagnosis limit are positive and an approval is possible.
- A request can move from PAID to EXPIRED on a late event (`LateEvents.PaidCanExpire`), because it is written before
  the case's status is looked at. `LateEvents.PaidStaysIff` says which committed events do that.
- A paid link does not always recover its case: an event that arrives before its link is recorded is claimed and
  ignored (`LateEvents.EarlyPaymentIsLost`). `LateEvents.RecoverableIff`: a case that waits for its one link, with
  nobody at work on it, can still be recovered exactly when the key its reports carry is not in the ledger.
- Execution never looks for an active payment request. That no case has two live links is owed to the dedup ledger.
  `LiveLinks.SafeIffGuarded` says exactly when it holds, and `LateEvents.TwoLiveLinksAreReachable` reaches a state
  where it does not: one link, two final statuses, two dedup keys.
- Candidates are documented as oldest first; the repository orders them newest first. `Queue.OldestWaits` shows it for
  any two discovered cases, and `Queue.PickedUpNewestFirst` says that it is so for any two cases in one status.

## Model

| member | source | states |
|---|---|---|
| Domain.TerminalIffDeadEnd | backend/app/domain/state_machine.py:14-31 | The declared terminal statuses are exactly those with no outgoing transition |
| Domain.WaysInto | backend/app/domain/state_machine.py:14-31 | For every pair of statuses: the table read backwards, where each status can have come from |
| Domain.RecoveryEndsTheLongWay | backend/app/domain/state_machine.py:14-31 | Every legal path from DISCOVERED to RECOVERED ends by diagnosis, recommendation, review, approval and execution, behind ELIGIBLE or FAILED |
| Domain.CommittedChangeIsLegalPath | backend/app/domain/state_machine.py:14-42 | Every change one transaction can commit is, with its intermediate statuses, a path of the transition table |
| Policy.EvaluateExact | backend/app/domain/policy.py:113-157 | The reason codes are exactly the broken rules, each once and in rule order; an input is allowed exactly when it breaks none |
| Policy.EvaluatePolicy | backend/app/domain/policy.py:113-157 | The chain of appends computes that decision |
| Policy.CodesMean | backend/app/domain/policy.py:113-157 | Each of the seven codes in terms of status, action, counters, amount and confidence, for every input: which actions are contacts, which are active, and every bound with its comparison |
| Policy.ProposalsFollowTheTable | backend/app/domain/policy.py:27-55 | STOP and ESCALATE are eligible exactly where the status table can carry them out, or one step before review |
| Policy.ReviewVerdict | backend/app/services/diagnosis_service.py:272-296 | A review ends APPROVED exactly on the facts a standing approval rests on and an open window; STOP always stops; ESCALATE with an amount in bounds escalates |
| Policy.ReviewDecides | backend/app/services/diagnosis_service.py:272-296 | All three ends of a review in input terms: APPROVED iff a link is proposed within every bound; STOPPED iff the amount is out of bounds, STOP is proposed, an active action is past the window, a contact is at its cap or a retry at its cap; ESCALATED otherwise, for low confidence alone and for allowed RETRY_PAYMENT and SEND_REMINDER in particular |
| Policy.StandingApprovalRecheck | backend/app/services/execution_service.py:175-187 | Re-checked on unchanged facts, an approval is blocked exactly when the window has expired, with that one code |
| Policy.ExpiredApprovalIsBlocked | backend/app/domain/policy.py:133-137 | After the window an approved case is blocked whatever it proposes |
| AiService.GetRecommendation | backend/app/ai/service.py:64-117 | At most max_retries + 1 calls; every response before the deciding one is a timeout, a rate limit or an outage, and it is one itself only if the budget is spent; retry_count is calls - 1 |
| AiService.AiSourcedIff | backend/app/ai/service.py:64-117 | The outcome is AI-sourced exactly when some call within the budget answers after timeouts, rate limits and outages only; it then carries that answer, and otherwise the last error and a proposal to ESCALATE with confidence zero |
| AiService.OutageFallsBack | backend/app/ai/service.py:48-55 | With a provider that only fails, the outcome is the fallback |
| Diagnosis.DiagnoseRecoveryCase | backend/app/services/diagnosis_service.py:99-238 | The step-by-step walk commits exactly the specified row and audit rows, or reports not found, refused or conflict and changes nothing |
| Diagnosis.VerdictExact | backend/app/services/diagnosis_service.py:128-219 | For every diagnosable case, configuration and AI answer, all four ends exactly: INELIGIBLE, APPROVED, STOPPED, ESCALATED, in terms of payment, proposal, counters and days; a fallback never approves; the committed change is legal |
| Diagnosis.DiagnosisTells | backend/app/services/diagnosis_service.py:145-221 | By AI outcome: what was proposed, by whom and after how many retries is on the row and in the log, then the reasons of the policy in input terms, and last the change to the status the caller is told |
| Diagnosis.RefusedIffNotDiagnosable | backend/app/services/diagnosis_service.py:112-116 | The status gate refuses exactly the statuses from which the table has no way to DIAGNOSING |
| Diagnosis.EvaluateEligibility | backend/app/services/diagnosis_service.py:264-269 | Eligible exactly for a failed payment of positive amount, flag and status together |
| Diagnosis.AdoptRecommendation | backend/app/services/diagnosis_service.py:145-183 | The proposal is logged, copied to the case and taken to policy review in two legal steps |
| Diagnosis.ReviewPolicy | backend/app/services/diagnosis_service.py:185-219 | The decision is logged directly before the status change it justifies |
| Execution.EnterExecuting | backend/app/services/execution_service.py:96-168 | The first transaction: re-check, enter EXECUTING, and commit there or escalate in the same commit; stale sessions change nothing |
| Execution.EntryDecides | backend/app/services/execution_service.py:96-168 | Every reply to an entry and what it leaves, in the terms of the row: a current approved row goes to EXECUTING iff its link still passes every bound with the recorded confidence, otherwise it is ESCALATED for exactly the reasons its facts give; anything else changes nothing |
| Execution.StartAttempt | backend/app/services/execution_service.py:199-226 | The attempt for the payment's own amount, never a caller's, is on record before the provider is called |
| Execution.RecordReconciliation | backend/app/services/execution_service.py:318-354 | After an ambiguous answer the lookup's result is logged and nothing else changes |
| Execution.RecordPaymentLinkCreated | backend/app/services/execution_service.py:257-301 | Request, attempt, attempt number and event are committed together or not at all; a recorded reference is refused |
| Execution.HandleDefiniteFailure | backend/app/services/execution_service.py:374-410 | Attempt failed and case escalated together, or nothing |
| Answers.AskedForThePayment | backend/app/services/execution_service.py:199-241 | Nothing is asked of the provider before the attempt and its audit row are on record; attempt, audit row and call go by the payment's amount |
| Answers.MadeIsAdopted | backend/app/services/execution_service.py:240-301 | A link made at once: a lookup changes nothing, and the next commit puts the link on record with the case EXECUTING and the attempt succeeded, or nothing if one of its references is taken |
| Answers.AmbiguousIsLookedUp | backend/app/services/execution_service.py:318-361 | An ambiguous answer: the finish alone changes nothing; after the lookup a link it found is put on record, and with none found the attempt has failed as ambiguous and the case is ESCALATED |
| Answers.ErrorIsFinal | backend/app/services/execution_service.py:374-410 | Every other error, by constructor: a lookup changes nothing, and the finish fails the attempt with that error's own code and escalates the case |
| Records.CaseSession.Transition | backend/app/services/diagnosis_service.py:241-261 | A step is taken, flushed and logged exactly when the table allows it |
| Records.CaseSession.Commit | backend/app/services/concurrency.py:28-38 | The unit of work is applied exactly when the row still has the loaded version |
| Records.Store.RecordEvent | backend/app/services/audit_service.py:17-36 | The log only grows, by one event |
| Webhooks.ClaimEvent | backend/app/services/webhook_service.py:85-117 | A key is claimed exactly once |
| Webhooks.ProcessWebhookEvent | backend/app/services/webhook_service.py:68-82 | Claim first, then ignore or apply: the method computes the delivery function, its rollback included |
| Webhooks.ApplyPaymentLinkEvent | backend/app/services/webhook_service.py:120-201 | Request, case, attempt and log as specified; a version conflict also gives the claim back |
| Webhooks.ResolveCase | backend/app/services/webhook_service.py:181-199 | RECOVERED with the amount added exactly when fully paid, otherwise FAILED with the reason on the attempt |
| Webhooks.ReportDecides | backend/app/services/webhook_service.py:68-201 | A first report about the link of an EXECUTING case, status by status: paid in full recovers it; expired, cancelled or underpaid fails it, with the request's status and the code on the attempt; any other status only spends the key |
| Webhooks.LateReportRewrites | backend/app/services/webhook_service.py:155-179 | A report about a case that is no longer EXECUTING rewrites its request and moves nothing else |
| Webhooks.ReportMovesNothing | backend/app/services/webhook_service.py:68-148 | A spent key changes nothing; a report without a link only spends its key; one of an unknown link is logged besides |
| Webhooks.LiveUntilReported | backend/app/repositories/recovery_payment_request_repository.py:14-16 | A link can still be paid exactly while no report of its status is acted on |
| Webhooks.RedeliveryIsInvisible | backend/app/services/webhook_service.py:68-117 | Any sequence of deliveries leaves the database as the first delivery of each key does |
| Webhooks.PayloadKeysAgreeIff | backend/app/payments/webhooks.py:43-66 | For any two header-less deliveries: event, link and payment are the same exactly when the keys and the colon counts of event and link are; without colons, exactly when the keys are |
| Webhooks.ColonsCanCollide | backend/app/payments/webhooks.py:62-66 | Two different deliveries with a colon in the event type or the link id share a key |
| Webhooks.HeaderKeysStandApart | backend/app/payments/webhooks.py:43-66 | Header keys are injective, and a delivery without a header can share a key with one that has a header exactly when its event type is event_id or begins with event_id and a colon |
| Ingestion.IngestPayment | backend/app/services/ingestion_service.py:126-218 | Repeats return the original and only log; others add payment, counters and, if asked and failed, a case |
| Ingestion.ReplyTells | backend/app/services/ingestion_service.py:126-218 | What is stored for a report and what its sender is told: the payment, its customer, its case if it has one, and repeated exactly when its non-empty provider id is on record; the audit rows with it |
| Ingestion.CreateRecoveryCaseForPayment | backend/app/services/ingestion_service.py:85-123 | Not found, not failed, already open, or one new case; only the last changes anything |
| Ingestion.OpeningTells | backend/app/services/ingestion_service.py:85-123 | The four replies by what the tables hold: no such payment, not failed, the case there is, or a new case of a payment that had none |
| Ingestion.ListFailedPayments | backend/app/services/ingestion_service.py:226-228 | The load of a sweep: the first `limit` un-cased failures, and how many failures are tracked |
| Ingestion.DiscoverFailedPayments | backend/app/services/ingestion_service.py:230-245 | The rest of it: one case for each listed payment, in order, or a violated constraint with everything inserted so far rolled back |
| Ingestion.OpenableIff | backend/app/models/recovery_case.py:22-24 | A listed sweep commits exactly when none of its payments has been given a case since |
| Ingestion.UndisturbedSweep | backend/app/services/ingestion_service.py:221-245 | With nothing in between, load and commit are the whole sweep |
| Ingestion.TrackedOrUncased | backend/app/repositories/payment_repository.py:26-49 | Every failed payment is either tracked or on the list of a sweep |
| Ingestion.SweepTracks | backend/app/services/ingestion_service.py:227-236 | A sweep tracks exactly as many more failures as it opens cases |
| Ingestion.UncasedComplete | backend/app/repositories/payment_repository.py:26-37 | The list of a sweep is every failed payment without a case and nothing else |
| Ingestion.IngestKeepsBooks | backend/app/services/ingestion_service.py:172-208 | Ingestion keeps one case per payment, revenue at risk equal to its amount, and exact customer counters |
| Ingestion.IngestAllKeepsBooks | backend/app/services/ingestion_service.py:126-218 | The same for any list of reports from an empty store |
| Ingestion.TablesMirrorReports | backend/app/services/ingestion_service.py:42-55 | From an empty store, any list of reports: the payments are the reports without later repeats, one by one; each belongs to a customer with the reference it was reported with; two to the same customer iff reported with the same non-empty reference; a case is open iff one was asked for a failed payment |
| Ingestion.CustomersAreDistinct | backend/app/services/ingestion_service.py:42-55 | No two customers share a non-empty reference |
| Ingestion.RepeatsAreInvisible | backend/app/services/ingestion_service.py:132-170 | A list of reports leaves the tables as the list without later repeats of a non-empty provider id does |
| Ingestion.SweepTakesOldest | backend/app/repositories/payment_repository.py:26-37 | A sweep removes exactly the oldest `limit` from the list of un-cased failures |
| Ingestion.SecondSweepIsIdle | backend/app/services/ingestion_service.py:221-245 | After a complete sweep another creates nothing |
| AuditLog.ReplayIsLegalPath | backend/app/services/audit_service.py:17-36 | A log that replays spells out a path of the transition table that ends at the replayed status |
| AuditLog.ApprovalsSpent | backend/app/services/execution_service.py:108-113 | On a replayable log the entries into EXECUTING are the entries into APPROVED less a standing one |
| Steps.ApplyKeepsBase | backend/app/models/recovery_case.py:19-43 | Every action keeps schema keys, coherent sessions and the accounting of create calls |
| Lifecycle.ActionRowsStep | backend/app/services/concurrency.py:1-38 | Whatever the action, each case takes at most one legal committed step, with its conditions |
| Lifecycle.RunKeepsInv | backend/app/models/recovery_case.py:19-43 | Every run keeps the invariant |
| Trail.TrailReplays | backend/app/services/diagnosis_service.py:241-261 | In every reachable state a case's status changes, in log order, lead along the table from DISCOVERED to its committed status |
| Trail.ChangesAreEvidenced | backend/app/services/diagnosis_service.py:199-219 | Every entry to APPROVED, EXECUTING or RECOVERED stands directly behind its own allow, re-check or payment confirmation |
| MoneyTrail.MoneyIsEvidenced | backend/app/services/webhook_service.py:155-199 | In every reachable state each entry to RECOVERED stands directly behind the payment of a recorded link of its case, for the recovered amount committed, and each recovered case has such an entry |
| Guarantees.TerminalIsFinal | backend/app/domain/state_machine.py:30-42 | Nothing later in any run changes the row of a terminal case |
| Guarantees.MoneyCountedOnce | backend/app/services/webhook_service.py:120-201 | Over any run a case's recovered amount changes at most once, and then the case is RECOVERED for good |
| Guarantees.KeyTakesEffectOnce | backend/app/services/webhook_service.py:85-117 | Deliveries of one key, however they race, change the database at most once over any run |
| Guarantees.WindowBoundsTheLoop | backend/app/domain/policy.py:133-137 | Once the window has closed a case makes at most two more status changes, three if a session in flight had loaded it before the close, whatever AI, provider and webhooks do |
| Guarantees.CommittedStatusesOnly | backend/app/services/diagnosis_service.py:128-221 | The four intermediate statuses are never committed, and every committed change is one of the listed ones |
| Guarantees.BornAlike | backend/app/services/ingestion_service.py:57-83 | Whatever action brings a case in, it is DISCOVERED, at risk for the amount of a failed payment that has no other case, with nothing tried or known |
| Guarantees.ApprovalSpentOnce | backend/app/services/execution_service.py:96-254 | In every history: create calls of a case <= entries into EXECUTING <= entries into APPROVED |
| Guarantees.CallsAreAuthorized | backend/app/services/execution_service.py:125-172 | Every create call has its own entry into EXECUTING behind an allowing re-check, and asks for the payment's amount |
| Guarantees.ApprovedCaseIsBlockedIffExpired | backend/app/services/execution_service.py:145-152 | In every reachable state a standing approval is withheld exactly when its window has closed, for that reason alone |
| Guarantees.OutageNeverCalls | backend/app/ai/service.py:48-55 | A permanent AI outage never leads to an approval or a create call |
| Books.RecoveredIffPositive | backend/app/services/webhook_service.py:181-185 | With links of positive amounts a recovered amount is positive exactly when the case is RECOVERED |
| Books.RecoveredIsAllOrNothing | backend/app/services/webhook_service.py:155-185 | With a provider that links and reports exactly, a case has recovered nothing or its whole revenue at risk |
| Accounts.LinkAccountingAgrees | backend/app/services/execution_service.py:257-301 | Attempt number, succeeded attempts, payment requests and payment_link_created events of a case agree |
| Accounts.FailedAttemptIsFinal | backend/app/services/execution_service.py:374-420 | A case with a failed attempt is ESCALATED and has exactly one |
| LiveLinks.NeverTwoLiveLinks | backend/app/repositories/recovery_payment_request_repository.py:11-16 | With one dedup key per link, no case outside EXECUTING has a live request and none has two |
| LiveLinks.SafeIffGuarded | backend/app/services/webhook_service.py:155-199 | Whatever the keys: a run keeps that property throughout exactly when no event moves a case past another live request |
| LiveLinks.MovingEventKeepsLinksIff | backend/app/services/webhook_service.py:171-199 | The same for one event |
| LateEvents.TwoLiveLinksAreReachable | backend/app/services/execution_service.py:108-172 | A run under the default configuration after which one case has two live links |
| LateEvents.CollisionIsReachable | backend/app/services/execution_service.py:338-361 | Two ambiguous creates reconciled to one link: the second finish writes nothing and leaves the case EXECUTING with nobody at work |
| LateEvents.OvertakenSweepIsReachable | backend/app/services/ingestion_service.py:227-236 | A run in which an operator opens one of two listed cases, and the sweep opens neither |
| LateEvents.PaidStaysIff | backend/app/services/webhook_service.py:155-181 | A paid request stays paid exactly until an event about it that says otherwise is claimed and committed |
| LateEvents.PaidCanExpire | backend/app/services/webhook_service.py:155-181 | A run after which the request of a recovered case is EXPIRED |
| LateEvents.LostForever | backend/app/services/webhook_service.py:85-140 | A case whose link's one key is spent stays EXECUTING whatever anybody does |
| LateEvents.RecoverableIff | backend/app/services/webhook_service.py:85-199 | A case that waits for its one link with nobody at work can be recovered by some later run exactly when the key its reports carry is unspent |
| LateEvents.EarlyPaymentIsLost | backend/app/services/webhook_service.py:131-148 | A payment reported before its link is recorded never recovers the case under that key |
| LateEvents.ThreeChangesAfterTheClose | backend/app/services/execution_service.py:175-187 | The bound of three is met by an entry re-checked on the last open day and committed after it |
| LateEvents.RecoveryIsReachable | backend/app/services/webhook_service.py:181-185 | The honest runs the books are proved for do reach a case recovered in full |
| Endless.LinksAreUnboundedIff | backend/app/domain/policy.py:113-157 | For every configuration and n > 0: a case with n links is reachable exactly when one approval is possible at all |
| Endless.AdmitsMeans | backend/app/domain/policy.py:131-154 | One approval is possible exactly with a contact allowed, a window not negative, and an amount in bounds whose threshold is at most one |
| References.DistinctAnswersNeverCollide | backend/app/models/recovery_payment_request.py:37-39 | With a provider that never gives two answers the same reference or reference id, no session ever meets a taken one |
| References.EchoingIsDistinct | backend/app/services/execution_service.py:265-278 | A provider that reports the attempt's own key back and never repeats its own references is one |
| References.AttemptIsNeverTaken | backend/app/models/recovery_payment_request.py:33-35 | The third unique column cannot be violated: an open execution's attempt has no request |
| Executors.ExecutingIsAccountedFor | backend/app/services/execution_service.py:168-254 | In every reachable state an EXECUTING case has a link recorded since its entry, or a live executor, or lost it to a taken reference |
| Executors.NoneIsStranded | backend/app/services/execution_service.py:168-254 | With distinct answers the third possibility is gone |
| Summary.BooksBalance | backend/app/services/recovery_summary_service.py:26-110 | confirmed <= eligible <= total, outstanding is eligible less confirmed, every rate lies in [0, 1] and times its own total is its own count (escalated cases, stopped cases, failed attempts, confirmed revenue), the average times the recovered cases is the confirmed amount, in every reachable state |
| Summary.RevenueIsPayments | backend/app/services/recovery_summary_service.py:40-52 | In every reachable state the revenue at risk is the amounts of the payments that have a case, each once, and the eligible revenue those whose case is neither DISCOVERED nor INELIGIBLE |
| Summary.CountsAreRows | backend/app/services/recovery_summary_service.py:29-80 | Each counted figure is the number of rows it is about |
| Summary.StatusCountsAddUp | backend/app/services/recovery_summary_service.py:29-32 | The status counts sum to the number of cases |
| Summary.LinksBalance | backend/app/services/recovery_summary_service.py:62-80 | Links created successfully are the payment requests on record and the attempt numbers of all cases together |
| Queue.CasesReadyForDiagnosis | backend/app/services/orchestrator_service.py:185-197 | The loop returns exactly the first `limit` of discovered, then eligible, then failed cases |
| Queue.ReadyListComplete | backend/app/services/orchestrator_service.py:185-197 | Every discovered, eligible or failed case is on the list of candidates, and no other |
| Queue.ReadyListOrdered | backend/app/services/orchestrator_service.py:185-197 | Discovered candidates come first and failed ones last |
| Queue.ApprovedBacklog | backend/app/services/orchestrator_service.py:200-209 | Exactly the first `limit` approved cases not excluded |
| Queue.OldestWaits | backend/app/services/orchestrator_service.py:185-197 | With room for one of two discovered cases it is the older one that waits |
| Queue.OverFetchSuffices | backend/app/services/orchestrator_service.py:206-209 | Fetching limit + excluded rows loses nothing |
| Backlog.SweepDrains | backend/app/services/ingestion_service.py:221-245 | Each opened case lowers the remaining work by one |
| Backlog.SweepProgress | backend/app/services/ingestion_service.py:221-236 | The commit of a listed sweep, whatever has happened since: one less for each case, or nothing changed |
| Backlog.DiagnosisDrains | backend/app/services/diagnosis_service.py:99-221 | A committed diagnosis lowers it, whatever the AI says |
| Backlog.EntryDrains | backend/app/services/execution_service.py:143-168 | So does an entry into EXECUTING |
| Backlog.FinishProgress | backend/app/services/execution_service.py:257-420 | Finishing an execution creates no work |
| Backlog.ActionProgress | backend/app/services/orchestrator_service.py:80-126 | Any action but a new payment or a webhook's commit, by anyone, keeps the remaining work from rising and lowers it as soon as a case that counts is touched or a failed payment is given one |
| Backlog.RunProgress | backend/app/services/orchestrator_service.py:80-126 | The same over any list of such actions |
| Backlog.NothingRemainsIff | backend/app/services/orchestrator_service.py:80-126 | The measure is zero exactly when nothing is left to open, diagnose or execute |
| Worlds.World.Yield | backend/app/services/concurrency.py:1-18 | Others act arbitrarily between two transactions and never touch this session's own state |
| Worlds.World.CommitDiagnosisOf | backend/app/services/diagnosis_service.py:77-96 | The imperative diagnosis is the protocol's action, and its reply is the committed status |
| Worlds.World.CommitEntryOf | backend/app/services/execution_service.py:79-93 | The imperative entry is the protocol's action |
| Worlds.World.CommitSweepOf | backend/app/services/ingestion_service.py:230-236 | The imperative sweep is the protocol's commit; it is overtaken exactly when a listed payment has a case, and then leaves nothing |
| Worlds.World.CallProviderFor | backend/app/services/execution_service.py:240-254 | One external call, one record of it |
| Worlds.World.CommitFinishOf | backend/app/services/execution_service.py:240-254 | Recording or failing is the protocol's action; a duplicate is reported exactly when a link is adopted, the row is current and its reference or reference id is taken, a conflict exactly when the row has moved on |
| CaseWork.DiagnoseCase | backend/app/services/orchestrator_service.py:243-275 | Diagnosis under interference: afterwards a diagnosable case has been written, by this session or by whoever beat it to it |
| CaseWork.ExecuteCase | backend/app/services/execution_service.py:79-254 | At most one create call; the session's deeds by the provider's answer: a made link is put on record, an ambiguous answer is looked up and then adopted or failed, any other error escalates; an uncontested execution is never refused; stopped exactly when its finish meets a taken reference |
| CaseWork.EnterLoaded | backend/app/services/execution_service.py:96-168 | The entry by a date read since the load; afterwards the row is past the loaded version, whoever wrote it |
| CaseWork.ConcludeExecution | backend/app/services/execution_service.py:240-254 | By the provider's answer: ends with the link on record, escalated, refused on a conflict with nothing done, or stopped exactly on a taken reference; an ambiguous answer is looked up first |
| CaseWork.ProcessCase | backend/app/services/orchestrator_service.py:243-316 | Executed iff no error and the case is EXECUTING, which is iff this session has put exactly one link on record for it; diagnosed iff it committed a verdict; stopped exactly on a taken reference; left approved without error only when disabled or out of budget; without a call settled by the verdict |
| CaseWork.ExecuteApprovedCase | backend/app/services/orchestrator_service.py:212-240 | The same for a case of the backlog: executed iff a link is on record, else escalated or in error |
| Discovery.SweepFirst | backend/app/services/orchestrator_service.py:80-83 | Phase one: stopped exactly when a listed payment has been given a case since, never while nobody else opens cases; the remaining work falls by one a case, or has fallen if the sweep is overtaken |
| Discovery.ListStaysGood | backend/app/repositories/payment_repository.py:26-37 | Over any stretch without an opening or a sweep of others, no listed payment gets a case |
| Phases.DiagnosePhase | backend/app/services/orchestrator_service.py:88-102 | Outcomes are the candidates in order, each what the session's deeds about its case say, the executed ones being the links put on record; cut short exactly on a taken reference; budget conserved; a case left approved only when the budget was spent before; at most one call a case; every case taken up has been written |
| Phases.DrainPhase | backend/app/services/orchestrator_service.py:111-126 | The same for the backlog, stopping when the budget is spent |
| Orchestrator.DrainBacklog | backend/app/services/orchestrator_service.py:111-126 | The backlog as listed after phase two, without the handled cases, all of it or as far as the budget goes |
| Orchestrator.RunRecoveryCycle | backend/app/services/orchestrator_service.py:53-166 | Isolation: stopped exactly when its sweep is overtaken or an execution meets a taken reference or reference id, otherwise exactly the first ready cases and then the backlog within budget. The links the pass puts on record are the executed outcomes, in order, and at most the budget; every other outcome is told by its deeds too. Calls <= their bound and none twice, approved cases left only by a spent budget, remaining work strictly lower unless others bring payments or commit webhooks, stopped or not |
| Outcomes.CountsAreFlags | backend/app/services/orchestrator_service.py:128-146 | Each count of the report is the number of outcomes with its flag |
| Spending.FailedCallsAreFree | backend/app/services/orchestrator_service.py:101-126 | For every configuration that admits an approval and all limits: a pass that makes as many calls as the bound allows, all refused, and spends nothing |
| Spending.NothingAdmittedNobodyCalled | backend/app/domain/policy.py:113-157 | Under every other configuration no call is ever made |
| Orchestrator.RunPasses | backend/app/services/orchestrator_runner.py:38-76 | Unless others bring payments or commit webhooks, as many passes as there is work leave nothing to do |

## Left out

- Orchestrator.RunRecoveryCycle: each case is loaded afresh when its turn comes; the one ORM session of a pass can hold an older copy, which the protocol's arbitrarily stale sessions cover but this method does not. `duration`, ids and the per-status tallies of the report are not modelled. When the pass is stopped the source returns no report; the outcomes so far stand in for it.
- Orchestrator.RunPasses: the endless loop with its sleep is modelled as n passes.
- Webhooks.RedeliveryIsInvisible: deliveries one after another; `Guarantees.KeyTakesEffectOnce` has the racing ones.
- Ingestion.RepeatsAreInvisible: a sequential property, because the provider payment id has no unique constraint. Ingestion is one step of the protocol; two racing reports of one payment would be recorded as two payments, which the protocol covers as two reports without an id.
- Ingestion.IngestAllKeepsBooks: the same; racing reports for one customer can lose an update to its counters, which carry no version. Nothing else in the model reads those counters.
- Trail.ChangesAreEvidenced: the re-check behind an entry into EXECUTING may be a block, since the code enters before it escalates; `Guarantees.CallsAreAuthorized` has the allow behind every entry that leads to a call.
- Summary.BooksBalance: rounding is not modelled.
- The object-relational mapper's habit of not writing unchanged request fields: an event always writes its request.
- A case's creation date is a day number, and the contact count never changes because nothing in the services changes it.
- Configuration is fixed over a run. Query limits are natural numbers.
- Ingestion.DiscoverFailedPayments: the cases of one sweep are dated by one day. A racing opener that loses against the sweep's commit is one that finds the case open, with the same effect on the database; so is one that loses against another opener.
- Ingestion.CreateRecoveryCaseForPayment: dated by the day it commits, as cases opened by ingestion are.
- An attempt's key is modelled as unique to the attempt; the provider may report any reference id, ours or not, or none.
- Currencies, diagnosis category and text, timestamps, latencies, correlation ids and the source label of a dedup key.
- The payment provider is an arbitrary stream of answers, so the fake provider and the HTTP one are both among its behaviours. Errors outside the declared provider errors are not modelled.
- Signature checking of webhooks: every processed event is taken as authentic.
- The executor's own canonical-amount assertion, which compares a value with itself.
- HTTP routes, settings loading, migrations, exports, the timeline, the frontend, and the `evaluation/` package (short branch tables and sums).
