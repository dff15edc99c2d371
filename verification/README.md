# Time-off service and mock HCM: a verified model

A time-off service keeps its own copy of every employee's balance and must stay in step with an HCM system that owns the
balances. Approving a request writes the new status, the local debit and an outbox row in one transaction; a worker
submits the row to HCM over a network that loses, delays and repeats messages; HCM records each idempotency key once; and
webhooks and nightly batches overwrite the local copy from HCM's side. This project models those parts and proves what
the two ledgers, the outbox and the requests satisfy in every run.

`dafny verify dfyconfig.toml` checks everything.

## How the model is built

Each source file that changes state in place appears twice. A class carries its methods in the source's own order of
reads, checks, loops and writes (`BalancesService`, `OutboxService`, `TimeOffRequestsService`, `SyncService`,
`OutboxWorker`, `HcmStore`, `TransactionsController`, `HcmClient`, `IdempotencyInterceptor`), and every such method is
proved equal to a function on table values, including its error results and the absence of writes on failure. The
properties are lemmas about those functions, so they hold of the methods.

`Protocol` joins them into one transition system. A step is a service transaction, one of the separately visible parts of
the worker's `processOne` (mark in flight and send, HCM handles, client returns, mark the row, tell the request), a crash,
an operator's replay, or an edit on HCM's side. `wire` remembers every submission ever sent, so HCM may handle it now,
again, or long after the client gave up. A run is any finite sequence of steps in any order; a step that does not apply
changes nothing. `OutboxWorkers` proves that the worker's own loops are runs of this system.

| file | contents |
|---|---|
| `Common`, `Sums`, `Entities` | keys, results, sums over tables, rows and the database |
| `StateMachine`, `DateUtils`, `Backoff`, `Circuit`, `Idempotency` | the pure rules, the circuit breaker, the API front |
| `Balances`, `Outbox`, `Requests`, `TimeOffRequestsService`, `Sync`, `Hcm` | the services and the mock HCM |
| `Protocol`, `Worker` | the transition system, and the worker's loops as runs of it |
| `Invariant`, `Reachable` | the inductive invariant and its preservation by every step |
| `Ledgers`, `Convergence` | conservation, the two-ledger identity, the exact gap, agreement at quiescence and its exact condition |
| `Divergence`, `Attempts`, `Exhaustion`, `LostAnswer` | whole delivery attempts as runs, and three runs that end with unequal ledgers |
| `Reservation`, `Overlap` | covered requests, non-negative balances, one request per day |
| `Delivery`, `Starvation`, `ExactlyOnce` | what settling stores, submission bounds, waiting bounds, what HCM holds |
| `Outcomes`, `Confirmation` | what an answer makes of its request, and the run from booking to confirmation and back |

## Where code and documents differ

The code decides; these are the differences found.

- `TERMINAL_STATUSES` contains HCM_CONFIRMED, which CANCEL still leaves (`StateMachine.TerminalExceptConfirmed`).
- TRD.md:185 promises retries over about six hours; the eight default attempts span 254 to 256 seconds
  (`Backoff.DefaultBudget`).
- TRD.md:186 promises that the outbox is replayed automatically after a restart. A row that was IN_FLIGHT when the worker
  stopped is claimed by nobody; it stays IN_FLIGHT for ever unless an operator replays it (`Delivery.CrashAbandons`).
- The ledgers can differ when nothing is left to submit. HCM can keep a debit whose request was refunded locally, because
  it handles a late copy of a submission it has refused (`Divergence.LateCopyDiverges`), or because the answer is lost and
  the retry is refused under REJECT_ALL (`LostAnswer.LostAnswerDiverges`). A debit whose attempts are exhausted leaves its
  request APPROVED, and cancelling it then credits HCM with days it never took (`Exhaustion.ExhaustedThenCancelled`).
  `Convergence.FinishedGap` gives the exact gap, and `Convergence.ConvergesIffNothingStranded` the exact condition at
  quiescence.
- A refund needs a balance that is not STALE. Otherwise a cancellation fails, and a refused submission leaves its request
  APPROVED with its days still taken (`Reservation.RefundBlockedIffStale`).
- Repeating a batch changes nothing from any state that satisfies the reservation invariant (`Sync.RepeatBatch`,
  `Reservation.RepeatedBatchIsIdle`). A refresh that undercuts a waiting request breaks that invariant, and then a batch
  whose two rows for one key tie on the timestamp revokes nothing the first time and the request the second time
  (`Reservation.RefreshThenRepeatRevokes`; `Sync.RepeatBatchAnywhere` gives the exact condition for every start).
- Updates from HCM with equal timestamps and different days do not commute (`Balances.OrderIndependence`).
- The idempotency scope uses the route pattern, so one key sent to two request ids acts only on the first
  (`Idempotency.OneKeyTwoRequests`).
- Dates with a time appended, which the endpoint accepts, can share a day without overlapping as strings
  (`DateUtils.TimedOverlap` says exactly when), so an employee can have two active requests on one day
  (`Overlap.TwoOnOneDay`).
- The string `employee::location` does not determine its parts when an employee id contains a colon
  (`Common.KeyStringCollision`).

## Assumptions

- Days are exact reals, clocks and timestamps integer milliseconds, transaction ids fresh non-empty strings, request ids
  fresh.
- Requests and outbox rows stand in insertion order, which is the order of `createdAt`; ties are broken by insertion.
- A transaction is atomic and rolls back when it throws. `create`, `reject`, `markHcmConfirmed`, one webhook, one batch
  row and the final batch sweep are each one step although the source does not wrap each of them in one transaction.
- `repo.save` on a balance is a compare-and-swap on its version column, which is what the catch block of `mutate` expects.
- The client's answer, its loss, its own HTTP retries and the open circuit are chosen freely by the environment.
- Results about HCM's map keys assume that employee ids contain no colon; `OneRequestPerDay` assumes that the requests at
  hand carry full dates as in section 5.6 of RFC 3339.

## Model

| member | source | states |
|---|---|---|
| Common.KeyStringInjective | apps/mock-hcm/src/common/hcm-store.ts:33-35 | two keys whose employee ids hold no colon have the same composite string only if they are equal |
| Common.KeyStringCollision | apps/mock-hcm/src/common/hcm-store.ts:33-35 | with a colon in an employee id two different keys can share one composite string |
| StateMachine.ReachesIsReachability | apps/time-off-service/src/time-off-requests/state-machine.ts:12-31 | the closed-form order on statuses is exactly reachability along legal transitions, and no path has more than three of them |
| StateMachine.TerminalExceptConfirmed | apps/time-off-service/src/time-off-requests/time-off-request.entity.ts:19-24 | a status has no way out iff it is in TERMINAL_STATUSES and is not HCM_CONFIRMED, from which exactly CANCEL leads on |
| DateUtils.StringOrderIsDayOrder | apps/time-off-service/src/time-off-requests/date-utils.ts:1-12 | for full-date strings, string comparison holds iff the day number comparison does, over all calendar dates of years 0 to 9999 |
| DateUtils.OverlapIsCommonDay | apps/time-off-service/src/time-off-requests/date-utils.ts:1-12 | for two valid ranges of full dates, rangesOverlap is true iff some calendar day lies in both |
| DateUtils.TimedOverlap | apps/time-off-service/src/time-off-requests/date-utils.ts:1-12 | for valid ranges of dates with any text appended, rangesOverlap holds iff the day ranges share a day and neither starts on the other's last day with a text not below the other's |
| Backoff.DelayBounds | apps/time-off-service/src/outbox/backoff.ts:5-11 | the delay is the doubled base up to attempt 8 and the five-minute cap after it, plus less than the jitter range |
| Backoff.DelaysGrow | apps/time-off-service/src/outbox/backoff.ts:5-11 | whatever the jitter, delay(n) < delay(m) for 1 <= n <= 8 and n < m |
| Backoff.BackoffBudget | apps/time-off-service/src/outbox/outbox.worker.ts:127-142 | the delays scheduled before giving up after M unavailable attempts sum to within [S, S + 250(M-1)] with S in closed form |
| Backoff.DefaultBudget | TRD.md:185 | with eight attempts that budget is between 254.0 and 255.75 seconds, not hours |
| Circuit.BreakerInvariant | apps/time-off-service/src/hcm/hcm.client.ts:53-68 | over any calls the failure counter stays below five and the end of an open circuit never moves back |
| Circuit.FifthFailureOpens | apps/time-off-service/src/hcm/hcm.client.ts:57-64 | of failures in a row from a cleared counter the fifth, and no earlier one, opens the circuit, for ten seconds from its completion |
| Circuit.CallOutcome | apps/time-off-service/src/hcm/hcm.client.ts:53-89 | an open circuit refuses without a trace, a success clears the counter, and a balance that is not found leaves it |
| Circuit.FailureRateBound | apps/time-off-service/src/hcm/hcm.client.ts:107-139 | in a window of W ms without a success at most 5(W/10000 + 1) calls reach HTTP and fail there, from any breaker state |
| Circuit.BoundIsTight | apps/time-off-service/src/hcm/hcm.client.ts:57-64 | for every number of periods there is a run of calls that meets the bound |
| Circuit.OpeningsAreApart | apps/time-off-service/src/hcm/hcm.client.ts:57-64 | two openings of the circuit complete at least one cooldown apart |
| Circuit.HcmClient.NoteFailureAt | apps/time-off-service/src/hcm/hcm.client.ts:57-64 | the two fields change as one failure changes the breaker |
| Circuit.HcmClient.Request | apps/time-off-service/src/hcm/hcm.client.ts:75-89 | guard, one exchange and its bookkeeping change the fields as one call changes the breaker; refused iff the circuit is open |
| Idempotency.AtMostOnce | apps/time-off-service/src/common/idempotency.interceptor.ts:36-66 | after a success no later call with its scope and key succeeds in running its handler; it changes nothing and gets the stored answer for the same payload, a conflict otherwise |
| Idempotency.FreshCallRuns | apps/time-off-service/src/common/idempotency.interceptor.ts:31-66 | a call without a key, or with one not stored, has its handler's effect and gets its handler's answer or error |
| Idempotency.KeysSeparate | apps/time-off-service/src/common/idempotency.interceptor.ts:36-40 | calls share a stored key only if they share the client's key, the verb and the route |
| Idempotency.StoredIffSucceeded | apps/time-off-service/src/common/idempotency.interceptor.ts:51-65 | a key is stored iff it was there at the start or a call with it succeeded, so failures are never stored |
| Idempotency.OneKeyTwoRequests | apps/time-off-service/src/common/idempotency.interceptor.ts:36-50 | one key with one body sent to two paths of one route runs only the first handler |
| Idempotency.IdempotencyInterceptor.InterceptCall | apps/time-off-service/src/common/idempotency.interceptor.ts:24-68 | the interceptor's lookups, handler call and insert change server and reply as the specification says |
| Balances.ApplyAllIsWinner | apps/time-off-service/src/balances/balances.service.ts:53-81 | after any sequence of HCM updates a row is what the one latest update for its key alone would make it |
| Balances.LatestDecides | apps/time-off-service/src/balances/balances.service.ts:53-81 | after any sequence of updates a key's row holds, live, the days and timestamp of one of its latest updates, unless it was newer than all of them or none was for it, and then it is the old row |
| Balances.LastOfTiesDecides | apps/time-off-service/src/balances/balances.service.ts:61-70 | of updates tied at the latest timestamp the one applied last decides |
| Balances.ApplyAllIdempotent | apps/time-off-service/src/balances/balances.service.ts:53-81 | applying a sequence of updates again changes no row's content |
| Balances.OrderIndependence | apps/time-off-service/src/balances/balances.service.ts:53-81 | every reordering and repetition gives the same row iff the updates tied at the latest timestamp agree or the row already holds something newer |
| Balances.MutateLosesNothing | apps/time-off-service/src/balances/balances.service.ts:105-136 | under arbitrary rival writes a success adds exactly delta to the row current at its commit, which is not STALE, leaving it non-negative; each failure leaves only the rivals' work and names its cause; at most three attempts |
| Balances.BeatenThreeTimes | apps/time-off-service/src/balances/balances.service.ts:113-135 | an applicable change is refused as STALE_BALANCE iff all three saves were beaten |
| Balances.BalancesService.ApplyHcmBalance | apps/time-off-service/src/balances/balances.service.ts:53-81 | a row newer than the update is returned unchanged; otherwise it ends live (OK, even if it was STALE) with the update's days and timestamp, and all other rows stay |
| Balances.BalancesService.RefreshFromHcm | apps/time-off-service/src/balances/balances.service.ts:33-50 | the three outcomes of the fetch, with the row marked STALE when HCM does not know it |
| Balances.BalancesService.Mutate | apps/time-off-service/src/balances/balances.service.ts:105-136 | the retry loop over interfering writers ends in the specified row and result |
| Balances.BalancesService.MutateInTransaction | apps/time-off-service/src/balances/balances.service.ts:96-103 | without rivals the loop is one guarded addition, and failures write nothing |
| Outbox.KeysApart | apps/time-off-service/src/time-off-requests/time-off-requests.service.ts:142-190 | a submit or refund key determines request and direction, and is never empty |
| Outbox.ClaimOldestFirst | apps/time-off-service/src/outbox/outbox.service.ts:42-53 | a claim holds ready rows as stored in ascending order, and leaves a ready row out only behind a full batch of older ones |
| Outbox.ClaimedIff | apps/time-off-service/src/outbox/outbox.service.ts:42-53 | a row is in the batch iff it is due by its columns and fewer than the limit of older rows are |
| Outbox.OutboxService.Claim | apps/time-off-service/src/outbox/outbox.service.ts:42-53 | a row is claimed iff its status and time make it due and fewer than the limit of older rows are due; the batch is ascending and nothing changes |
| Outbox.OutboxService.MarkFailedRetry | apps/time-off-service/src/outbox/outbox.service.ts:66-76 | the row, and no other, becomes FAILED with one more attempt and the given time |
| Outbox.OutboxService.MarkPermanentlyFailed | apps/time-off-service/src/outbox/outbox.service.ts:78-83 | the row, and no other, becomes FAILED_PERMANENT with one more attempt |
| Outbox.OutboxService.ForceReplay | apps/time-off-service/src/outbox/outbox.service.ts:96-102 | an existing row becomes PENDING now with its attempts kept; a missing one changes nothing |
| Requests.CreateIff | apps/time-off-service/src/time-off-requests/time-off-requests.service.ts:44-89 | creation succeeds iff range, days and location are valid, the live balance covers everything promised, and no active request of the employee overlaps; a reported overlap exists |
| Requests.CreateFailure | apps/time-off-service/src/time-off-requests/time-off-requests.service.ts:44-75 | each error of creation is raised only for its own cause, after the checks before it have passed, and names what it had and needed |
| Requests.ApproveOutcome | apps/time-off-service/src/time-off-requests/time-off-requests.service.ts:112-154 | approving a PENDING_APPROVAL request takes its days from a live balance, sets APPROVED and enqueues its debit, due now, and each failure names its cause |
| Requests.RejectOutcome | apps/time-off-service/src/time-off-requests/time-off-requests.service.ts:156-163 | rejecting ends REJECTED with the reason, from PENDING_APPROVAL alone, and changes nothing else |
| Requests.CancelOutcome | apps/time-off-service/src/time-off-requests/time-off-requests.service.ts:165-203 | cancelling ends CANCELLED with the given reason, gives a debit back, and enqueues a refund iff the request was APPROVED or HCM_CONFIRMED, from exactly the three live statuses |
| Requests.ConfirmOutcome | apps/time-off-service/src/time-off-requests/time-off-requests.service.ts:206-217 | confirming makes exactly an APPROVED request HCM_CONFIRMED under the transaction's id |
| Requests.RejectByHcmOutcome | apps/time-off-service/src/time-off-requests/time-off-requests.service.ts:220-234 | a refusal makes exactly a PENDING_APPROVAL or APPROVED request HCM_REJECTED and gives its debit back, or fails without a change |
| Requests.RevokedOutcome | apps/time-off-service/src/time-off-requests/time-off-requests.service.ts:258-270 | revalidation leaves a request alone or makes a waiting one of its key HCM_REJECTED as balance_revoked, with all its data kept |
| Requests.GreedyFits | apps/time-off-service/src/time-off-requests/time-off-requests.service.ts:258-274 | what the pass keeps adds up to balance minus what remains, and the remainder is never negative for a non-negative balance |
| Requests.KeptIffFits | apps/time-off-service/src/time-off-requests/time-off-requests.service.ts:258-274 | a waiting request is kept iff it fits behind the kept ones before it |
| Requests.GreedyIsLexFirst | apps/time-off-service/src/time-off-requests/time-off-requests.service.ts:249-275 | the kept set is feasible, and any other feasible set first differs from it by omitting a kept request |
| Requests.NoRevokedFits | apps/time-off-service/src/time-off-requests/time-off-requests.service.ts:258-274 | no revoked request would fit into what remains at the end |
| Requests.RevokedAreReported | apps/time-off-service/src/time-off-requests/time-off-requests.service.ts:245-275 | the returned list is exactly the ids whose status changed, in creation order |
| Requests.GreedyIdempotent | apps/time-off-service/src/time-off-requests/time-off-requests.service.ts:249-275 | a second pass over the same balance revokes nothing |
| TimeOffRequests.TimeOffRequestsService.SumInflightDays | apps/time-off-service/src/time-off-requests/time-off-requests.service.ts:278-287 | the loop returns the days waiting on the key plus the days approved on it |
| TimeOffRequests.TimeOffRequestsService.FindOverlappingRequest | apps/time-off-service/src/time-off-requests/time-off-requests.service.ts:289-301 | the loop returns the first active overlapping request of the employee, or none iff there is none |
| TimeOffRequests.TimeOffRequestsService.CreateRequest | apps/time-off-service/src/time-off-requests/time-off-requests.service.ts:44-89 | checks in the source's order with its errors; success appends one pending request, failure changes nothing |
| TimeOffRequests.TimeOffRequestsService.Approve | apps/time-off-service/src/time-off-requests/time-off-requests.service.ts:112-154 | status, debit and outbox row change together or not at all |
| TimeOffRequests.TimeOffRequestsService.Reject | apps/time-off-service/src/time-off-requests/time-off-requests.service.ts:156-163 | only the request's status and reason change |
| TimeOffRequests.TimeOffRequestsService.Cancel | apps/time-off-service/src/time-off-requests/time-off-requests.service.ts:165-203 | refund and outbox row exactly when the request carried a debit or had reached HCM, together with the status or not at all |
| TimeOffRequests.TimeOffRequestsService.MarkHcmConfirmed | apps/time-off-service/src/time-off-requests/time-off-requests.service.ts:206-217 | an APPROVED request ends HCM_CONFIRMED with the transaction's id, every other request stays as it is, and in any other status nothing changes |
| TimeOffRequests.TimeOffRequestsService.MarkHcmRejected | apps/time-off-service/src/time-off-requests/time-off-requests.service.ts:220-234 | rejects and refunds a non-terminal request, ignores a terminal or missing one, and changes nothing if the refund fails |
| TimeOffRequests.TimeOffRequestsService.RevalidateAfterBalanceChange | apps/time-off-service/src/time-off-requests/time-off-requests.service.ts:241-276 | the loop leaves the requests and returns the ids of the greedy pass |
| Hcm.SubmitKeepsMaps | apps/mock-hcm/src/common/hcm-store.ts:21-67 | every submission keeps index and transactions inverse to each other and balances under their own keys |
| Hcm.OneTransactionPerKey | apps/mock-hcm/src/common/hcm-store.ts:54-63 | two recorded transactions with one idempotency key are the same one |
| Hcm.AcceptedOnce | apps/mock-hcm/src/transactions/transactions.controller.ts:52-67 | repeating a recorded key changes nothing in any mode, returns the first transaction for the same fields, and conflicts iff the fields differ and the mode looks |
| Hcm.NewKeyIsBookedIff | apps/mock-hcm/src/transactions/transactions.controller.ts:35-115 | a new key is recorded, with its payload, iff HCM is reachable, in no refusing mode, and can book it (a debit of exactly the balance included); then one balance moves by the days unless SILENT_ACCEPT, and otherwise nothing changes |
| Hcm.RefusalAnswer | apps/mock-hcm/src/transactions/transactions.controller.ts:29-91 | which answer a key that is not booked gets, by mode, balance and amount |
| Hcm.LedgerBalances | apps/mock-hcm/src/transactions/transactions.controller.ts:52-115 | over any calls outside SILENT_ACCEPT each balance is its seed minus recorded debits plus recorded credits and stays non-negative |
| Hcm.FindIsTheRecorded | apps/mock-hcm/src/common/hcm-store.ts:54-57 | in a well-formed store a lookup returns the only transaction recorded under the key, and fails only if no transaction carries it |
| Hcm.FindAfterRecord | apps/mock-hcm/src/common/hcm-store.ts:54-63 | recording then looking up returns the recorded transaction under its key and what was there under every other key, and the maps still agree |
| Hcm.HcmStore.FindTransactionByIdempotencyKey | apps/mock-hcm/src/common/hcm-store.ts:54-57 | if the maps agree, a result carries the key and is a recorded transaction, and no result means that no recorded transaction carries it |
| Hcm.TransactionsController.SubmitTransaction | apps/mock-hcm/src/transactions/transactions.controller.ts:24-116 | the endpoint's branches give the specified store and response; a new key is accepted iff HCM is reachable, in no refusing mode, knows the balance, and the payload is a credit, ignored by SILENT_ACCEPT, or no more than the balance |
| Sync.BatchCounts | apps/time-off-service/src/sync/sync.service.ts:74-138 | applied, created and staled equal the batch length, the distinct keys that had no row, and the live rows the batch did not mention |
| Sync.DriftCounts | apps/time-off-service/src/sync/sync.service.ts:86-94 | the drift counter is the number of rows that find a row with other days, over the balances left by the rows before them |
| Sync.ReportedIffRevoked | apps/time-off-service/src/sync/sync.service.ts:111-117 | the report names a request iff the batch changed it, and then it was waiting and is HCM_REJECTED as balance_revoked |
| Sync.MentionedKeyIsLive | apps/time-off-service/src/sync/sync.service.ts:74-138 | after a batch a mentioned key's row holds, live, one of its latest batch rows, unless it was newer than all of them and stayed as it was |
| Sync.BatchComplete | apps/time-off-service/src/sync/sync.service.ts:62-141 | afterwards each batch row's key has a row at least as new, and each live row is one the batch mentioned |
| Sync.LiveRowsAreInBatch | apps/time-off-service/src/sync/sync.service.ts:120-138 | without colons in employee ids, a live row's own key is in the batch |
| Sync.RowReserves | apps/time-off-service/src/sync/sync.service.ts:74-117 | a batch row keeps the reservation of every key, although it revalidates only on drift |
| Sync.BatchRevokesNothingIff | apps/time-off-service/src/sync/sync.service.ts:74-117 | for any tables and any batch, nothing is revoked and nothing reported as revoked iff each row finds its key's days as they are or leaves enough for what waits at the start |
| Sync.RepeatBatch | apps/time-off-service/src/sync/sync.service.ts:62-141 | from every start that satisfies the reservation invariant, repeating a batch creates, stales and revokes nothing, reports an empty list and keeps every row's content and every request |
| Sync.RepeatBatchAnywhere | apps/time-off-service/src/sync/sync.service.ts:62-141 | from any start it creates and stales nothing and keeps every row's content, and revokes nothing iff the rows settle on the tables the first pass left |
| Sync.SyncService.ApplyWebhookUpdate | apps/time-off-service/src/sync/sync.service.ts:30-60 | upsert, drift flag and revalidation of its key, which also follows a refused update |
| Sync.SyncService.ApplyRows | apps/time-off-service/src/sync/sync.service.ts:72-118 | the row loop's tables, counters, revoked ids and seen keys |
| Sync.SyncService.SweepAbsent | apps/time-off-service/src/sync/sync.service.ts:120-138 | exactly the live rows with unseen keys become STALE, and their number is counted, in whatever order they are visited |
| Sync.SyncService.ApplyFullBatch | apps/time-off-service/src/sync/sync.service.ts:62-141 | the whole batch and its report |
| OutboxWorkers.OutboxWorker.Submit | apps/time-off-service/src/hcm/hcm.client.ts:107-139 | the client's exchange under any deliveries, retries and losses is the protocol's deliveries and return |
| OutboxWorkers.OutboxWorker.Conclude | apps/time-off-service/src/outbox/outbox.worker.ts:92-142 | of either type, an accepted row ends SENT, a refused one FAILED_PERMANENT with one more attempt, an unanswered one FAILED_PERMANENT iff that was its last attempt and else FAILED and due after its backoff; together with telling the request this is the protocol's settle and close, and only a debit's answer can throw |
| OutboxWorkers.OutboxWorker.ProcessOne | apps/time-off-service/src/outbox/outbox.worker.ts:73-143 | one row is processed as one run of protocol steps, and a throw leaves the worker idle |
| OutboxWorkers.OutboxWorker.ProcessBatch | apps/time-off-service/src/outbox/outbox.worker.ts:61-67 | the rows of a batch in order until the first throw |
| OutboxWorkers.OutboxWorker.Tick | apps/time-off-service/src/outbox/outbox.worker.ts:57-71 | does nothing while a tick is running; otherwise one claimed batch, after which the guard is free again even if a row threw |
| OutboxWorkers.OutboxWorker.Drain | apps/time-off-service/src/outbox/outbox.worker.ts:47-55 | ticks until one throws, one processes nothing or the rounds are used up, and returns the rows processed |
| OutboxWorkers.DrainIsRun | apps/time-off-service/src/outbox/outbox.worker.ts:47-71 | for every start, environment and number of rounds, draining reaches a state that some run of the protocol reaches |
| OutboxWorkers.TickIsRun | apps/time-off-service/src/outbox/outbox.worker.ts:57-71 | a tick is the run that claims at most twenty rows and processes them in order, each once, all of them unless one throws and none after that one |
| OutboxWorkers.DrainStops | apps/time-off-service/src/outbox/outbox.worker.ts:47-55 | drain goes on exactly while ticks process something without throwing and rounds are left, ends where its last tick ends, and counts every row processed |
| Invariant.LocalKeeps | apps/time-off-service/src/time-off-requests/time-off-requests.service.ts:112-276 | every service operation keeps requests, debits, balances and outbox rows in correspondence, only appends rows and only moves requests forward |
| Reachable.StepKeepsInv | apps/time-off-service/src/outbox/outbox.worker.ts:73-143 | every protocol step keeps the joint invariant of tables, worker and HCM store |
| Reachable.RunKeepsInv | apps/time-off-service/src/outbox/outbox.worker.ts:47-143 | so every run does |
| Ledgers.LocalConservation | apps/time-off-service/src/time-off-requests/time-off-requests.service.ts:128-231 | over every run a key's balance plus the days its requests hold moves only by accepted overwrites from HCM, and a request holds days iff it is APPROVED or HCM_CONFIRMED |
| Ledgers.HcmConservation | apps/mock-hcm/src/transactions/transactions.controller.ts:52-115 | over every run each HCM balance plus what its requests have recorded moves only by operator edits and SILENT_ACCEPT records |
| Ledgers.TwoLedgerIdentity | apps/time-off-service/src/outbox/outbox.worker.ts:73-143 | in every reachable state HCM minus local is the opening gap plus the sum of days times (decremented - debit recorded + credit recorded) over the key's requests, plus drift |
| Ledgers.NoDrift | apps/time-off-service/src/balances/balances.service.ts:53-81 | runs without inbound balances, operator edits and SILENT_ACCEPT have no drift |
| Convergence.QuiescentGap | apps/time-off-service/src/outbox/outbox.worker.ts:92-125 | at quiescence the gap is the opening gap plus drift minus the days of rejected requests whose debit HCM keeps |
| Convergence.ConvergesIffNothingStranded | apps/time-off-service/src/time-off-requests/time-off-requests.service.ts:184-234 | from equal ledgers without drift, the ledgers agree on a key at quiescence iff no rejected request of it has its debit at HCM |
| Convergence.CalmRunStrandsNothing | apps/time-off-service/src/outbox/outbox.worker.ts:73-143 | while HCM handles submissions only as the client waits, outside REJECT_ALL, and replays happen only when idle and not on rejected requests, no debit is stranded, in whatever order cancels, crashes and retries come |
| Convergence.Converges | apps/time-off-service/src/outbox/outbox.worker.ts:92-125 | such runs from equal ledgers without drift end, whenever quiescent, with equal ledgers for every key |
| Convergence.GapByStatus | apps/time-off-service/src/outbox/outbox.worker.ts:73-143 | in every reachable state the gap is the opening gap plus drift plus, per request, its days for an unrecorded approved debit, minus them for a recorded rejected one, and either way for a cancelled one of whose debit and refund HCM has exactly one |
| Convergence.FinishedGap | apps/time-off-service/src/outbox/outbox.worker.ts:127-139 | when every event is SENT or given up, that sum is over exhausted debits and refunds of approved and cancelled requests and over rejected requests whose debit HCM keeps |
| Convergence.AgreeIffBalanced | apps/time-off-service/src/outbox/outbox.worker.ts:73-143 | from equal ledgers without drift, the ledgers agree on a key in a reachable state iff those contributions cancel out |
| Divergence.LateCopyDiverges | apps/time-off-service/src/outbox/outbox.worker.ts:109-125 | a concrete run of ten steps, for any day, that ends quiescent with HCM one day below the local balance |
| LostAnswer.LostAnswerDiverges | apps/time-off-service/src/outbox/outbox.worker.ts:109-143 | a run, calm but for one delivery under REJECT_ALL after a lost answer, that ends quiescent with HCM one day below the local balance |
| Exhaustion.ExhaustedThenCancelled | apps/time-off-service/src/time-off-requests/time-off-requests.service.ts:184-199 | for every attempt limit, a calm run without drift that exhausts a debit and cancels its request, and ends with nothing to submit and HCM one day above the local balance |
| Reservation.RunNonNegative | apps/time-off-service/src/balances/balances.service.ts:119-122 | no local balance goes negative in any run with non-negative inbound values |
| Reservation.ReservationHolds | apps/time-off-service/src/time-off-requests/time-off-requests.service.ts:59-66 | in every run the waiting days of a key fit its balance unless a refresh of that key was followed by no webhook for it |
| Reservation.RepeatedBatchIsIdle | apps/time-off-service/src/sync/sync.service.ts:62-141 | wherever a run stands with no key refreshed since its last webhook, a batch delivered twice creates, stales, revokes and changes nothing the second time |
| Reservation.RefreshThenRepeatRevokes | apps/time-off-service/src/sync/sync.service.ts:62-141 | after a refresh that undercuts a waiting request, two rows tied on their timestamp revoke nothing at first and that request when repeated |
| Reservation.RefreshBreaks | apps/time-off-service/src/balances/balances.service.ts:33-50 | a refresh breaks that iff its update is accepted and grants less than is waiting |
| Reservation.ApproveNeverShort | apps/time-off-service/src/time-off-requests/time-off-requests.service.ts:120-129 | under the reservation, approving a waiting request fails only on a STALE balance, never for lack of days |
| Reservation.RefundBlockedIffStale | apps/time-off-service/src/time-off-requests/time-off-requests.service.ts:177-231 | cancelling succeeds iff the request is active and, when debited, its balance is not STALE; closing a refusal of an approved request fails iff its balance is STALE |
| Reservation.TimesNeverDecrease | apps/time-off-service/src/balances/balances.service.ts:59-70 | over any stretch of any run no key's HCM timestamp decreases and no balance row disappears |
| Overlap.OneRequestPerDay | apps/time-off-service/src/time-off-requests/time-off-requests.service.ts:68-75 | in every reachable state no calendar day is covered by two active requests of one employee |
| Overlap.SharedDayNeedsTimes | apps/time-off-service/src/time-off-requests/time-off-requests.service.ts:68-75 | with any text after the dates, two active requests of an employee share a day in a reachable state only if one starts on the other's last day with a text not below the other's |
| Overlap.SecondOnTheSameDay | apps/time-off-service/src/time-off-requests/time-off-requests.service.ts:44-89 | after a request on a full date, create accepts one on the same date with a time appended iff everything else it checks holds |
| Overlap.TwoOnOneDay | apps/time-off-service/src/time-off-requests/time-off-requests.service.ts:68-75 | for every day and every appended text a run of two creations ends with two active requests of one employee on that day |
| Overlap.RunEvolves | apps/time-off-service/src/time-off-requests/state-machine.ts:12-31 | over any stretch of any run requests keep identity and data and only move forward in their lifecycle |
| Delivery.DeliveryTerminates | apps/time-off-service/src/outbox/outbox.worker.ts:127-143 | in any run an event is submitted at most maxAttempts times plus once per replay, its attempts are bounded likewise, and a claimable event has one left |
| Delivery.TotalSubmissionsBounded | apps/time-off-service/src/outbox/outbox.worker.ts:57-71 | without replays N events cause at most N times maxAttempts submissions in all |
| Delivery.ParkedUntilReady | apps/time-off-service/src/outbox/outbox.service.ts:42-53 | in any run a row the worker does not hold stays as stored and is not submitted until a claim finds it ready or it is replayed |
| Delivery.SettleOutcome | apps/time-off-service/src/outbox/outbox.worker.ts:92-143 | for debits and refunds alike, the settled row is SENT with its attempts, FAILED_PERMANENT with one more if refused or out of attempts, or FAILED with one more and due exactly after its backoff; no other row changes |
| Delivery.AnswersAreFinal | apps/time-off-service/src/outbox/outbox.worker.ts:92-125 | an accepted or refused row, of either type, stays as settled and is not submitted again in any run without a replay of it |
| Delivery.RetriesAreSpaced | apps/time-off-service/src/outbox/outbox.worker.ts:127-143 | after an unanswered submission no run resubmits the event before its backoff has passed, nor ever once it is given up, without a replay |
| Delivery.WireIsSubmitted | apps/time-off-service/src/hcm/hcm.client.ts:107-139 | exactly the rows ever submitted can still reach HCM, late or again, after any further steps, crashes included |
| Delivery.CrashAbandons | apps/time-off-service/src/outbox/outbox.service.ts:42-58 | an event in flight at a crash stays IN_FLIGHT and is never submitted again in any later run without a replay of it |
| Starvation.NoStarvation | apps/time-off-service/src/outbox/outbox.worker.ts:57-71 | the ticks that find an event ready and leave it out number at most a twentieth of the attempts left to older unfinished events, whatever arrives in between |
| Starvation.PacedReachable | apps/time-off-service/src/outbox/outbox.service.ts:66-83 | every state reached without replays, crashes included, satisfies what that bound assumes of its start |
| ExactlyOnce.RecordedOnce | apps/mock-hcm/src/common/hcm-store.ts:54-63 | in every reachable state each transaction at HCM is the debit or refund of exactly one stored request with its fields, and no other transaction has its key |
| ExactlyOnce.NeverConflicts | apps/mock-hcm/src/transactions/transactions.controller.ts:54-65 | no delivery of a stored event is ever answered with the idempotency conflict |
| ExactlyOnce.ConfirmedIsRecorded | apps/time-off-service/src/time-off-requests/time-off-requests.service.ts:206-217 | an HCM_CONFIRMED request carries the id of the transaction recorded under its own submit key with its own data |
| Outcomes.AcceptanceConfirms | apps/time-off-service/src/outbox/outbox.worker.ts:92-107 | in a reachable state, telling a request that HCM accepted its debit makes it HCM_CONFIRMED under that transaction if it is APPROVED, with every balance, event and other request unchanged, and changes nothing otherwise |
| Outcomes.RefusalRejects | apps/time-off-service/src/outbox/outbox.worker.ts:109-124 | telling it of a refusal makes an APPROVED request HCM_REJECTED with the answer's code and its days back, unless its balance is STALE: then nothing changes and the rest of the batch is dropped |
| Confirmation.BookConfirmCancel | apps/time-off-service/src/time-off-requests/time-off-requests.service.ts:112-217 | a run from the start ends with its request HCM_CONFIRMED and the day taken on both sides, and a longer one with it CANCELLED and the day back on both sides |
| ExactlyOnce.EventsByStatus | apps/time-off-service/src/time-off-requests/time-off-requests.service.ts:137-199 | how many debit and refund events a request has, for each status, in every reachable state |
| ExactlyOnce.HcmStaysNonNegative | apps/mock-hcm/src/transactions/transactions.controller.ts:84-101 | with non-negative seeds and edits no HCM balance goes negative in any run, whatever the failure modes |

## Left out

- Convergence.Converges: assumes calm runs and quiescence; `ConvergesIffNothingStranded` and `AgreeIffBalanced` state the exact conditions for all runs.
- Reservation.ReservationHolds: says when the reservation is guaranteed; after a refresh it may also hold by luck, and `RefreshBreaks` says exactly when a refresh destroys it.
- Overlap.OneRequestPerDay: speaks of requests whose dates are full dates, and `SharedDayNeedsTimes` of full dates with anything appended; other spellings the endpoint's date check lets through, such as week dates, denote no day here.
- OutboxWorkers.OutboxWorker.Submit: takes what HCM and the network do, including an open circuit, as input; the breaker itself is in `Circuit`.
- Entities are values in table sequences and maps, so two loaded copies of one row are not aliases; the worker's loaded copy and its later save of all columns are modelled explicitly.
- Interleavings inside `create`, `reject`, `markHcmConfirmed`, a webhook and a batch row: each is one step, so a write between their reads and writes is not modelled.
- Columns that decide nothing: who decided and when, confirmation and sync times, last errors, free-text reasons, `aggregateType`, the sync log. Of a rejection reason only the code is kept.
- Database errors other than a version conflict, which `mutate` rethrows.
- Deleting HCM balances and resetting the HCM store; operator edits of HCM balances are steps.
- `inclusiveDayCount`, which nothing calls.
- Floating-point rounding, the SHA-256 collision case and UUID collisions.
- Two first calls with one idempotency key at the same time, and the expiry of stored keys.
- Controllers, modules, DTO decorators, the exception filter, configuration, employees, locations and list endpoints: wiring and simple lookups.
- HTTP retries and timeouts inside axios: any number of deliveries and a lost answer stand for them.
