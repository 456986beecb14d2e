# Payroll engine: a verified model

This project models the money-moving core of a payroll and earned-wage-access service in
Dafny and proves what it promises about money. It covers five parts that share one
arithmetic base.

- **The payroll batch protocol.** A batch and its items, driven by the queue worker, the
  rollback after a refused bank call, bank callbacks, manual resolution and retry
  (`payroll_batch.dfy`, `payroll_protocol.dfy`, `payroll_callbacks.dfy`,
  `references.dfy`). Each transaction is a function on values; the class `PayrollStore`
  performs it on mutable rows and is proved to reach that state. The protocol module runs
  the transactions in any interleaving beside a bank and proves safety over whole runs.
  What each transaction does to the rows is spelled out in `payroll_effects.dfy`.
- **Earned-wage advances over a double-entry ledger.** `ledger.dfy` is the append-only
  ledger. `ewa.dfy` holds every operation that posts to it, `ewa_store.dfy` the same
  operations on mutable tables, `ewa_books.dfy` the invariant that relates balances to
  tables. What follows for every run is in `ewa_receivable.dfy` (a worker's receivable
  against the worker's debt), `ewa_theorems.dfy` (cash, deposits, coverage, approvals and
  grants), `ewa_recovery.dfy` (payroll and direct debit), `ewa_debits.dfy` (debits that
  payroll overtakes) and `ewa_requests.dfy` (repeated requests). `ewa_keys.dfy` spells out
  the idempotency keys. `eligibility.dfy` and `savings.dfy` compute what may be drawn and
  what is saved. `ewa_effects.dfy` states for each operation which rows and which posting
  it writes.
- **Hourly pay.** `hourly_pay.dfy` rates entries with shift differentials and weekly
  overtime; `time_entries.dfy` follows entries from submission to the run that pays them.
  `time_effects.dfy` states which rows each of their steps writes.
- **A payroll run.** `payroll_run.dfy` builds the items of a run out of the parts above
  and hands them to the batch protocol. `payroll_lines.dfy` derives every line of a
  committed run from the tables before it, and says exactly when a run is committed.
- **The idempotency middleware.** `idempotency.dfy` is a timed protocol on one shared key,
  with handlers of any duration, crashes and failing calls to Redis.

`money.dfy` models int64 with its wrap-around; the other modules use mathematical integers
and rely on its exactness lemmas.

## What the model assumes

- One organisation at a time. Every `WithOrgScope` transaction is one atomic step, and so
  are a callback's lookup and the transaction that follows it. The queue worker takes no
  lock on the payroll, so this is an assumption about isolation.
- The bank processes a submitted line at most once, never after it has definitively refused
  the submission, and calls back only with what happened. An admin attests what happened,
  once the bank call for the line is over. `PayrollProtocol.StrayCallback` shows what one
  untruthful callback can do, `PayrollProtocol.StrayFailurePaysTwice` that it can end in a
  double payment.
- Generated identifiers are fresh; rows are identified by their index. Advances are kept in
  the order they were requested.
- The constraints of the database hold: positive amounts, `recovered_kobo` between zero and
  `amount_kobo`, one pending debit per advance, non-negative salaries, rates and items,
  multipliers of at least 10000, advance policies within their bounds. A transaction that
  would break one rolls back. With the constraint on `recovered_kobo` the receivable
  invariant needs no condition on debits that are pending when payroll or a write-off
  reaches the advance; `EwaDebits` says what becomes of such a debit.
- The active employees of a run have distinct identifiers.
- Days are numbers, day 0 a Monday, so that the ISO week of a day is its number divided
  by 7.

## Findings

What the code does not promise, each with an input and the exact condition.

- A write-off is said in its comment to zero the receivable. It credits the full amount, so
  writing off an advance of which something was recovered leaves a negative balance
  (`EwaReceivable.WriteOffOvershoots`). Receivable and debt fall by the same amount if and
  only if nothing was recovered (`EwaReceivable.WriteOffLowers`).
- A direct debit that is pending when the advance is written off may still land: its success
  handler does not look at the advance's status, and the receivable falls below zero by the
  whole debit (`EwaReceivable.LateDebitOvershoots`). Receivable and debt fall by the same
  amount if and only if the advance is not written off (`EwaReceivable.CollectionLowers`).
  Over a whole run these two calls are all that can separate them, and
  `EwaReceivable.ShortByHarm` says by how much.
- Funding exposure is read in NGN for draws whatever the organisation's currency. With
  coverage demanded, an organisation in another currency is never granted a draw, however
  much it has paid in (`EwaTheorems.CoveredDrawIff`, `EwaTheorems.SameRunTwoCurrencies`).
- `MulInt` answers wrongly for MinInt64 times -1 and for no other pair
  (`Money.MulIntExact`).
- `Percent` rounds correctly for every amount and numerator if and only if the denominator
  is not negative and at most (2^64 - 1) / 3 (`Money.PercentExactIff`).
- A confirmed direct debit is recorded if and only if nothing was recovered on the advance
  since the attempt was made (`EwaDebits.RecordedIff`). When payroll came first, the
  confirmation is rolled back although the worker's account was debited in full
  (`EwaDebits.PayrollOvertakesDebit`), and the pending row keeps every later attempt out
  until the debit is reported as failed (`EwaDebits.OvertakenIsStuck`).
- A handler that outlives the in-flight TTL can be joined by a second one
  (`Idempotency.SlowHandlerOverlaps`). Over every run two handlers overlap if and only if
  somebody claims the key while a handler is running beyond the TTL
  (`Idempotency.OverlapIff`).
- The final SET and DEL do not look at who holds the key, so the late failure of a slow
  handler deletes the stored success of another and the next request is executed again
  (`Idempotency.LateFailureErasesSuccess`). A success is final, whatever follows, if and only
  if no other handler is running when it is stored (`Idempotency.FinalIff`).

## Model

| member | source | states |
|---|---|---|
| `Money.AddExact` | pkg/money/money.go:156-165 | Under wrap-around, Add returns the exact sum, or ErrOverflow exactly when the sum does not fit |
| `Money.SubExact` | pkg/money/money.go:180-186 | The same for Sub |
| `Money.MulIntExact` | pkg/money/money.go:190-199 | MulInt returns the exact product or ErrOverflow for every pair except MinInt64 times -1, where it returns a wrong value |
| `Money.PercentExact` | pkg/money/money.go:202-232 | For every denominator of 1 to (2^64-1)/3 Percent is the nearest integer, ties to even, or ErrOverflow exactly when the product does not fit |
| `Money.PercentLosesTheWhole` | pkg/money/money.go:214-231 | For every denominator above (2^64-1)/3 the doubled remainder wraps to the wrong side: d-1 parts of d are rounded to 0 where 1 is right |
| `Money.PercentExactIff` | pkg/money/money.go:202-232 | A denominator is right for every amount and numerator that MulInt multiplies correctly if and only if it is between 0 (an error) and (2^64-1)/3 |
| `Money.NearestEvenUnique` | pkg/money/money.go:202-232 | At most one integer is nearest with ties to even, so the rule determines Percent |
| `Money.RoundMonotone` | pkg/money/money.go:202-232 | Rounding never reverses an order |
| `Money.RoundShare` | pkg/money/money.go:202-232 | A share of at most 100% is never negative and never more than the whole |
| `Money.Sum` | pkg/money/money.go:284-294 | Sum is the exact total, and overflows exactly when some prefix leaves int64 |
| `References.MatchIsThePattern` | internal/models/payroll_item.go:26-45 | The matcher accepts exactly the texts of the reference pattern and splits them at the one possible place |
| `References.PrintThenParse` | internal/models/payroll_item.go:19-45 | For every item ID and every attempt of at least 1, parsing the printed reference returns that ID and attempt |
| `References.ReferencesInjective` | internal/models/payroll_item.go:19-24 | Two (item, attempt) pairs never share a reference |
| `References.ParseThenPrint` | internal/models/payroll_item.go:31-45 | Printing a parsed reference gives the text back if and only if its attempt was not zero-padded |
| `PayrollBatch.SendableCount` | internal/workers/payroll_worker.go:92-128 | The counter that phase 1 stores is the number of items it marks processing |
| `PayrollBatch.PayrollStore.TransitionItem` | internal/models/models.go:99-111 | The compare-and-swap wins exactly when the row holds the expected status and the edge exists, and changes that row only |
| `PayrollBatch.PayrollStore.ReconcilePayrollStatus` | internal/services/payroll_settlement.go:114-143 | Closes the batch as failed exactly when some item is failed, else as completed |
| `PayrollBatch.PayrollStore.SettlePayrollItem` | internal/services/payroll_settlement.go:40-105 | Item swap, guarded decrement and close, as one all-or-nothing change of the whole batch |
| `PayrollBatch.PayrollStore.HandleCallback` | internal/api/handlers/webhook_handler.go:135-238 | Superseded attempts, settled items, other events and mismatched amounts change nothing; the rest settles the item |
| `PayrollBatch.PayrollStore.ResolveItem` | internal/services/payroll_lifecycle_service.go:257-317 | Manual resolution with its refusals: no note or evidence, not processing, not yet overdue |
| `PayrollBatch.PayrollStore.ProcessPhaseOne` | internal/workers/payroll_worker.go:46-153 | A duplicate task changes nothing; otherwise pending items become processing or, without an employee, failed, and the sendable ones are returned |
| `PayrollBatch.PayrollStore.FailBatchBeforeSend` | internal/workers/payroll_worker.go:255-264 | A definitive refusal returns every processing item to pending and fails the batch |
| `PayrollBatch.PayrollStore.FinalizePayroll` | internal/workers/payroll_worker.go:269-297 | A batch with nothing to send is resolved from its items |
| `PayrollEffects.FinalizeResolves` | internal/workers/payroll_worker.go:269-297 | In every reachable state with nothing to send, resolving the batch leaves the items alone and makes it failed if and only if some item is failed, completed if and only if all are completed |
| `PayrollEffects.CallbackEffect` | internal/api/handlers/webhook_handler.go:156-238 | In every reachable state a callback settles its item if and only if it is for the current attempt of an item in flight and reports a failure or exactly the item's amount; the counter falls by one, and the last outcome closes the batch by its items |
| `PayrollEffects.ResolveEffect` | internal/services/payroll_lifecycle_service.go:257-317 | In every reachable state, which manual resolutions are refused and why, and that any other settles the item as attested |
| `PayrollEffects.StartEffect` | internal/workers/payroll_worker.go:46-153 | Row by row: which items go to the bank, which fail, which stay, and the counter is the number sent |
| `PayrollEffects.RollbackEffect` | internal/workers/payroll_worker.go:255-264 | Row by row: exactly the items in flight go back to pending, and the batch is failed |
| `PayrollEffects.RetryEffect` | internal/services/payroll_lifecycle_service.go:74-170 | Row by row: exactly the failed items of active employees go back to pending under the next attempt; the answer counts the waiting items |
| `PayrollBatch.PayrollStore.RetryFailedItems` | internal/services/payroll_lifecycle_service.go:74-170 | Failed items of active employees go back to pending under the next attempt number; the batch row is not touched |
| `PayrollProtocol.StepKeeps` | internal/services/payroll_settlement.go:40-94 | Every step of every actor keeps the protocol's invariant |
| `PayrollProtocol.CounterMatchesItems` | internal/workers/payroll_worker.go:92-151 | In every reachable state: processing means the counter is the number of processing items and none is pending; pending or failed means none is processing; completed means all are |
| `PayrollProtocol.GuardNeverFires` | internal/services/payroll_settlement.go:58-94 | In every reachable state a callback or a manual resolution that changes anything finds the counter above zero and lowers it by one |
| `PayrollProtocol.ReferenceSubmittedOnce` | internal/workers/payroll_worker.go:211-240 | Over every run a bank reference is in at most one submission that was not definitively refused |
| `PayrollProtocol.PaidAtMostOnce` | internal/services/payroll_lifecycle_service.go:122-136 | Over every run an item is paid at most once across all its attempts, and a paid item is completed or still in flight under that attempt |
| `PayrollProtocol.CompletedMeansPaid` | internal/api/handlers/webhook_handler.go:156-238 | Over every run from a new batch an item with something to pay is completed only if the bank paid it |
| `PayrollProtocol.StrayCallback` | internal/models/models.go:81-86 | An untruthful callback moves an item that is not in flight exactly when it reports a failure of the current attempt and the batch does not refuse to close on it; it then fails the item and takes one off a positive counter |
| `PayrollProtocol.RolledBackCounter` | internal/workers/payroll_worker.go:255-264 | A rolled-back batch keeps a positive counter, so such a callback reaches it |
| `PayrollProtocol.StrayFailurePaysTwice` | internal/workers/payroll_worker.go:211-240 | A run in which one late failure report of a resent reference makes the item retryable and the bank pays it twice |
| `PayrollCallbacks.OrderDoesNotMatter` | internal/services/payroll_settlement.go:40-94 | Whatever the order, delay or duplication of a round's callbacks, the state depends only on the set of items heard from |
| `PayrollCallbacks.ClosedOnce` | internal/services/payroll_settlement.go:68-94 | At most one callback closes the batch, and one does exactly when it ends closed |
| `PayrollCallbacks.RoundCloses` | internal/services/payroll_settlement.go:68-133 | Once every item in flight was heard from, exactly one callback closed the batch, every item holds its outcome, and the batch is failed exactly when some item is |
| `PayrollCallbacks.SameNewsSameState` | internal/services/payroll_settlement.go:40-94 | Two deliveries of the same callbacks, reordered and repeated, end in the same state |
| `Ledger.ValidatePosting` | internal/models/ledger.go:184-229 | Accepts exactly the balanced postings in one supported currency, although it adds up in wrapping int64 |
| `Ledger.LedgerStore.EnsureAccount` | internal/models/ledger.go:290-330 | One row per account identity, created on first use; an unsupported currency is refused |
| `Ledger.LedgerStore.PostTransaction` | internal/models/ledger.go:239-282 | Appends a valid request under a new key; a replay returns the stored transaction and writes nothing; an invalid one is refused |
| `Ledger.LedgerIsFirstValid` | internal/models/ledger.go:239-282 | For every sequence of requests the ledger is the first valid request per (org, key), in order |
| `Ledger.ReplayIsNoOp` | internal/models/ledger.go:239-258 | A request under a key that is taken changes nothing, whatever its entries |
| `Ledger.PostedIsBalanced` | internal/models/ledger.go:184-282 | After every sequence of requests, replays and refusals included, debits equal credits per organisation and currency |
| `Ledger.TrialBalance` | internal/models/ledger.go:336-359 | In every ledger of valid postings debit-normal balances sum to credit-normal balances over all accounts of an organisation in a currency |
| `Eligibility.WorkingDaysBetween` | internal/services/ewa_service.go:128-136 | The day-counting loop counts the weekdays of the range, and zero for an empty one |
| `Eligibility.AccrualMonotone` | internal/services/ewa_service.go:95-125 | Accrued wages never fall as days pass |
| `Eligibility.AccrualBounds` | internal/services/ewa_service.go:95-125 | Accrued wages are never negative and never more than the salary |
| `Eligibility.AccrualExact` | internal/services/ewa_service.go:95-125 | Accrued wages are the salary times the weekdays of the month that are over by all its weekdays, to nearest with ties to even; an error exactly when the product overflows |
| `Eligibility.CapsOrdered` | internal/services/ewa_dependency.go:367-393 | Tier cap at most policy cap at most accrued wages; no tier goes below the emergency floor; the overflow branch of the tier cap is unreachable |
| `Eligibility.CapsAreLimits` | internal/services/ewa_service.go:457-480 | The policy cap is the smaller of the absolute cap and the nearest-even percentage of accrued wages; strained workers have half of it and dependent ones the emergency floor, nobody less than the floor unless the cap is lower |
| `Eligibility.FlooredSubIsSub` | internal/services/ewa_service.go:487-546 | The floored difference is what the code gets from Sub and its guards |
| `Eligibility.ApprovesIff` | internal/services/ewa_service.go:649-690 | A draw is approved if and only if it is not blocked, at least the minimum, and with the debt so far fits the tier cap, a protected floor and, with coverage on, the funding pool |
| `Savings.DivertedLeavesPay` | internal/services/ewa_savings_service.go:153-197 | Whatever the election, savings are never negative and never take all of the pay |
| `Savings.RoundUpReachesMultiple` | internal/services/ewa_savings_service.go:221-230 | The round-up delta is the least amount that reaches a multiple of the unit |
| `Savings.DivertedIsElected` | internal/services/ewa_savings_service.go:153-197 | Diverted is the nearest-even percentage or the least amount up to the next multiple, or nothing when that is nothing or all of the pay; an error exactly when the percentage's product overflows |
| `EwaStore.Store.PostMovement` | internal/models/ledger.go:239-282 | Every ledger write of these services: one debit and one credit under one key |
| `EwaStore.Store.TransitionAdvance` | internal/models/ewa.go:51-74 | An edge the state machine lacks is an error; otherwise a compare-and-swap on the advance's status |
| `EwaStore.Store.ConfirmDisbursed` | internal/models/ewa_ledger.go:147-153 | Approved becomes disbursed, and no money is posted |
| `EwaStore.Store.CancelAdvance` | internal/models/ewa_ledger.go:29-66 | An approved advance is cancelled and its posting mirrored; any other is left alone |
| `EwaStore.Store.WriteOffAdvance` | internal/models/ewa_ledger.go:79-117 | A disbursed advance is written off by its full amount |
| `EwaStore.Store.Terminate` | internal/services/employee_termination_service.go:36-87 | An unknown employee is an error; otherwise employee and login are deactivated and every open advance is cancelled or written off |
| `EwaStore.Store.SettleAdvancesForPayrollItem` | internal/services/ewa_service.go:803-925 | The settlement loop, with its own running totals, is the recovery that Waterfall describes; neither total can overflow |
| `EwaStore.Store.OutstandingTx` | internal/services/ewa_service.go:1099-1149 | The exact sum owed on open advances up to the period, the part of it that payroll can recover, and the period's draws; an error exactly when the first does not fit |
| `EwaStore.DrawsAreCounted` | internal/services/ewa_service.go:1099-1149 | The draws are the number of the employee's approved, disbursed and settled advances of the period |
| `EwaStore.Store.RequestAdvance` | internal/services/ewa_service.go:589-764 | A replay under the client's key writes nothing; otherwise errors, declines and approvals as decided from caps, debt, floor and pool, an approval adding the row and its posting |
| `EwaStore.Store.InitiateDebit` | internal/services/d2c_collection_service.go:43-112 | With mandate and consent, a new attempt for what is owed, numbered one above the last, unless one is pending |
| `EwaStore.Store.ConfirmCollectionSuccess` | internal/models/d2c_ledger.go:35-106 | A pending attempt is recorded, posted and added to the recovered amount; a recovery past the amount rolls back |
| `EwaStore.Store.ConfirmCollectionFailure` | internal/models/d2c_ledger.go:116-157 | A pending attempt fails, and the fourth failure writes the advance off |
| `EwaTheorems.DepositEffect` | internal/models/funding.go:45-66 | A deposit raises the pool and lowers the exposure by its amount once per provider reference; a repeated reference or a non-positive amount moves nothing |
| `EwaStore.Store.IssueHardshipGrant` | internal/services/ewa_hardship_grant_service.go:48-155 | A grant to an eligible employee, with a reason and within the headroom, adds its row and posting; any other is refused |
| `EwaStore.Store.FailGrant` | internal/models/hardship_grant.go:61-100 | An unresolved grant is failed and its posting reversed |
| `EwaTheorems.GrantForward` | internal/models/hardship_grant.go:19-100 | Through any run a grant keeps its amount and only moves forward: submitted is not pending again, disbursed and failed are final |
| `EwaBooks.StepKeeps` | internal/services/ewa_service.go:736-764 | Every operation keeps every balance equal to what the tables say, the rows within their bounds and every used key accounted for |
| `EwaBooks.RunKeeps` | internal/models/ewa_ledger.go:29-117 | So does every run from an empty organisation |
| `EwaReceivable.ReceivableOverRuns` | internal/services/ewa_service.go:850-904 | After every run a worker's advance_receivable is what is owed on open advances less what was recovered on written-off ones |
| `EwaReceivable.ReceivableIsDebt` | internal/services/ewa_service.go:1123-1148 | After a run the balance is the debt that eligibility reads if and only if no call of the run was harmful, judged by the tables before the call: no write-off of an advance recovered in part, no debit landing on a written-off one |
| `EwaReceivable.ShortByHarm` | internal/models/d2c_ledger.go:35-106 | After every run the receivable is below the debt by exactly the sum of what the harmful calls took |
| `EwaReceivable.WriteOffLowers` | internal/models/ewa_ledger.go:79-117 | In every reachable state a write-off lowers the receivable by the amount and the debt by what is owed; they agree if and only if nothing was recovered |
| `EwaReceivable.CollectionLowers` | internal/models/d2c_ledger.go:35-106 | In every reachable state a landing debit lowers the receivable by its amount, and the debt by as much if and only if the advance is not written off |
| `EwaReceivable.WriteOffOvershoots` | internal/models/ewa_ledger.go:68-109 | A concrete run in which a write-off leaves the receivable 40 below zero with nothing owed |
| `EwaReceivable.LateDebitOvershoots` | internal/models/d2c_ledger.go:35-103 | A concrete run in which a debit lands after the write-off and leaves the receivable 100 below zero with nothing owed |
| `EwaTheorems.CashOverRuns` | internal/models/funding.go:32-78 | After every run cash_settlement is draws not cancelled plus live grants less deposits less successful debits; the expense accounts hold the write-offs and the grants |
| `EwaTheorems.FundingIsDeposits` | internal/models/funding.go:43-66 | The funding balance counts each deposit reference once, at its first delivery |
| `EwaTheorems.NeverUncovered` | internal/services/ewa_service.go:530-546 | With coverage always on, cash_settlement stays at or below zero through every run, in every currency |
| `EwaTheorems.ApprovedIff` | internal/services/ewa_service.go:457-546 | A request is approved if and only if it fits the worker's guardrails, caps and floor and, with coverage on, the NGN cash account |
| `EwaEffects.RequestEffect` | internal/services/ewa_service.go:589-764 | A repeat by the same employee and an error write nothing; any other request adds one row, approved with its posting if and only if it fits the limits and the pool, else declined |
| `EwaEffects.CancelEffect` | internal/models/ewa_ledger.go:29-77 | Exactly an approved advance is cancelled, and the draw is taken back in full |
| `EwaEffects.TerminateRows` | internal/services/employee_termination_service.go:64-83 | Row by row: the worker's approved advances are cancelled, the disbursed ones written off, every other row is as before, none of the worker's stays open |
| `EwaEffects.TerminateLowers` | internal/services/employee_termination_service.go:64-83 | In every reachable state the worker's receivable falls by the amounts of the worker's open advances |
| `EwaEffects.InitiateEffect` | internal/services/d2c_collection_service.go:43-112 | An attempt is made if and only if it is authorized, the advance is disbursed with something left to recover and no attempt is pending; it is for all that is left and numbered after the highest |
| `EwaEffects.CollectEffect` | internal/models/d2c_ledger.go:35-106 | Exactly a pending debit for no more than is owed is recorded and posted, and settles the advance when that recovers it in full |
| `EwaEffects.FailEffect` | internal/models/d2c_ledger.go:116-157 | A pending debit is marked failed, and the fourth failure of a disbursed advance writes it off |
| `EwaEffects.PayRows` | internal/services/ewa_service.go:803-925 | A paid item treats every advance as the closed form of the waterfall says; nothing is written if and only if the savings percentage overflows |
| `EwaEffects.IssueEffect` | internal/services/ewa_hardship_grant_service.go:48-155 | A grant is made, with its row and posting, if and only if the amount is positive, the employee eligible and, with coverage on, the organisation's own pool covers it |
| `EwaEffects.GrantEffect` | internal/models/hardship_grant.go:19-104 | Which news of a grant is still heard, what it makes of the row, and that only a failure posts |
| `EwaTheorems.CoveredDrawIff` | internal/services/ewa_service.go:530-546 | With coverage demanded, a request in any reachable state is approved if and only if the currency is NGN and it fits the worker and the organisation's own pool |
| `EwaTheorems.SameRunTwoCurrencies` | internal/services/ewa_service.go:530-546 | The same deposit and the same request: approved in NGN, declined in USD |
| `EwaTheorems.ApprovalWithinCaps` | internal/services/ewa_service.go:457-546 | In every reachable state, right after an approval all open debt is within tier cap, policy cap, absolute cap and, up to rounding, the policy's percentage of accrued wages, and a protected floor stands |
| `EwaKeys.TextsAreDistinct` | internal/services/ewa_service.go:866-871 | The texts of two different idempotency keys differ, whatever reference a provider sends |
| `EwaRequests.OneAdvancePerKey` | internal/services/ewa_service.go:610-622 | Over every run there is at most one advance per employee and client key |
| `EwaRequests.RepeatedRequest` | internal/services/ewa_service.go:610-622 | A recorded keyed request changes nothing when it is repeated at any later point of any run |
| `EwaRecovery.Waterfall` | internal/services/ewa_service.go:803-925 | The loop withholds exactly min(available, owed on disbursed advances), gives each advance what the older ones leave, and cancels approved ones at no cost |
| `EwaRecovery.OldestFirst` | internal/services/ewa_service.go:803-925 | When an advance gets anything, every older one was recovered in full |
| `EwaRecovery.OnePartial` | internal/services/ewa_service.go:803-925 | At most one advance is recovered in part |
| `EwaRecovery.SettledWhenWhole` | internal/services/ewa_service.go:894-904 | An advance is settled exactly when its whole amount is recovered |
| `EwaRecovery.WaterfallPosts` | internal/services/ewa_service.go:862-883 | The worker's wage_payable is debited by exactly what was withheld, nobody else's moves |
| `EwaRecovery.DebitOnlyRun` | internal/services/d2c_collection_service.go:43-112 | Through any run an advance left to direct debit has at most four attempts, numbered consecutively, all but the last failed, and its status follows from the last |
| `EwaRecovery.DebitCounts` | internal/models/d2c_ledger.go:35-157 | Such an advance has at most one attempt pending, is written off exactly after four failures, settled exactly after one success, and recovered in full or not at all |
| `EwaDebits.RecordedIff` | internal/models/d2c_ledger.go:35-106 | Over every run, at any time while an attempt is pending: its success is recorded if and only if nothing was recovered on the advance since it was made, that is, if it is not for more than is still owed; otherwise nothing is written |
| `EwaDebits.OvertakenIsStuck` | internal/models/d2c_ledger.go:79-91 | A pending debit for more than is owed stays so through every run in which it is not reported as failed: confirming it changes nothing and no new attempt is made |
| `EwaDebits.PayrollOvertakesDebit` | internal/models/d2c_ledger.go:79-91 | A run: 100 drawn and debited, 40 taken by payroll first, the confirmation is not recorded |
| `HourlyPay.RegularClosedForm` | internal/services/hourly_pay_service.go:103-134 | One pass credits a week with what is left under the threshold after the minutes already paid, in whatever order the entries come |
| `HourlyPay.SplitWeek` | internal/services/hourly_pay_service.go:103-134 | A week split over any number of runs has the regular minutes of one pass: min(threshold, total paid) |
| `HourlyPay.SplitRuns` | internal/services/hourly_pay_service.go:103-134 | Over all weeks together, any runs over the same work find the regular minutes of one pass |
| `HourlyPay.SameWeeksSameRegular` | internal/services/hourly_pay_service.go:103-134 | Only the minutes of each week decide, not order or size of the entries |
| `HourlyPay.ScaleIsPercent` | internal/services/hourly_pay_service.go:136-170 | The scaling used in the specification is Percent |
| `HourlyPay.PayEntry` | internal/services/hourly_pay_service.go:136-171 | The wrapping arithmetic of one entry gives what it earns at its nearest-even rates, with the premium on the overtime portion alone, or an error exactly when a product overflows |
| `HourlyPay.PayIsEarned` | internal/services/hourly_pay_service.go:136-167 | The shift rate, the base, the extra rate and the premium are each the nearest-even of their own product, the premium on the overtime minutes alone; refused exactly when some product leaves int64 |
| `HourlyPay.GrossIsSlips` | internal/services/hourly_pay_service.go:108-188 | The totals are sums over one slip per entry, which states its overtime from the minutes of its week before it and the amounts it earns |
| `HourlyPay.GrossFitsIff` | internal/services/hourly_pay_service.go:136-167 | There are totals if and only if no product of any entry leaves int64 |
| `HourlyPay.SlipWeek` | internal/services/hourly_pay_service.go:120-131 | Over the slips of a pass every week has the regular minutes that were left under its threshold |
| `HourlyPay.ComputeHourlyGross` | internal/services/hourly_pay_service.go:88-188 | With each week seeded by what was paid before, fails exactly when some entry's pay or the total overflows, else returns the sums over one slip per entry |
| `HourlyPay.BreakdownMinutes` | internal/services/hourly_pay_service.go:122-134 | The minutes of the breakdown are those of the closed form, and regular plus overtime is all the work |
| `HourlyPay.NeverCut` | internal/models/payroll_policy.go:11-60 | With multipliers of at least 1.0x, entries whose gross does not overflow have one at 1.0x that does not, and gross is never below it, through both roundings |
| `TimeEntries.TimeSheet.SubmitTimeEntry` | internal/services/time_entry_service.go:68-130 | A claim within 24 hours of its day becomes a pending entry, any other is refused |
| `TimeEntries.TimeSheet.ApproveTimeEntry` | internal/services/time_entry_service.go:138-169 | A pending entry is approved unless its day would pass 24 hours |
| `TimeEntries.RejectedNeverPaid` | internal/services/time_entry_service.go:174-191 | A rejected entry is never approved or paid, whatever follows |
| `TimeEntries.TimeSheet.UnpaidApprovedEntriesThrough` | internal/models/time_entry.go:201-217 | Exactly the approved, unpaid entries before the bound, their work oldest first |
| `TimeEntries.TimeSheet.PaidMinutesInISOWeek` | internal/models/time_entry.go:227-239 | The approved and paid minutes of the week |
| `TimeEntries.TimeSheet.SeedWeeks` | internal/services/hourly_pay_service.go:103-118 | Looks up the paid minutes of every week that has work in it |
| `TimeEntries.TimeSheet.MarkTimeEntriesPaid` | internal/models/time_entry.go:245-252 | Charges exactly the given entries to the item |
| `TimeEntries.ChargedOnce` | internal/models/time_entry.go:241-252 | Through any run an entry charged to an item stays charged to it, with the same work, and the item is made out to the entry's own employee |
| `TimeEntries.NothingLeftUnpaid` | internal/models/time_entry.go:190-217 | After a run no approved entry of an hourly worker in it dated before the bound is unpaid |
| `TimeEntries.DayIsCapped` | internal/services/time_entry_service.go:138-169 | In every reachable state nobody has more than 24 hours approved on one day |
| `TimeEffects.SubmitEffect` | internal/services/time_entry_service.go:68-130 | A claim is recorded if and only if it is for 1 to 1440 minutes, not in the future, from an eligible employee and within 24 hours with all else claimed or approved that day |
| `TimeEffects.ApproveEffect` | internal/services/time_entry_service.go:138-169 | A pending entry is approved if and only if its day then has at most 24 hours approved |
| `TimeEffects.RunEffect` | internal/models/time_entry.go:201-252 | A run charges exactly the entries of its hourly workers that are approved, unpaid, before the end of the period and not in the future, and changes no other entry |
| `TimeEffects.DueRowsOnce` | internal/models/time_entry.go:201-217 | The work found due is that of exactly the due rows, oldest day first, and there is one such list |
| `TimeEntries.OvertimeIsExact` | internal/models/time_entry.go:219-239 | Over every history of late approvals and runs, the regular minutes paid for a week are min(threshold, all minutes paid for it) |
| `PayrollRun.PaySlip` | internal/services/payroll_service.go:153-190 | Withheld is min(gross, owed), so the negative-net branch is unreachable; gross = net + withheld + diverted |
| `PayrollRun.RunAddsUp` | internal/services/payroll_service.go:114-232 | Every committed run has one balanced line per employee, exactly zero nets start completed, the total is the sum of nets, and gross is paid, recovered or saved to the last kobo |
| `PayrollRun.RunPaysAllDue` | internal/services/payroll_service.go:118-151 | After a committed run nothing due to its hourly employees is left unpaid |
| `PayrollRun.RunKeepsBooks` | internal/services/payroll_service.go:153-181 | The run keeps the books of every employee |
| `PayrollRun.SlipIsPosted` | internal/services/ewa_savings_service.go:190-217 | wage_payable is debited by exactly what was withheld and saved |
| `PayrollRun.RunStartsProtocol` | internal/services/payroll_service.go:198-232 | A committed run starts the batch protocol in one of its initial states, with a positive amount on exactly the items that are submitted |
| `PayrollRun.PayrollService.CreatePayroll` | internal/services/payroll_service.go:62-250 | Commits the whole run or, on any failure, nothing of it |
| `PayrollLines.CommittedLine` | internal/services/payroll_service.go:114-221 | Every line of every committed run, from the tables before it: the salary, or what the due entries earn with overtime after all minutes ever paid for their week; what is owed withheld, what was elected saved, the rest paid; the entries charged to the item |
| `PayrollLines.LineMinutes` | internal/services/hourly_pay_service.go:108-134 | The regular minutes of a line, summed over weeks, are min(threshold, paid after) less min(threshold, paid before); all its other minutes are overtime |
| `PayrollLines.CommittedIff` | internal/services/payroll_service.go:73-233 | A run is committed, with exactly these lines, if and only if there is a provider and somebody to pay, the tables make every line payable without overflow, and the total fits |
| `Idempotency.RedisKey.SetNX` | internal/api/middleware/idempotency.go:120-135 | Claims the key exactly when nothing live is stored under it |
| `Idempotency.RedisKey.Admit` | internal/api/middleware/idempotency.go:91-135 | Answers 409, 422 or a replay from what is stored, or claims the key; a failed lookup counts as a miss and never lets a second handler in, a failed claim is a 500 |
| `Idempotency.RedisKey.Complete` | internal/api/middleware/idempotency.go:148-157 | For whoever looks at any later time: a 2xx is replayed to the same body and refused to another until the TTL ends; after a failure everyone misses; a failing call leaves the key as it was |
| `Idempotency.OverlapIff` | internal/api/middleware/idempotency.go:20-135 | Over every run, with handlers of any duration, two handlers overlap at some point if and only if some claim is made while a handler is running beyond the in-flight TTL |
| `Idempotency.NoOverlap` | internal/api/middleware/idempotency.go:85-157 | When every handler finishes or crashes within the in-flight TTL no two overlap, in any interleaving |
| `Idempotency.SlowHandlerOverlaps` | internal/api/middleware/idempotency.go:20-21 | A run from the start in which a second handler joins one that takes 60 seconds |
| `Idempotency.FinalIff` | internal/api/middleware/idempotency.go:147-157 | A success stays stored and keeps every handler from starting for the full TTL, whatever follows, if and only if no other handler is running when it is stored |
| `Idempotency.LateFailureErasesSuccess` | internal/api/middleware/idempotency.go:154-156 | A run from the start in which the late failure of a slow handler deletes a stored 2xx and a third handler runs at once |
| `Idempotency.SuccessIsFinal` | internal/api/middleware/idempotency.go:148-157 | In every run without a claim beside an overdue handler, for the full TTL after a 2xx no handler runs and the response stays stored |
| `Idempotency.OnlyReplays` | internal/api/middleware/idempotency.go:85-157 | In such runs, for the full TTL after a 2xx, no waiting or later request is executed: it is replayed that response if its body is the same, refused if not, or told to retry |
| `Idempotency.FailureReleases` | internal/api/middleware/idempotency.go:148-157 | In such runs, after a failed handler the key stays free until someone claims it, and that request runs |
| `Idempotency.CrashReleases` | internal/api/middleware/idempotency.go:20-21 | In such runs, after a handler that crashed or whose answer could not be stored, the next claim runs if and only if the in-flight TTL is over |

## Left out

- Liveness of the batch protocol: a crash between phase 1 and the final resolution leaves the batch processing, so only safety is stated.
- Dispatch of the advance, grant and funding webhooks: their effects are steps that may happen at any time and in any order, which covers every dispatch; provider references and disbursed amounts of advances are not tracked.
- Dependency scoring, payday prediction, velocity limits and cooling-off: the tier, the accrual basis and the guardrails are inputs of a request.
- Calendar arithmetic: periods and days are numbers, the end of a period is an input.
- Row-level security, authentication, routing, JSON, audit rows, metrics, notices and free-text reasons: they do not change the money state.
- How mandates and consent are recorded: whether a debit is authorized is an input of the attempt.
- EwaStore.Store.OutstandingTx: does not return the time of the last draw, because timestamps are left out.
- EwaStore.Store.PostMovement: does not create account rows; `Ledger.LedgerStore.EnsureAccount` does, and an account without a row has balance zero.
- EwaStore.Store.RequestAdvance: takes the facts that eligibility reads outside the advance and ledger tables as an argument, because scoring and accrual sources are left out; enqueuing the disbursement after commit is left out.
- HourlyPay.ComputeHourlyGross: counts minutes in unbounded integers; only amounts of money can overflow, because an entry has at most 1440 minutes.
- TimeEntries.TimeSheet.UnpaidApprovedEntriesThrough: breaks ties between entries of one day by table position, not by generated identifier.
- TimeEntries.TimeSheet.SubmitTimeEntry: takes "hourly and active" and today's date as arguments; the parsing of shift names is left out.
- Idempotency.RedisKey.Admit: performs lookup and claim in one call, given which of the two fails; the interleaving of other requests between the two is in the step relation of the same module.
- Bills, counselling referrals, employer users, reconciliation reports and analytics: reporting or easy members.
