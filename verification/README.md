# ScriptPay payment core: a Dafny model

A model of the backend's money core and of the queues, sessions and logs around it, with
proofs of what they promise. `dafny verify dfyconfig.toml` checks everything.

## Layout

| file | contents |
|---|---|
| `Ledger.dfy` | accounts, entries, the balanced pairs, computed balances |
| `Store.dfy` | the Postgres tables, single statements, unique keys, all-or-nothing commit |
| `Bank.dfy` | every committed transaction as one atomic operation |
| `Books.dfy` | a row's journal, and balances as sums over the transaction table |
| `Protocol.dfy` | the atomic bank with its running initiators and the requests sent to Daraja |
| `Safety.dfy` | the invariants and their preservation by every atomic step |
| `Interleaving.dfy` | N workers in begin / lock / read / statement / commit steps; refinement of the atomic bank |
| `Runs.dfy` | theorems about whole interleaved runs |
| `Solo.dfy` | the converse: runs of the atomic bank carried out step by step |
| `Race.dfy` | an interleaved run from empty tables that breaks the payout books without E1 |
| `Settlement.dfy` | when a settlement goes through; confluence of repeated settlements |
| `Handlers.dfy` | result codes, routing of callbacks, unknown answers |
| `Escalation.dfy` | stuck payouts, one escalation at a time: status queries, flags, alerts; unknown answers; never settling again |
| `Passes.dfy` | escalation passes step by step, overlapping or not |
| `Services.dfy` | the services as classes over a mutable database, tied to the atomic operations |
| `Inbox.dfy` | the inbound event queue |
| `Redelivery.dfy` | an inbound event whose payment is committed and whose own update is lost |
| `Outbox.dfy` | the tenant webhook queue: one delivery, one poll |
| `Backlog.dfy` | the tenant webhook queue over many polls: waiting and blocking |
| `Tokens.dfy` | refresh-token rotation |
| `Redaction.dfy` | log redaction and natural keys |

The money core is modelled twice and the two are tied together. `Services.dfy` has the
methods as the code has them, reading and writing the tables and rolling back on a throw;
each is proved to amount to one operation of `Bank.dfy`. `Interleaving.dfy` has the same
operations cut into steps that any number of workers interleave under READ COMMITTED, with
buffered writes, FOR UPDATE and UPDATE locks held to the end, aborts and crashes anywhere;
every run of it is proved to be a run of the atomic bank, every run of the bank whose steps
stand alone to be the view of such a run, and the theorems of `Runs.dfy` are about those
interleaved runs.

## Assumptions about the environment

- A database transaction is all-or-nothing, and a write that reports failure did not commit.
- Ids are fresh: an insert with an id in use aborts. C2B and collection amounts are positive.
- Receipt, checkoutRequestId, originatorConversationId, (tenant, idempotencyKey) and the
  record's transactionId are unique, and a statement that violates one aborts its transaction.
- Writing the audit log never throws.
- **E1**, needed for payouts only and stated wherever it is used: a payout's failure callback
  is not applied while the payout's initiator is still between reserving and its accept or
  release write. `Runs.E1IsExact` shows the condition is exact and `Race.E1CanFail` is a run
  that breaks it. A handler cannot see the initiator, but it can see the status, and
  `Runs.StatusGuardIsExact` shows that "the row is no longer PENDING" is exactly the check it
  would need. Collections need no such assumption, because the checkout id a callback
  needs is written together with PROCESSING.
- Each queue has one poller; the token service's calls do not overlap. The two clock readings
  inside one rotation may differ by a stated lag. The queues' own status writes may fail, and
  their process may die at any point; the bounds say what a lost write costs.

## Where the code does something else than it says

- `lockTransaction` is documented as preventing a double credit. A double credit is already
  impossible through the reconciliation record's key (`Interleaving.StaleSettleCannotCommit`);
  what the lock does prevent is a double release (`Interleaving.StaleFailReleasesTwice`) and a
  payout both settled and released (`Interleaving.StaleOutcomesBothCommit`).
- `releaseReservation` is documented as running only on PENDING rows, and neither it nor the
  accept write checks. Without E1 that is false (`Runs.RacedAccept`, `Runs.RacedRelease`,
  `Race.E1CanFail`).
- Escalating a stuck payout creates the record that settlement then fails to create: an
  escalated payout can be failed but never settled (`Escalation.EscalatedNeverSettles`), a
  genuine success callback and an operator's resolution included.
- "An unknown answer must never be recorded as a no" fails for B2C results: a missing code
  fails the payout, and null, blank text or `false` settles it (`Handlers.B2cResultMoves`).
- "A verdict is a present, numeric ResultCode and nothing else" fails on the drift path: after
  screening out absent codes it converts whatever is left, so `false`, blank text and an empty
  array settle and credit a stuck collection (`Handlers.VerdictlessDriftMovesMoney`).
- The passive and the active path "must never diverge in how they apply a result". They
  agree on exactly the codes of `Handlers.PathsAgreeIff`; text "0", for one, fails a collection
  by callback and settles it by drift detection.
- A retry with the same idempotency key is promised "the payout already created". If it loses
  the race to its first request, its balance is checked before the key is met, so it gets that
  payout iff the balance covers both (`Services.LostRaceIsReplayedIff`).
- The internal job routes are documented as safe to call again because "each service's
  `isPolling` flag makes an overlapping call a no-op". The drift detector has no such flag, and
  its flag check and flag write have calls to Safaricom between them: two passes that overlap on
  a payout alert twice and may ask twice (`Passes.OverlapAlertsTwice`, `Passes.OverlapAsksTwice`),
  and passes are safe exactly when they do not (`Passes.CheckIsSafeIff`).
- "naturalKey uniqueness on TransID already prevents this handler running twice": a crash after
  the C2B commit does make it run again, every retry meets the receipt, and the event is
  exhausted and alerted as failed although the payment is credited
  (`Redelivery.CreditedButExhausted`).
- A tenant's webhook is sent at most five times only while the status writes commit: one that is
  lost after the POST is not counted (`Outbox.LostWritesPostForever`).
- The delivery retry delays are documented as ending in one hour; the fifth failure is final,
  so that entry of the table is never used (`Outbox.DeliveryIsBounded`).
- An empty receipt string, which an STK callback may carry, counts as absent when compared but is
  stored, and collides, as a value: it stays if it comes first and is dropped if not
  (`Settlement.EmptyReceiptDiverges`), and a second collection cannot settle with it
  (`Settlement.SecondEmptyReceiptAborts`).
- A secret that does not decrypt throws outside the attempt's own error handling, so its row keeps
  its place and no delivery due later is ever sent (`Backlog.AttemptedIffNotBlocked`).

## Model

| member | source | states |
|---|---|---|
| `Runs.RunRefines` | src/modules/payments/transaction-state-machine.ts:433-435 | For any number of workers and any interleaving of their begin, lock, read, statement, commit, abort and crash steps, the committed tables go through a run of the atomic bank: one atomic operation per commit, a stutter everywhere else |
| `Interleaving.StepRefines` | src/modules/payments/transaction-state-machine.ts:415-435 | One interleaved step is one step of the atomic bank or a stutter, and keeps the invariant under which every open transaction's plan is still what the atomic operation would do |
| `Interleaving.PlanApplies` | src/modules/payments/transaction-state-machine.ts:54-134 | A plan read earlier, if it still stands and its statements commit, leaves exactly the tables the atomic operation leaves when run at commit time |
| `Interleaving.LockedRowStays` | src/modules/payments/transaction-state-machine.ts:433-435 | While a FOR UPDATE row lock is held, no other worker's commit changes that row |
| `Interleaving.LockedBalanceGrows` | src/modules/ledger/ledger.service.ts:66-100 | While the tenant lock is held, no other worker's commit lowers the tenant's balance, so the balance read stays a lower bound; collections and releases need no lock |
| `Interleaving.EnabledStays` | src/modules/reconciliation/payout-resolution.service.ts:38-50 | Whatever other workers commit, an operation whose unlocked lookups succeeded (row found by checkout id, payout seen PROCESSING) stays enabled until its own commit |
| `Interleaving.StaleSettleCannotCommit` | src/modules/payments/transaction-state-machine.ts:415-435 | Two settlements planned from the same read cannot both commit even without the row lock, because the reconciliation record's key is unique |
| `Interleaving.StaleFailReleasesTwice` | src/modules/payments/transaction-state-machine.ts:245-272 | Two payout failures planned from the same read would, without the row lock, both commit and return the amount twice |
| `Interleaving.StaleOutcomesBothCommit` | src/modules/payments/transaction-state-machine.ts:172-272 | A settlement and a failure that both read a payout PROCESSING would, without the row lock, both commit in either order: the amount is paid out and spendable again, and leaves the reserve twice |
| `Interleaving.StaleReservesOverdraw` | src/modules/ledger/ledger.service.ts:66-137 | Two reservations planned from the same balance read would, without the tenant lock, both commit, and overdraw iff together they exceed the balance |
| `Runs.NoOverdraft` | src/modules/ledger/ledger.service.ts:111-137 | No tenant's spendable balance is ever negative in any reachable state, with no assumption on callbacks |
| `Runs.CollectionCreditedOnce` | src/modules/payments/transaction-state-machine.ts:89-125 | A collection carries exactly one credit pair iff it is SETTLED and no entry otherwise, under any interleaving; a row with a checkout id has left PENDING |
| `Runs.PayoutLifecycle` | src/modules/ledger/ledger.service.ts:139-186 | Under E1 a payout's entries are its reservation followed by at most one of discharge or release, and each account nets to a function of the status |
| `Runs.BalancesAreTableSums` | src/modules/ledger/ledger.service.ts:53-64 | Under E1 the computed balance is the SETTLED inbound amounts minus the non-FAILED outbound ones, reserved and paid are the in-flight and settled payouts, collected = spendable + reserved + paid, and debits equal credits |
| `Runs.OnePayoutPerKey` | src/modules/payments/b2c/b2c.service.ts:56-154 | Per tenant and idempotency key there is at most one payout row and one Daraja request, and the shillings requested times 100 are the amount of the row |
| `Runs.KeyReservesOnce` | src/modules/payments/b2c/b2c.service.ts:83-116 | Of any number of concurrent reservations with one tenant and key, only one ever commits |
| `Runs.LostRaceFindsWinner` | src/modules/payments/b2c/b2c.service.ts:117-132 | A reservation that passed its balance check and cannot commit met its own key: one row has that tenant and key, and the catch block's lookup finds that row and no other at every later moment |
| `Runs.C2bCommitsOnce` | src/modules/payments/transaction-state-machine.ts:327-377 | However often one confirmation is processed, crashes between commit and bookkeeping included, only one attempt commits |
| `Runs.C2bCreditedOnce` | src/modules/payments/transaction-state-machine.ts:327-377 | A receipt belongs to at most one row; that row is settled and, if inbound, has exactly one credit pair |
| `Runs.SettledIffConfirmed` | src/modules/payments/transaction-state-machine.ts:117-125 | A row is SETTLED iff its reconciliation record confirms the expected amount, which is the row's; REVERSED is unreachable |
| `Runs.OneDeliveryPerTransaction` | src/modules/payments/transaction-state-machine.ts:282-318 | Each transaction has at most one delivery, for collections always and for payouts under E1; its status and amount are the row's, and a non-empty receipt it carries is the row's too |
| `Runs.StatusFollowsTable` | src/modules/payments/transaction-state-machine.ts:14-20 | Every status change of every row is PENDING to PROCESSING or FAILED, or PROCESSING to SETTLED or FAILED, and a transition and its delivery are one commit (outbound under E1) |
| `Runs.TransitionIsTold` | src/modules/payments/transaction-state-machine.ts:282-318 | A committed settlement or failure that changes the status appends exactly one delivery, with the row's new status, receipt, direction and amount, iff the tenant had a webhook when the transaction read; otherwise none |
| `Runs.CollectionCreditsItsRequest` | src/modules/payments/stk-push/stk-push.service.ts:30-39 | A committed collection request's row keeps the request's tenant and amount, and once SETTLED credits exactly those |
| `Runs.PayoutDebitsItsRequest` | src/modules/payments/b2c/b2c.service.ts:87-108 | A committed payout request's row keeps the request's tenant, amount, originator id and key, and reserves exactly that amount from that tenant (under E1) |
| `Runs.OutcomeIsFinal` | src/modules/payments/transaction-state-machine.ts:54-272 | Once SETTLED or FAILED, a row's status and ledger entries are the same at every later moment, and a stored non-empty receipt never changes (outbound under E1) |
| `Runs.RowsPersist` | src/modules/payments/transaction-state-machine.ts:68-87 | No row is ever removed or changes tenant, direction, amount or key, and a stored non-empty receipt never changes, with no assumption on callbacks |
| `Runs.E1IsExact` | src/modules/payments/b2c/b2c.service.ts:149-154 | A failure callback leaves all payouts' entries right, whichever enabled accept or release write follows, if and only if no initiator is still running on the row |
| `Runs.PendingIsMaybeLive` | src/modules/payments/b2c/b2c.service.ts:218-233 | A payout is PENDING iff its initiator may still be running as far as the tables can tell: there is a state with these tables, meeting every invariant, in which it is |
| `Runs.StatusGuardIsExact` | src/modules/payments/b2c/b2c.service.ts:149-233 | Applying a failure result is right in every state with the given tables, whichever enabled initiator write follows, iff the payout is past PENDING |
| `Solo.RunIsRealised` | src/modules/payments/transaction-state-machine.ts:415-435 | Every run of the atomic bank whose steps stand alone is the committed view of an interleaved run of the workers, so the interleaved runs are not fewer than the code allows |
| `Solo.CommitIsRealised` | src/modules/payments/transaction-state-machine.ts:54-134 | An operation whose lookups succeed, whose lock is free and which the bank can do is done by one worker's begin, lock, read, statements and commit |
| `Race.E1CanFail` | src/modules/payments/b2c/b2c.service.ts:149-233 | An interleaved run from empty tables in which a failure result is read before the initiator's write: after the accept the payout is PROCESSING with nothing reserved; after the release twice the collected amount is spendable |
| `Runs.RacedAccept` | src/modules/payments/b2c/b2c.service.ts:149-154 | In any state with a running initiator, reachable as Race.E1CanFail shows: after a raced accept the row says PROCESSING while its money is spendable again |
| `Runs.RacedRelease` | src/modules/payments/b2c/b2c.service.ts:218-233 | In any such state: after a raced release the reservation has been given back twice |
| `Books.BalanceIsTable` | src/modules/ledger/ledger.service.ts:39-64 | If each row's entries are exactly its journal, every account of every tenant, recomputed from the entries, is a sum over the transaction table |
| `Books.AccountByStatus` | src/modules/ledger/ledger.service.ts:39-64 | Each account is a difference of plain sums of amounts by direction and status |
| `Books.BooksClose` | src/modules/ledger/ledger.service.ts:139-186 | Collected = spendable + reserved + paid, and total debits equal total credits, per tenant |
| `Books.JournalShare` | src/modules/ledger/ledger.service.ts:156-186 | What a row's journal nets to on each account of each tenant |
| `Safety.CommitKeeps` | src/modules/payments/transaction-state-machine.ts:54-377 | Every atomic operation the protocol enables keeps rows, keys, records, balances, requests, collection journals and deliveries consistent, with no assumption on callbacks |
| `Safety.PayoutStepKeeps` | src/modules/payments/b2c/b2c.service.ts:83-233 | Under E1 every step keeps payouts' journals and deliveries right and every running initiator's row PENDING |
| `Safety.GainBalance` | src/modules/ledger/ledger.service.ts:66-83 | Only a reservation lowers a spendable balance, and by its own amount |
| `Runs.SettlementCommitsIff` | src/modules/payments/transaction-state-machine.ts:66-125 | In any interleaved run the planned settlement of a PROCESSING row can commit iff at that moment its receipt is on no other row and it has no record; it then settles and confirms the amount, and aborted it changes nothing |
| `Settlement.AgreeingAttemptsSettleOnce` | src/modules/payments/transaction-state-machine.ts:54-134 | Any non-empty sequence of settle calls that carry no two different non-empty receipts goes through, reports true exactly once and ends in one closed form; empty receipts included |
| `Settlement.SettlementIsConfluent` | src/modules/payments/transaction-state-machine.ts:54-134 | Two such sequences write the same entries and record whatever their order and length; they leave the same row iff both carried the receipt, or neither did and their first calls wrote the same; the deliveries agree iff the first calls' payloads do |
| `Settlement.EmptyReceiptDiverges` | src/modules/callbacks/webhook-poller.service.ts:168-173 | An empty receipt and none, in one order and the other, leave different rows |
| `Settlement.SecondEmptyReceiptAborts` | src/modules/payments/transaction-state-machine.ts:89-94 | While one row holds the empty receipt, a settlement carrying it aborts on any other row, and one without a receipt goes through |
| `Settlement.EscalatedCannotSettle` | src/modules/reconciliation/drift-detector.service.ts:157-166 | An escalated PROCESSING payout aborts on settle and can still fail |
| `Escalation.NoiseMayBeDeleted` | src/modules/callbacks/webhook-poller.service.ts:306-442 | Deleting all queue timeouts, status-query results and timeouts and drift answers taken for no verdict from a run, escalation passes included, leaves rows, ledger, records, deliveries and alerts unchanged |
| `Handlers.QueriesDoNotMatter` | src/modules/callbacks/webhook-poller.service.ts:355-442 | No handler's effect on money depends on the status-query table |
| `Handlers.B2cResultMoves` | src/modules/callbacks/webhook-poller.service.ts:221-287 | For every code JSON can carry and every receipt, exactly when a B2C result settles a PROCESSING payout, when it fails it and when it leaves it; and which codes without a verdict read as zero |
| `Handlers.B2cReceiptIsStored` | src/modules/callbacks/webhook-poller.service.ts:251-260 | A B2C success stores, and tells, any truthy receipt value as text, and none otherwise |
| `Handlers.StkReceiptIsStored` | src/modules/callbacks/webhook-poller.service.ts:168-173 | A success callback settles a PROCESSING collection iff it has no record and no other row carries the receipt, which is then stored and told; a settled row without one is given a free, non-empty receipt; nothing else changes |
| `Handlers.OrdinaryCodeDecides` | src/modules/callbacks/webhook-poller.service.ts:168-251 | A finite number, or text that is one, settles a PROCESSING row iff it is zero and fails it otherwise, on the B2C and the drift path; on the STK callback path only the number zero settles |
| `Handlers.VerdictlessB2cHappens` | src/modules/callbacks/webhook-poller.service.ts:224-287 | On given tables a null code settles a payout and a missing one fails it |
| `Handlers.DriftMoves` | src/infrastructure/daraja/daraja.client.ts:396-416 | For every code, exactly when a drift answer settles a stuck collection, when it fails it, and when it changes nothing |
| `Handlers.VerdictlessDriftMovesMoney` | src/infrastructure/daraja/daraja.client.ts:396-416 | false, blank text and an empty array settle and credit any stuck collection without a record, and true fails it, though none is a present, numeric code |
| `Handlers.PathsAgreeIff` | src/modules/reconciliation/drift-detector.service.ts:288-306 | The callback and the drift path leave the same rows, entries and deliveries iff the code is the number zero or converts to a finite number other than zero |
| `Handlers.CallbackIsStep` | src/modules/callbacks/webhook-poller.service.ts:148-287 | What an STK or B2C result callback commits is a step the protocol enables, or nothing |
| `Handlers.DriftIsSteps` | src/modules/reconciliation/drift-detector.service.ts:265-315 | A drift answer commits at most two steps the protocol enables, the transition and then the flag |
| `Handlers.OperatorIsSteps` | src/modules/reconciliation/payout-resolution.service.ts:38-76 | What an operator's resolution commits is two steps the protocol enables, the transition and then the close |
| `Handlers.StkInitiationIsSteps` | src/modules/payments/stk-push/stk-push.service.ts:30-67 | An idle worker can take a whole-shilling collection request through create, send and accept, ending PROCESSING with its checkout id |
| `Passes.OneAlertPerPayout` | src/modules/reconciliation/drift-detector.service.ts:128-263 | If no two passes are at one payout at the same time, at most one alert is sent and at most one status query is open for it, whatever callbacks and commits fall between the steps |
| `Passes.CheckIsSafeIff` | src/modules/reconciliation/drift-detector.service.ts:140-166 | A pass that got past its flag check keeps that so, whatever happens next, iff no other pass is at the same payout |
| `Passes.OverlapAlertsTwice` | src/modules/reconciliation/drift-detector.service.ts:145-202 | Two passes past their checks of one payout, wherever they are, may both alert |
| `Passes.OverlapAsksTwice` | src/modules/reconciliation/drift-detector.service.ts:212-263 | Two passes that both looked before either stored its query leave two queries open |
| `Passes.AloneIsEscalateOne` | src/modules/reconciliation/drift-detector.service.ts:140-202 | Undisturbed, check, look, query, save and alert are one step: the escalation the service method is proved to be |
| `Escalation.EscalatedNeverSettles` | src/modules/reconciliation/drift-detector.service.ts:157-166 | Once an unsettled payout has a record, no sequence of passes, callbacks and commits ever settles it |
| `Escalation.RecordedNeverSettles` | src/modules/payments/transaction-state-machine.ts:204-227 | The same in every interleaved run: a row that has a record without being SETTLED is never SETTLED at any later moment |
| `Services.Database.UpdateTransaction` | src/modules/payments/transaction-state-machine.ts:91-94 | An update goes through iff the receipt and checkout id it writes are on no other row, and changes only the columns it names |
| `Services.TransactionStateMachine.TransitionToSettled` | src/modules/payments/transaction-state-machine.ts:54-134 | Statement by statement with rollback, the method is the atomic settlement of a collection. On a row not yet SETTLED it succeeds iff the row is an inbound PROCESSING one without a record and the receipt is free, then confirms the amount and reports true; a settled row takes any receipt but a different or taken one; the tenant is told iff the row moved and it has a webhook; a throw changes nothing |
| `Services.TransactionStateMachine.TransitionToFailed` | src/modules/payments/transaction-state-machine.ts:136-154 | The method is the atomic failure of a collection: it goes through iff the row is an inbound PENDING or PROCESSING one, fails it and tells the tenant iff it has a webhook; a throw changes nothing |
| `Services.TransactionStateMachine.TransitionPayoutToSettled` | src/modules/payments/transaction-state-machine.ts:172-231 | The same as for a collection on outbound rows: exact success condition, receipt, confirmation and delivery; a throw changes nothing |
| `Services.TransactionStateMachine.TransitionPayoutToFailed` | src/modules/payments/transaction-state-machine.ts:245-272 | The method is the atomic failure of a payout with its release: it goes through iff the row is an outbound PENDING or PROCESSING one, fails it and tells the tenant iff it has a webhook; a throw changes nothing |
| `Services.TransactionStateMachine.EnqueueWebhookDelivery` | src/modules/payments/transaction-state-machine.ts:282-318 | At most one delivery is added and none touched, and what it tells agrees with the row as the transition has just written it |
| `Services.TransactionStateMachine.RecordInboundSettlement` | src/modules/payments/transaction-state-machine.ts:327-377 | A C2B row is created settled with the given tenant, channel, amount and receipt, its pair and its record, and no delivery, or nothing is |
| `Services.B2cService.AssertSufficientBalance` | src/modules/ledger/ledger.service.ts:111-137 | Passes iff the tenant exists and the amount is positive and covered; tells the three refusals apart |
| `Services.B2cService.ReserveFunds` | src/modules/payments/b2c/b2c.service.ts:83-116 | Check, row and debit are one atomic reservation |
| `Services.B2cService.ReleaseReservation` | src/modules/payments/b2c/b2c.service.ts:218-233 | Fails the row and writes the compensating pair, whatever the row's status |
| `Services.B2cService.Initiate` | src/modules/payments/b2c/b2c.service.ts:56-206 | A known key replays its row, at once or after losing the insert race; otherwise a declined reservation changes nothing, an accepted whole-shilling payout ends reserved and PROCESSING, and any other ends FAILED with every account of every tenant as it was |
| `Services.LostRaceIsReplayedIff` | src/modules/payments/b2c/b2c.service.ts:83-132 | A request that lost the race to one with its key is replayed iff the balance the winner found covers both amounts, and is declined for insufficient funds otherwise |
| `Services.ReleaseUndoesReserve` | src/modules/ledger/ledger.service.ts:156-166 | A release is the inverse of its reservation on every account of every tenant |
| `Services.StkPushService.Initiate` | src/modules/payments/stk-push/stk-push.service.ts:22-115 | No ledger effect; success iff Daraja accepts a whole-shilling amount and the checkout id is new; the row is an inbound STK one of the caller's tenant and amount, and the checkout id is only ever written together with PROCESSING |
| `Services.PayoutResolutionService.Resolve` | src/modules/reconciliation/payout-resolution.service.ts:38-76 | Succeeds iff the payout is PROCESSING and, for SETTLED, has no record and a free receipt; then the row has the verdict and the receipt, the tenant is told, and a record there is is reconciled and, for SETTLED, confirms the amount |
| `Services.WebhookHandlers.ProcessStkCallback` | src/modules/callbacks/webhook-poller.service.ts:148-212 | Applies the verdict to the row found by checkout id; throws iff the id is missing, the transition aborts, or a success carries a receipt that cannot be read or written; the receipt email's flag is true exactly when this call settled the row |
| `Services.StkTextThrows` | src/modules/callbacks/webhook-poller.service.ts:168-173 | A success callback with a text receipt throws iff the row is PROCESSING with a record or a taken receipt, or SETTLED with a different one, or in any other status |
| `Services.WebhookHandlers.ProcessB2cResult` | src/modules/callbacks/webhook-poller.service.ts:221-288 | Applies the verdict to the payout found by originator id; throws iff the code cannot be converted, a success's parameters cannot be read, or the transition aborts, and then changes nothing |
| `Services.WebhookHandlers.ProcessTransactionStatusResult` | src/modules/callbacks/webhook-poller.service.ts:355-407 | No row, entry, record or delivery changes and no query is opened, reassigned or closed but the one answered; if queries are one per payout, that payout then awaits no answer; throws, leaving the query open, iff it is known and the parameters cannot be read |
| `Services.WebhookHandlers.ProcessTransactionStatusTimeout` | src/modules/callbacks/webhook-poller.service.ts:409-442 | The same for a status query that timed out, which never throws |
| `Services.DriftDetector.DetectStuckTransactions` | src/modules/reconciliation/drift-detector.service.ts:68-107 | A pass is the sequence of its rows' drift answers: every row ends as its own answer says, one whose query threw and every other row as it was |
| `Services.DriftDetector.RecordDriftAndReconcile` | src/modules/reconciliation/drift-detector.service.ts:265-315 | An answer taken for no verdict changes nothing; otherwise the callback's transition and then the drift flag, so that a row it moved and that has a record is flagged |
| `Services.DriftDetector.ReconcileOne` | src/modules/reconciliation/drift-detector.service.ts:88-106 | One stuck row: no other row changes, a query that throws changes nothing, and an answer settles the row iff it reads as zero, is not absent and meets no record, fails it iff it reads as another finite number, and else changes nothing |
| `Services.DriftDetector.EscalatePayout` | src/modules/reconciliation/drift-detector.service.ts:140-202 | One escalation: skip if flagged, else query, flag and alert, each failure leaving what came before; it flags exactly this payout iff the write commits, and alerts iff it was not flagged, was written and the alert goes out |
| `Services.DriftDetector.DetectStuckPayouts` | src/modules/reconciliation/drift-detector.service.ts:128-203 | A pass is the sequence of its rows' escalations: afterwards exactly those whose write committed are newly flagged, and exactly the newly flagged ones whose alert went out are newly alerted |
| `Services.DriftDetector.AttemptQuery` | src/modules/reconciliation/drift-detector.service.ts:212-263 | Never a second open query for a payout; afterwards one is open iff one was or Daraja gave a new id for a payout with an originator id, and no other payout's is affected |
| `Inbox.BoundedWait` | src/modules/callbacks/webhook-poller.service.ts:89-106 | A row with k older eligible rows is processed or exhausted after 5 * (k / 20 + 1) polls that are not cut short, whatever arrives later, whichever handlers fail and wherever polls in between are cut short |
| `Inbox.FivePollsClearTheFront` | src/modules/callbacks/webhook-poller.service.ts:89-146 | Five polls that are not cut short finish the first twenty rows and move every later row up by twenty |
| `Inbox.FrontRowIsTried` | src/modules/callbacks/webhook-poller.service.ts:94-102 | A row among the first twenty eligible is tried in every poll that is not cut short until it is finished |
| `Inbox.WebhookPoller.PollUnprocessedEvents` | src/modules/callbacks/webhook-poller.service.ts:89-106 | One poll tries the twenty oldest eligible rows once each, or those before the first whose try cannot be recorded; a tried row is processed iff its handler returned and the mark committed, and else counts an attempt; a poll during a poll does nothing; no row counts more than five tries and exactly the exhausted ones are alerted, once |
| `Inbox.WebhookPoller.FindBatch` | src/modules/callbacks/webhook-poller.service.ts:94-98 | Exactly the eligible rows with fewer than twenty older eligible rows, oldest first |
| `Inbox.WebhookPoller.ProcessEvent` | src/modules/callbacks/webhook-poller.service.ts:108-146 | Marks the row processed iff its handler returned and the mark commits, else counts the failure and alerts on the fifth, or throws with the row unchanged iff neither update commits |
| `Inbox.WebhookPoller.Ingest` | src/modules/callbacks/webhook-ingest.service.ts:30-86 | Stores a row iff the key is usable and no row has the same source and key; a redelivery changes nothing |
| `Redelivery.CreditedButExhausted` | src/modules/callbacks/webhook-poller.service.ts:499-520 | A committed C2B confirmation whose event was not marked processed is never marked so: within the usual wait it is exhausted, while the payment stays credited once |
| `Outbox.DeliveryIsBounded` | src/modules/callbacks/tenant-webhook-poller.service.ts:55-138 | The POSTs of a delivery are exactly the attempts its row counts, one more once DELIVERED, and the lost ones; at most five iff no more are lost than were left to count; the row is DELIVERED iff its last POST was accepted and marked, and no earlier one was; DELIVERED and FAILED are final, and a fifth recorded POST starts at least 2550 s after the first |
| `Outbox.LostWritesPostForever` | src/modules/callbacks/tenant-webhook-poller.service.ts:90-110 | If no status write commits, the row stays due and is POSTed any number of times |
| `Outbox.AttemptKeeps` | src/modules/callbacks/tenant-webhook-poller.service.ts:75-138 | One attempt, lost or recorded, keeps the count of POSTs, the spacing of the backoff table and the next due time in step |
| `Outbox.TenantWebhookPoller.FindDue` | src/modules/callbacks/tenant-webhook-poller.service.ts:60-65 | Up to twenty due rows, none passed over for one due later |
| `Outbox.TenantWebhookPoller.AttemptDelivery` | src/modules/callbacks/tenant-webhook-poller.service.ts:75-138 | The row is DELIVERED iff configured, accepted and the first write commits; a recorded refusal or network error counts one attempt and is due again after 30, 120, 600 or 1800 s, or is FAILED on the fifth; throws iff nothing could be recorded, and then leaves the row as it was |
| `Outbox.TenantWebhookPoller.PollPendingDeliveries` | src/modules/callbacks/tenant-webhook-poller.service.ts:55-73 | The oldest due rows are attempted once each in turn with the outcome their attempts call for, and nothing else changes; an attempt that throws cuts the batch short there |
| `Backlog.AttemptedIffNotBlocked` | src/modules/callbacks/tenant-webhook-poller.service.ts:55-87 | A due delivery with k pending rows due no later is attempted within k / 20 + 1 polls iff none of those rows is one whose attempts throw |
| `Tokens.LiveDescendantIsTail` | src/modules/auth/refresh-token.service.ts:89-103 | On a reachable table the search returns exactly the tail of the chain if it is live, and nothing otherwise |
| `Tokens.SearchMeetsNoTokenTwice` | src/modules/auth/refresh-token.service.ts:89-103 | On a reachable table the search runs through the chain and passes no token twice, so its cycle check never fires |
| `Tokens.ChainsKeep` | src/modules/auth/refresh-token.service.ts:29-137 | Every call keeps the table a disjoint union of forward paths of one user's tokens with only tails possibly live |
| `Tokens.DeadForever` | src/modules/auth/refresh-token.service.ts:57-77 | Once a family's tail is revoked without a successor, the family is the same at every later moment of the run, and presenting any of its tokens is answered as reuse |
| `Tokens.ReuseKillsFamilies` | src/modules/auth/refresh-token.service.ts:57-77 | Detected reuse leaves every family of the presenting user dead, and no one else's token changed |
| `Tokens.ReuseIsForever` | src/modules/auth/refresh-token.service.ts:57-77 | For the rest of the run those families stay as they are and presenting any of their tokens is answered as reuse again |
| `Tokens.NeverRotatesExpired` | src/modules/auth/refresh-token.service.ts:57-80 | No refresh in any run rotates an expired token, grace path included, if the lifetime is at least the window less 1 ms plus the lag between the two writes of a rotation |
| `Tokens.GraceBoundIsTight` | src/modules/auth/refresh-token.service.ts:57-80 | With any shorter non-negative lifetime three calls rotate an expired token |
| `Tokens.RefreshTokenService.FindLiveDescendant` | src/modules/auth/refresh-token.service.ts:90-103 | On any table, cyclic or dangling included, terminates and finds a token iff the chain ends in a live one |
| `Tokens.RefreshTokenService.VerifyAndRotateToken` | src/modules/auth/refresh-token.service.ts:49-87 | Exactly when each answer is given and what it leaves: nothing changed for an unknown or expired token, every token of the user revoked on reuse, the presented token or the live end of its chain replaced otherwise |
| `Tokens.RefreshTokenService.RotateToken` | src/modules/auth/refresh-token.service.ts:105-121 | The old token is revoked and linked to a new, live one of the same user, no other token changes, and on a chain's end it makes the chain one longer |
| `Tokens.RefreshTokenService.RevokeAllForUser` | src/modules/auth/refresh-token.service.ts:132-137 | Exactly the user's unrevoked tokens become revoked now; those revoked before keep their time and no one else's changes |
| `Tokens.RefreshTokenService.RevokeToken` | src/modules/auth/refresh-token.service.ts:123-129 | Only the presented token may change, a known one ends up revoked, and every family it was the end of is dead |
| `Redaction.RedactionIsExact` | src/modules/callbacks/redact-callback-payload.ts:56-71 | A key is in the summary iff it is allowlisted and some object at depth at most six holds a scalar under it; its value is the one whose path every other such field's path precedes lexicographically |
| `Redaction.IdentityIsWithheld` | src/modules/callbacks/redact-callback-payload.ts:22-50 | Phone numbers, names, amounts and account references are in no summary, wherever in the payload they stand |
| `Redaction.IdentifiersAreShown` | src/modules/callbacks/redact-callback-payload.ts:31-50 | A scalar under any of the fifteen identifying keys, at most six levels down, is in the summary |
| `Redaction.RedactionIsNoninterfering` | src/modules/callbacks/redact-callback-payload.ts:77-90 | Payloads that differ only in withheld scalars, or in anything below depth six, redact alike |
| `Redaction.NaturalKeyIsNotWithheld` | src/modules/callbacks/extract-natural-key.ts:8-41 | Such payloads also have the same natural key whenever it is a scalar |
| `Redaction.C2bKeyIsTransId` | src/modules/callbacks/extract-natural-key.ts:16-19 | A C2B confirmation's key is its TransID, iff that is text |
| `Redaction.SameC2bEventIff` | src/modules/callbacks/extract-natural-key.ts:16-19 | Two confirmations have the same key iff they carry the same TransID text |
| `Redaction.ResultKeyIsOriginator` | src/modules/callbacks/extract-natural-key.ts:30-38 | A B2C or status callback's key is its result's OriginatorConversationID, iff that is text |
| `Redaction.StkKeyIsCheckout` | src/modules/callbacks/extract-natural-key.ts:11-14 | An STK callback's key is its CheckoutRequestID, whatever it is but null |
| `Redaction.CollectSafeFields` | src/modules/callbacks/redact-callback-payload.ts:56-71 | The recursive traversal writes exactly the kept fields, in traversal order, into its accumulator |
| `Redaction.RedactCallbackPayload` | src/modules/callbacks/redact-callback-payload.ts:77-90 | The names of an object's keys in order with the kept fields, or a scalar's type |

## Left out

- Database: 32-bit column overflow, foreign keys (their share locks only remove interleavings), row-level security and columns no decision reads.
- Serialization failures and deadlocks: covered as aborts, which may happen at any step, and not modelled further.
- Safaricom's own books: a network error releases the reservation even if the request was accepted, so only facts about this ledger are stated.
- Locks in the service classes: a sequential method needs none; they are modelled in the interleaved system.
- Which stuck rows a drift pass gets: the query takes any hundred of them, so no fairness is stated.
- C2B routing by shortcode and the conversion of its amount text: the tenant and a positive amount are given, and a shortcode goes on being routed.
- A receipt that is itself a JSON object: taken as refused by the database, as numbers are.
- Several pollers on one queue: attempt counts and the wait bound are for one poller, as the in-process guard is the only exclusion.
- A process that dies between an update and the alert that follows it: that alert is lost. That a crash credits nothing twice is Runs.C2bCommitsOnce.
- Overlapping refresh calls: the two writes of a rotation are not one transaction, and calls are taken one at a time.
- JSON in log summaries: numbers are integers, and an object's keys are taken in the order Object.entries lists them.
- Receipt emails, audit entries, alert delivery beyond one count, HTTP, OAuth, encryption and hashing: side channels or foreign code.
- Controllers, guards, tenants, shortcodes, API keys and reporting: single-branch checks.
- normalizePayload and parseDarajaTimestamp: not on the processing path.
