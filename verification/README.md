# PayGate money path in Dafny

A verified model of the parts of PayGate in which money, events and promises to clients
are kept consistent by SQL transactions and a little Go:

- the card path of payments with its orders, ledger postings and outbox events,
- the double-entry ledger, balance holds and the payoutable balance,
- the idempotency protocol with its lease and its cache,
- the transactional outbox and its relays,
- the event schema registry and its compatibility check,
- keyset pagination of orders and merchant reserve policies.

Tables are maps and sequences. Every SQL transaction is one atomic step, and a step is split
wherever a lock or a gap matters: authorizations are taken apart at their order lock, sum,
insert and commit; idempotent requests at the cache read, the insert, the locked decision, the
handler, the database update and the cache write; relays at every publish attempt; schema
registrations between the check and the insert. A run is a finite sequence of steps in any
interleaving, and the main results hold for every run.

Each repository also appears as a class whose fields are its tables. Its methods follow the
Go code statement by statement and are proved equal to the operation the runs are made of.
What each operation decides and writes is stated a second time in terms of the rows alone,
without naming the operation's definition, so that both descriptions have to agree.

Check everything with `dafny verify dfyconfig.toml`.

## Modules

| file | content |
|---|---|
| Common.dfy | sums over sequences and maps, truncating division |
| Ledger.dfy | entries, postings, balances |
| Holds.dfy, Payout.dfy, HoldLaws.dfy, HoldRepository.dfy | hold lifecycle, payoutable balance, each operation in terms of its rows, the tables as a class |
| Domain.dfy | the published payment and order transition tables |
| Capture.dfy | the entries of a capture |
| CardPath.dfy, CardInvariants.dfy, CardRuns.dfy | card transactions, what each keeps, all interleavings |
| CardTheorems.dfy, CardMoney.dfy | what follows for every run |
| CardLaws.dfy, CardRepository.dfy | each transaction in terms of its rows and what rows remember, and the class with the sweepers |
| Idempotency.dfy, IdempotencyStore.dfy | the protocol in all interleavings, and the store with its middleware |
| Relay.dfy, RelayOrder.dfy, RelayWorker.dfy | outbox and relays, delivery order, the publishing loops |
| CaptureDelivery.dfy | card path and outbox together |
| Compat.dfy, Payloads.dfy | the compatibility check and what it means for payloads |
| Registry.dfy, RegistryLaws.dfy, RegistryService.dfy | versions, activations and rollouts, each operation in terms of its rows, the service with its start-up loop |
| Pagination.dfy | order listing by cursor |
| Reserve.dfy | reserve policies and escalations |

## Model

| member | source | states |
|---|---|---|
| Ledger.ValidateEntries | internal/ledger/domain.go:18-31 | accepts exactly the entry lists that balance and in which every line has one side, and blames the sides exactly when a line has two or none |
| Ledger.BuildTransaction | internal/ledger/repository.go:25-61 | the two loops compute the stored transaction: totals, the last named currency (INR if none) and one stamped line per entry |
| Ledger.CreateEntriesTx | internal/ledger/service.go:21-30 | a posting is appended, after all the others, exactly when it balances above zero, every line has one positive side on a configured account and the source is unused |
| Ledger.GetAllBalances | internal/ledger/repository.go:80-107 | one figure per configured account, each the account's debits minus credits |
| Ledger.CodesRoundTrip | migrations/000004_create_payments_and_ledger.up.sql:65-70 | every account code names one account and every configured account its own code |
| Common.TrimmedIs | internal/ledger/service.go:69-71 | trimming cuts spaces off both ends and nothing else |
| Ledger.PostKeepsLedgerOk | internal/ledger/repository.go:25-61 | every posting leaves all transactions balanced and their sources distinct |
| Ledger.CountIsOneIffUsed | migrations/000004_create_payments_and_ledger.up.sql:85 | with distinct sources a source has one posting if it is used and none if not |
| Ledger.AllBalancesSumToZero | internal/ledger/repository.go:80-107 | the balances of a merchant over all accounts sum to zero |
| Ledger.OneCurrencyIsStored | internal/ledger/repository.go:25-61 | a posting naming at most one currency is stored in one currency throughout |
| Ledger.CurrenciesBalanceIff | internal/ledger/repository.go:25-61 | every merchant nets to zero in every currency after each posting exactly when the lines of each posting cancel in every currency |
| Ledger.PostingBalancesIff | internal/ledger/domain.go:18-31 | one more posting keeps balanced currencies balanced exactly when its own lines cancel in each |
| Ledger.CurrencyTotalIsZero | internal/ledger/repository.go:109-120 | in particular, with postings in one currency each the balances sum to zero in each currency |
| Ledger.MixedCurrenciesUnbalance | internal/ledger/domain.go:18-31 | a posting that mixes currencies is accepted and leaves both currencies unbalanced |
| Holds.RunKeepsBookOk | internal/ledger/repository.go:257-317 | in every run, whatever else is posted under any source, every committed hold has its own commit posting and the ledger stays well posted |
| Holds.ReachableLedger | internal/ledger/repository.go:257-317 | in every run a merchant's balances sum to zero, and a hold is committed exactly when one ledger_hold_commit posting exists for it if and only if nobody but CommitHold has posted under that source |
| Holds.SourceUsedIff | internal/ledger/service.go:32-47 | in every run a hold's commit source is used by its commit or by another caller, never by both |
| Holds.TakenIsNeverCommitted | internal/ledger/repository.go:257-317 | a hold whose commit source another caller has taken is not committed in any continuation |
| Holds.OutsidePostingTakesSource | internal/ledger/grpc_server.go:22-43 | such a call goes through for any active hold that was just created, and leaves one ledger_hold_commit posting beside an active hold |
| Holds.FinalStatusesAbsorb | internal/ledger/repository.go:204-345 | released, committed and expired holds never change again |
| Holds.CurrenciesBalancedIff | internal/ledger/repository.go:257-317 | at every point of a run every currency balances exactly when what each posting step appends cancels per currency; hold commits always do |
| Holds.RunKeepsCurrenciesBalanced | internal/ledger/repository.go:25-61 | in every run whose postings name at most one currency, commits included, each currency balances |
| Payout.CommitSucceedsIff | internal/ledger/repository.go:257-317 | an active hold commits exactly when its account and the target are configured and nobody else has posted under its commit source |
| Payout.CommitKeepsPayoutable | internal/ledger/service.go:119-137 | committing an unlapsed SETTLEMENT_CLEARING hold to another account changes no payoutable balance, in every clamp case |
| Payout.CommitToItselfReleases | internal/ledger/service.go:94-102 | committing back to SETTLEMENT_CLEARING has the effect of a release |
| Payout.LapsedCommitDropsPayoutable | internal/ledger/service.go:119-137 | committing a lapsed hold takes its amount off the payoutable balance, down to zero |
| Payout.ReleaseRaisesAtMostAmount | internal/ledger/service.go:86-88 | a release raises the payoutable balance by between nothing and the held amount |
| Payout.SweepIsInvisible | internal/ledger/repository.go:347-372 | one sweep of due holds changes no payoutable balance after any later run, further sweeps included, in which none of the swept holds is extended or committed; commits are excluded because an unswept lapsed hold still commits, as Payout.LapsedCommitDropsPayoutable shows |
| Payout.SweepsAreInvisible | internal/ledger/repository.go:347-372 | a run with all its sweeps taken out ends with the same payoutable balances, as long as no due hold is extended or committed in it |
| Payout.ExtensionShowsSweep | internal/ledger/repository.go:232-255 | extending a due hold reserves its amount again exactly where it was not swept |
| Payout.CreateKeepsCoveredIff | internal/ledger/service.go:139-148 | a new live hold stays covered exactly when CanReserveForPayout holds in the same step |
| Payout.HoldsCoveredIff | internal/ledger/service.go:119-148 | live holds stay within the credit balance at every point of a run exactly when every step draws no more than the payoutable balance of that instant: a posting its net debit, a new or revived live hold or the commit of a lapsed one its amount |
| Payout.HoldsStayCovered | internal/ledger/service.go:119-148 | in particular in every disciplined run, so no commit drives the account into debit |
| HoldLaws.HoldCreatedIff | internal/ledger/service.go:65-76 | a hold is written exactly for a named account and source, a positive amount and a new id, and which row that is |
| HoldLaws.HoldAnswers | internal/ledger/repository.go:204-345 | release, expiry and extension act on an active hold of the merchant, show the row again when repeated, and refuse another final status |
| HoldLaws.CommitAnswers | internal/ledger/repository.go:257-317 | every answer of a commit, and the two lines it posts when it goes through |
| HoldLaws.HoldFollows | internal/ledger/repository.go:204-372 | one step in the life of any hold: terms never change, and status, expiry and target change exactly by its own operations or a sweep at its expiry |
| HoldLaws.LiveAfterExtend | internal/ledger/repository.go:232-255 | an extended hold, lapsed before or not, counts at every later instant exactly before its new expiry |
| HoldLaws.PayoutableIs | internal/ledger/service.go:119-137 | what may be paid out is the clearing credit less the amounts of active, unexpired holds, never negative |
| HoldRepository.Repository.CreateHold | internal/ledger/service.go:65-76 | trims and refuses blank or non-positive input, otherwise inserts an active hold on the trimmed account, and nothing else |
| HoldRepository.Repository.ReleaseHold | internal/ledger/repository.go:204-230 | releases an active hold, repeats a release, refuses the rest |
| HoldRepository.Repository.ExtendHold | internal/ledger/repository.go:232-255 | moves the expiry of an active hold only |
| HoldRepository.Repository.CommitHold | internal/ledger/repository.go:257-317 | posts the transfer and commits the hold together or changes nothing |
| HoldRepository.Repository.ExpireHold | internal/ledger/repository.go:319-345 | expires an active hold, repeats an expiry, refuses the rest |
| HoldRepository.Repository.ExpireDueHolds | internal/ledger/repository.go:347-372 | expires the earliest due holds up to the limit, as many as there are, and counts them; with room to spare none that is due stays active |
| HoldRepository.Repository.SumActiveHolds | internal/ledger/repository.go:187-202 | the loop sums exactly the active, unlapsed holds |
| HoldRepository.Repository.GetPayoutableBalance | internal/ledger/service.go:119-137 | credit balance minus live holds, both clamps included |
| HoldRepository.Repository.CanReserveForPayout | internal/ledger/service.go:139-148 | true exactly when the payoutable balance covers the amount |
| CaptureJournal.BuildEntries | internal/payment/postgres.go:820-851 | the fee line is two percent of the amount, rounded down; the split loop succeeds exactly when the positive splits fit in the rest, and builds receivable, fee, splits and residual |
| CaptureJournal.SplitsFitIff | internal/payment/postgres.go:824-844 | the splits fit exactly when a hundred times their positive sum is below 98 times the amount plus 100 |
| CaptureJournal.EntriesTotals | internal/payment/postgres.go:824-851 | fee, positive splits and residual partition the amount |
| CaptureJournal.EntryShapes | internal/payment/postgres.go:824-851 | every line is one-sided and on a configured account, except the fee line below 50 minor units |
| CaptureJournal.PostableIff | internal/payment/postgres.go:852-854 | the ledger takes the entries exactly from 50 minor units up and while nothing is posted under the source |
| CaptureJournal.EntriesNet | internal/payment/postgres.go:824-851 | what a capture moves on each account |
| CaptureJournal.StoredInINR | internal/ledger/repository.go:28-34 | capture entries name no currency and are stored as INR |
| CardInvariants.OneLivePayment | internal/payment/postgres.go:165-198 | a full-amount order has at most one live payment |
| CardInvariants.InsertKeepsDbOk | internal/payment/postgres.go:196-239 | an insert under the order lock within the cap keeps every table invariant |
| CardInvariants.CaptureRowsKeepDbOk | internal/payment/postgres.go:852-873 | the writes of a capture keep every table invariant and add no exposure |
| CardInvariants.RefundAllKeepsDbOk | internal/payment/postgres.go:1076-1104 | so do the writes of the window sweep, for any rows selected |
| CardRuns.StepKeepsInv | internal/payment/postgres.go:92-1109 | every step, with authorizations open at any of their stages, keeps the tables and the open transactions in order |
| CardRuns.RunKeepsInv | internal/payment/postgres.go:92-1109 | so does every run |
| CardTheorems.OrderNeverOvercharged | internal/payment/postgres.go:146-198 | in every interleaving captured amounts are at most live amounts, and these at most the order amount |
| CardTheorems.PiecesMakeTheTransaction | internal/payment/postgres.go:121-248 | the lock, sum, insert and commit steps of one authorization in a row are StartAuthorization |
| CardTheorems.CaptureSucceedsIff | internal/payment/postgres.go:793-877 | an authorized payment is captured for its amount exactly when it is at least 50, its positive splits stay within 98 percent, rounded up, and nobody else has posted under its source |
| CardTheorems.CapturePostsInINR | internal/payment/postgres.go:829-850 | a capture posts in the payment's currency exactly when that is INR |
| CardTheorems.CapturedPostedAnnounced | internal/payment/postgres.go:814-873 | in every run a payment is captured exactly when one payment.captured event exists for it, an order is paid exactly when it has a captured payment, and a payment is captured exactly when one posting exists under its source if and only if nobody outside the card path has posted under that source |
| CardTheorems.SourceUsedIff | internal/ledger/service.go:21-30 | in every run a payment's source is used by its capture or by another caller, never by both |
| CardTheorems.CaptureOrderEdgeIff | internal/payment/postgres.go:862-866 | the order write of a capture is an edge of the order table or a stutter exactly when the order is not failed |
| CardTheorems.RunFollowsOrderTableIff | internal/order/domain.go:100-121 | for every order, partial ones included, every step of every run follows the order table exactly unless it is a capture that goes through on that order while it is failed |
| CardTheorems.FullOrderRecordsCaptured | internal/payment/postgres.go:862 | in every run an order taking one full payment records as paid exactly what was captured for it |
| CardTheorems.OrderRecordsCapturedIff | internal/payment/postgres.go:862 | in every run any order does so exactly while nothing or all of its amount has been captured |
| CardTheorems.CaptureRecordsCapturedIff | internal/payment/postgres.go:862 | a capture leaves amount_paid at the captured sum exactly when it completes the order amount |
| CardTheorems.RunFollowsTables | internal/payment/domain.go:51-86 | every committed status write of every run is an edge of the payment table or a stutter, and for orders taking one full payment an edge of the order table or a stutter |
| CardTheorems.PartialOrderFailsThenPaid | internal/payment/postgres.go:1076-1091 | a run in which a partial order fails, is then paid, and records its full amount as paid with half of it captured |
| CardMoney.CapturesMoveMoney | internal/payment/postgres.go:824-854 | in every run the postings of captured payments move each account by what these payments call for |
| CardMoney.CapturesByAccount | internal/payment/postgres.go:824-854 | receivable by the captured sum, fee revenue by minus the fees on the rows, payable by minus the rest, and each fee is two percent of its amount, rounded down |
| CardMoney.PaymentPostingsAreCaptures | internal/payment/postgres.go:852-854 | where nobody else posts under a payment's source, these are all postings of source type payment |
| CardLaws.OrderCreatedIff | internal/order/domain.go:64-73 | an order is written exactly for a positive amount, INR or USD, a merchant that is not blank and a new id; it starts unpaid and lives thirty minutes |
| CardLaws.FailedAttemptWrites | internal/payment/postgres.go:92-119 | a failed attempt moves a created order of the merchant to attempted, no other row, and is announced |
| CardLaws.StartsIff | internal/payment/postgres.go:121-248 | an authorization starts exactly when the amount is positive, the method supported, the order the merchant's, open, unexpired and in the same currency, the amount the full or due one and within what live payments leave, the id new and no split negative |
| CardLaws.StartErrors | internal/payment/postgres.go:121-198 | which error each failing check gives, the first one that fails deciding |
| CardLaws.StartWrites | internal/payment/postgres.go:200-245 | one created payment on the given terms, the order attempted and one event, or nothing at all |
| CardLaws.RequireActionLaw | internal/payment/postgres.go:300-383 | writes exactly from created, with a pending challenge as given; a replay or a refusal changes nothing |
| CardLaws.AuthorizeLaw | internal/payment/postgres.go:385-445 | writes exactly from created, stamped with the database clock and the given capture time |
| CardLaws.FailAuthorizationLaw | internal/payment/postgres.go:447-507 | writes exactly from created or requires_action and with a description |
| CardLaws.CompleteChallengeLaw | internal/payment/postgres.go:575-659 | with the right token and a waiting customer the payment is authorized exactly when the completion is no later than the expiry; instants, challenge status and events in both cases |
| CardLaws.FailChallengeLaw | internal/payment/postgres.go:661-717 | with the right token fails payment and challenge together exactly from requires_action |
| CardLaws.ReverseLaw | internal/payment/postgres.go:719-791 | writes exactly from authorized and with a reason, and takes the capture time off |
| CardLaws.CaptureAnswers | internal/payment/postgres.go:793-854 | why a capture is refused, a refused one changing nothing |
| CardLaws.CaptureWrites | internal/payment/postgres.go:852-873 | the row with a fee of two percent rounded down, the order paid in full, one posting under the payment's source and two events |
| CardLaws.RefundFailsOrder | internal/payment/postgres.go:1076-1104 | the window sweep fails exactly the attempted orders of the payments it refunds |
| CardLaws.RunKeepsRows | internal/payment/postgres.go:92-1109 | in every run the instants and the challenge of a payment tell how it got its status: authorized_at is set exactly once decided, a challenge was completed in time and asks for capture half a minute later, a waiting payment has a pending challenge |
| CardLaws.CompletedInTime | internal/payment/postgres.go:591-643 | in every run a payment authorized through a challenge has authorized_at no later than the challenge's expiry and its challenge is completed; a completed challenge belongs to such a payment in every run that fails no challenge as completed |
| CardLaws.PaymentTerms | internal/payment/postgres.go:167-169 | in every run a payment has its order's merchant and currency, and a captured one a fee of two percent, rounded down |
| CardLaws.RunKeepsAgreements | internal/payment/postgres.go:121-1109 | whatever follows, no payment disappears and its order, merchant, amount, currency, method and splits never change |
| CardLaws.OrderLifetimes | internal/order/postgres.go:255-271 | in every run an order lives at most thirty minutes and expires only at the end of them |
| CardRepository.Repository.CreateOrderRow | internal/order/postgres.go:31-105 | validates and inserts an order with its event, or changes nothing |
| CardRepository.Repository.CreateFailedAttempt | internal/payment/postgres.go:92-119 | touches the order and writes the failure event |
| CardRepository.Repository.ExpireDueOrders | internal/order/postgres.go:255-271 | expires created orders whose time has come, five hundred or all of them, and counts them; after fewer than five hundred none is left |
| CardRepository.Repository.CommittedAmount | internal/payment/postgres.go:187-195 | the loop sums exactly the live payments of the order |
| CardRepository.Repository.StartAuthorizationTx | internal/payment/postgres.go:121-248 | every check in source order, then payment, order and event together or nothing |
| CardRepository.Repository.MarkAuthorizationRequiresAction | internal/payment/postgres.go:300-383 | created moves to requires_action with its challenge and event, everything else is replayed or refused |
| CardRepository.Repository.MarkAuthorizationAuthorized | internal/payment/postgres.go:385-445 | created moves to authorized with its capture time, repeats change nothing |
| CardRepository.Repository.MarkAuthorizationFailed | internal/payment/postgres.go:447-507 | created or requires_action moves to failed, repeats change nothing |
| CardRepository.Repository.CompleteCardChallenge | internal/payment/postgres.go:548-659 | authorizes in time, fails the payment after expiry, replays otherwise |
| CardRepository.Repository.FailCardChallenge | internal/payment/postgres.go:661-717 | fails payment and challenge together, replays otherwise |
| CardRepository.Repository.ReverseAuthorization | internal/payment/postgres.go:719-791 | reverses an authorized payment, repeats change nothing |
| CardRepository.Repository.CaptureAuthorizedPayment | internal/payment/postgres.go:793-877 | fee, split loop, posting, payment, order and events together or nothing |
| CardRepository.Repository.AutoCaptureDue | internal/payment/postgres.go:993-1037 | captures only authorized payments whose capture time has come and leaves all others alone; with distinct due times exactly the longest capturable prefix of the due payments, cut at fifty |
| CardRepository.DistinctTimesAreListed | internal/payment/postgres.go:1004-1011 | due payments at different instants have such an ordered list |
| CardRepository.Repository.ExpireAuthorizationWindow | internal/payment/postgres.go:1039-1109 | refunds the oldest authorizations past the window, up to fifty, leaves all others alone and fails their attempted orders; after fewer than fifty none is left past the window |
| Idempotency.SameConflictVerdict | internal/idempotency/store.go:67-118 | in every run a key's stored hash never changes, and cache and database refuse the same requests |
| Idempotency.RetryWithinLease | internal/idempotency/store.go:131-137 | a busy answer asks for between 1 and 30 seconds |
| Idempotency.FinishLaw | internal/idempotency/store.go:151-202 | a handler's answer closes its record and drops the lock: completed below 500, failed from there up, untouched when the body is not JSON |
| Idempotency.RunningMeansClaimed | internal/idempotency/store.go:79-149 | a request that gets to run has claimed its record for thirty seconds from when it read the clock |
| Idempotency.BusyWithinLease | internal/idempotency/store.go:117-148 | until a claim is closed, whatever else happens, a matching request within thirty seconds of it is told the whole seconds left, at least one; a later one runs, and another hash is a conflict |
| Idempotency.ReclaimFindsNoRunner | internal/idempotency/store.go:131-148 | while the key's handlers are within their leases, its row is reclaimed only when nobody runs for it and it is not completed |
| Idempotency.OneExecutorIff | internal/idempotency/store.go:131-148 | in every run, lapsed leases included, a key has at most one handler in flight throughout exactly when no reclaim finds the handler before it still running, which is when none reads the clock at or after the end of a running handler's lease |
| Idempotency.LeasedIsCalm | internal/idempotency/store.go:131-148 | if the key's handlers end within their leases, none of them is taken over from |
| Idempotency.AtMostOneExecutor | internal/idempotency/store.go:79-149 | if the key's handlers end within their leases, at most one is in flight |
| Idempotency.ReplayedForEverIff | internal/idempotency/store.go:117-130 | in every reached state a completed key is replayed with its code and body in every continuation exactly when no handler runs for it and whatever is cached or about to be cached is the row's own answer |
| Idempotency.CompletedIsReplayed | internal/idempotency/store.go:117-130 | if the key was not taken over until Complete updated its row, then whatever follows no handler runs for it again, and every later request replays its code and body or is a conflict |
| Idempotency.CacheIsTransparentIff | internal/idempotency/store.go:67-77 | in every run, lapsed leases included, Start with the cache answers like Start without it at every point exactly when no handler ends with another answer than the cached one and none caches an answer its row has lost |
| Idempotency.CacheIsTransparent | internal/idempotency/store.go:67-77 | in particular as long as the key is never taken over, a cached answer is the answer the database would give |
| IdempotencyStore.StartIsItsSteps | internal/idempotency/store.go:62-149 | the steps of one call in a row are Start |
| IdempotencyStore.EndIsItsSteps | internal/idempotency/store.go:151-202 | the finishing steps in a row are Complete or Fail |
| IdempotencyStore.ServedAgain | internal/idempotency/middleware.go:21-79 | what the same request gets a second time: the first answer, a new execution after a server error, or a refusal until the lease of a non-JSON answer has passed |
| IdempotencyStore.LapsedLeaseRunsTwo | internal/idempotency/store.go:131-148 | a run in which a lease lapses and two handlers are in flight for the key at once |
| IdempotencyStore.LapsedLeaseSplitsAnswers | internal/idempotency/store.go:151-178 | continued until both have answered, cache and database replay different bodies |
| IdempotencyStore.Store.Start | internal/idempotency/store.go:62-149 | cache, insert, locked decision and reclaim, in that order |
| IdempotencyStore.Store.Complete | internal/idempotency/store.go:151-178 | closes the row as completed and then caches, or changes nothing for a body that is not JSON |
| IdempotencyStore.Store.Fail | internal/idempotency/store.go:180-202 | closes the row as failed and leaves the cache alone |
| IdempotencyStore.Store.Wrap | internal/idempotency/middleware.go:21-79 | which answer the client gets, whether the handler runs and which of Complete and Fail follows |
| Relay.RunKeepsInv | internal/outbox/relay.go:127-178 | in every run of writers, relays, failed publishes, rollbacks and cleanups rows, batches and deliveries stay consistent |
| Relay.DeliveredAtLeastOnce | internal/outbox/relay.go:127-178 | a committed event is unpublished in the outbox or every envelope built for it reached the broker, and open batches share no row |
| Relay.CleanupDropsOnlyDelivered | internal/outbox/relay.go:229-238 | cleanup removes only delivered rows |
| Relay.UnacknowledgedIsSentAgain | internal/outbox/relay.go:267-282 | an envelope the broker kept without acknowledging it is on the log twice after the next attempt |
| Relay.CommitStampsOpening | internal/outbox/relay.go:127-178 | a batch is stamped with the instant its transaction began, however late it commits |
| RelayOrder.FirstDeliveriesInOrder | internal/outbox/relay.go:134-177 | with one relay and rows appended in creation order, first deliveries never go back in time, however many batches fail |
| RelayOrder.FirstDeliveries | internal/outbox/relay.go:164-168 | lists every delivered event once |
| RelayWorker.ResolvePublishSchemas | internal/outbox/relay.go:215-227 | the versions the resolver lists, the single 1.0.0 when it lists none, an error when it fails |
| RelayWorker.BuildPublishedEnvelopes | internal/outbox/relay.go:180-213 | one envelope for each listed version in their order, or one for 1.0.0, each carrying the record under its merchant's key on the topic of its event type |
| RelayWorker.Worker.WriteTx | internal/outbox/outbox.go:29-49 | appends an unpublished row, and refuses exactly an id the table still holds |
| RelayWorker.Worker.CleanupPublished | internal/outbox/relay.go:229-238 | deletes exactly the rows published before the cut and counts them |
| RelayWorker.Worker.SelectBatch | internal/outbox/relay.go:134-141 | the oldest unpublished, unlocked rows, oldest first, as many as the limit allows |
| RelayWorker.Worker.PublishWithRetry | internal/outbox/relay.go:267-282 | succeeds exactly when one of three attempts is acknowledged before the caller gives up |
| RelayWorker.Worker.PublishBatch | internal/outbox/relay.go:127-178 | is a run of relay steps that either marks every selected row and puts an envelope for each version the resolver lists on the log, or leaves every row as it was; it succeeds whenever broker and resolver do, and with room to spare only rows locked by others stay unpublished |
| CaptureDelivery.StepAddsEvents | internal/outbox/outbox.go:29-49 | no step of the card path removes or changes an event |
| CaptureDelivery.CapturedReachesConsumers | internal/payment/postgres.go:867-869 | in every run a captured payment's one payment.captured row names the payment and its merchant and is still waiting or has had every envelope delivered to paygate.payments under the merchant's key |
| CaptureDelivery.OnlyCapturesAreAnnounced | internal/payment/postgres.go:867-869 | every payment.captured row of the card path belongs to a captured payment |
| CaptureDelivery.NamesTellKinds | internal/outbox/relay.go:252-265 | event names tell all kinds apart, and orders and payments go to their own topics |
| Compat.ValidateDocument | internal/eventschema/compat.go:25-43 | accepts exactly the objects that require all eight envelope fields with an object payload, and otherwise names the first fault |
| Compat.CompareFields | internal/eventschema/compat.go:77-118 | reports exactly the backward problems at every depth, and none exactly when the candidate is accepted |
| Compat.CompareForwardCompatibleFields | internal/eventschema/compat.go:120-150 | the same for the forward problems |
| Compat.CheckCompatibility | internal/eventschema/compat.go:45-75 | both checks pass exactly when the backward one does, and each reports exactly the problems found by walking both documents along their common objects |
| Compat.ProblemIff | internal/eventschema/compat.go:77-118 | a backward problem is reported exactly at the path where the two documents differ in that way |
| Compat.ForwardProblemIff | internal/eventschema/compat.go:120-150 | the same for a forward problem |
| Compat.AcceptedIff | internal/eventschema/compat.go:77-118 | a candidate is accepted exactly when no path shows a backward problem |
| Compat.AcceptsReflexive | internal/eventschema/compat.go:77-118 | every document accepts itself |
| Compat.AcceptsTransitive | internal/eventschema/compat.go:77-118 | acceptance composes |
| Compat.AcceptsImpliesForward | internal/eventschema/compat.go:120-150 | backward acceptance implies forward acceptance at any nesting |
| Compat.EnvelopeSurvives | internal/eventschema/compat.go:25-43 | what is accepted after a valid document is valid exactly when it is an object |
| Payloads.OldPayloadStaysValid | internal/eventschema/compat.go:77-118 | a closed payload of the old schema is valid under an accepted candidate that declares what it requires |
| Payloads.OldPayloadsKeptIff | internal/eventschema/compat.go:106-114 | all closed old payloads stay valid exactly when the candidate declares its required fields wherever the two share an object |
| Payloads.DeclaredIsShared | internal/eventschema/compat.go:107-114 | a candidate that declares every required field meets that condition against any old schema |
| Payloads.StrippedPayloadIsValid | internal/eventschema/compat.go:120-150 | a candidate payload stripped to the old fields is valid under the old schema |
| Payloads.OldConsumersServedIff | internal/eventschema/compat.go:120-150 | all of them are, exactly when the old schema declares its required fields |
| Payloads.UndeclaredRequirementBreaks | internal/eventschema/compat.go:106-114 | an accepted candidate that requires an undeclared field and invalidates old payloads |
| Registry.RunKeepsInv | internal/eventschema/postgres.go:72-277 | in every run registered versions carry the envelope, rollouts name registered versions and one version at most is active |
| Registry.OneActiveForEver | internal/eventschema/postgres.go:192-234 | a subject has at most one active version and never loses its last one |
| Registry.PublishedVersionsAreRegistered | internal/eventschema/service.go:147-169 | what is published is one or two different registered versions with all envelope fields, the active one first |
| RegistryLaws.BothPublishedIff | internal/eventschema/service.go:147-169 | both versions are published exactly when the newest rollout still publishing both starts from the active version, otherwise the active one alone |
| RegistryLaws.RegisterLaw | internal/eventschema/service.go:48-76 | which refusal a registration gets, and the one draft it adds otherwise |
| RegistryLaws.ActivateLaw | internal/eventschema/postgres.go:192-234 | an activation goes through for a registered version with the envelope; exactly it becomes active, the active ones before it deprecated and rollouts to it over |
| Registry.AllCompatibleIff | internal/eventschema/service.go:48-76 | after any run every version is backward compatible with the first of its subject exactly when every version written unchecked was itself the first or one the first accepts |
| Registry.AllCompatibleWithFirst | internal/eventschema/service.go:48-76 | in particular if unchecked versions are only ever first versions, and then closed payloads of the first stay valid under every version that declares what it requires |
| Registry.RacingRegistrationEscapesCheck | internal/eventschema/service.go:53-75 | two registrations checked before the first activation: one is written after it and is compared with nothing |
| Registry.IncompatibleEnvelopes | internal/eventschema/compat.go:89-92 | two valid documents the check refuses, which that race can register side by side |
| RegistryService.Service.GetActiveVersion | internal/eventschema/postgres.go:176-190 | the active row activated last, the latest created among equals, none exactly when no row is active |
| RegistryService.Service.RegisterVersion | internal/eventschema/service.go:48-76 | validation, both checks against the active version, uniqueness, then a draft row |
| RegistryService.Service.ActivateVersion | internal/eventschema/postgres.go:192-234 | deprecates the active version, activates the named one and completes rollouts to it, or changes nothing |
| RegistryService.Service.CreateRollout | internal/eventschema/service.go:111-130 | inserted exactly when it leads from the active version to another one that is not retired |
| RegistryService.Service.GetActiveRollout | internal/eventschema/postgres.go:305-326 | the newest rollout of the subject still publishing both versions |
| RegistryService.Service.ResolvePublish | internal/eventschema/service.go:147-169 | the active version, with the rollout target when the rollout starts from it |
| RegistryService.Service.Bootstrap | internal/eventschema/bootstrap.go:55-103 | succeeds exactly when every fixture version ends up registered, then the latest is active; from a clean registry all are compatible with the first |
| Pagination.List | internal/order/postgres.go:162-253 | shows only orders of the merchant within the bounds and after the cursor, newest first, at most a page of them, with more exactly when one is not shown, or refuses a malformed cursor |
| Pagination.ListingLists | internal/order/postgres.go:197-198 | the listing holds every row once in descending (created_at, id) order |
| Pagination.ListingIsUnique | internal/order/postgres.go:197-198 | there is only one such listing |
| Pagination.FollowingCursorsListsAll | internal/order/postgres.go:162-253 | following the cursors collects exactly the first table's listing for any page size, even if newer rows appear between pages |
| Pagination.FollowingCursorsListsOrders | internal/order/postgres.go:162-253 | on a filtered order table this is exactly the merchant's orders within the bounds as they stood at the first page, newest first, each once |
| Pagination.TextLessIff | internal/order/postgres.go:194-197 | ids are compared by their first differing character, a prefix coming first |
| Reserve.ReserveWithinNet | internal/merchant/compliance.go:253-266 | a valid policy reserves between nothing and the net amount |
| Reserve.ReserveIs | internal/merchant/compliance.go:253-266 | nothing below the threshold, otherwise the policy's share of the net amount, rounded down |
| Reserve.SplitInTwo | internal/merchant/compliance.go:253-266 | two parts reserve no more than their sum, and at most one unit less when both reach the threshold |
| Reserve.SplittingNeverRaises | internal/merchant/compliance.go:253-266 | nor do any number of parts |
| Reserve.MachineExactIff | internal/merchant/compliance.go:262 | the 64-bit product is exact for every valid policy exactly up to (2^63 - 1) / 10000 |
| Reserve.StoredPoliciesStayValid | internal/merchant/compliance_service.go:216-283 | every stored policy stays valid over any run of upserts, queued escalations and reviews |
| Reserve.SuggestionStorableIff | internal/merchant/compliance_service.go:235-264 | a queued suggestion is valid, and its approval stored, exactly when the base is at most 10000 |
| Reserve.SuggestionReservesNoLess | internal/merchant/compliance_service.go:240-251 | a suggestion never reserves less than the policy it was made from |
| Reserve.QueuedIs | internal/merchant/compliance_service.go:235-264 | a pending escalation suggests a rolling reserve of the greater of stored percentage and base, ten percent where both are nothing, held two weeks at least |
| Reserve.ReviewIs | internal/merchant/compliance_postgres.go:491-551 | which refusal a review gets, and that an approval stores the override if there is one and the suggestion otherwise |
| Reserve.Store.UpsertReservePolicy | internal/merchant/compliance_service.go:216-229 | stores a valid policy and refuses the rest |
| Reserve.Store.QueueReserveEscalation | internal/merchant/compliance_service.go:235-264 | queues a pending escalation with the raised percentage and hold |
| Reserve.Store.ReviewReserveEscalation | internal/merchant/compliance_postgres.go:491-551 | an approval stores the suggestion or the valid override together with the decision, or changes nothing |

## Assumptions

- Steps are serialised as the locks serialise them. The sweep of due holds does not repeat its
  status test in the outer update, and ActivateVersion takes no lock before it deprecates; both
  are one step here. GetPayoutableBalance makes two reads that are one step here.
- Unique keys and CHECK constraints are those of the migrations; rows of orders, payments,
  idempotency records and schema versions are never deleted.
- Generated ids never repeat. Clocks, broker answers, cache reachability and handler results
  are parameters of the steps.
- Integers are mathematical, except in Reserve.MachineExactIff. Amounts entering through
  CreateOrder are positive; postings with a negative side are refused by the table constraints.
- The code is followed where a description of it says otherwise: a capture marks partial orders
  paid in full, posts in INR, and fails below 50 minor units.

## Left out

- UPI, netbanking and wallet flows, refunds, settlements, payouts, disputes, sagas, webhooks, billing and onboarding: other state, mostly easy members.
- Payment attempts, gateway routing, card details and the method_state columns: no promise modelled here depends on them; the non-null reason column appears as the refusal of an empty description.
- order.MarkOrderPaid: no step of the card path calls it.
- Event payload bytes, JSON, base64 cursors and hashes: taken as injective values; response bodies are JSON values, so re-serialisation by the database is not visible. Redis keys are taken as injective in their three parts.
- Events other than payment.captured are recorded with the payment or order they are about, although attempt events carry the attempt's id.
- Problem texts and their sorting in the compatibility check: problems are values with a path, compared as a set.
- compareVersions and reading fixtures from disk: fixtures arrive as an ordered list.
- HTTP handlers, authentication, the adaptive relay interval and logging: plumbing.
- RelayOrder.FirstDeliveriesInOrder: states one direction, because several relays may still happen to deliver in order.
- CardRepository.Repository.CreateOrderRow: does not model the receipt, the notes and their limits, replay by idempotency key, or the service's trimming and upper-casing of merchant and currency, which are local checks.
- CardRepository.Repository.CreateFailedAttempt: does not model the payment_attempts row, which no promise here depends on.
- CardRepository.Repository.StartAuthorizationTx: does not model the payment_attempts row or the replay by idempotency key, which comes after the exposure check.
