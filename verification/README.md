# The payment stand, modelled

A model in Dafny of the money protocols of payme-mock, a stand that plays both sides of the
Payme payment protocol, and proofs of what they keep.

- **The Merchant API** (`MerchantModel`, `MerchantProofs`, `MerchantMoney`, `MerchantReplay`,
  `MerchantEffects`, `MerchantService`, `Billing`, `RegisterHistory`): transactions, orders, accounts, one register
  balance with its history, and the audit trail. Deliveries may be repeated at any later clock
  reading, interleaved at will, and an insert may lose the race with another delivery.
- **The Subscribe API** (`SubscribeModel`, `SubscribeProofs`, `SubscribeWalk`, `SubscribeMoney`,
  `SubscribeBooks`, `SubscribeDisturbance`, `SubscribeReplay`, `SubscribeCards`,
  `SubscribeEffects`, `SubscribeDomain`, `SubscribeStores`, `SubscribeService`):
  cards, receipts, the bag of pending steps that walks a receipt to its end, payouts, and the
  register it shares with the Merchant API behind `receipts.pay`.
- **The replay layer** (`Replay`) in front of an arbitrary handler, **the checkout link**
  (`Base64`, `Checkout`, `CheckoutProofs`), **the fault engine** (`Faults`), and four loops of
  the operator console (`Luhn`, `Paging`, `Format`, and the balance edit in `Billing`).

The two services are written twice. The `...Model` modules say what each method does to the
tables as a function, and the properties are proved about runs of those functions. The
`...Service`, `...Domain` and `...Stores` modules are the objects of the program, with fields
assigned step by step and rows loaded and stored, and each method is proved to do what its
function says. The `...Effects` modules tell the same functions a second way, on the rows
themselves and without the model's own words: the fields an answered call stores, the answer and
the refusals, and what stays of them over later runs. Elsewhere a method and the function that specifies it share a module.

## Assumptions

- Each service method is one atomic step. The repositories lock rows for a caller's
  transaction, but the services open none.
- Loads return copies: an object that was changed and not stored changes nothing stored.
- Storage calls do not fail; only protocol refusals happen.
- Generated identifiers are new ones. On the Subscribe side the clock is positive and does not
  run back; the Merchant side is proved for any clock readings at all.
- The register's kind and a card's frozen flag stay fixed during a run.
- A Go string is a sequence of bytes. Balances and amounts are integers without bound; 64-bit
  wrap-around is written out in `Decimal`, `Paging` and `Format`, where it shows.

## Where the code and its documentation part

The model follows the code. The lemma named with each says what happens, or exactly when.

- `ChangeBalance` undoes a negative result by adding the amount back, which is right for a
  subtraction and wrong for an addition (`ChangeBalanceExplained`); the form turns a negative
  figure into a subtraction, so this takes a balance that is negative already, and a run
  reaches one (`UndoGoesWrong`).
- `ReceiptsCancel` refunds the card and never tells the merchant (`CancelLeavesMerchant`), and a
  refund does not ask whether the receipt was a payout, so cancelling a settled payout credits
  the card a second time (`CancelUndoesPayout`, `ExactlyOnce`).
- `BeginPay` does not ask either, so `receipts.pay` on a payout that was not settled charges a
  card like a payment (`PayoutPaysLikeAPayment`); the run properties include such calls.
- `TransactionsCreate` stores the receipt before the register is asked, so a payout the register
  refuses to open leaves a receipt that can still be completed later (`RefusedPayoutStays`).
- The Postgres ledger's `SettlePayout` debits again when repeated; the receipt's own state is
  what keeps a payout from being settled twice (`SettleReconciles`, `PayoutsDebitOnce`). The
  in-memory ledger settles once and never refuses (`SettledOnce`).
- A payout is kept among the merchant's own transactions, and nothing tells it from a payment
  there. A Merchant API perform of an open payout's transaction moves the register, and
  completing the payout moves it again (`PerformedPayoutMovesTwice`, `TillPaysTwice`); a cancel
  of it is undone by completing (`CancelledRowPaysOut`), and repeated after that is answered
  otherwise and moves money (`RepeatedCancelMoves`); a cancel of a settled one takes the
  money back and leaves the receipt paid (`CancelledSettlement`); and a create may take the
  identifier of one the register refused to open (`TakenIdentifier`). `StepJoined` says exactly which
  deliveries disturb a payout, and `PayoutsDebitOnce` what holds over every run without them;
  `SubscribeReplay` says exactly when, over every run, a transaction evolves, repeats get the first
  answer, and the register reconciles.
- A perform that comes too late leaves the order processing (`ExpiryLeavesTheOrder`).
- A replay is promised byte for byte, but what is stored is the first 64 KiB of the answer, as
  the jsonb column keeps it; an answer that is longer counts only if its start is a result
  (`Replay.Served`). The window is cut to whole milliseconds (`WindowInMilliseconds`).
- Identifiers from the in-memory counter repeat every ten thousand draws (`PadRepeats`).
- `formatSum` of the smallest 64-bit amount is not a figure (`SumReadsBack`).
- A step asked for before the scheduler has a runner is dropped, and its receipt stays where it
  is (`StrandedWithoutRunner`); the run properties start with a runner attached.

## Model

| member | source | states |
|---|---|---|
| `MerchantEffects.RegisterFollowsKind` | internal/context/payment/billing/domain/cashbox.go:79-132 | Over every run of Merchant API deliveries from a fresh stand, replays, expiries, refused settles and operator blocks included, the register has gained the amounts of performed transactions on a topup stand and on one of no known kind, has lost them on a dividend or a deposit stand, and is never below zero from a non-negative opening |
| `MerchantMoney.RunReconciled` | internal/context/payment/merchant/application/service.go:160-290 | The same run leaves the register moved by its kind's sign of the performed amounts (told kind by kind in MerchantEffects.RegisterFollowsKind), tables with their keys and checks, and orders that follow their transactions |
| `MerchantEffects.PerformExactly` | internal/context/payment/merchant/application/service.go:160-205 | A perform of a created transaction, row by row: too late it cancels it with reason 4 and moves nothing; without the funds on a dividend or deposit register, on a stopped one or none, it changes no row; answered, it adds the amount to a topup register and takes it off the others, with one event, and performs the transaction now and marks its order paid |
| `MerchantEffects.PerformOtherwise` | internal/context/payment/merchant/application/service.go:160-205 | A perform of a performed transaction answers its time and moves nothing, and one of an unknown or cancelled one is refused and moves nothing |
| `MerchantEffects.CancelExactly` | internal/context/payment/merchant/domain/transaction.go:128-149 | A first cancel stores the caller's reason and the time, keeps when it was performed, ends at -1 or -2 by its earlier state, puts back what the register moved just then, and releases the order |
| `MerchantEffects.CancelOtherwise` | internal/context/payment/merchant/application/service.go:208-245 | A cancel of a cancelled transaction answers its first time and state, whatever reason it brings, and one of an unknown one is refused; neither changes a table |
| `MerchantEffects.ReasonKept` | internal/context/payment/merchant/domain/transaction.go:128-149 | After any later run of the Merchant API a check reports the reason, time and state of the first answered cancel |
| `MerchantEffects.ResolvesExactly` | internal/context/payment/merchant/application/service.go:323-374 | By phone, or by login, an order is answered without a write exactly when it is the first payable one of the first payer with that phone, or login; or when there is none, walk-ins are taken, and it waits already for that walk-in and amount |
| `MerchantEffects.ResolvesPayer` | internal/context/payment/billing/infrastructure/billing.go:25-66 | The first payer of that phone, or of that login, pays its first payable order, without a write |
| `MerchantEffects.ResolvesWalkIn` | internal/context/payment/merchant/application/service.go:358-374 | With no such payer, or nothing to pay, a walk-in is registered under that text where the stand takes them, and the field is refused where it does not |
| `MerchantEffects.ResolvesOrder` | internal/context/payment/merchant/application/service.go:379-408 | An order named by its number is found without a write while it is payable, and otherwise makes a walk-in or is refused |
| `MerchantEffects.NamedExactly` | internal/context/payment/merchant/application/service.go:379-408 | An order named by number is its payer's own, or it is refused whether the stand takes walk-ins or not |
| `MerchantEffects.ResolvesUnknownField` | internal/context/payment/billing/infrastructure/billing.go:51-66 | Any other field finds no payer |
| `MerchantEffects.ResolvesNothing` | internal/context/payment/merchant/application/service.go:323-330 | An account object without the field, or with nothing in it, is refused whoever the stand takes |
| `MerchantEffects.WalkInExactly` | internal/context/payment/billing/infrastructure/billing.go:289-327 | A walk-in of a positive amount is paid for by the first payer with that login, or a new one, and its order is that payer's first payable one for the amount, or a new one |
| `MerchantEffects.CreateExactly` | internal/context/payment/merchant/application/service.go:90-157 | A first create stores the request, created now, for the order found, which becomes processing, exactly when there is one of the amount, unoccupied, and the register is not stopped; refused, it stores nothing |
| `MerchantEffects.CreateOtherwise` | internal/context/payment/merchant/application/service.go:92-107 | A create of a stored transaction answers from it while it is created and refuses after that, storing nothing |
| `MerchantEffects.CheckExactly` | internal/context/payment/merchant/application/service.go:68-86 | A payment is possible exactly when an order is found, of the amount, and the register is not stopped |
| `MerchantEffects.StateCodes` | internal/context/payment/merchant/domain/transaction.go:14-17 | The states carry the protocol's numbers |
| `MerchantEffects.LateExactly` | internal/context/payment/merchant/application/service.go:126-157 | The insert half of a create admitted earlier stores the request, or is refused and stores nothing when another delivery has occupied the order since |
| `MerchantEffects.EntryFields` | internal/context/payment/merchant/application/service.go:270-288 | A statement's entry holds the row's request, times, number, state and reason, each in its place |
| `MerchantEffects.StatementSorted` | internal/context/payment/merchant/infrastructure/transactions.go:112-137 | Entries go by time of creation and then by number |
| `MerchantEffects.ReportedForGood` | internal/context/payment/merchant/application/service.go:265-290 | After any later run a statement of a period that holds the creation reports the request of an answered create: identifier, time, amount and account |
| `MerchantMoney.StatementReconciles` | internal/context/payment/merchant/application/service.go:264-290 | After any run of the Merchant API the statement of all time accounts for the whole distance between the register and its opening figure |
| `MerchantMoney.StatementExact` | internal/context/payment/merchant/infrastructure/transactions.go:112-137 | A statement lists exactly the transactions created in the period, each as often as stored, ordered by creation time and number |
| `MerchantMoney.StatementSplits` | internal/context/payment/merchant/infrastructure/transactions.go:112-137 | Two adjoining periods settle between them what their union settles |
| `MerchantProofs.OrdersFollowTransactions` | internal/context/payment/merchant/application/service.go:109-151 | In every state that Merchant API deliveries reach an order has at most one live transaction, is paid exactly when one is performed, is processing whenever one is created, and has no live one while new or cancelled, walk-ins and expiry included |
| `MerchantProofs.AdmittedIsStored` | internal/context/payment/merchant/application/service.go:109-131 | What a create admits is a payable stored order for exactly the amount asked, with no live transaction |
| `MerchantMoney.AtMostOnceEachWay` | internal/context/payment/merchant/domain/transaction.go:106-149 | Over every run of the Merchant API each transaction is applied at most once and reversed at most once, never reversed before it was applied, and the register's new history rows are, in order, one for each apply and reverse of the trail: the amount of the transaction that entry names, forth or back |
| `MerchantMoney.RunEvolves` | internal/context/payment/merchant/domain/transaction.go:106-149 | Over every run of the Merchant API a stored transaction keeps its identity for good, its state only moves forward, and while the state has not moved no field has |
| `MerchantReplay.CreateReplays` | internal/context/payment/merchant/application/service.go:90-157 | A create repeated after any run of the Merchant API gets the first answer while the transaction is created and a refusal afterwards, changing no table, and so does an insert that lost the race |
| `MerchantReplay.PerformSucceeds` | internal/context/payment/merchant/application/service.go:160-205 | A perform succeeds exactly for a performed transaction, or a created one within its time that the register can settle |
| `MerchantReplay.PerformReplays` | internal/context/payment/merchant/application/service.go:160-205 | An answered perform repeated after any run of the Merchant API changes no table and gets the first answer until the transaction is cancelled |
| `MerchantReplay.CancelReplays` | internal/context/payment/merchant/application/service.go:208-245 | An answered cancel repeated after any run of the Merchant API, with any reason, changes no table and gets the first answer |
| `MerchantReplay.ExpiryLeavesTheOrder` | internal/context/payment/merchant/application/service.go:169-179 | A perform that comes too late cancels the transaction with reason 4 and moves no money, and leaves the order processing with no live transaction |
| `MerchantReplay.ResolveTwice` | internal/context/payment/merchant/application/service.go:323-430 | Resolving again what was resolved once gives the same order and writes nothing, walk-ins included |
| `MerchantReplay.NamedOrderSettles` | internal/context/payment/merchant/application/service.go:379-408 | On a stand that takes no walk-ins an order named by its number resolves exactly when it exists and can be paid, and to that order |
| `MerchantReplay.StepOwners` | internal/context/payment/merchant/application/service.go:323-430 | Every delivery leaves every order with a payer on file |
| `MerchantProofs.StepShaped` | internal/context/payment/merchant/application/service.go:68-245 | No delivery breaks a table's own keys and checks, whether or not the tables agree with each other |
| `MerchantService.Transaction.Perform` | internal/context/payment/merchant/domain/transaction.go:106-124 | Performs within the time, is a no-op once performed, cancels as timed out after it, and refuses a final state, each with the exact new fields |
| `MerchantService.Transaction.Cancel` | internal/context/payment/merchant/domain/transaction.go:128-149 | Cancels to -1 or -2 by whether it was performed, with the caller's reason (MerchantEffects.CancelExactly), and leaves a final state untouched |
| `MerchantService.TransactionRepository.Create` | internal/context/payment/merchant/infrastructure/transactions.go:62-87 | Stores and numbers a new row, unless its identifier is taken or its order already has a live transaction |
| `MerchantService.TransactionRepository.Update` | internal/context/payment/merchant/infrastructure/transactions.go:90-108 | Rewrites state, reason and times of the row with that number and no other column |
| `MerchantService.Service.CheckPerformTransaction` | internal/context/payment/merchant/application/service.go:68-86 | Leaves the tables and gives the answer the model of check does |
| `MerchantService.Service.CreateTransaction` | internal/context/payment/merchant/application/service.go:90-157 | Leaves the tables and gives the answer the model of create does, on every branch (told on the rows in MerchantEffects.CreateExactly and ResolvesExactly) |
| `MerchantService.Service.Replay` | internal/context/payment/merchant/application/service.go:294-307 | Answers from the stored transaction another delivery created first |
| `MerchantService.Service.PerformTransaction` | internal/context/payment/merchant/application/service.go:160-205 | Leaves the tables and gives the answer the model of perform does, expiry and refused settles included (told on the rows in MerchantEffects.PerformExactly) |
| `MerchantService.Service.CancelTransaction` | internal/context/payment/merchant/application/service.go:208-245 | Leaves the tables and gives the answer the model of cancel does (told on the rows in MerchantEffects.CancelExactly) |
| `MerchantService.Service.CheckTransaction` | internal/context/payment/merchant/application/service.go:248-262 | Reports the stored transaction, or that there is none |
| `MerchantService.Service.GetStatement` | internal/context/payment/merchant/application/service.go:265-290 | Renders every transaction of the period, in statement order |
| `MerchantService.Service.ResolveOrder` | internal/context/payment/merchant/application/service.go:323-374 | Finds the order the account object names, the oldest payable one of its payer, or registers a walk-in, exactly as modelled (told on the rows in MerchantEffects.ResolvesExactly) |
| `MerchantService.Service.NamedOrder` | internal/context/payment/merchant/application/service.go:379-408 | Finds a payer's own order by number, or registers a walk-in, exactly as modelled |
| `MerchantService.Service.RegisterWalkIn` | internal/context/payment/merchant/application/service.go:412-430 | Refuses an amount that is not positive, and otherwise registers payer and order |
| `MerchantService.Service.Settle` | internal/context/payment/merchant/application/service.go:434-447 | Moves the register by the amount, the way its kind goes (MerchantEffects.PerformExactly), with its history row, or refuses and changes nothing |
| `MerchantService.Service.Unsettle` | internal/context/payment/merchant/application/service.go:449-462 | Puts back what Settle moved, never refused |
| `MerchantService.Service.MarkOrderPaid` | internal/context/payment/merchant/application/service.go:502-520 | Marks the order paid, and does nothing for one that is gone |
| `MerchantService.Service.ReleaseOrder` | internal/context/payment/merchant/application/service.go:506-520 | Marks the order cancelled, and does nothing for one that is gone |
| `Billing.Account.Apply` | internal/context/payment/billing/domain/cashbox.go:79-108 | Moves the balance by kind (MerchantEffects.PerformExactly) exactly when the kind is known, the payer is not blocked and a payout is covered; refused, it stays |
| `Billing.Account.Reverse` | internal/context/payment/billing/domain/cashbox.go:125-132 | Undoes what Apply did, without asking |
| `Billing.AccountRepository.UpdateBalance` | internal/context/payment/billing/infrastructure/billing.go:134-160 | Stores the balance together with the history row that explains it |
| `Billing.WalkInRepository.Register` | internal/context/payment/billing/infrastructure/billing.go:289-327 | Reuses the payer with that login and the oldest payable order for the amount, or adds them |
| `Billing.AccountRepository.ChangeBalance` | cmd/console/views.go:381-435 | The edit, its event row, and the undo of a negative result, as the statements write them |
| `Billing.ChangeBalanceExplained` | cmd/console/views.go:417-432 | A refused subtraction leaves no trace; the books are explained afterwards exactly when the edit was not an addition of a nonzero amount that came out negative |
| `Billing.ChangesExactly` | cmd/console/views.go:381-435 | An edit adds or takes the amount with one console event that says so, refuses an unknown operation and an unknown account, and undoes a negative result by adding the amount back |
| `RegisterHistory.HistoryExplains` | cmd/console/views.go:381-435 | Over every run of payments, settled payouts and console edits each account's events form a chain from its opening figure to its balance, as long as no such addition occurs |
| `RegisterHistory.ConsoleChained` | cmd/console/views.go:417-432 | A console edit keeps the chains exactly when it is not that addition |
| `RegisterHistory.UndoGoesWrong` | cmd/console/views.go:417-432 | A run from a fresh stand reaches that addition: a payment cancelled after the operator took its money out leaves -100, and adding 50 is refused and leaves 0 where the events lead to -100 |
| `RegisterHistory.AskedSafely` | cmd/console/app.go:604-611 | What the form can ask for meets it exactly with a positive figure on a balance that stays negative, so never on one that is not negative |
| `RegisterHistory.DeltasAddUp` | internal/context/payment/billing/infrastructure/billing.go:134-160 | Each balance is its opening figure and the sum of its recorded moves |
| `SubscribeWalk.ReachableReceipts` | internal/context/payment/subscribe/domain/receipt.go:172-254 | Reachable receipts are in states 0, 1, 2, 3, 4, 5, 21 or 50, with creation, payment and cancellation times in order where set |
| `SubscribeEffects.HeldPayWaits` | internal/context/payment/subscribe/application/service.go:309-368 | Over every run, a receipt whose answered pay asked for a hold, or that was created with one, becomes paid only if a confirmation of it was delivered after that |
| `SubscribeWalk.HeldUntilConfirmed` | internal/context/payment/subscribe/domain/receipt.go:203-234 | Over every run, a receipt that is marked for holding and started, or held, becomes paid only if a confirmation of it was delivered |
| `SubscribeEffects.PayExactly` | internal/context/payment/subscribe/application/service.go:309-368 | A pay, row by row: refused for the receipt, the card, the receipt's state or the merchant, in that order; answered, it charges the card, stores card, system, time and transaction, holds it exactly when the call or the receipt asked, until the window has passed, and queues one step |
| `SubscribeEffects.ChainAnswers` | internal/context/payment/subscribe/application/service.go:331-342 | A pay checks, creates and performs at the merchant, in that order, and the first refusal is its answer |
| `SubscribeEffects.CreateReceiptExactly` | internal/context/payment/subscribe/application/service.go:281-305 | A receipt is made exactly when the amount is positive and the merchant agrees, and stores the amount, account and hold that were asked for |
| `SubscribeEffects.ConfirmExactly` | internal/context/payment/subscribe/application/service.go:544-559 | A confirmation is answered exactly while the receipt is held, and pays it now |
| `SubscribeEffects.CancelExactly` | internal/context/payment/subscribe/application/service.go:562-589 | A cancel ends a receipt that was never charged, refunds one that was and queues its end, and answers a repeated one as stored |
| `SubscribeEffects.CancelRefused` | internal/context/payment/subscribe/application/service.go:562-566 | A cancel of what is not on file is refused and changes nothing |
| `SubscribeEffects.TickExactly` | internal/context/payment/subscribe/application/service.go:656-675 | A queued step takes checking to withdrawn, to closing, and to paid or, held, to held, or a queued cancel to cancelled now, and queues the next one while there is one |
| `SubscribeEffects.ReceiptCodes` | internal/context/payment/subscribe/domain/receipt.go:16-40 | The states carry the protocol's numbers |
| `SubscribeEffects.LoadReceiptExactly` | internal/context/payment/subscribe/application/service.go:711-724 | An empty identifier is a bad request, and an unknown one is not found |
| `SubscribeEffects.ChainStores` | internal/context/payment/subscribe/application/service.go:331-342 | An answered pay leaves at the merchant one more transaction, performed, for a stored order, of the receipt's amount and account, with the times of the three calls |
| `SubscribeWalk.CancelledForGood` | internal/context/payment/subscribe/domain/receipt.go:238-254 | A cancelled receipt stays exactly as it is through every later run |
| `SubscribeWalk.StepAllowed` | internal/context/payment/subscribe/application/service.go:281-675 | Which state change each call may make to a stored receipt, and that no other call changes it |
| `SubscribeWalk.NoneStranded` | internal/context/payment/subscribe/application/service.go:656-675 | In every reachable state a receipt in progress has a step to come, also when a cancellation left two |
| `SubscribeWalk.WalkEnds` | internal/context/payment/subscribe/application/service.go:656-675 | Draining with no new calls takes no more steps than the ranks of the receipts and the queue add up to, whatever the order; at every point further steps can empty the queue; and once it is empty every started receipt is paid, held or cancelled |
| `SubscribeWalk.StepWorks` | internal/context/payment/subscribe/application/service.go:656-675 | Every step leaves strictly less work, though a walk that goes on reschedules itself |
| `SubscribeWalk.StrandedWithoutRunner` | internal/context/payment/subscribe/infrastructure/support.go:113-120 | Before a runner is attached a paid receipt stays at checking with nothing queued |
| `SubscribeMoney.RunBooked` | internal/context/payment/subscribe/application/service.go:562-589 | Over every run each unfrozen card holds its opening figure and its receipts' shares, a frozen card its opening figure, and no balance goes below zero |
| `SubscribeMoney.ExactlyOnce` | internal/context/payment/subscribe/application/service.go:728-743 | An unfrozen card holds its opening figure less its receipts in checking, withdrawn, closing, paid or held, plus its settled payouts, exactly when none of those payouts was cancelled; otherwise it holds more |
| `SubscribeMoney.CancelUndoesPayout` | internal/context/payment/subscribe/application/service.go:562-589 | Cancelling a settled payout is answered, credits its unfrozen card by the amount a second time, and makes it such a payout |
| `SubscribeBooks.PayTransfers` | internal/context/payment/subscribe/application/service.go:309-368 | A pay that succeeds moves exactly the amount from the unfrozen card to the register and leaves a performed transaction of that identifier, account and amount; refused at any stage it moves nothing on either side |
| `SubscribeBooks.ChainTransfers` | internal/context/payment/subscribe/application/service.go:331-342 | Check, create and perform together move the register by the amount and add one performed transaction, or move nothing and leave none performed |
| `SubscribeBooks.CancelLeavesMerchant` | internal/context/payment/subscribe/application/service.go:562-589 | A cancellation gives a charged card its money back and leaves the merchant's books exactly as they were |
| `SubscribeBooks.PaySucceeds` | internal/context/payment/subscribe/application/service.go:309-368 | A pay is answered exactly when the receipt is still to be paid, the card is on file, verified, not rigged and covers the amount, the account leads to an unoccupied order of that amount, the register can settle it, and performing is in time |
| `SubscribeBooks.PayoutsDebitOnce` | internal/context/payment/subscribe/application/service.go:424-466 | Over every run of both APIs that disturbs no open payout, cancels of settled ones included, the register reconciles and never goes below zero, every transaction moved it as often as its state says, the merchant's own moves counted, so none twice, its new moves are one for each settled payout and one for each apply and reverse, and each settled payout has one transaction for its amount behind exactly one named move, taken back once if that was cancelled; if no settled payout is disturbed either, none was |
| `SubscribeBooks.OrdersFollow` | internal/context/payment/merchant/application/service.go:109-151 | The orders follow their transactions in the same way over every run of both APIs that disturbs no open payout |
| `SubscribeBooks.RunJoined` | internal/context/payment/merchant/application/service.go:160-245 | Over every run of both APIs the register's invariants and the rows of open payouts hold throughout exactly when no delivery disturbs an open payout, and those of settled ones with them exactly when none disturbs a settled one either |
| `SubscribeBooks.StepJoined` | internal/context/payment/merchant/application/service.go:160-245 | One delivery keeps them exactly when it is not a perform that settles an open payout's transaction or a create that takes its identifier before it has a row, nor, where settled payouts are asked for too, a cancel of a settled one's transaction |
| `SubscribeBooks.OpenStays` | internal/context/payment/merchant/application/service.go:160-205 | A merchant delivery leaves the row of an open payout unperformed and its own exactly when it is not such a perform or create |
| `SubscribeBooks.SettledStays` | internal/context/payment/merchant/application/service.go:208-245 | A merchant delivery leaves the row of a settled payout performed exactly when it is not a cancel of it, and behind one named move always |
| `SubscribeDisturbance.PerformedPayoutMovesTwice` | internal/context/payment/billing/infrastructure/ledger.go:105-164 | A perform delivered for an open payout's transaction and a complete after it are both answered, and the register moves by twice the amount for one performed transaction |
| `SubscribeDisturbance.ReconcilesUnlessPerformed` | internal/context/payment/billing/infrastructure/ledger.go:105-164 | After a perform delivered for an open payout's transaction, completing the payout leaves reconciled books exactly when that perform did not settle the transaction |
| `SubscribeDisturbance.CancelledRowPaysOut` | internal/context/payment/billing/infrastructure/ledger.go:129-146 | A payout whose transaction was cancelled still completes, and the cancelled transaction becomes performed, keeping the time and reason of its cancellation |
| `SubscribeDisturbance.CancelledSettlement` | internal/context/payment/merchant/application/service.go:208-245 | Cancelling a settled payout's transaction puts the amount back and leaves the receipt paid and the card credited, and completing it again moves nothing |
| `SubscribeDisturbance.TakenIdentifier` | internal/context/payment/billing/infrastructure/ledger.go:60-146 | A payout the stopped register refused to open leaves a receipt without a row; a create delivered under its identifier makes a payment of it, and completing the payout performs that payment's transaction and leaves its order processing, so the tables disagree |
| `SubscribeDisturbance.RepeatedCancelMoves` | internal/context/payment/merchant/application/service.go:208-245 | A cancel of an open payout's transaction answered -1 is answered -2 when repeated after the payout was completed, and moves the register back by the amount |
| `SubscribeDisturbance.RepeatedPerformDiffers` | internal/context/payment/merchant/application/service.go:160-205 | A perform of an open payout's transaction, repeated after the payout was completed, answers the time of the complete |
| `SubscribeReplay.SettleEvolves` | internal/context/payment/billing/infrastructure/ledger.go:133-146 | Settling a payout lets its row evolve exactly when the row was created, or performed at that very time |
| `SubscribeReplay.EvolvesExactly` | internal/context/payment/billing/infrastructure/ledger.go:133-146 | Over any run of both APIs a stored transaction keeps its identity, and its state moves only forward at every delivery exactly when no answered complete settles its row from cancelled, or from performed at another time |
| `SubscribeReplay.PerformReplaysExactly` | internal/context/payment/merchant/application/service.go:160-205 | After any run of both APIs an answered perform changes no table when repeated and gets the first answer until the transaction is cancelled, and a refusal for good after that, throughout exactly when no such complete is in between |
| `SubscribeReplay.CancelReplaysExactly` | internal/context/payment/merchant/application/service.go:208-245 | After any run of both APIs an answered cancel changes no table when repeated and gets the first answer, whatever the reason, throughout exactly when no such complete is in between |
| `SubscribeReplay.FirstAnswers` | internal/context/payment/merchant/application/service.go:160-245 | What an answered perform and an answered cancel say is what they stored |
| `SubscribeReplay.CreateReplaysAlways` | internal/context/payment/merchant/application/service.go:90-157 | After any run of both APIs a repeated create changes no table and gets the first answer while the transaction is created, and a refusal afterwards |
| `SubscribeReplay.ReconciledExactly` | internal/context/payment/billing/infrastructure/ledger.go:105-164 | Over every run of both APIs the register reconciles throughout exactly when every answered complete found its payout without a row, or with one of its own amount that was not performed |
| `SubscribeReplay.RunShaped` | internal/context/payment/billing/infrastructure/ledger.go:60-164 | Over every run of both APIs, disturbed or not, the merchant's tables keep their keys and checks |
| `SubscribeReplay.StepOwners` | internal/context/payment/billing/infrastructure/ledger.go:60-164 | Every call of either API leaves every order with a payer on file |
| `SubscribeDisturbance.TillPaysTwice` | internal/context/payment/billing/infrastructure/ledger.go:60-164 | A run of three deliveries from a stand with nothing paid takes 200 out of the register for one payout of 100 |
| `SubscribeBooks.CompleteMoves` | internal/context/payment/subscribe/application/service.go:424-466 | A first complete succeeds exactly when payout, card, amount and register allow it, then takes the amount from a payout register and adds it to the unfrozen card; refused or repeated it changes nothing |
| `SubscribeEffects.CompleteExactly` | internal/context/payment/subscribe/application/service.go:424-466 | A complete of a waiting payout is refused for another amount and for what the register says; answered, it is paid now, its card credited and the register settled |
| `SubscribeEffects.RepeatedComplete` | internal/context/payment/subscribe/application/service.go:435-441 | A complete of a paid receipt is answered, with what is stored and no change, exactly when it is a payout and the token is empty or leads to its own card |
| `SubscribeEffects.CompleteRepeats` | internal/context/payment/subscribe/application/service.go:418-441 | Over every run, once a complete was answered, every retry with that token gets the first answer and changes nothing while the payout stays paid |
| `SubscribeEffects.CompleteRefused` | internal/context/payment/subscribe/application/service.go:514-541 | A complete of what is no payout, or to another card than its own, is refused and changes nothing, paid or not |
| `SubscribeEffects.CreatePayoutExactly` | internal/context/payment/subscribe/application/service.go:378-417 | A payout's receipt is stored as asked before the register is, and stays when the register refuses |
| `SubscribeEffects.OpenExactly` | internal/context/payment/billing/infrastructure/ledger.go:60-95 | Opening adds the row, created, once, and is refused on a stopped register or none |
| `SubscribeEffects.SettleExactly` | internal/context/payment/billing/infrastructure/ledger.go:105-164 | Settling adds the amount to a topup register and takes it off the others, with one event that names the row, which it performs or adds; it is refused without a register, a kind, or the funds |
| `SubscribeBooks.SettleReconciles` | internal/context/payment/billing/infrastructure/ledger.go:105-164 | Settling leaves reconciled books exactly when the payout's row was not performed before and is of the payout's amount: repeated, it debits again |
| `SubscribeBooks.SettleSucceeds` | internal/context/payment/billing/infrastructure/ledger.go:105-121 | Settling succeeds exactly when there is a register of a known kind, not stopped, that covers the amount |
| `SubscribeBooks.RefusedPayoutStays` | internal/context/payment/subscribe/application/service.go:403-414 | A payout the register refuses to open is refused to the caller and leaves its receipt behind, which can be completed once the register would settle it |
| `SubscribeBooks.PayoutPaysLikeAPayment` | internal/context/payment/subscribe/domain/receipt.go:186-199 | A payout that was not settled is charged to a card by receipts.pay like a payment |
| `SubscribeCards.IndexesAgree` | internal/context/payment/subscribe/infrastructure/inmem/inmem.go:46-127 | Over every run each token leads to a held card, no two cards share a number, and the receipt list names each stored receipt exactly once |
| `SubscribeCards.FirstTokenStays` | internal/context/payment/subscribe/infrastructure/inmem/inmem.go:114-127 | A card is on file for good and the first token it was given leads to it through every later run |
| `SubscribeCards.CreatedIsFound` | internal/context/payment/subscribe/application/service.go:97-148 | A created or handed-back card is found by its token and its identifier, with its first token kept |
| `SubscribeCards.CodeWorksOnceInTime` | internal/context/payment/subscribe/domain/card.go:120-216 | A sent code confirms a card exactly when it is that code or the shared one, in time, on a card not rigged to fail; it works once, and then the card pays what it holds |
| `SubscribeEffects.CreateCardExactly` | internal/context/payment/subscribe/application/service.go:97-148 | A first registration stores what was asked, unverified, with the stand's balance and expiry written MM/YY |
| `SubscribeEffects.HandBackExactly` | internal/context/payment/subscribe/application/service.go:97-148 | A second registration hands the held card back with its first token and its new particulars, and its balance and standing as they were |
| `SubscribeEffects.GetCodeExactly` | internal/context/payment/subscribe/application/service.go:188-225 | The code sent is the stand's for a console card, else the one its expiry spells, in the stand's window or a minute |
| `SubscribeEffects.VerifyExactly` | internal/context/payment/subscribe/domain/card.go:170-190 | The card's code, or the shared one, confirms a card that has one, in its window, and is spent; anything else changes nothing |
| `SubscribeEffects.RemoveExactly` | internal/context/payment/subscribe/application/service.go:264-276 | A card on file is marked removed, and nothing else of it changes |
| `SubscribeEffects.CodeOfExpiry` | internal/context/payment/subscribe/domain/card.go:112-124 | The code an expiry spells is month, year and year again, with or without the slash |
| `SubscribeEffects.OperableExactly` | internal/context/payment/subscribe/domain/card.go:152-166 | A removed or rigged card may not be touched, and a system error is told apart |
| `SubscribeEffects.UsableExactly` | internal/context/payment/subscribe/domain/card.go:202-216 | When a card pays, and which refusal it gives otherwise |
| `SubscribeEffects.LoadCardExactly` | internal/context/payment/subscribe/application/service.go:690-709 | An empty token is a bad request, and one that leads to no card is refused |
| `SubscribeProofs.RunSound` | internal/context/payment/subscribe/application/service.go:97-675 | The invariant behind these over every run: stores and indexes agree, receipts stay on their walk, and none is stranded |
| `SubscribeDomain.Receipt.NextPayState` | internal/context/payment/subscribe/domain/receipt.go:174-184 | The state after this one in the progression, and whether there is one |
| `SubscribeDomain.Receipt.BeginPay` | internal/context/payment/subscribe/domain/receipt.go:188-199 | Starts the walk from a fresh receipt only, with the exact new fields |
| `SubscribeDomain.Receipt.Advance` | internal/context/payment/subscribe/domain/receipt.go:203-223 | One step along the pay or the cancel walk, stopping at held |
| `SubscribeDomain.Receipt.ConfirmHold` | internal/context/payment/subscribe/domain/receipt.go:226-234 | Completes a held receipt and refuses any other |
| `SubscribeDomain.Receipt.Cancel` | internal/context/payment/subscribe/domain/receipt.go:238-254 | Cancels outright what was never charged, queues what was, repeats harmlessly, and refuses the rest |
| `SubscribeDomain.Receipt.Complete` | internal/context/payment/subscribe/domain/receipt.go:152-164 | Settles a waiting payout for its own amount only |
| `SubscribeDomain.Card.VerifyWith` | internal/context/payment/subscribe/domain/card.go:170-190 | Accepts the card's code or the shared one within the window, once, and changes nothing when it refuses |
| `SubscribeDomain.Card.Usable` | internal/context/payment/subscribe/domain/card.go:202-216 | A card pays when operable, not rigged, verified and covered |
| `SubscribeDomain.Card.Charge` | internal/context/payment/subscribe/domain/card.go:239-244 | Takes the amount, from an unfrozen card only |
| `SubscribeDomain.Card.Credit` | internal/context/payment/subscribe/domain/card.go:246-260 | Adds the amount, to an unfrozen card only |
| `SubscribeStores.Cards.ByNumber` | internal/context/payment/subscribe/infrastructure/inmem/inmem.go:70-80 | Finds the one card of a number in whatever order the map is searched |
| `SubscribeStores.Cards.Create` | internal/context/payment/subscribe/infrastructure/inmem/inmem.go:83-94 | Stores a card under the next identifier and indexes its token |
| `SubscribeStores.Cards.TokenFor` | internal/context/payment/subscribe/infrastructure/inmem/inmem.go:114-127 | Keeps the first token and indexes it |
| `SubscribeStores.Receipts.List` | internal/context/payment/subscribe/infrastructure/inmem/inmem.go:200-221 | The window's receipts newest first, from the offset on and count at most |
| `SubscribeStores.ListTiles` | internal/context/payment/subscribe/infrastructure/inmem/inmem.go:200-221 | Listing at offsets a count apart shows the newest-first window once and whole, in the reverse of creation order |
| `SubscribeStores.ListsExactly` | internal/context/payment/subscribe/infrastructure/inmem/inmem.go:200-221 | A window lists exactly the stored receipts created in it |
| `SubscribeStores.PaddedSpells` | internal/context/payment/subscribe/infrastructure/inmem/inmem.go:442-452 | An identifier is its prefix, noughts, and the last four digits of the draw |
| `SubscribeStores.Scheduler.ScheduleAdvance` | internal/context/payment/subscribe/infrastructure/support.go:113-143 | Queues one step, or drops it when no runner is attached |
| `SubscribeStores.CashboxLedger.OpenPayout` | internal/context/payment/billing/infrastructure/ledger.go:60-95 | Adds the payout's row once, and refuses on a stopped register or none |
| `SubscribeStores.CashboxLedger.SettlePayout` | internal/context/payment/billing/infrastructure/ledger.go:105-164 | Moves the balance, upserts the row as performed and writes the named event, or refuses and writes nothing |
| `SubscribeStores.InMemoryLedger.SettlePayout` | internal/context/payment/subscribe/infrastructure/inmem/inmem.go:271-281 | Takes the amount out once for each transaction |
| `SubscribeStores.SettledOnce` | internal/context/payment/subscribe/infrastructure/inmem/inmem.go:267-281 | Over any sequence of settlements the in-memory balance loses each transaction's first amount once |
| `SubscribeStores.PadRepeats` | internal/context/payment/subscribe/infrastructure/inmem/inmem.go:442-452 | Two identifiers of a kind differ exactly while their draws are not a multiple of ten thousand apart |
| `SubscribeStores.Tokens.CardToken` | internal/context/payment/subscribe/infrastructure/inmem/inmem.go:422-424 | The next draw, in 64 characters |
| `SubscribeStores.Tokens.ReceiptID` | internal/context/payment/subscribe/infrastructure/inmem/inmem.go:427-429 | The next draw, in 24 characters with the receipt prefix |
| `SubscribeStores.Tokens.TransactionID` | internal/context/payment/subscribe/infrastructure/inmem/inmem.go:432-434 | The next draw, in 24 characters with the transaction prefix |
| `SubscribeService.Service.Attach` | cmd/paymemock/handler.go:125-127 | Gives the scheduler its runner and changes nothing else |
| `SubscribeService.Service.CardsCreate` | internal/context/payment/subscribe/application/service.go:97-148 | Leaves the stores and gives the answer the model of cards.create does |
| `SubscribeService.Service.CardsGetVerifyCode` | internal/context/payment/subscribe/application/service.go:188-225 | Leaves the stores and gives the answer the model does |
| `SubscribeService.Service.CardsVerify` | internal/context/payment/subscribe/application/service.go:228-243 | Leaves the stores and gives the answer the model does |
| `SubscribeService.Service.CardsRemove` | internal/context/payment/subscribe/application/service.go:264-276 | Leaves the stores and gives the answer the model does |
| `SubscribeService.Service.ReceiptsCreate` | internal/context/payment/subscribe/application/service.go:281-305 | Asks the merchant first and stores a receipt only when it agrees, exactly as modelled |
| `SubscribeService.Service.ReceiptsPay` | internal/context/payment/subscribe/application/service.go:309-368 | Leaves cards, receipts, queue and the merchant's tables as the model of pay does, on every branch (told on the rows in SubscribeEffects.PayExactly) |
| `SubscribeService.Service.ReceiptsConfirmHold` | internal/context/payment/subscribe/application/service.go:544-559 | Leaves the stores and gives the answer the model does |
| `SubscribeService.Service.ReceiptsCancel` | internal/context/payment/subscribe/application/service.go:562-589 | Refunds, stores and queues as the model of cancel does, and only the first time |
| `SubscribeService.Service.ReceiptsGetAll` | internal/context/payment/subscribe/application/service.go:632-652 | Refuses more than fifty, takes none as fifty, and lists the window |
| `SubscribeService.Service.AdvanceReceipt` | internal/context/payment/subscribe/application/service.go:656-675 | One step of the walk, queueing the next one until the receipt rests |
| `SubscribeService.Service.Wait` | internal/context/payment/subscribe/infrastructure/support.go:145-147 | Ends after no more steps than there was work, each run at the clock reading of its time, with nothing queued, every started receipt at rest, and no card and no merchant table touched |
| `SubscribeService.Service.TransactionsCreate` | internal/context/payment/subscribe/application/service.go:378-417 | Leaves the stores as the model of transactions.create does, the receipt of a refused payout included |
| `SubscribeService.Service.TransactionsComplete` | internal/context/payment/subscribe/application/service.go:424-466 | Leaves the stores and the register as the model of transactions.complete does (told on the rows in SubscribeEffects.CompleteExactly and RepeatedComplete) |
| `SubscribeService.Service.PayoutCard` | internal/context/payment/subscribe/application/service.go:514-541 | The payout's own card, refusing a token that names another |
| `Replay.Middleware.Serve` | internal/kernel/httpx/idempotency.go:71-98 | Replays, runs, and remembers as the layer's model does, for an arbitrary handler |
| `Replay.Middleware.Identity` | internal/kernel/httpx/idempotency.go:103-141 | The identity of a call, and none for one the layer leaves alone |
| `Replay.KeyExactly` | internal/kernel/httpx/idempotency.go:103-141 | A call is the layer's exactly when the layer is on, the method is listed, the body is read and has an id, and it is for a stand; its key is that stand, method and raw id |
| `Replay.KeysTellApart` | internal/kernel/httpx/idempotency.go:103-141 | Two calls share a key exactly when stand, method and raw id are the same |
| `Replay.ServesExactly` | internal/kernel/httpx/idempotency.go:71-98 | A call left alone does and answers what the handler does; one on file is answered 200 with what is stored; any other runs, and is stored exactly when it is a 200 with a result and the key is not another body's |
| `Replay.CaptureWriter.Write` | internal/kernel/httpx/logging.go:119-129 | Keeps the first 64 KiB of everything written, in whatever pieces |
| `Replay.CallStore.Recall` | internal/kernel/postgres/calls.go:30-49 | The stored response of this key and body while younger than the window |
| `Replay.CallStore.Remember` | internal/kernel/postgres/calls.go:58-72 | Stores or refreshes a call, and leaves a key that is on file under another body |
| `Replay.RunsOnce` | internal/kernel/httpx/idempotency.go:71-98 | Once remembered, the same call gets the stored answer for the whole window without the handler running, whatever is served in between |
| `Replay.StoreSummarizes` | internal/kernel/postgres/calls.go:51-72 | The store holds for each key exactly what the history of answers says: the first answered body, and the latest answer to it |
| `Replay.ReplayedExactlyWhen` | internal/kernel/httpx/idempotency.go:79-86 | A call is answered from the store exactly when its body is the one the key was first answered for and the latest answer is young enough, and then nothing is run or stored |
| `Replay.ReplayHasSource` | internal/kernel/httpx/idempotency.go:91-96 | Whatever is replayed was answered earlier, with a result, by the handler, to the same stand, method, id and body |
| `Replay.PinnedToFirstBody` | internal/kernel/postgres/calls.go:51-72 | A key belongs to its first answered body for good: another body always runs and never overwrites it |
| `Replay.WindowInMilliseconds` | internal/kernel/postgres/calls.go:36-40 | The window counts in whole milliseconds, so one shorter than that never replays |
| `Base64.RoundTrip` | internal/context/payment/checkout/domain/receipt.go:103 | Decoding what was encoded gives the bytes back |
| `Base64.SymbolsAre` | internal/context/payment/checkout/domain/receipt.go:103 | The symbols are those of the standard alphabet |
| `Base64.GroupSpells` | internal/context/payment/checkout/domain/receipt.go:103 | Four symbols spell the bits of three bytes, highest first |
| `Base64.ReadsSpelled` | internal/context/payment/checkout/domain/parse.go:18 | Text is read exactly when it is whole groups of symbols ending in at most two pads |
| `Base64.LastReads` | internal/context/payment/checkout/domain/parse.go:18 | Bits a last group has beyond its bytes are dropped |
| `Base64.LastGroup` | internal/context/payment/checkout/domain/receipt.go:103 | One byte, or two, at the end are padded to a group |
| `Base64.BreaksDropped` | internal/context/payment/checkout/domain/parse.go:18 | Line breaks in it count for nothing |
| `Checkout.Receipt.EncodeGET` | internal/context/payment/checkout/domain/receipt.go:76-104 | Writes the parameters in one order, whatever order the account map is walked in |
| `Checkout.AnyOrder` | internal/context/payment/checkout/domain/receipt.go:79-83 | Sorting gives the same fields for every walk of the map |
| `Checkout.ParseGET` | internal/context/payment/checkout/domain/parse.go:17-41 | Reads pair by pair into a receipt, or refuses, exactly as modelled |
| `Checkout.Receipt.ApplyGETKey` | internal/context/payment/checkout/domain/parse.go:44-84 | Assigns one key, ignores an unknown one, and refuses a nameless field or a bad number |
| `Checkout.LinkCarries` | internal/context/payment/checkout/domain/receipt.go:76-103 | The parameters of a link, in order, each under its key |
| `Checkout.KeysRead` | internal/context/payment/checkout/domain/parse.go:44-84 | What each key of a link sets |
| `Checkout.ValidatesExactly` | internal/context/payment/checkout/domain/receipt.go:51-62 | A payment needs a merchant, a positive amount and an account |
| `Checkout.PairsRead` | internal/context/payment/checkout/domain/parse.go:25-38 | A pair is cut at its first equals sign, an empty one is skipped, and one without the sign is refused |
| `Checkout.SpacesTrimmed` | internal/context/payment/checkout/domain/parse.go:18 | Spaces around the text are dropped and those within are kept |
| `CheckoutProofs.ReadsBackExactlyWhen` | internal/context/payment/checkout/domain/parse.go:17-41 | Reading undoes writing, with only description and detail dropped, exactly for receipts that validate, have no separator in their parts, no nameless field, and no negative timeout or currency |
| `CheckoutProofs.LinksTellApart` | internal/context/payment/checkout/domain/receipt.go:73-104 | Such receipts have the same link only if they are the same, up to description and detail |
| `CheckoutProofs.ReadsWritable` | internal/context/payment/checkout/domain/parse.go:25-40 | Whatever text is read, a receipt that comes of it validates and could have been written |
| `CheckoutProofs.NamesField` | internal/context/payment/checkout/domain/parse.go:133-143 | A form key names a field exactly when it is that non-empty field in the brackets |
| `Faults.Engine.Evaluate` | internal/context/simulation/fault/domain/engine.go:60-86 | Decides as modelled whatever order the store returned the rules in, and spends one use of a limited winner |
| `Faults.LeastWinnerFires` | internal/context/simulation/fault/domain/engine.go:60-97 | The least rule by priority and identifier that matches, is not spent and wins its own roll fires; none does exactly when there is none; and the order returned makes no difference |
| `Faults.DecidesOnRows` | internal/context/simulation/fault/domain/engine.go:60-97 | On the rows of the table: the rule that fires is enabled, of no profile, for this stand or all, matches and is not spent, won a roll if it is not certain, brings its own delay, and no certain one that may fire comes earlier; and nothing fires only if no certain one may |
| `Faults.InForceExactly` | internal/context/simulation/fault/infrastructure/rules.go:40-58 | The rows in force for a stand are the enabled ones of no profile that name it or name none |
| `Faults.SortedOrdered` | internal/context/simulation/fault/domain/engine.go:90-97 | Sorting is a permutation in (priority, identifier) order |
| `Faults.RuleStore.Consume` | internal/context/simulation/fault/infrastructure/rules.go:65-84 | One use less, none below zero, disabled with the last, and no other row touched |
| `Faults.ConsumesExactly` | internal/context/simulation/fault/infrastructure/rules.go:60-95 | Spending a use: one hit more, one use less but never below none, and off with the last |
| `Faults.LimitedUses` | internal/context/simulation/fault/infrastructure/rules.go:60-84 | Over every run a limited rule's fires and remaining uses add up to what it started with, and it is disabled once the last is gone |
| `Luhn.LuhnValid` | cmd/console/cards.go:378-400 | Accepts exactly the digit strings whose weighted sum is a multiple of ten |
| `Luhn.TwoMore` | cmd/console/cards.go:378-400 | From the right every second digit counts double, less nine when that passes nine |
| `Luhn.OneAlone` | cmd/console/cards.go:378-400 | A single digit counts as it is |
| `Luhn.OneChangeIsCaught` | cmd/console/cards.go:378-400 | No valid number stays valid when one character is changed |
| `Luhn.SwapIsCaught` | cmd/console/cards.go:378-400 | Swapping unequal neighbours of a valid number is caught, exactly except for 0 and 9 |
| `Luhn.OneCheckDigit` | cmd/console/cards.go:378-400 | Every prefix has exactly one final digit that makes it valid |
| `Paging.Paginate` | cmd/console/paging.go:103-140 | Trims the extra row and describes the pager as modelled |
| `Paging.PageOf` | cmd/console/paging.go:83-97 | Reads number and size, with every bad value the default |
| `Paging.PageSizeOf` | cmd/console/paging.go:27-40 | One of the offered sizes, the asked one when it is |
| `Paging.RequestExactly` | cmd/console/paging.go:83-97 | One row more than the page is asked for, from where the page begins |
| `Paging.SizesOffered` | cmd/console/paging.go:21-40 | 25, 50, 100 or 200 rows as asked, and 50 for anything else |
| `Paging.WrapsExactly` | cmd/console/paging.go:83-97 | Offsets wrap around at 64 bits |
| `Paging.AddressesExactly` | cmd/console/paging.go:144-177 | What a page address and a size address leave out and put in |
| `Decimal.SignsRead` | cmd/console/paging.go:83-97 | A number is read with or without a sign within 64 bits, and nothing else is |
| `Decimal.DigitsAre` | cmd/console/format.go:33-34 | Digits are written with the ten figures |
| `Paging.PagerExactly` | cmd/console/paging.go:103-140 | The pages on either side, the rows covered and the sizes offered |
| `Paging.CloneQuery` | cmd/console/paging.go:181-187 | The same parameters, whatever order the map is walked in |
| `Paging.ReadToTheBottom` | cmd/console/paging.go:103-158 | Following the next page shows a prefix of the list at every point, and all of it exactly when there is no next page left |
| `Paging.NumberReadBack` | cmd/console/paging.go:144-158 | A page address read back names that page, with size and every other parameter kept |
| `Paging.SizeReadBack` | cmd/console/paging.go:162-177 | A size address read back picks that size from the first page, with every other parameter kept |
| `Paging.PreviousOfNext` | cmd/console/paging.go:120-125 | The page before the next page is this page |
| `Paging.WindowsTile` | internal/context/payment/subscribe/infrastructure/inmem/inmem.go:213-220 | Windows a size apart show every row once, in order, and all of them in the end |
| `Format.Group` | cmd/console/format.go:56-74 | Writes the digits in the modelled chunks |
| `Format.GroupedShape` | cmd/console/format.go:56-74 | A first chunk of one to three digits, then chunks of exactly three, with every digit kept in order |
| `Format.GroupedFromTheRight` | cmd/console/format.go:56-74 | The gap is a plain space before every three digits from the right but the first |
| `Format.FormatSum` | cmd/console/format.go:27-44 | Writes an amount as modelled, 64-bit negation included |
| `Format.FormatSigned` | cmd/console/format.go:48-53 | Writes an amount with a plus when it is positive |
| `Format.SumExactly` | cmd/console/format.go:27-53 | An amount is its units in groups, a point and its two hundredths, after a minus when negative and a plus where that is asked for |
| `Format.SumReadsBack` | cmd/console/format.go:27-53 | Without gaps and point a formatted amount reads back, exactly for the amounts above the 64-bit minimum |

## Left out

- HTTP handlers, authentication, cookies, configuration, start and shutdown: plumbing.
- JSON, SHA-256, random identifiers, shell patterns and jsonb normalisation: functions the model is given; the hash is assumed injective on the bodies seen.
- SQL text and real concurrency: a repository is a table with the meaning of its statements, under the atomic-step assumption.
- Balances beyond 64 bits: amounts and balances do not wrap around.
- Receipt detail, payer, description, currency, commission and views, masked numbers, error texts and translations: carried or rendered, never decided on.
- SMS delivery, ReceiptsSend, the per-card delay, card labels: effects outside the state.
- CardsCheck, ReceiptsCheck, ReceiptsGet, AccountsGetBalance: reads of one stored value.
- Receivers of a transaction: stored and reported, never decided on.
- The Postgres card store, where one card has a token for each register: the in-memory store is the one modelled.
- In-memory Merchant and Scheduler of the browser build: they agree to everything and schedule nothing.
- ParsePOST and its JSON detail, ResolveCallback, CheckoutURL: the form twin of ParseGET without a writer to undo, and one-line substitutions.
- Requests over 1 MiB, which the replay layer cuts before the handler sees them.
- Unicode spaces: Trim knows the ASCII ones, and no encoding contains any.
- Writing parameters into a URL and reading them back: an address is its path and its parameters.
- Fault rule hit counts: a limited rule that fires is counted both by Consume and by Hit, so there is no clean property.
- Hold expiry: HoldExpired is not called by any service, and no worker releases a hold.
- Operator overrides that edit or delete rows outright (cmd/console/crud.go): they break the protocol by design.
- The error branch of cancelling a transaction: no state of the four reaches it.
- SubscribeStores.Receipts.List: the offset is not negative; a negative one makes the original panic.
- SubscribeService.Service.ReceiptsGetAll: the offset is not negative, for the same reason.
- SubscribeService.Service.Wait: runs whole steps one after another, where the original's may overlap; SubscribeWalk.WalkEnds covers every order of them.
- SubscribeStores.Cards.ByNumber: asks that no two cards share a number, which every run keeps (SubscribeCards.IndexesAgree).
- Faults.Engine.Evaluate: sorting is the library's; it is modelled as the stable sort its contract promises.
