/**
  Payouts that the Merchant API reaches.  The register keeps a payout in the merchant's own
  transactions, where perform and cancel find it by its identifier like any payment's; what
  then becomes of the payout, and a run from an opening stand that pays one out twice.
 */
module SubscribeDisturbance {
  import opened Common
  import opened SubscribeModel
  import opened SubscribeProofs
  import opened SubscribeBooks
  import Billing
  import Merchant = MerchantModel
  import MerchantMoney
  import MerchantProofs

  /** An open payout of the register, with its row, which the stand could settle now. */
  predicate OpenPayoutOf(w: World, st: Settings, id: string, t: Merchant.Tx) {
    && Shelved(w) && Carded(w) && st.ledger && id in w.receipts
    && Completable(w, st, id, "", w.receipts[id].amount)
    && RowOf(w.books.txs, w.receipts[id].merchantTxn) == Some(t) && t.amount == w.receipts[id].amount
  }

  /** Other books leave it that, while their register can settle it. */
  lemma StillCompletable(w: World, st: Settings, id: string, books: Merchant.Books)
    requires id in w.receipts && Completable(w, st, id, "", w.receipts[id].amount) && books.accounts != []
    requires Billing.CanApply(books.Register(), books.Stopped(), st.merchant.registerKind, w.receipts[id].amount)
    ensures Completable(w.(books := books), st, id, "", w.receipts[id].amount)
    ensures Shelved(w) ==> Shelved(w.(books := books))
    ensures Carded(w) ==> Carded(w.(books := books))
  {
  }

  /** The register of an open payout, and what settling the payout needs of it. */
  lemma RegisterOf(w: World, st: Settings, id: string, t: Merchant.Tx)
    requires OpenPayoutOf(w, st, id, t)
    ensures Shelved(w) && Carded(w) && st.ledger && id in w.receipts && w.receipts[id].amount == t.amount
    ensures Completable(w, st, id, "", t.amount)
    ensures RowOf(w.books.txs, w.receipts[id].merchantTxn) == Some(t)
    ensures w.books.accounts != [] && st.merchant.Kind() == st.merchant.registerKind
    ensures Billing.CanApply(w.books.Register(), w.books.Stopped(), st.merchant.registerKind, t.amount)
  {
  }

  /** What the merchant's perform of that row does: the receipt does not see it. */
  lemma Performing(w: World, st: Settings, id: string, t: Merchant.Tx, now: int)
    requires OpenPayoutOf(w, st, id, t) && Performs(w.books, st.merchant, w.receipts[id].merchantTxn, now)
    ensures var (b, performed) := Merchant.Perform(w.books, st.merchant, w.receipts[id].merchantTxn, now);
      && performed.Ok? && b.accounts != [] && b.Stopped() == w.books.Stopped()
      && b.Register() == w.books.Register() + st.merchant.registerKind.Signed(t.amount)
      && RowOf(b.txs, w.receipts[id].merchantTxn) == Some(t.(state := Merchant.State.Performed, performTime := now))
      && Forth(b, t.id) == Forth(w.books, t.id) + 1 && Debits(b.moves, t.id) == Debits(w.books.moves, t.id)
  {
    var txn := w.receipts[id].merchantTxn;
    PerformRow(w.books, st.merchant, txn, now);
    CountsAfter(w.books, Merchant.Perform(w.books, st.merchant, txn, now).0, t.id);
    UnnamedCounts(w.books.moves, Merchant.Perform(w.books, st.merchant, txn, now).0.moves, t.id);
  }

  /** A complete of an open payout settles it in the register's books. */
  lemma Completing(w: World, st: Settings, id: string, now: int)
    requires Shelved(w) && Carded(w) && st.ledger && id in w.receipts
    requires Completable(w, st, id, "", w.receipts[id].amount)
    ensures var (w', r) := TransactionsComplete(w, st, id, "", w.receipts[id].amount, now);
      && r.Ok? && w'.completed == w.completed + {id}
      && SettlePayout(w.books, st.merchant.registerKind, PayoutOf(w.receipts[id].(payTime := now))) == Ok(w'.books)
  {
    var receipt := w.receipts[id];
    var p := PayoutOf(receipt.(payTime := now));
    SettleSucceeds(w.books, st.merchant.registerKind, p);
    CompleteSucceeds(w, id, "", receipt.amount, now, Settlement(w, st, receipt, now));
    Loaded(w, "", id);
    CompleteReplaces(w, id, "", receipt.amount, now, Settlement(w, st, receipt, now));
    CompleteBooks(w, id, "", receipt.amount, now, Settlement(w, st, receipt, now));
  }

  /**
    A perform delivered for an open payout's transaction, created and in time, is answered;
    completing the payout afterwards is answered too while the register holds the amount
    twice: the register moves by twice the amount for one performed transaction, and its books
    no longer reconcile.
   */
  lemma PerformedPayoutMovesTwice(w: World, st: Settings, opening: int, id: string, t: Merchant.Tx, now: int, later: int)
    requires OpenPayoutOf(w, st, id, t) && Performs(w.books, st.merchant, w.receipts[id].merchantTxn, now)
    requires MerchantMoney.Reconciled(w.books, st.merchant, opening) && t.amount != 0
    requires st.merchant.registerKind.Inbound() || 2 * t.amount <= w.books.Register()
    ensures var (b, performed) := Merchant.Perform(w.books, st.merchant, w.receipts[id].merchantTxn, now);
      var (w', completed) := TransactionsComplete(w.(books := b), st, id, "", t.amount, later);
      && w.(books := b) == Step(w, st, ToMerchant(Merchant.PerformCall(w.receipts[id].merchantTxn)), now)
      && performed.Ok? && completed.Ok?
      && w'.books.Register() == w.books.Register() + 2 * st.merchant.registerKind.Signed(t.amount)
      && !MerchantMoney.Reconciled(w'.books, st.merchant, opening)
      && Forth(w'.books, t.id) == Forth(w.books, t.id) + 2
      && Debits(w'.books.moves, t.id) == Debits(w.books.moves, t.id) + 1
  {
    hide Merchant.Perform, TransactionsComplete, RowOf, Forth, Debits, MerchantMoney.Reconciled, SettlePayout,
         Completable,
         Shelved, Carded, OpenPayoutOf, Performs, Step;
    RegisterOf(w, st, id, t);
    Performing(w, st, id, t, now);
    var txn := w.receipts[id].merchantTxn;
    Delivered(w, st, txn, 0, now);
    MerchantMoney.PerformReconciled(w.books, st.merchant, opening, txn, now);
    var b1 := Merchant.Perform(w.books, st.merchant, txn, now).0;
    StillCompletable(w, st, id, b1);
    CompletesAgain(w.(books := b1), st, opening, id, later);
  }

  lemma Delivered(w: World, st: Settings, txn: string, reason: int, now: int)
    ensures Step(w, st, ToMerchant(Merchant.PerformCall(txn)), now) ==
            w.(books := Merchant.Perform(w.books, st.merchant, txn, now).0)
    ensures Step(w, st, ToMerchant(Merchant.CancelCall(txn, reason)), now) ==
            w.(books := Merchant.Cancel(w.books, st.merchant, txn, reason, now).0)
  {
  }

  /** Completing an open payout whose row was performed. */
  lemma CompletesAgain(w: World, st: Settings, opening: int, id: string, now: int)
    requires Shelved(w) && Carded(w) && st.ledger && id in w.receipts
    requires Completable(w, st, id, "", w.receipts[id].amount) && w.receipts[id].amount != 0
    requires RowOf(w.books.txs, w.receipts[id].merchantTxn).Some? && MerchantMoney.Reconciled(w.books, st.merchant, opening)
    requires var t := RowOf(w.books.txs, w.receipts[id].merchantTxn).value;
      t.state.Performed? && t.amount == w.receipts[id].amount
    ensures var (w', r) := TransactionsComplete(w, st, id, "", w.receipts[id].amount, now);
      var n := RowOf(w.books.txs, w.receipts[id].merchantTxn).value.id;
      && r.Ok? && w'.books.Register() == w.books.Register() + st.merchant.registerKind.Signed(w.receipts[id].amount)
      && !MerchantMoney.Reconciled(w'.books, st.merchant, opening)
      && Forth(w'.books, n) == Forth(w.books, n) + 1 && Debits(w'.books.moves, n) == Debits(w.books.moves, n) + 1
  {
    hide TransactionsComplete, RowOf, Forth, Debits, MerchantMoney.Reconciled, SettlePayout, Completable, Shelved, Carded;
    Completing(w, st, id, now);
    SettledAgain(w.books, st.merchant, opening, PayoutOf(w.receipts[id].(payTime := now)),
                 RowOf(w.books.txs, w.receipts[id].merchantTxn).value.id);
  }

  /** Settling a payout whose row was performed. */
  lemma SettledAgain(b: Merchant.Books, st: Merchant.Settings, opening: int, p: Payout, n: int)
    requires RowOf(b.txs, p.txn).Some? && SettlePayout(b, st.registerKind, p).Ok? && p.amount != 0
    requires var t := RowOf(b.txs, p.txn).value; t.state.Performed? && t.amount == p.amount && t.id == n
    requires MerchantMoney.Reconciled(b, st, opening)
    ensures var b' := SettlePayout(b, st.registerKind, p).value;
      && b'.Register() == b.Register() + st.registerKind.Signed(p.amount)
      && !MerchantMoney.Reconciled(b', st, opening)
      && Forth(b', n) == Forth(b, n) + 1 && Debits(b'.moves, n) == Debits(b.moves, n) + 1
  {
    SettlePerformed(b, st.registerKind, p);
    SettleReconciles(b, st, opening, p);
    SettleCounts(b, st.registerKind, p, n);
    SettleMoves(b, st.registerKind, p, n);
    hide SettlePayout, Forth, Debits, MerchantMoney.Reconciled;
  }

  /**
    When a perform was delivered for an open payout's transaction and the payout was completed
    after it, the books reconcile exactly when that perform did not settle the transaction.
   */
  lemma ReconcilesUnlessPerformed(w: World, st: Settings, opening: int, id: string, t: Merchant.Tx, now: int, later: int)
    requires OpenPayoutOf(w, st, id, t) && !t.state.Performed?
    requires MerchantMoney.Reconciled(w.books, st.merchant, opening) && t.amount != 0
    ensures var txn := w.receipts[id].merchantTxn;
      var w1 := Step(w, st, ToMerchant(Merchant.PerformCall(txn)), now);
      Completable(w1, st, id, "", t.amount) ==>
        (MerchantMoney.Reconciled(TransactionsComplete(w1, st, id, "", t.amount, later).0.books, st.merchant, opening) <==>
         !Performs(w.books, st.merchant, txn, now))
  {
    hide Merchant.Perform, TransactionsComplete, RowOf, MerchantMoney.Reconciled, SettlePayout, Completable, Shelved,
         Carded,
         OpenPayoutOf, Step, Performs;
    RegisterOf(w, st, id, t);
    var txn := w.receipts[id].merchantTxn;
    PerformRow(w.books, st.merchant, txn, now);
    Delivered(w, st, txn, 0, now);
    MerchantMoney.PerformReconciled(w.books, st.merchant, opening, txn, now);
    var w1 := Step(w, st, ToMerchant(Merchant.PerformCall(txn)), now);
    if Completable(w1, st, id, "", t.amount) {
      Completing(w1, st, id, later);
      SettleReconciles(w1.books, st.merchant, opening, PayoutOf(w.receipts[id].(payTime := later)));
    }
  }

  /**
    A cancel delivered for an open payout's transaction cancels the row and not the receipt:
    the payout can still be completed, and that makes a cancelled transaction performed again,
    with the time and the reason of its cancellation on it.
   */
  lemma CancelledRowPaysOut(w: World, st: Settings, id: string, t: Merchant.Tx, reason: int, now: int, later: int)
    requires OpenPayoutOf(w, st, id, t) && t.state.Created?
    ensures var txn := w.receipts[id].merchantTxn;
      var w1 := Step(w, st, ToMerchant(Merchant.CancelCall(txn, reason)), now);
      var (w', completed) := TransactionsComplete(w1, st, id, "", t.amount, later);
      var ended := t.Ended(reason, now);
      && RowOf(w1.books.txs, txn) == Some(ended) && ended.state == Merchant.State.Cancelled
      && completed.Ok?
      && RowOf(w'.books.txs, txn) == Some(ended.(state := Merchant.State.Performed, performTime := later))
      && !MerchantMoney.Evolves(ended, RowOf(w'.books.txs, txn).value)
  {
    hide Merchant.Cancel, TransactionsComplete, RowOf, Completable, Shelved, Carded, OpenPayoutOf, Step, SettlePayout;
    RegisterOf(w, st, id, t);
    var txn := w.receipts[id].merchantTxn;
    CancelRow(w.books, st.merchant, txn, reason, now);
    Delivered(w, st, txn, reason, now);
    CancelOfCreated(w.books, st.merchant, txn, reason, now);
    var b1 := Merchant.Cancel(w.books, st.merchant, txn, reason, now).0;
    StillCompletable(w, st, id, b1);
    Completing(w.(books := b1), st, id, later);
    SettlesRow(b1, st.merchant.registerKind, PayoutOf(w.receipts[id].(payTime := later)), t.Ended(reason, now));
  }

  /** Cancelling what was not performed moves no money. */
  lemma CancelOfCreated(b: Merchant.Books, st: Merchant.Settings, txn: string, reason: int, now: int)
    requires RowOf(b.txs, txn).Some? && RowOf(b.txs, txn).value.state.Created?
    ensures Merchant.Cancel(b, st, txn, reason, now).0.accounts == b.accounts
  {
  }

  lemma SettlesRow(b: Merchant.Books, kind: Billing.Kind, p: Payout, t: Merchant.Tx)
    requires RowOf(b.txs, p.txn) == Some(t) && SettlePayout(b, kind, p).Ok?
    ensures RowOf(SettlePayout(b, kind, p).value.txs, p.txn) ==
            Some(t.(state := Merchant.State.Performed, performTime := p.payTime))
  {
    SettleReplaces(b, kind, p);
    SettleRows(b, kind, p);
    hide SettlePayout;
  }

  /**
    The cancel of that row, delivered again after the payout was completed, is not answered as
    it was the first time: it finds a performed transaction, says -2 where it said -1, and puts
    the payout's amount back.
   */
  lemma RepeatedCancelMoves(w: World, st: Settings, id: string, t: Merchant.Tx, reason: int, now: int, later: int,
                            last: int)
    requires OpenPayoutOf(w, st, id, t) && t.state.Created?
    ensures var txn := w.receipts[id].merchantTxn;
      var (b1, first) := Merchant.Cancel(w.books, st.merchant, txn, reason, now);
      var (w', completed) := TransactionsComplete(w.(books := b1), st, id, "", t.amount, later);
      var (b2, again) := Merchant.Cancel(w'.books, st.merchant, txn, reason, last);
      && first == Ok(Merchant.CancelResult(Merchant.Number(t), now, Merchant.State.Cancelled))
      && completed.Ok?
      && again == Ok(Merchant.CancelResult(Merchant.Number(t), last, Merchant.State.CancelledAfterDo))
      && b2.Register() == w'.books.Register() - st.merchant.Kind().Signed(t.amount)
  {
    hide TransactionsComplete, RowOf, Completable, Shelved, Carded, OpenPayoutOf, Step, SettlePayout, Merchant.Cancel;
    RegisterOf(w, st, id, t);
    CancelledRowPaysOut(w, st, id, t, reason, now, later);
    var txn := w.receipts[id].merchantTxn;
    Delivered(w, st, txn, reason, now);
    var b1 := Merchant.Cancel(w.books, st.merchant, txn, reason, now).0;
    CancelOfCreated(w.books, st.merchant, txn, reason, now);
    StillCompletable(w, st, id, b1);
    Completing(w.(books := b1), st, id, later);
    var p := PayoutOf(w.receipts[id].(payTime := later));
    SettleReplaces(b1, st.merchant.registerKind, p);
    var b2 := TransactionsComplete(w.(books := b1), st, id, "", t.amount, later).0.books;
    CancelAnswer(w.books, st.merchant, txn, reason, now);
    CancelAnswer(b2, st.merchant, txn, reason, last);
    CancelOfPerformed(b2, st.merchant, txn, reason, last);
  }

  lemma CancelAnswer(b: Merchant.Books, st: Merchant.Settings, txn: string, reason: int, now: int)
    requires RowOf(b.txs, txn).Some? && RowOf(b.txs, txn).value.state.IsActive() && b.accounts != []
    ensures var t := RowOf(b.txs, txn).value;
      Merchant.Cancel(b, st, txn, reason, now).1 ==
      Ok(Merchant.CancelResult(Merchant.Number(t), now, t.Ended(reason, now).state))
  {
  }

  /** And a perform of an open payout's row, repeated after the payout was completed, answers the time of that. */
  lemma RepeatedPerformDiffers(w: World, st: Settings, opening: int, id: string, t: Merchant.Tx, now: int,
                               later: int, last: int)
    requires OpenPayoutOf(w, st, id, t) && Performs(w.books, st.merchant, w.receipts[id].merchantTxn, now)
    requires MerchantMoney.Reconciled(w.books, st.merchant, opening) && t.amount != 0
    requires st.merchant.registerKind.Inbound() || 2 * t.amount <= w.books.Register()
    ensures var txn := w.receipts[id].merchantTxn;
      var (b1, first) := Merchant.Perform(w.books, st.merchant, txn, now);
      var (w', completed) := TransactionsComplete(w.(books := b1), st, id, "", t.amount, later);
      && completed.Ok?
      && first == Ok(Merchant.PerformResult(Merchant.Number(t), now, Merchant.State.Performed))
      && Merchant.Perform(w'.books, st.merchant, txn, last).1 ==
         Ok(Merchant.PerformResult(Merchant.Number(t), later, Merchant.State.Performed))
  {
    hide TransactionsComplete, RowOf, Completable, Shelved, Carded, OpenPayoutOf, Step, SettlePayout,
         Merchant.Perform, Performs,
         MerchantMoney.Reconciled;
    RegisterOf(w, st, id, t);
    PerformedPayoutMovesTwice(w, st, opening, id, t, now, later);
    Performing(w, st, id, t, now);
    var txn := w.receipts[id].merchantTxn;
    var b1 := Merchant.Perform(w.books, st.merchant, txn, now).0;
    StillCompletable(w, st, id, b1);
    Completing(w.(books := b1), st, id, later);
    var p := PayoutOf(w.receipts[id].(payTime := later));
    SettlesRow(b1, st.merchant.registerKind, p, t.(state := Merchant.State.Performed, performTime := now));
    PerformAnswer(w.books, st.merchant, txn, now);
    PerformAnswer(TransactionsComplete(w.(books := b1), st, id, "", t.amount, later).0.books, st.merchant, txn, last);
  }

  lemma PerformAnswer(b: Merchant.Books, st: Merchant.Settings, txn: string, now: int)
    requires RowOf(b.txs, txn).Some?
    ensures var t := RowOf(b.txs, txn).value; var r := Merchant.Perform(b, st, txn, now).1;
      && (Performs(b, st, txn, now) ==> r == Ok(Merchant.PerformResult(Merchant.Number(t), now, Merchant.State.Performed)))
      && (t.state.Performed? ==> r == Ok(Merchant.PerformResult(Merchant.Number(t), t.performTime, t.state)))
  {
  }

  /**
    A cancel delivered for a settled payout's transaction puts its amount back and leaves the
    receipt paid and the card credited: the payout is answered for by no performed
    transaction, and completing it again moves nothing.
   */
  lemma CancelledSettlement(w: World, st: Settings, id: string, reason: int, now: int, later: int)
    requires Shelved(w) && Carded(w) && id in w.completed && id in w.receipts && w.receipts[id].state.Paid?
    requires SettledRow(w.books, w.receipts[id].merchantTxn, w.receipts[id].amount, true) && w.books.accounts != []
    ensures var txn, amount := w.receipts[id].merchantTxn, w.receipts[id].amount;
      var w' := Step(w, st, ToMerchant(Merchant.CancelCall(txn, reason)), now);
      && w'.receipts == w.receipts && w'.cards == w.cards && w'.completed == w.completed
      && RowOf(w'.books.txs, txn).Some? && RowOf(w'.books.txs, txn).value.state.CancelledAfterDo?
      && w'.books.Register() == w.books.Register() - st.merchant.Kind().Signed(amount)
      && TransactionsComplete(w', st, id, "", amount, later).0 == w'
  {
    var txn := w.receipts[id].merchantTxn;
    hide RowOf, TransactionsComplete, Shelved, Carded, Merchant.Cancel, Step, Debits;
    CancelRow(w.books, st.merchant, txn, reason, now);
    Delivered(w, st, txn, reason, now);
    CancelOfPerformed(w.books, st.merchant, txn, reason, now);
    CompleteMoves(Step(w, st, ToMerchant(Merchant.CancelCall(txn, reason)), now), st, id, "", w.receipts[id].amount, later);
  }

  /** Cancelling what was performed puts it back. */
  lemma CancelOfPerformed(b: Merchant.Books, st: Merchant.Settings, txn: string, reason: int, now: int)
    requires RowOf(b.txs, txn).Some? && RowOf(b.txs, txn).value.state.Performed? && b.accounts != []
    ensures Merchant.Cancel(b, st, txn, reason, now).0.Register() ==
            b.Register() - st.Kind().Signed(RowOf(b.txs, txn).value.amount)
  {
  }

  /** A row that a payment has, settled for a payout: its order, which nobody marks, disagrees with it. */
  lemma TakenRow(b: Merchant.Books, kind: Billing.Kind, p: Payout, t: Merchant.Tx)
    requires MerchantProofs.Consistent(b) && RowOf(b.txs, p.txn) == Some(t) && t.state.Created?
    requires t.orderID != 0 && Billing.OrderIndex(b.orders, t.orderID) < |b.orders|
    requires SettlePayout(b, kind, p).Ok?
    ensures var b' := SettlePayout(b, kind, p).value; var k := Billing.OrderIndex(b.orders, t.orderID);
      && RowOf(b'.txs, p.txn) == Some(t.(state := Merchant.State.Performed, performTime := p.payTime))
      && b'.orders == b.orders && b.orders[k].status == Billing.Processing
      && !MerchantProofs.Consistent(b')
  {
    SettleReplaces(b, kind, p);
    SettleRows(b, kind, p);
    var b', i, k := SettlePayout(b, kind, p).value, Merchant.TxIndex(b.txs, p.txn), Billing.OrderIndex(b.orders, t.orderID);
    hide SettlePayout;
    assert b.txs[i].state.IsActive() && b'.txs[i].state.IsActive() && b'.txs[i].orderID == b'.orders[k].id;
  }

  /** An answered create of a new identifier leaves a created row for a stored order. */
  lemma CreatedFor(b: Merchant.Books, st: Merchant.Settings, p: Merchant.CreateParams, now: int)
    requires MerchantProofs.Consistent(b) && RowOf(b.txs, p.id).None? && Merchant.Create(b, st, p, now).1.Ok?
    ensures var b' := Merchant.Create(b, st, p, now).0;
      && MerchantProofs.Consistent(b') && RowOf(b'.txs, p.id).Some?
      && var t := RowOf(b'.txs, p.id).value;
      && t.state.Created? && t.amount == p.amount && t.orderID != 0 && Billing.OrderIndex(b'.orders, t.orderID) < |b'.orders|
  {
    MerchantProofs.CreateConsistent(b, st, p, now);
    MerchantProofs.AdmittedIsStored(b, st, p);
    MerchantMoney.AdmitKeepsTransactions(b, st, p);
    hide MerchantProofs.Consistent, MerchantProofs.Shaped, Merchant.Admit, RowOf;
    var (b1, order) := Merchant.Admit(b, st, p);
    if order.Ok? {
      CreatedOrder(b, b1, order.value, p, now);
    }
  }

  lemma CreatedOrder(b: Merchant.Books, b1: Merchant.Books, order: Billing.OrderRow, p: Merchant.CreateParams, now: int)
    requires b1.txs == b.txs && RowOf(b.txs, p.id).None? && Merchant.WasAdmitted(b1, order, p)
    requires Merchant.Insert(b1, order, p, now).1.Ok?
    ensures var b' := Merchant.Insert(b1, order, p, now).0;
      RowOf(b'.txs, p.id) == Some(Merchant.NewTx(b1, order, p, now)) && Billing.OrderIndex(b'.orders, order.id) < |b'.orders|
  {
    InsertRow(b1, order, p, now);
    var b' := Merchant.Insert(b1, order, p, now).0;
    var k := Billing.OrderIndex(b1.orders, order.id);
    assert b'.orders[k].id == order.id;
  }

  /** The register is started again and a payment created. */
  function Retaken(b: Merchant.Books, st: Merchant.Settings, p: Merchant.CreateParams, now: int)
    : (Merchant.Books, Result<Merchant.CreateResult>)
  {
    Merchant.Create(Merchant.Step(b, st, Merchant.BlockCall(false), now), st, p, now)
  }

  /** What the refused payout leaves behind, with its identifier taken. */
  lemma Taking(w: World, st: Settings, amount: int, token: string, account: map<string, string>, id: string, txn: string,
               now: int, p: Merchant.CreateParams, since: int)
    requires Sound(w, now) && MerchantProofs.Consistent(w.books) && st.ledger && 0 < amount
    requires w.LoadCard(token).Ok? && w.LoadCard(token).value.Operable().Ok? && id != "" && id !in w.receipts && FreshTxn(w, txn)
    requires OpenPayout(w.books, Payout(txn, amount, account, now, 0)).Err?
    requires p.id == txn && Retaken(w.books, st.merchant, p, since).1.Ok?
    ensures var (w1, refused) := TransactionsCreate(w, st, amount, token, account, id, txn, now);
      var b := Retaken(w.books, st.merchant, p, since).0;
      && refused.Err? && w1.books == w.books && Shelved(w1) && Carded(w1)
      && id in w1.receipts && w1.receipts[id].merchantTxn == txn && w1.receipts[id].amount == amount
      && MerchantProofs.Consistent(b) && RowOf(b.txs, txn).Some?
      && var t := RowOf(b.txs, txn).value;
      && t.state.Created? && t.amount == p.amount && t.orderID != 0 && Billing.OrderIndex(b.orders, t.orderID) < |b.orders|
  {
    CreatePayoutSound(w, amount, token, account, id, txn, now, OpenPayout(w.books, Payout(txn, amount, account, now, 0)));
    MerchantProofs.StepConsistent(w.books, st.merchant, Merchant.BlockCall(false), since);
    hide MerchantProofs.Consistent, Merchant.Create;
    CreatedFor(Merchant.Step(w.books, st.merchant, Merchant.BlockCall(false), since), st.merchant, p, since);
  }

  /**
    A payout the stopped register refused to open leaves its receipt and no row.  Once the
    register is started, a create may be delivered under its identifier and makes a payment of
    it; completing the payout then performs that payment's transaction, for the payment's
    amount, and its order, which nobody marks, stays processing: the tables disagree.
   */
  lemma TakenIdentifier(w: World, st: Settings, amount: int, token: string, account: map<string, string>, id: string,
                        txn: string,
                        now: int, p: Merchant.CreateParams, since: int, later: int)
    requires Sound(w, now) && MerchantProofs.Consistent(w.books) && st.ledger && 0 < amount
    requires w.LoadCard(token).Ok? && w.LoadCard(token).value.Operable().Ok? && id != "" && id !in w.receipts && FreshTxn(w, txn)
    requires OpenPayout(w.books, Payout(txn, amount, account, now, 0)).Err?
    requires p.id == txn && Retaken(w.books, st.merchant, p, since).1.Ok?
    ensures var (w1, refused) := TransactionsCreate(w, st, amount, token, account, id, txn, now);
      var b := Retaken(w.books, st.merchant, p, since).0;
      var w2 := w1.(books := b);
      && refused.Err? && RowOf(b.txs, txn).Some? && RowOf(b.txs, txn).value.amount == p.amount
      && w2 == Step(Step(w1, st, ToMerchant(Merchant.BlockCall(false)), since), st, ToMerchant(Merchant.CreateCall(p)), since)
      && (Completable(w2, st, id, "", amount) ==>
           var (w', completed) := TransactionsComplete(w2, st, id, "", amount, later);
           var t := RowOf(b.txs, txn).value; var k := Billing.OrderIndex(b.orders, t.orderID);
           && completed.Ok? && t.state.Created?
           && RowOf(w'.books.txs, txn) == Some(t.(state := Merchant.State.Performed, performTime := later))
           && k < |w'.books.orders| && w'.books.orders[k].status == Billing.Processing
           && !MerchantProofs.Consistent(w'.books))
  {
    Taking(w, st, amount, token, account, id, txn, now, p, since);
    var w1 := TransactionsCreate(w, st, amount, token, account, id, txn, now).0;
    var b := Retaken(w.books, st.merchant, p, since).0;
    TakenSteps(w1, st, p, since);
    hide MerchantProofs.Consistent, TransactionsCreate, TransactionsComplete, SettlePayout, OpenPayout, Retaken,
         Step, RowOf,
         Shelved, Carded, Sound, Completable;
    var w2 := w1.(books := b);
    if Completable(w2, st, id, "", amount) {
      SameStores(w1, w2);
      Completing(w2, st, id, later);
      TakenRow(b, st.merchant.registerKind, PayoutOf(w2.receipts[id].(payTime := later)), RowOf(b.txs, txn).value);
    }
  }

  lemma TakenSteps(w: World, st: Settings, p: Merchant.CreateParams, now: int)
    ensures Step(Step(w, st, ToMerchant(Merchant.BlockCall(false)), now), st, ToMerchant(Merchant.CreateCall(p)), now) ==
            w.(books := Retaken(w.books, st.merchant, p, now).0)
  {
  }

  lemma SameStores(w: World, w': World)
    requires w' == w.(books := w'.books) && Shelved(w) && Carded(w)
    ensures Shelved(w') && Carded(w')
  {
  }

  // ---------- a run that pays one payout twice ----------

  /** A stand whose payouts come from a dividend register. */
  function Dividends(): Settings {
    Settings("", 60000, 86400000, 0, true, Merchant.Settings(43200000, "login", Billing.Dividend, false))
  }

  /** One card on file, 200 in the register, and nothing paid yet. */
  function Till(): World {
    var card := CardRow(1, "card", "8600000000000001", "12/30", true, true, "", 0, false, Success, Api, true, false, map[], "", 0, 0, 0);
    var register := Billing.AccountRow(1, "", "till", "", 200, false);
    World(map[1 := card], map["card" := 1], 1, map[], [], true, multiset{}, {},
          Merchant.Books([], 1, [register], 2, [], [], 1, []))
  }

  /** A payout of 100 is opened, its transaction performed over the Merchant API, and the payout completed. */
  function PaidTwice(): seq<Delivery> {
    [Delivery(CreatePayout(100, "card", map[], "payout", "txn"), 1),
     Delivery(ToMerchant(Merchant.PerformCall("txn")), 2),
     Delivery(CompletePayout("payout", "", 100), 3)]
  }

  function Opened(): World {
    var payout := NewPayout(Till().cards[1], 100, map[], "payout", "txn", 1);
    var t := Merchant.Tx(1, "txn", 0, 1, map[], 100, Merchant.State.Created, None, 1, 1, 0, 0);
    Till().AddReceipt(payout).(books := Till().books.(txs := [t], nextTx := 2))
  }

  lemma Starts()
    ensures Opening(Till()) && OpeningBooks(Till().books)
    ensures Issued(Till(), PaidTwice()[0].call)
    ensures Step(Till(), Dividends(), PaidTwice()[0].call, 1) == Opened()
  {
  }

  lemma Opens()
    ensures OpenPayoutOf(Opened(), Dividends(), "payout", Opened().books.txs[0])
    ensures Performs(Opened().books, Dividends().merchant, "txn", 2)
    ensures MerchantMoney.Reconciled(Opened().books, Dividends().merchant, 200)
  {
    OpensBooks();
    AddShelved(Till(), Opened().receipts["payout"]);
    hide RowOf, MerchantMoney.Reconciled, Performs;
  }

  lemma OpensBooks()
    ensures RowOf(Opened().books.txs, "txn") == Some(Opened().books.txs[0])
    ensures Performs(Opened().books, Dividends().merchant, "txn", 2)
    ensures MerchantMoney.Reconciled(Opened().books, Dividends().merchant, 200)
  {
    assert Merchant.SettledAmounts(Opened().books.txs) == [0];
  }

  /** A proper run from an opening stand that reconciles no more: one payout of 100 took 200. */
  lemma TillPaysTwice()
    ensures Opening(Till()) && OpeningBooks(Till().books) && Proper(Till(), Dividends(), PaidTwice())
    ensures Disturbs(Run(Till(), Dividends(), PaidTwice()[..1]), Dividends(), false, PaidTwice()[1].call, 2)
    ensures var w := Run(Till(), Dividends(), PaidTwice());
      && w.completed == {"payout"} && "payout" in w.receipts && w.receipts["payout"].amount == 100
      && w.books.Register() == Till().books.Register() - 200
      && !MerchantMoney.Reconciled(w.books, Dividends().merchant, Till().books.Register())
  {
    hide Step, TransactionsComplete, MerchantMoney.Reconciled, OpenPayoutOf, OpeningBooks, Opening, RowOf, Run,
         Proper, Disturbs,
         Performs, Completable, Shelved, Carded, Merchant.Perform;
    Starts();
    Opens();
    RegisterOf(Opened(), Dividends(), "payout", Opened().books.txs[0]);
    PerformedPayoutMovesTwice(Opened(), Dividends(), 200, "payout", Opened().books.txs[0], 2, 3);
    ThreeDeliveries(Till(), Dividends(), PaidTwice());
    OpenDisturbed();
    CompletesPayout(Step(Opened(), Dividends(), PaidTwice()[1].call, 2));
  }

  lemma OpenDisturbed()
    requires Performs(Opened().books, Dividends().merchant, "txn", 2)
    ensures Disturbs(Opened(), Dividends(), false, PaidTwice()[1].call, 2)
  {
    assert DisturbsPayout(Opened(), Dividends(), false, Merchant.PerformCall("txn"), 2, "payout");
  }

  lemma CompletesPayout(w: World)
    requires w.receipts == Opened().receipts && w.completed == {}
    requires TransactionsComplete(w, Dividends(), "payout", "", 100, 3).1.Ok?
    ensures var w' := TransactionsComplete(w, Dividends(), "payout", "", 100, 3).0;
      && w' == Step(w, Dividends(), PaidTwice()[2].call, 3)
      && w'.completed == {"payout"} && "payout" in w'.receipts && w'.receipts["payout"].amount == 100
  {
    hide SettlePayout, Merchant.Step, CardRow.Operable;
  }

  /** A run of three, the first drawing new identifiers and the rest none. */
  lemma ThreeDeliveries(w: World, st: Settings, all: seq<Delivery>)
    requires |all| == 3 && Issued(w, all[0].call) && all[1].call.ToMerchant? && all[2].call.CompletePayout?
    requires 1 <= all[0].now <= all[1].now <= all[2].now
    ensures Proper(w, st, all)
    ensures Run(w, st, all[..1]) == Step(w, st, all[0].call, all[0].now)
    ensures Run(w, st, all) ==
      Step(Step(Step(w, st, all[0].call, all[0].now), st, all[1].call, all[1].now), st, all[2].call, all[2].now)
  {
    hide Step;
    assert all[..2][..1] == all[..1] && all[..1][..0] == [];
    assert Proper(w, st, all[..1]) && Proper(w, st, all[..2]);
    assert Run(w, st, all[..2]) == Step(Step(w, st, all[0].call, all[0].now), st, all[1].call, all[1].now);
  }
}
