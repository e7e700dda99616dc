/**
  The merchant's transactions over runs of both APIs.  A payout is settled in the table the
  Merchant API answers from, so what a transaction keeps, what a repeated delivery is answered,
  and whether the register reconciles all depend on what a complete found there: each property
  holds throughout a run exactly when no complete of the run found the wrong thing.
 */
module SubscribeReplay {
  import opened Common
  import opened SubscribeModel
  import opened SubscribeProofs
  import opened SubscribeBooks
  import Billing
  import Merchant = MerchantModel
  import MerchantMoney
  import MerchantProofs
  import MerchantReplay

  // ---------- what a call writes in the merchant's tables ----------

  /** But for the payout methods, a call writes what some merchant deliveries would. */
  lemma MerchantWrites(w: World, st: Settings, call: Call, now: int) returns (steps: seq<Merchant.Delivery>)
    requires !call.CreatePayout? && !call.CompletePayout?
    ensures Step(w, st, call, now).books == Merchant.Run(w.books, st.merchant, steps)
  {
    steps := [];
    if call.ToMerchant? {
      steps := OneDelivery(w.books, st.merchant, call.call, now);
    } else if call.CreateReceipt? {
      if Step(w, st, call, now).books != w.books {
        steps := OneDelivery(w.books, st.merchant, Merchant.CheckCall(call.account, call.amount), now);
      }
    } else if call.Pay? {
      if Step(w, st, call, now).books != w.books {
        steps := PayWrites(w, st, call.id, call.token, call.hold, call.draw, now);
      }
    } else {
      OtherWrites(w, st, call, now);
    }
  }

  lemma OneDelivery(b: Merchant.Books, st: Merchant.Settings, call: Merchant.Call,
                    now: int) returns (steps: seq<Merchant.Delivery>)
    ensures Merchant.Run(b, st, steps) == Merchant.Step(b, st, call, now)
    ensures |steps| == 1
  {
    hide Merchant.Step;
    steps := [Merchant.Delivery(call, now)];
    assert steps[..0] == [];
  }

  lemma NextDelivery(b: Merchant.Books, st: Merchant.Settings, steps: seq<Merchant.Delivery>, call: Merchant.Call,
                     now: int)
    ensures Merchant.Run(b, st, steps + [Merchant.Delivery(call, now)]) ==
            Merchant.Step(Merchant.Run(b, st, steps), st, call, now)
  {
    hide Merchant.Step;
    assert (steps + [Merchant.Delivery(call, now)])[..|steps|] == steps;
  }

  lemma PayWrites(w: World, st: Settings, id: string, token: string, hold: bool, draw: PayDraw, now: int)
    returns (steps: seq<Merchant.Delivery>)
    requires ReceiptsPay(w, st, id, token, hold, draw, now).0.books != w.books
    ensures ReceiptsPay(w, st, id, token, hold, draw, now).0.books == Merchant.Run(w.books, st.merchant, steps)
  {
    var receipt := w.receipts[id];
    PayBooks(w, st, id, token, hold, draw, now);
    hide ReceiptsPay, Merchant.Step, Chain, Merchant.Run;
    ChainSteps(w.books, st.merchant, receipt.amount, receipt.account, now, draw);
    var create := Merchant.CreateCall(Merchant.CreateParams(draw.txn, now, receipt.amount, receipt.account));
    var one := OneDelivery(w.books, st.merchant, Merchant.CheckCall(receipt.account, receipt.amount), now);
    NextDelivery(w.books, st.merchant, one, create, draw.createNow);
    var two := one + [Merchant.Delivery(create, draw.createNow)];
    NextDelivery(w.books, st.merchant, two, Merchant.PerformCall(draw.txn), draw.performNow);
    var three := two + [Merchant.Delivery(Merchant.PerformCall(draw.txn), draw.performNow)];
    var books := ReceiptsPay(w, st, id, token, hold, draw, now).0.books;
    steps := if books == Merchant.Run(w.books, st.merchant, one) then one
             else if books == Merchant.Run(w.books, st.merchant, two) then two else three;
  }

  lemma PayBooks(w: World, st: Settings, id: string, token: string, hold: bool, draw: PayDraw, now: int)
    requires ReceiptsPay(w, st, id, token, hold, draw, now).0.books != w.books
    ensures id in w.receipts
    ensures ReceiptsPay(w, st, id, token, hold, draw, now).0.books ==
            Chain(w.books, st.merchant, w.receipts[id].amount, w.receipts[id].account, now, draw).0
  {
    hide Chain;
  }

  lemma OtherWrites(w: World, st: Settings, call: Call, now: int)
    requires !call.CreatePayout? && !call.CompletePayout? && !call.ToMerchant? && !call.CreateReceipt? && !call.Pay?
    ensures Step(w, st, call, now).books == w.books
  {
  }

  lemma CreatePayoutWrites(w: World, st: Settings, amount: int, token: string, account: map<string, string>,
                           id: string, txn: string, now: int)
    ensures var books := TransactionsCreate(w, st, amount, token, account, id, txn, now).0.books;
      var asked := OpenPayout(w.books, Payout(txn, amount, account, now, 0));
      books == w.books || (0 < amount && asked == Ok(books))
  {
    hide OpenPayout;
  }

  /** A complete settles the payout in the register's books, or writes nothing there. */
  lemma CompleteWrites(w: World, st: Settings, id: string, token: string, amount: int, now: int)
    requires Shelved(w) && Carded(w)
    ensures var books := TransactionsComplete(w, st, id, token, amount, now).0.books;
      if st.ledger && Completable(w, st, id, token, amount) then
        SettlePayout(w.books, st.merchant.registerKind, PayoutOf(w.receipts[id].(payTime := now))) == Ok(books)
      else books == w.books
  {
    if w.LoadReceipt(id).Ok? {
      var receipt := w.receipts[id];
      var answer := Settlement(w, st, receipt, now);
      SettleSucceeds(w.books, st.merchant.registerKind, PayoutOf(receipt.(payTime := now)));
      hide SettlePayout;
      if !receipt.state.Paid? {
        CompleteSucceeds(w, id, token, amount, now, answer);
      }
      if CompleteAnswered(w, id, token, amount, now, answer).1.Ok? && !receipt.state.Paid? {
        CompleteBooks(w, id, token, amount, now, answer);
      } else {
        CompleteRefused(w, id, token, amount, now, answer);
      }
      hide CompleteAnswered;
    }
  }

  // ---------- the tables' shape ----------

  lemma OpenShaped(b: Merchant.Books, p: Payout)
    requires MerchantProofs.Shaped(b) && 0 < p.amount && OpenPayout(b, p).Ok?
    ensures MerchantProofs.Shaped(OpenPayout(b, p).value)
  {
  }

  lemma SettleShaped(b: Merchant.Books, kind: Billing.Kind, p: Payout)
    requires MerchantProofs.Shaped(b) && 0 < p.amount && SettlePayout(b, kind, p).Ok?
    ensures MerchantProofs.Shaped(SettlePayout(b, kind, p).value)
  {
    SettleReplaces(b, kind, p);
    hide SettlePayout;
  }

  lemma StepShaped(w: World, st: Settings, call: Call, now: int)
    requires Sound(w, now) && MerchantProofs.Shaped(w.books)
    ensures MerchantProofs.Shaped(Step(w, st, call, now).books)
  {
    hide MerchantProofs.Shaped, SettlePayout, OpenPayout, Merchant.Run, TransactionsCreate, TransactionsComplete;
    if call.CreatePayout? {
      CreatePayoutWrites(w, st, call.amount, call.token, call.account, call.id, call.txn, now);
      var p := Payout(call.txn, call.amount, call.account, now, 0);
      if 0 < call.amount && OpenPayout(w.books, p).Ok? {
        OpenShaped(w.books, p);
      }
    } else if call.CompletePayout? {
      CompleteWrites(w, st, call.id, call.token, call.amount, now);
      if st.ledger && Completable(w, st, call.id, call.token, call.amount) {
        assert OnWalk(w.receipts[call.id], now);
        SettleShaped(w.books, st.merchant.registerKind, PayoutOf(w.receipts[call.id].(payTime := now)));
      }
    } else {
      var steps := MerchantWrites(w, st, call, now);
      MerchantProofs.RunShaped(w.books, st.merchant, steps);
    }
  }

  /** Over every run of both APIs, disturbed or not, the tables keep their keys and checks. */
  lemma {:induction false} RunShaped(w: World, st: Settings, deliveries: seq<Delivery>)
    requires Opening(w) && MerchantProofs.Shaped(w.books) && Proper(w, st, deliveries)
    ensures MerchantProofs.Shaped(Run(w, st, deliveries).books)
  {
    hide Step, MerchantProofs.Shaped;
    if deliveries != [] {
      var n := |deliveries| - 1;
      RunShaped(w, st, deliveries[..n]);
      RunSound(w, st, deliveries[..n]);
      LaterSound(Run(w, st, deliveries[..n]), Latest(deliveries[..n]), deliveries[n].now);
      StepShaped(Run(w, st, deliveries[..n]), st, deliveries[n].call, deliveries[n].now);
    }
  }

  // ---------- the payers of orders ----------

  lemma {:induction false} MerchantOwners(b: Merchant.Books, st: Merchant.Settings, steps: seq<Merchant.Delivery>)
    requires MerchantReplay.OwnersKnown(b)
    ensures MerchantReplay.OwnersKnown(Merchant.Run(b, st, steps))
  {
    if steps != [] {
      var n := |steps| - 1;
      MerchantOwners(b, st, steps[..n]);
      MerchantReplay.StepOwners(Merchant.Run(b, st, steps[..n]), st, steps[n].call, steps[n].now);
    }
  }

  lemma PayoutOwners(b: Merchant.Books, kind: Billing.Kind, p: Payout)
    requires MerchantReplay.OwnersKnown(b)
    ensures OpenPayout(b, p).Ok? ==> MerchantReplay.OwnersKnown(OpenPayout(b, p).value)
    ensures SettlePayout(b, kind, p).Ok? ==> MerchantReplay.OwnersKnown(SettlePayout(b, kind, p).value)
  {
    if SettlePayout(b, kind, p).Ok? {
      SettleReplaces(b, kind, p);
      MerchantReplay.KeptOwners(b, SettlePayout(b, kind, p).value);
    }
  }

  /** Every call keeps the foreign key of the orders table. */
  lemma StepOwners(w: World, st: Settings, call: Call, now: int)
    requires Shelved(w) && Carded(w) && MerchantReplay.OwnersKnown(w.books)
    ensures MerchantReplay.OwnersKnown(Step(w, st, call, now).books)
  {
    hide MerchantReplay.OwnersKnown, SettlePayout, OpenPayout, Merchant.Run, TransactionsCreate, TransactionsComplete;
    if call.CreatePayout? {
      CreatePayoutWrites(w, st, call.amount, call.token, call.account, call.id, call.txn, now);
      PayoutOwners(w.books, st.merchant.registerKind, Payout(call.txn, call.amount, call.account, now, 0));
    } else if call.CompletePayout? {
      CompleteWrites(w, st, call.id, call.token, call.amount, now);
      if call.id in w.receipts {
        PayoutOwners(w.books, st.merchant.registerKind, PayoutOf(w.receipts[call.id].(payTime := now)));
      }
    } else {
      var steps := MerchantWrites(w, st, call, now);
      MerchantOwners(w.books, st.merchant, steps);
    }
  }

  // ---------- whether the register reconciles ----------

  /** An answered complete that settles a row for what it is not. */
  predicate Mispays(w: World, st: Settings, call: Call) {
    && st.ledger && call.CompletePayout? && Completable(w, st, call.id, call.token, call.amount)
    && Mispaid(w.books.txs, w.receipts[call.id].merchantTxn, call.amount)
  }

  lemma {:induction false} MerchantReconciled(b: Merchant.Books, st: Merchant.Settings, opening: int,
  steps: seq<Merchant.Delivery>)
    requires MerchantProofs.Shaped(b) && MerchantMoney.Reconciled(b, st, opening)
    ensures MerchantMoney.Reconciled(Merchant.Run(b, st, steps), st, opening)
  {
    hide MerchantMoney.Reconciled, MerchantProofs.Shaped, Merchant.Step;
    if steps != [] {
      var n := |steps| - 1;
      MerchantReconciled(b, st, opening, steps[..n]);
      MerchantProofs.RunShaped(b, st, steps[..n]);
      MerchantMoney.StepReconciled(Merchant.Run(b, st, steps[..n]), st, opening, steps[n].call, steps[n].now);
    }
  }

  lemma OpenReconciled(b: Merchant.Books, st: Merchant.Settings, opening: int, p: Payout)
    requires MerchantMoney.Reconciled(b, st, opening) && OpenPayout(b, p).Ok?
    ensures MerchantMoney.Reconciled(OpenPayout(b, p).value, st, opening)
  {
    MerchantMoney.SettledAfterAppend(b.txs, PayoutTx(b, p));
  }

  /** A delivery keeps the register reconciled exactly when it settles no row for what it is not. */
  lemma StepReconciled(w: World, st: Settings, opening: int, call: Call, now: int)
    requires Sound(w, now) && MerchantProofs.Shaped(w.books) && MerchantMoney.Reconciled(w.books, st.merchant, opening)
    ensures MerchantMoney.Reconciled(Step(w, st, call, now).books, st.merchant, opening) <==> !Mispays(w, st, call)
  {
    hide MerchantProofs.Shaped, MerchantMoney.Reconciled, SettlePayout, OpenPayout, Merchant.Run, TransactionsCreate,
         TransactionsComplete, Mispaid;
    if call.CreatePayout? {
      CreatePayoutWrites(w, st, call.amount, call.token, call.account, call.id, call.txn, now);
      var p := Payout(call.txn, call.amount, call.account, now, 0);
      if OpenPayout(w.books, p).Ok? {
        OpenReconciled(w.books, st.merchant, opening, p);
      }
    } else if call.CompletePayout? {
      CompleteWrites(w, st, call.id, call.token, call.amount, now);
      if st.ledger && Completable(w, st, call.id, call.token, call.amount) {
        assert OnWalk(w.receipts[call.id], now);
        SettleReconciles(w.books, st.merchant, opening, PayoutOf(w.receipts[call.id].(payTime := now)));
      }
    } else {
      var steps := MerchantWrites(w, st, call, now);
      MerchantReconciled(w.books, st.merchant, opening, steps);
    }
  }

  /** No complete of the run settles a row for what it is not. */
  ghost predicate WellPaid(w: World, st: Settings, deliveries: seq<Delivery>) {
    deliveries == [] ||
    var n := |deliveries| - 1;
    WellPaid(w, st, deliveries[..n]) && !Mispays(Run(w, st, deliveries[..n]), st, deliveries[n].call)
  }

  ghost predicate AlwaysReconciled(w: World, st: Settings, deliveries: seq<Delivery>) {
    && (deliveries != [] ==> AlwaysReconciled(w, st, deliveries[..|deliveries| - 1]))
    && MerchantMoney.Reconciled(Run(w, st, deliveries).books, st.merchant, w.books.Register())
  }

  /**
    Over every run of both APIs, disturbed or not, the register reconciles throughout exactly
    when every answered complete found its payout without a row, or with one of its own
    amount that was not performed.
   */
  lemma {:induction false} ReconciledExactly(w: World, st: Settings, deliveries: seq<Delivery>)
    requires Opening(w) && MerchantProofs.Fresh(w.books) && Proper(w, st, deliveries)
    ensures AlwaysReconciled(w, st, deliveries) <==> WellPaid(w, st, deliveries)
  {
    hide Step, MerchantMoney.Reconciled, MerchantProofs.Shaped, Mispays;
    FreshReconciled(w.books, st.merchant);
    if deliveries != [] {
      var n := |deliveries| - 1;
      ReconciledExactly(w, st, deliveries[..n]);
      RunShaped(w, st, deliveries[..n]);
      RunSound(w, st, deliveries[..n]);
      var before := Run(w, st, deliveries[..n]);
      LaterSound(before, Latest(deliveries[..n]), deliveries[n].now);
      if WellPaid(w, st, deliveries[..n]) {
        StepReconciled(before, st, w.books.Register(), deliveries[n].call, deliveries[n].now);
      }
    }
  }

  lemma FreshReconciled(b: Merchant.Books, st: Merchant.Settings)
    requires MerchantProofs.Fresh(b)
    ensures MerchantProofs.Shaped(b) && MerchantMoney.Reconciled(b, st, b.Register())
  {
  }

  // ---------- how a transaction evolves ----------

  /** A row that settling leaves on its way: created, or performed at that very time. */
  predicate Settleable(t: Merchant.Tx, now: int) { t.state.Created? || (t.state.Performed? && t.performTime == now) }

  /** Settling a payout lets its row evolve exactly when the row was settleable. */
  lemma SettleEvolves(b: Merchant.Books, kind: Billing.Kind, p: Payout, t: Merchant.Tx)
    requires SettlePayout(b, kind, p).Ok? && RowOf(b.txs, p.txn) == Some(t)
    ensures var row := RowOf(SettlePayout(b, kind, p).value.txs, p.txn);
      && row == Some(t.(state := Merchant.State.Performed, performTime := p.payTime))
      && (MerchantMoney.Evolves(t, row.value) <==> Settleable(t, p.payTime))
  {
    SettleReplaces(b, kind, p);
    SettleRows(b, kind, p);
    hide SettlePayout;
  }

  /** An answered complete that settles this transaction's row though the row was not settleable. */
  predicate Restamps(w: World, st: Settings, call: Call, now: int, txn: string) {
    && st.ledger && call.CompletePayout? && Completable(w, st, call.id, call.token, call.amount)
    && w.receipts[call.id].merchantTxn == txn
    && RowOf(w.books.txs, txn).Some? && !Settleable(RowOf(w.books.txs, txn).value, now)
  }

  /** What no delivery changes of a row; and no row goes back to being created. */
  predicate SameBirth(t: Merchant.Tx, t': Merchant.Tx) {
    && t' == t.(state := t'.state, reason := t'.reason, performTime := t'.performTime, cancelTime := t'.cancelTime)
    && (t'.state.Created? ==> t' == t)
  }

  lemma RowIs(b: Merchant.Books, i: nat)
    requires MerchantProofs.Shaped(b) && i < |b.txs|
    ensures Merchant.TxIndex(b.txs, b.txs[i].paymeID) == i && RowOf(b.txs, b.txs[i].paymeID) == Some(b.txs[i])
  {
  }

  lemma SettledRowOf(b: Merchant.Books, kind: Billing.Kind, p: Payout, i: nat)
    requires MerchantProofs.Shaped(b) && SettlePayout(b, kind, p).Ok? && i < |b.txs|
    ensures var b' := SettlePayout(b, kind, p).value;
      && i < |b'.txs|
      && (b.txs[i].paymeID != p.txn ==> b'.txs[i] == b.txs[i])
      && (b.txs[i].paymeID == p.txn ==> RowOf(b'.txs, p.txn) == Some(b'.txs[i]))
  {
    RowIs(b, i);
    SettleReplaces(b, kind, p);
    SettleRows(b, kind, p);
    hide SettlePayout, MerchantProofs.Shaped;
  }

  /** A delivery of either API lets a stored row evolve exactly when it does not restamp it. */
  lemma StepEvolves(w: World, st: Settings, call: Call, now: int, i: nat)
    requires Shelved(w) && Carded(w) && MerchantProofs.Shaped(w.books) && i < |w.books.txs|
    ensures var t, txs := w.books.txs[i], Step(w, st, call, now).books.txs;
      && i < |txs| && SameBirth(t, txs[i])
      && (MerchantMoney.Evolves(t, txs[i]) <==> !Restamps(w, st, call, now, t.paymeID))
  {
    hide MerchantProofs.Shaped, SettlePayout, OpenPayout, Merchant.Run, TransactionsCreate, TransactionsComplete,
         Shelved, Carded;
    var t := w.books.txs[i];
    assert MerchantMoney.Evolves(t, t);
    if call.CreatePayout? {
      CreatePayoutWrites(w, st, call.amount, call.token, call.account, call.id, call.txn, now);
      OpenKeepsRows(w.books, Payout(call.txn, call.amount, call.account, now, 0));
    } else if call.CompletePayout? {
      CompleteWrites(w, st, call.id, call.token, call.amount, now);
      if st.ledger && Completable(w, st, call.id, call.token, call.amount) {
        CompleteEvolves(w, st, call.id, now, i);
      }
    } else {
      var steps := MerchantWrites(w, st, call, now);
      MerchantMoney.RunEvolves(w.books, st.merchant, steps, i);
    }
  }

  lemma OpenKeepsRows(b: Merchant.Books, p: Payout)
    ensures OpenPayout(b, p).Ok? ==> b.txs <= OpenPayout(b, p).value.txs
  {
  }

  lemma CompleteEvolves(w: World, st: Settings, id: string, now: int, i: nat)
    requires MerchantProofs.Shaped(w.books) && i < |w.books.txs| && id in w.receipts
    requires SettlePayout(w.books, st.merchant.registerKind, PayoutOf(w.receipts[id].(payTime := now))).Ok?
    ensures var t := w.books.txs[i];
      var txs := SettlePayout(w.books, st.merchant.registerKind, PayoutOf(w.receipts[id].(payTime := now))).value.txs;
      && i < |txs| && SameBirth(t, txs[i]) && RowOf(w.books.txs, t.paymeID) == Some(t)
      && (MerchantMoney.Evolves(t, txs[i]) <==> !(w.receipts[id].merchantTxn == t.paymeID && !Settleable(t, now)))
  {
    hide MerchantProofs.Shaped, SettlePayout, RowOf;
    var p := PayoutOf(w.receipts[id].(payTime := now));
    var t := w.books.txs[i];
    RowIs(w.books, i);
    SettledRowOf(w.books, st.merchant.registerKind, p, i);
    if t.paymeID == p.txn {
      SettleEvolves(w.books, st.merchant.registerKind, p, t);
    }
  }

  // The same over runs: after some deliveries, whatever others follow.

  /** No delivery of the continuation restamps the transaction. */
  ghost predicate Unstamped(w: World, st: Settings, past: seq<Delivery>, deliveries: seq<Delivery>, txn: string) {
    deliveries == [] ||
    var n := |deliveries| - 1;
    && Unstamped(w, st, past, deliveries[..n], txn)
    && !Restamps(Run(w, st, past + deliveries[..n]), st, deliveries[n].call, deliveries[n].now, txn)
  }

  /** Every delivery of the continuation lets the row evolve. */
  ghost predicate AlwaysEvolves(w: World, st: Settings, past: seq<Delivery>, deliveries: seq<Delivery>, i: nat) {
    deliveries == [] ||
    var n := |deliveries| - 1;
    var before, after := Run(w, st, past + deliveries[..n]).books.txs, Run(w, st, past + deliveries).books.txs;
    && AlwaysEvolves(w, st, past, deliveries[..n], i)
    && i < |before| && i < |after| && MerchantMoney.Evolves(before[i], after[i])
  }

  /** A continuation by one more delivery. */
  lemma OneMore(w: World, st: Settings, past: seq<Delivery>, deliveries: seq<Delivery>)
    requires deliveries != [] && Opening(w) && MerchantProofs.Shaped(w.books) && Proper(w, st, past + deliveries)
    ensures var n := |deliveries| - 1; var before := Run(w, st, past + deliveries[..n]);
      && Proper(w, st, past + deliveries[..n])
      && Sound(before, deliveries[n].now) && MerchantProofs.Shaped(before.books)
      && Run(w, st, past + deliveries) == Step(before, st, deliveries[n].call, deliveries[n].now)
  {
    hide Step, Sound, MerchantProofs.Shaped, Opening, Run;
    LastDelivery(w, st, past, deliveries);
    RunShaped(w, st, past + deliveries[..|deliveries| - 1]);
  }

  lemma EvolvesThen(t: Merchant.Tx, t': Merchant.Tx, t'': Merchant.Tx)
    requires MerchantMoney.Evolves(t, t') && MerchantMoney.Evolves(t', t'')
    ensures MerchantMoney.Evolves(t, t'')
  {
  }

  /**
    Over any run of both APIs a stored transaction keeps its identity, and evolves at every
    delivery exactly when none restamps it: no answered complete settles its row from
    cancelled, or from performed at another time.  Then it has evolved over the whole run.
   */
  lemma {:induction false} EvolvesExactly(w: World, st: Settings, past: seq<Delivery>, deliveries: seq<Delivery>, i: nat)
    requires Opening(w) && MerchantProofs.Shaped(w.books) && Proper(w, st, past + deliveries)
    requires i < |Run(w, st, past).books.txs|
    ensures var t, txs := Run(w, st, past).books.txs[i], Run(w, st, past + deliveries).books.txs;
      && i < |txs| && SameBirth(t, txs[i])
      && (AlwaysEvolves(w, st, past, deliveries, i) <==> Unstamped(w, st, past, deliveries, t.paymeID))
      && (Unstamped(w, st, past, deliveries, t.paymeID) ==> MerchantMoney.Evolves(t, txs[i]))
  {
    hide Step, Sound, MerchantProofs.Shaped, Opening, Restamps, Run, MerchantMoney.Evolves;
    var t := Run(w, st, past).books.txs[i];
    if deliveries == [] {
      assert past + deliveries == past;
      EvolvesSame(t);
    } else {
      var n := |deliveries| - 1;
      OneMore(w, st, past, deliveries);
      EvolvesExactly(w, st, past, deliveries[..n], i);
      var before := Run(w, st, past + deliveries[..n]);
      SoundStores(before, deliveries[n].now);
      StepEvolves(before, st, deliveries[n].call, deliveries[n].now, i);
      if Unstamped(w, st, past, deliveries, t.paymeID) {
        EvolvesThen(t, before.books.txs[i], Run(w, st, past + deliveries).books.txs[i]);
      }
    }
  }

  lemma EvolvesSame(t: Merchant.Tx)
    ensures MerchantMoney.Evolves(t, t)
  {
  }

  lemma SoundStores(w: World, now: int)
    requires Sound(w, now)
    ensures Shelved(w) && Carded(w)
  {
  }

  // ---------- what a repeated delivery is answered ----------

  const REFUSED: Result<Merchant.PerformResult> := Err(CannotPerform)

  /** Whenever the perform is delivered now, this is the answer, and no table changes. */
  ghost predicate PerformAnswers(b: Merchant.Books, st: Merchant.Settings, txn: string,
                                 answer: Result<Merchant.PerformResult>) {
    forall now :: var (b', again) := Merchant.Perform(b, st, txn, now); MerchantReplay.SameTables(b, b') && again == answer
  }

  /** Whenever, and for whatever reason, the cancel is delivered now, this is the answer, and no table changes. */
  ghost predicate CancelAnswers(b: Merchant.Books, st: Merchant.Settings, txn: string,
                                answer: Result<Merchant.CancelResult>) {
    forall reason, now ::
      var (b', again) := Merchant.Cancel(b, st, txn, reason, now); MerchantReplay.SameTables(b, b') && again == answer
  }

  /** The perform of a row that was performed, or cancelled, answers from it. */
  function PerformOf(t: Merchant.Tx): Result<Merchant.PerformResult> {
    if t.state.Performed? then Ok(Merchant.PerformResult(Merchant.Number(t), t.performTime, t.state)) else REFUSED
  }

  function CancelOf(t: Merchant.Tx): Result<Merchant.CancelResult> {
    Ok(Merchant.CancelResult(Merchant.Number(t), t.cancelTime, t.state))
  }

  lemma PerformFrom(b: Merchant.Books, st: Merchant.Settings, i: nat, answer: Result<Merchant.PerformResult>)
    requires i < |b.txs| && Merchant.TxIndex(b.txs, b.txs[i].paymeID) == i && !b.txs[i].state.Created?
    ensures PerformAnswers(b, st, b.txs[i].paymeID, answer) <==> answer == PerformOf(b.txs[i])
  {
    var (b', again) := Merchant.Perform(b, st, b.txs[i].paymeID, 0);
    assert again == PerformOf(b.txs[i]);
  }

  /** A cancel is answered so for good from a cancelled row, and never from a performed one. */
  lemma CancelFrom(b: Merchant.Books, st: Merchant.Settings, i: nat, answer: Result<Merchant.CancelResult>)
    requires i < |b.txs| && Merchant.TxIndex(b.txs, b.txs[i].paymeID) == i
    ensures b.txs[i].state.IsFinal() ==> (CancelAnswers(b, st, b.txs[i].paymeID, answer) <==> answer == CancelOf(b.txs[i]))
    ensures b.txs[i].state.Performed? && b.accounts != [] ==> !CancelAnswers(b, st, b.txs[i].paymeID, answer)
  {
    var (b', again) := Merchant.Cancel(b, st, b.txs[i].paymeID, 0, 0);
    if b.txs[i].state.IsFinal() {
      assert again == CancelOf(b.txs[i]);
    } else if b.txs[i].state.Performed? && b.accounts != [] {
      assert |b'.moves| == |b.moves| + 1;
    }
  }

  /** The first answers are these: what an answered perform, and an answered cancel, say is what they stored. */
  lemma FirstAnswers(b: Merchant.Books, st: Merchant.Settings, txn: string, reason: int, now: int)
    ensures var (b', r) := Merchant.Perform(b, st, txn, now); var i := Merchant.TxIndex(b.txs, txn);
      r.Ok? ==> i < |b'.txs| && b'.txs[i].paymeID == txn && b'.txs[i].state.Performed? && r == PerformOf(b'.txs[i])
    ensures var (b', r) := Merchant.Cancel(b, st, txn, reason, now); var i := Merchant.TxIndex(b.txs, txn);
      r.Ok? ==> i < |b'.txs| && b'.txs[i].paymeID == txn && b'.txs[i].state.IsFinal() && r == CancelOf(b'.txs[i])
  {
    if Merchant.Perform(b, st, txn, now).1.Ok? {
      MerchantReplay.PerformStores(b, st, txn, now);
    }
    if Merchant.Cancel(b, st, txn, reason, now).1.Ok? {
      MerchantReplay.CancelStores(b, st, txn, reason, now);
    }
    hide Merchant.Perform, Merchant.Cancel;
  }

  /**
    From here on the perform is answered as at first until the transaction is cancelled, and
    refused for good after that.
   */
  ghost predicate PerformStays(w: World, st: Settings, past: seq<Delivery>, deliveries: seq<Delivery>, txn: string,
                               first: Result<Merchant.PerformResult>)
  {
    if deliveries == [] then PerformAnswers(Run(w, st, past).books, st.merchant, txn, first)
    else
      var n := |deliveries| - 1;
      var before, after := Run(w, st, past + deliveries[..n]).books, Run(w, st, past + deliveries).books;
      && PerformStays(w, st, past, deliveries[..n], txn, first)
      && (|| (PerformAnswers(before, st.merchant, txn, first) && PerformAnswers(after, st.merchant, txn, first))
          || PerformAnswers(after, st.merchant, txn, REFUSED))
  }

  /** From here on the cancel is answered as at first. */
  ghost predicate CancelStays(w: World, st: Settings, past: seq<Delivery>, deliveries: seq<Delivery>, txn: string,
                              first: Result<Merchant.CancelResult>)
  {
    && (deliveries != [] ==> CancelStays(w, st, past, deliveries[..|deliveries| - 1], txn, first))
    && CancelAnswers(Run(w, st, past + deliveries).books, st.merchant, txn, first)
  }

  /** One delivery: a row once performed goes on answering its performs exactly when it is not restamped. */
  lemma StepAnswersPerform(w: World, st: Settings, call: Call, now: int, i: nat, first: Result<Merchant.PerformResult>)
    requires Sound(w, now) && MerchantProofs.Shaped(w.books) && i < |w.books.txs| && first.Ok?
    requires var t := w.books.txs[i]; if t.state.Performed? then PerformOf(t) == first else t.state.CancelledAfterDo?
    ensures var txn := w.books.txs[i].paymeID; var after := Step(w, st, call, now).books;
      (|| (PerformAnswers(w.books, st.merchant, txn, first) && PerformAnswers(after, st.merchant, txn, first))
       || PerformAnswers(after, st.merchant, txn, REFUSED)) <==> !Restamps(w, st, call, now, txn)
  {
    hide Step, Sound, MerchantProofs.Shaped, PerformAnswers, Restamps;
    SoundStores(w, now);
    StepShaped(w, st, call, now);
    StepEvolves(w, st, call, now, i);
    var t, after := w.books.txs[i], Step(w, st, call, now).books;
    RowIs(w.books, i);
    RowIs(after, i);
    PerformFrom(w.books, st.merchant, i, first);
    PerformFrom(after, st.merchant, i, first);
    PerformFrom(after, st.merchant, i, REFUSED);
    RestampedAnswers(w, st, call, now, i);
  }

  /** What restamping makes of a row. */
  lemma RestampedAnswers(w: World, st: Settings, call: Call, now: int, i: nat)
    requires Shelved(w) && Carded(w) && MerchantProofs.Shaped(w.books) && i < |w.books.txs|
    ensures Restamps(w, st, call, now, w.books.txs[i].paymeID) ==>
      var after := Step(w, st, call, now).books;
      && i < |after.txs| && after.accounts != []
      && after.txs[i] == w.books.txs[i].(state := Merchant.State.Performed, performTime := now)
      && !Settleable(w.books.txs[i], now)
  {
    hide MerchantProofs.Shaped, SettlePayout, TransactionsComplete, RowOf;
    var t := w.books.txs[i];
    if Restamps(w, st, call, now, t.paymeID) {
      var p := PayoutOf(w.receipts[call.id].(payTime := now));
      CompleteWrites(w, st, call.id, call.token, call.amount, now);
      RowIs(w.books, i);
      SettledRowOf(w.books, st.merchant.registerKind, p, i);
      SettleEvolves(w.books, st.merchant.registerKind, p, t);
      SettleHasRegister(w.books, st.merchant.registerKind, p);
    }
  }

  lemma SettleHasRegister(b: Merchant.Books, kind: Billing.Kind, p: Payout)
    requires SettlePayout(b, kind, p).Ok?
    ensures SettlePayout(b, kind, p).value.accounts != []
  {
  }

  /**
    An answered perform, delivered again at any time after any run of both APIs, changes no
    table and gets the first answer until the transaction is cancelled and a refusal for good
    after that, exactly when no delivery in between restamps the transaction.
   */
  lemma {:induction false} PerformReplaysExactly(w: World, st: Settings, past: seq<Delivery>,
  deliveries: seq<Delivery>, i: nat)
    requires Opening(w) && MerchantProofs.Shaped(w.books) && Proper(w, st, past + deliveries)
    requires i < |Run(w, st, past).books.txs| && Run(w, st, past).books.txs[i].state.Performed?
    ensures var t := Run(w, st, past).books.txs[i];
      PerformStays(w, st, past, deliveries, t.paymeID, PerformOf(t)) <==> Unstamped(w, st, past, deliveries, t.paymeID)
  {
    hide Step, Sound, MerchantProofs.Shaped, Opening, Restamps, Run, PerformAnswers, MerchantMoney.Evolves, AlwaysEvolves;
    var t := Run(w, st, past).books.txs[i];
    if deliveries == [] {
      assert past + deliveries == past;
      RunShaped(w, st, past);
      RowIs(Run(w, st, past).books, i);
      PerformFrom(Run(w, st, past).books, st.merchant, i, PerformOf(t));
    } else {
      var n := |deliveries| - 1;
      OneMore(w, st, past, deliveries);
      PerformReplaysExactly(w, st, past, deliveries[..n], i);
      if Unstamped(w, st, past, deliveries[..n], t.paymeID) {
        EvolvesExactly(w, st, past, deliveries[..n], i);
        PerformedOn(t, Run(w, st, past + deliveries[..n]).books.txs[i]);
        StepAnswersPerform(Run(w, st, past + deliveries[..n]), st, deliveries[n].call, deliveries[n].now, i, PerformOf(t));
      }
    }
  }

  /** What a performed row can have become. */
  lemma PerformedOn(t: Merchant.Tx, t': Merchant.Tx)
    requires MerchantMoney.Evolves(t, t')
    ensures t.state.Performed? ==>
      t'.paymeID == t.paymeID && (if t'.state.Performed? then PerformOf(t') == PerformOf(t) else t'.state.CancelledAfterDo?)
    ensures t.state.IsFinal() ==> t' == t
  {
  }

  lemma StepAnswersCancel(w: World, st: Settings, call: Call, now: int, i: nat)
    requires Sound(w, now) && MerchantProofs.Shaped(w.books) && i < |w.books.txs| && w.books.txs[i].state.IsFinal()
    ensures var t := w.books.txs[i];
      CancelAnswers(Step(w, st, call, now).books, st.merchant, t.paymeID, CancelOf(t)) <==>
      !Restamps(w, st, call, now, t.paymeID)
  {
    hide Step, Sound, MerchantProofs.Shaped, CancelAnswers, Restamps;
    SoundStores(w, now);
    StepShaped(w, st, call, now);
    StepEvolves(w, st, call, now, i);
    var t, after := w.books.txs[i], Step(w, st, call, now).books;
    RowIs(after, i);
    CancelFrom(after, st.merchant, i, CancelOf(t));
    RestampedAnswers(w, st, call, now, i);
    if !Restamps(w, st, call, now, t.paymeID) {
      PerformedOn(t, after.txs[i]);
    }
  }

  /**
    An answered cancel, delivered again at any time and for any reason after any run of both
    APIs, changes no table and gets the first answer, exactly when no delivery in between
    restamps the transaction.
   */
  lemma {:induction false} CancelReplaysExactly(w: World, st: Settings, past: seq<Delivery>,
  deliveries: seq<Delivery>, i: nat)
    requires Opening(w) && MerchantProofs.Shaped(w.books) && Proper(w, st, past + deliveries)
    requires i < |Run(w, st, past).books.txs| && Run(w, st, past).books.txs[i].state.IsFinal()
    ensures var t := Run(w, st, past).books.txs[i];
      CancelStays(w, st, past, deliveries, t.paymeID, CancelOf(t)) <==> Unstamped(w, st, past, deliveries, t.paymeID)
  {
    hide Step, Sound, MerchantProofs.Shaped, Opening, Restamps, Run, CancelAnswers, MerchantMoney.Evolves, AlwaysEvolves;
    var t := Run(w, st, past).books.txs[i];
    if deliveries == [] {
      assert past + deliveries == past;
      RunShaped(w, st, past);
      RowIs(Run(w, st, past).books, i);
      CancelFrom(Run(w, st, past).books, st.merchant, i, CancelOf(t));
    } else {
      var n := |deliveries| - 1;
      OneMore(w, st, past, deliveries);
      CancelReplaysExactly(w, st, past, deliveries[..n], i);
      if Unstamped(w, st, past, deliveries[..n], t.paymeID) {
        EvolvesExactly(w, st, past, deliveries[..n], i);
        PerformedOn(t, Run(w, st, past + deliveries[..n]).books.txs[i]);
        StepAnswersCancel(Run(w, st, past + deliveries[..n]), st, deliveries[n].call, deliveries[n].now, i);
      }
    }
  }

  /**
    A repeated create needs no such condition: over every run of both APIs it gets the first
    answer while the row is created.
   */
  lemma CreateReplaysAlways(w: World, st: Settings, past: seq<Delivery>, deliveries: seq<Delivery>, i: nat,
                            p: Merchant.CreateParams, now: int)
    requires Opening(w) && MerchantProofs.Shaped(w.books) && Proper(w, st, past + deliveries)
    requires i < |Run(w, st, past).books.txs| && Run(w, st, past).books.txs[i].paymeID == p.id
    requires Run(w, st, past).books.txs[i].state.Created?
    ensures var t, b := Run(w, st, past).books.txs[i], Run(w, st, past + deliveries).books;
      var (b', again) := Merchant.Create(b, st.merchant, p, now);
      && i < |b.txs| && MerchantReplay.SameTables(b, b')
      && again == if b.txs[i].state.Created? then Ok(Merchant.CreateResultOf(t)) else Err(CannotPerform)
  {
    hide Step, Sound, MerchantProofs.Shaped, Opening, Run, Proper;
    EvolvesExactly(w, st, past, deliveries, i);
    RunShaped(w, st, past + deliveries);
    RowIs(Run(w, st, past + deliveries).books, i);
  }
}
