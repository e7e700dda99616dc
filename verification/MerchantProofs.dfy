/**
  What every run of Merchant API deliveries keeps: orders agree with their transactions,
  the register reconciles with the performed transactions, and each transaction moves
  the money at most once each way.
 */
module MerchantProofs {
  import opened Common
  import opened Billing
  import opened Sums
  import opened MerchantModel

  // ---------- orders and their transactions ----------

  /** The status an order has while a live transaction occupies it. */
  function Occupied(s: State): OrderStatus { if s.Performed? then Paid else Processing }

  predicate TxTable(txs: seq<Tx>, nextTx: int, nextOrder: int) {
    && (forall i, j :: 0 <= i < j < |txs| ==> txs[i].paymeID != txs[j].paymeID && txs[i].id < txs[j].id)
    && (forall i :: 0 <= i < |txs| ==>
         txs[i].id < nextTx && 0 < txs[i].amount && 0 <= txs[i].orderID < nextOrder)
  }

  predicate OrderTable(orders: seq<OrderRow>, nextOrder: int) {
    && 1 <= nextOrder
    && (forall k, l :: 0 <= k < l < |orders| ==> orders[k].id < orders[l].id)
    && (forall k :: 0 <= k < |orders| ==> 1 <= orders[k].id < nextOrder && 0 < orders[k].amount)
  }

  predicate AccountTable(accounts: seq<AccountRow>, nextAccount: int) {
    && (forall k, l :: 0 <= k < l < |accounts| ==> accounts[k].id < accounts[l].id)
    && (forall k :: 0 <= k < |accounts| ==> accounts[k].id < nextAccount)
  }

  /** One live transaction an order, at most. */
  predicate OneActive(txs: seq<Tx>) {
    forall i, j :: 0 <= i < j < |txs| && txs[i].state.IsActive() && txs[j].state.IsActive() && txs[i].orderID != 0
      ==> txs[i].orderID != txs[j].orderID
  }

  /** A live transaction's order says so: processing while created, paid once performed. */
  predicate OccupiedAgree(txs: seq<Tx>, orders: seq<OrderRow>) {
    forall i, k :: 0 <= i < |txs| && 0 <= k < |orders| && txs[i].orderID == orders[k].id && txs[i].state.IsActive()
      ==> orders[k].status == Occupied(txs[i].state)
  }

  predicate HasPerformed(txs: seq<Tx>, orderID: int) {
    exists i :: 0 <= i < |txs| && txs[i].orderID == orderID && txs[i].state.Performed?
  }

  predicate HasActive(txs: seq<Tx>, orderID: int) {
    exists i :: 0 <= i < |txs| && txs[i].orderID == orderID && txs[i].state.IsActive()
  }

  predicate PaidAgree(txs: seq<Tx>, orders: seq<OrderRow>) {
    forall k :: 0 <= k < |orders| && orders[k].status == Paid ==> HasPerformed(txs, orders[k].id)
  }

  /** The tables' own keys and checks, which no writer of any of them can break. */
  predicate Shaped(b: Books) {
    && TxTable(b.txs, b.nextTx, b.nextOrder)
    && OrderTable(b.orders, b.nextOrder)
    && AccountTable(b.accounts, b.nextAccount)
  }

  /** The tables agree with each other. */
  predicate Consistent(b: Books) {
    && Shaped(b)
    && OneActive(b.txs)
    && OccupiedAgree(b.txs, b.orders)
    && PaidAgree(b.txs, b.orders)
  }

  lemma ConsistentIsShaped(b: Books)
    requires Consistent(b)
    ensures Shaped(b)
  {
  }

  /** A stand before its first payment: no transactions, and no order already paid. */
  predicate Fresh(b: Books) {
    && b.txs == []
    && b.trail == []
    && OrderTable(b.orders, b.nextOrder)
    && AccountTable(b.accounts, b.nextAccount)
    && forall k :: 0 <= k < |b.orders| ==> b.orders[k].status != Paid
  }

  // Table edits, one lemma each.

  lemma OrderIndexIs(orders: seq<OrderRow>, nextOrder: int, k: nat)
    requires OrderTable(orders, nextOrder) && k < |orders|
    ensures OrderIndex(orders, orders[k].id) == k
  {
  }

  /** Resolving may add a payer and an order; it touches nothing else. */
  predicate Extends(b: Books, b': Books) {
    && b' == b.(accounts := b'.accounts, nextAccount := b'.nextAccount,
                orders := b'.orders, nextOrder := b'.nextOrder)
    && b'.Register() == b.Register() && b'.Stopped() == b.Stopped()
    && b.accounts <= b'.accounts && b.orders <= b'.orders && b.nextOrder <= b'.nextOrder
  }

  lemma PayerTable(accounts: seq<AccountRow>, nextAccount: int, value: string)
    requires AccountTable(accounts, nextAccount)
    ensures var (accounts', nextAccount', _) := Payer(accounts, nextAccount, value);
      && AccountTable(accounts', nextAccount') && accounts <= accounts'
      && (accounts == [] ==> accounts' == [AccountRow(nextAccount, "", value, value, 0, false)])
  {
    PayerAppended(accounts, nextAccount, AccountRow(nextAccount, "", value, value, 0, false));
    hide LoginIndex, AccountTable;
  }

  lemma PayerAppended(accounts: seq<AccountRow>, nextAccount: int, row: AccountRow)
    requires AccountTable(accounts, nextAccount) && row.id == nextAccount
    ensures AccountTable(accounts + [row], nextAccount + 1)
  {
  }

  lemma ArrivalTable(orders: seq<OrderRow>, nextOrder: int, accountID: int, amount: int)
    requires OrderTable(orders, nextOrder) && 0 < amount
    ensures var (orders', nextOrder', o) := Arrival(orders, nextOrder, accountID, amount);
      && OrderTable(orders', nextOrder') && orders <= orders' && nextOrder <= nextOrder'
      && o in orders' && o.Payable() && o.amount == amount
  {
    var (orders', _, o) := Arrival(orders, nextOrder, accountID, amount);
    var i := ReusableIndex(orders, accountID, amount);
    assert orders'[i] == o;
  }

  lemma ArrivalAgrees(b: Books, accountID: int, amount: int)
    requires Consistent(b) && 0 < amount
    ensures var orders := Arrival(b.orders, b.nextOrder, accountID, amount).0;
      OccupiedAgree(b.txs, orders) && PaidAgree(b.txs, orders)
  {
    var orders := Arrival(b.orders, b.nextOrder, accountID, amount).0;
    forall k | 0 <= k < |orders| && orders[k].status == Paid
      ensures HasPerformed(b.txs, orders[k].id)
    {
      assert orders[k] == b.orders[k];
    }
  }

  lemma WalkInShaped(b: Books, value: string, amount: int)
    requires Shaped(b)
    ensures var (b', r) := RegisterWalkIn(b, value, amount);
      && Shaped(b') && Extends(b, b')
      && (r.Ok? ==> r.value in b'.orders && r.value.Payable() && r.value.amount == amount)
  {
    hide AccountTable, OrderTable, Payer, Arrival;
    if 0 < amount {
      var (accounts, _, payer) := Payer(b.accounts, b.nextAccount, value);
      PayerTable(b.accounts, b.nextAccount, value);
      ArrivalTable(b.orders, b.nextOrder, payer, amount);
      MoreOrders(b.txs, b.nextTx, b.nextOrder, Arrival(b.orders, b.nextOrder, payer, amount).1);
      hide TxTable;
      assert b.accounts != [] ==> accounts[0] == b.accounts[0];
    }
  }

  lemma MoreOrders(txs: seq<Tx>, nextTx: int, nextOrder: int, later: int)
    requires TxTable(txs, nextTx, nextOrder) && nextOrder <= later
    ensures TxTable(txs, nextTx, later)
  {
  }

  lemma WalkInConsistent(b: Books, value: string, amount: int)
    requires Consistent(b)
    ensures Consistent(RegisterWalkIn(b, value, amount).0)
  {
    WalkInShaped(b, value, amount);
    if 0 < amount {
      ArrivalAgrees(b, Payer(b.accounts, b.nextAccount, value).2, amount);
      hide AccountTable, OrderTable, TxTable, OccupiedAgree, PaidAgree, OneActive, Payer, Arrival;
    }
  }

  /** Resolving refuses, finds a payable order of the table, or registers a walk-in. */
  lemma ResolveCases(b: Books, st: Settings, account: map<string, string>, amount: int)
    ensures var (b', r) := ResolveOrder(b, st, account, amount);
      || (b' == b && r.Err?)
      || (b' == b && r.Ok? && r.value in b.orders && r.value.Payable())
      || (st.accountField in account && (b', r) == RegisterWalkIn(b, account[st.accountField], amount))
  {
  }

  lemma ResolveShaped(b: Books, st: Settings, account: map<string, string>, amount: int)
    requires Shaped(b)
    ensures var (b', r) := ResolveOrder(b, st, account, amount);
      && Shaped(b') && Extends(b, b')
      && (r.Ok? ==> r.value in b'.orders && r.value.Payable())
  {
    ResolveCases(b, st, account, amount);
    if st.accountField in account {
      WalkInShaped(b, account[st.accountField], amount);
    }
    hide Shaped, ResolveOrder, RegisterWalkIn;
  }

  lemma ResolveConsistent(b: Books, st: Settings, account: map<string, string>, amount: int)
    requires Consistent(b)
    ensures Consistent(ResolveOrder(b, st, account, amount).0)
  {
    ResolveCases(b, st, account, amount);
    if st.accountField in account {
      WalkInConsistent(b, account[st.accountField], amount);
    }
    hide Consistent, ResolveOrder, RegisterWalkIn;
  }

  lemma InsertShaped(b: Books, order: OrderRow, p: CreateParams, now: int)
    requires Shaped(b) && WasAdmitted(b, order, p)
    ensures Shaped(Insert(b, order, p, now).0)
  {
  }

  lemma InsertConsistent(b: Books, order: OrderRow, p: CreateParams, now: int)
    requires Consistent(b) && WasAdmitted(b, order, p)
    ensures Consistent(Insert(b, order, p, now).0)
  {
    var t := NewTx(b, order, p, now);
    if !Duplicate(b, t) {
      var b' := Insert(b, order, p, now).0;
      var k := OrderIndex(b.orders, order.id);
      assert b'.txs == b.txs + [t];
      assert b'.orders == b.orders[k := b.orders[k].(status := Processing)];
      InsertedPaid(b, t, k);
      InsertedOccupied(b, t, k);
    }
  }

  lemma InsertedPaid(b: Books, t: Tx, k: nat)
    requires Consistent(b) && k < |b.orders|
    ensures PaidAgree(b.txs + [t], b.orders[k := b.orders[k].(status := Processing)])
  {
    var orders := b.orders[k := b.orders[k].(status := Processing)];
    forall l | 0 <= l < |orders| && orders[l].status == Paid
      ensures HasPerformed(b.txs + [t], orders[l].id)
    {
      assert HasPerformed(b.txs, b.orders[l].id);
      var i :| 0 <= i < |b.txs| && b.txs[i].orderID == b.orders[l].id && b.txs[i].state.Performed?;
      assert (b.txs + [t])[i] == b.txs[i];
    }
  }

  lemma InsertedOccupied(b: Books, t: Tx, k: nat)
    requires Consistent(b) && k < |b.orders| && t.orderID == b.orders[k].id && t.state.Created?
    requires !Duplicate(b, t)
    ensures OccupiedAgree(b.txs + [t], b.orders[k := b.orders[k].(status := Processing)])
  {
    var txs, orders := b.txs + [t], b.orders[k := b.orders[k].(status := Processing)];
    forall i, l | 0 <= i < |txs| && 0 <= l < |orders| && txs[i].orderID == orders[l].id && txs[i].state.IsActive()
      ensures orders[l].status == Occupied(txs[i].state)
    {
      OrderIndexIs(b.orders, b.nextOrder, l);
      OrderIndexIs(b.orders, b.nextOrder, k);
      if i < |b.txs| {
        assert txs[i] == b.txs[i];
        assert l != k;
      }
    }
  }

  /** A transaction of the table moves to a state from which it no longer occupies an order as created. */
  lemma SetTxConsistent(b: Books, i: nat, t: Tx, status: OrderStatus)
    requires Consistent(b) && i < |b.txs| && b.txs[i].state.IsActive()
    requires t == b.txs[i].(state := t.state, reason := t.reason, performTime := t.performTime, cancelTime := t.cancelTime)
    requires if status == Paid then t.state.Performed? else t.state.IsFinal() && status == OrderStatus.Cancelled
    ensures Consistent(b.SetTx(i, t).MarkOrder(t.orderID, status))
  {
    PaidAfterMark(b, i, t, status);
    OccupiedAfterMark(b, i, t, status);
    MarkKeys(b, i, t, status);
    KeysShaped(b, b.SetTx(i, t).MarkOrder(t.orderID, status));
    hide OccupiedAgree, PaidAgree, Shaped, SameKeys;
  }

  lemma PaidAfterMark(b: Books, i: nat, t: Tx, status: OrderStatus)
    requires OrderTable(b.orders, b.nextOrder) && PaidAgree(b.txs, b.orders) && i < |b.txs|
    requires t.orderID == b.txs[i].orderID
    requires if status == Paid then t.state.Performed? else status == OrderStatus.Cancelled
    ensures var b' := b.SetTx(i, t).MarkOrder(t.orderID, status); PaidAgree(b'.txs, b'.orders)
  {
    var b' := b.SetTx(i, t).MarkOrder(t.orderID, status);
    forall l | 0 <= l < |b'.orders| && b'.orders[l].status == Paid
      ensures HasPerformed(b'.txs, b'.orders[l].id)
    {
      if b.orders[l].id == t.orderID {
        OrderIndexIs(b.orders, b.nextOrder, l);
        assert b'.txs[i] == t;
      } else {
        assert b.orders[l].status == Paid && HasPerformed(b.txs, b.orders[l].id);
        var j :| 0 <= j < |b.txs| && b.txs[j].orderID == b.orders[l].id && b.txs[j].state.Performed?;
        assert b'.txs[j] == b.txs[j];
      }
    }
  }

  lemma OccupiedAfterMark(b: Books, i: nat, t: Tx, status: OrderStatus)
    requires Consistent(b) && i < |b.txs| && b.txs[i].state.IsActive()
    requires t.orderID == b.txs[i].orderID
    requires if status == Paid then t.state.Performed? else t.state.IsFinal()
    ensures var b' := b.SetTx(i, t).MarkOrder(t.orderID, status); OccupiedAgree(b'.txs, b'.orders)
  {
    var b' := b.SetTx(i, t).MarkOrder(t.orderID, status);
    forall j, k | 0 <= j < |b'.txs| && 0 <= k < |b'.orders| &&
        b'.txs[j].orderID == b'.orders[k].id && b'.txs[j].state.IsActive()
      ensures b'.orders[k].status == Occupied(b'.txs[j].state)
    {
      OrderIndexIs(b.orders, b.nextOrder, k);
      if j != i {
        assert b'.txs[j] == b.txs[j];
      }
    }
  }

  /** Expiry changes a created transaction and leaves its order as it was. */
  lemma ExpireConsistent(b: Books, i: nat, t: Tx)
    requires Consistent(b) && i < |b.txs| && b.txs[i].state.Created?
    requires t == b.txs[i].(state := State.Cancelled, reason := t.reason, cancelTime := t.cancelTime)
    ensures Consistent(b.SetTx(i, t))
  {
    var b' := b.SetTx(i, t);
    forall l | 0 <= l < |b'.orders| && b'.orders[l].status == Paid
      ensures HasPerformed(b'.txs, b'.orders[l].id)
    {
      assert HasPerformed(b.txs, b.orders[l].id);
      var j :| 0 <= j < |b.txs| && b.txs[j].orderID == b.orders[l].id && b.txs[j].state.Performed?;
      assert b'.txs[j] == b.txs[j];
    }
  }

  lemma SettleConsistent(b: Books, kind: Kind, amount: int, transaction: Option<int>)
    requires Consistent(b)
    ensures var r := Settle(b, kind, amount, transaction);
      r.Ok? ==> Consistent(r.value) && r.value.txs == b.txs && r.value.orders == b.orders
    ensures var r := Unsettle(b, kind, amount);
      r.Ok? ==> Consistent(r.value) && r.value.txs == b.txs && r.value.orders == b.orders
  {
  }

  lemma CreateConsistent(b: Books, st: Settings, p: CreateParams, now: int)
    requires Consistent(b)
    ensures Consistent(Create(b, st, p, now).0)
  {
    if TxIndex(b.txs, p.id) == |b.txs| {
      AdmittedIsStored(b, st, p);
      hide Admit, Insert, Consistent;
      var (b1, order) := Admit(b, st, p);
      if order.Ok? {
        InsertConsistent(b1, order.value, p, now);
      }
    }
  }

  /** What admission returns is an order of the table, for the amount asked. */
  lemma AdmittedIsStored(b: Books, st: Settings, p: CreateParams)
    requires Shaped(b)
    ensures var (b', r) := Admit(b, st, p);
      && Shaped(b') && (Consistent(b) ==> Consistent(b'))
      && (r.Ok? ==> WasAdmitted(b', r.value, p) && r.value.Payable() && !HasActive(b'.txs, r.value.id))
  {
    ResolveShaped(b, st, p.account, p.amount);
    if Consistent(b) {
      ResolveConsistent(b, st, p.account, p.amount);
    }
    assert Admit(b, st, p).0 == ResolveOrder(b, st, p.account, p.amount).0;
    hide ResolveOrder, TxTable, Consistent, AccountTable, HasActive;
    var (b', r) := Admit(b, st, p);
    if r.Ok? {
      var k :| 0 <= k < |b'.orders| && b'.orders[k] == r.value;
      OrderIndexIs(b'.orders, b'.nextOrder, k);
      NoneActive(b'.txs, r.value.id);
    }
  }

  lemma NoneActive(txs: seq<Tx>, orderID: int)
    requires orderID != 0 && ActiveIndex(txs, orderID) == |txs|
    ensures !HasActive(txs, orderID)
  {
  }

  lemma PerformConsistent(b: Books, st: Settings, id: string, now: int)
    requires Consistent(b)
    ensures Consistent(Perform(b, st, id, now).0)
  {
    var i := TxIndex(b.txs, id);
    if i < |b.txs| && b.txs[i].state.Created? {
      var t := b.txs[i];
      var t' := t.AfterPerform(now, st.timeoutMillis).0;
      if t.Expired(now, st.timeoutMillis) {
        ExpireConsistent(b, i, t');
      } else {
        SettleConsistent(b, st.Kind(), t.amount, None);
        var r := Settle(b, st.Kind(), t.amount, None);
        if r.Ok? {
          SetTxConsistent(r.value, i, t', Paid);
        }
      }
    }
  }

  lemma CancelConsistent(b: Books, st: Settings, id: string, reason: int, now: int)
    requires Consistent(b)
    ensures Consistent(Cancel(b, st, id, reason, now).0)
  {
    var i := TxIndex(b.txs, id);
    if i < |b.txs| && b.txs[i].state.IsActive() {
      var t := b.txs[i];
      SettleConsistent(b, st.Kind(), t.amount, None);
      var r := if t.state.Performed? then Unsettle(b, st.Kind(), t.amount) else Ok(b);
      if r.Ok? {
        SetTxConsistent(r.value, i, t.AfterCancel(reason, now), OrderStatus.Cancelled);
      }
    }
  }

  lemma CreateShaped(b: Books, st: Settings, p: CreateParams, now: int)
    requires Shaped(b)
    ensures Shaped(Create(b, st, p, now).0)
  {
    if TxIndex(b.txs, p.id) == |b.txs| {
      AdmittedIsStored(b, st, p);
      var (b1, order) := Admit(b, st, p);
      hide Admit, Insert;
      if order.Ok? {
        InsertShaped(b1, order.value, p, now);
      }
    }
  }

  /** The same rows, as far as their keys and amounts go. */
  predicate SameKeys(b: Books, b': Books) {
    && b'.nextTx == b.nextTx && b'.nextOrder == b.nextOrder && b'.nextAccount == b.nextAccount
    && |b'.txs| == |b.txs| && |b'.orders| == |b.orders| && |b'.accounts| == |b.accounts|
    && (forall i :: 0 <= i < |b.txs| ==>
         && b'.txs[i].id == b.txs[i].id && b'.txs[i].paymeID == b.txs[i].paymeID
         && b'.txs[i].amount == b.txs[i].amount && b'.txs[i].orderID == b.txs[i].orderID)
    && (forall k :: 0 <= k < |b.orders| ==> b'.orders[k].id == b.orders[k].id && b'.orders[k].amount == b.orders[k].amount)
    && (forall k :: 0 <= k < |b.accounts| ==> b'.accounts[k].id == b.accounts[k].id)
  }

  lemma KeysShaped(b: Books, b': Books)
    requires Shaped(b) && SameKeys(b, b')
    ensures Shaped(b')
  {
  }

  lemma MarkKeys(b: Books, i: nat, t: Tx, status: OrderStatus)
    requires i < |b.txs|
    requires t == b.txs[i].(state := t.state, reason := t.reason, performTime := t.performTime, cancelTime := t.cancelTime)
    ensures SameKeys(b, b.SetTx(i, t)) && SameKeys(b, b.SetTx(i, t).MarkOrder(t.orderID, status))
  {
  }

  lemma SettleKeys(b: Books, kind: Kind, amount: int)
    ensures var r := Settle(b, kind, amount, None); r.Ok? ==> r.value.txs == b.txs && SameKeys(b, r.value)
    ensures var r := Unsettle(b, kind, amount); r.Ok? ==> r.value.txs == b.txs && SameKeys(b, r.value)
  {
  }

  /** One change after another, with or without an entry for it. */
  lemma KeysThen(b: Books, b1: Books, b2: Books)
    requires SameKeys(b, b1) && SameKeys(b1, b2)
    ensures SameKeys(b, b2)
    ensures forall e :: SameKeys(b, b2.Log(e))
  {
  }

  lemma PerformKeys(b: Books, st: Settings, id: string, now: int)
    ensures SameKeys(b, Perform(b, st, id, now).0)
  {
    assert SameKeys(b, b);
    var i := TxIndex(b.txs, id);
    if i < |b.txs| {
      PerformedKeys(b, st, i, now);
      hide SameKeys, Settle;
      KeysThen(b, b, b);
      hide Books.MarkOrder, Books.SetTx;
    }
  }

  lemma PerformedKeys(b: Books, st: Settings, i: nat, now: int)
    requires i < |b.txs|
    ensures var t := b.txs[i]; var t' := t.AfterPerform(now, st.timeoutMillis).0; var settled := Settle(b, st.Kind(), t.amount, None);
      && (forall e :: SameKeys(b, b.SetTx(i, t').Log(e)))
      && (settled.Ok? ==>
           && |settled.value.txs| == |b.txs|
           && forall e :: SameKeys(b, settled.value.SetTx(i, t').MarkOrder(t.orderID, Paid).Log(e)))
  {
    var t := b.txs[i];
    var t' := t.AfterPerform(now, st.timeoutMillis).0;
    var settled := Settle(b, st.Kind(), t.amount, None);
    assert SameKeys(b, b);
    MarkKeys(b, i, t', Paid);
    SettleKeys(b, st.Kind(), t.amount);
    hide SameKeys, Settle;
    KeysThen(b, b, b.SetTx(i, t'));
    if settled.Ok? {
      MarkKeys(settled.value, i, t', Paid);
      KeysThen(b, settled.value, settled.value.SetTx(i, t').MarkOrder(t.orderID, Paid));
    }
  }

  lemma CancelKeys(b: Books, st: Settings, id: string, reason: int, now: int)
    ensures SameKeys(b, Cancel(b, st, id, reason, now).0)
  {
    assert SameKeys(b, b);
    hide SameKeys;
    var i := TxIndex(b.txs, id);
    if i < |b.txs| {
      var t, t' := b.txs[i], b.txs[i].AfterCancel(reason, now);
      SettleKeys(b, st.Kind(), t.amount);
      var unsettled := Unsettle(b, st.Kind(), t.amount);
      hide Unsettle;
      var b1 := if t.state.Performed? && unsettled.Ok? then unsettled.value else b;
      MarkKeys(b1, i, t', OrderStatus.Cancelled);
      KeysThen(b, b, b);
      KeysThen(b, b1, b1.SetTx(i, t').MarkOrder(t.orderID, OrderStatus.Cancelled));
    }
  }

  /** No delivery breaks a table's own keys and checks. */
  lemma StepShaped(b: Books, st: Settings, call: Call, now: int)
    requires Shaped(b)
    ensures Shaped(Step(b, st, call, now))
  {
    hide Create, Perform, Cancel, ResolveOrder, Insert, SameKeys, TxTable, OrderTable;
    match call
    case CheckCall(account, amount) => ResolveShaped(b, st, account, amount);
    case CreateCall(p) => CreateShaped(b, st, p, now);
    case LateCall(order, p) => if WasAdmitted(b, order, p) { InsertShaped(b, order, p, now); }
    case PerformCall(id) => PerformKeys(b, st, id, now); KeysShaped(b, Perform(b, st, id, now).0);
    case CancelCall(id, reason) => CancelKeys(b, st, id, reason, now); KeysShaped(b, Cancel(b, st, id, reason, now).0);
    case BlockCall(_) =>
  }

  lemma StepConsistent(b: Books, st: Settings, call: Call, now: int)
    requires Consistent(b)
    ensures Consistent(Step(b, st, call, now))
  {
    match call
    case CheckCall(account, amount) => ResolveConsistent(b, st, account, amount);
    case CreateCall(p) => CreateConsistent(b, st, p, now);
    case LateCall(order, p) => if WasAdmitted(b, order, p) { InsertConsistent(b, order, p, now); }
    case PerformCall(id) => PerformConsistent(b, st, id, now);
    case CancelCall(id, reason) => CancelConsistent(b, st, id, reason, now);
    case BlockCall(_) =>
  }

  lemma {:induction false} RunShaped(b: Books, st: Settings, deliveries: seq<Delivery>)
    requires Shaped(b)
    ensures Shaped(Run(b, st, deliveries))
  {
    if deliveries != [] {
      var last := deliveries[|deliveries| - 1];
      RunShaped(b, st, deliveries[..|deliveries| - 1]);
      StepShaped(Run(b, st, deliveries[..|deliveries| - 1]), st, last.call, last.now);
    }
  }

  lemma {:induction false} RunConsistent(b: Books, st: Settings, deliveries: seq<Delivery>)
    requires Consistent(b)
    ensures Consistent(Run(b, st, deliveries))
  {
    if deliveries != [] {
      var last := deliveries[|deliveries| - 1];
      RunConsistent(b, st, deliveries[..|deliveries| - 1]);
      StepConsistent(Run(b, st, deliveries[..|deliveries| - 1]), st, last.call, last.now);
    }
  }

  /**
    The order has at most one live transaction, is paid exactly when one of its transactions is
    performed, is processing whenever one is created, and has no live one while new or cancelled.
   */
  predicate Follows(b: Books, o: OrderRow) {
    && (o.status == Paid <==> HasPerformed(b.txs, o.id))
    && (forall i :: 0 <= i < |b.txs| && b.txs[i].orderID == o.id && b.txs[i].state.Created? ==> o.status == Processing)
    && (o.status == New || o.status == OrderStatus.Cancelled ==> !HasActive(b.txs, o.id))
    && (forall i, j :: 0 <= i < j < |b.txs| && b.txs[i].orderID == b.txs[j].orderID == o.id
         ==> !(b.txs[i].state.IsActive() && b.txs[j].state.IsActive()))
  }

  lemma ConsistentFollows(b: Books, k: nat)
    requires Consistent(b) && k < |b.orders|
    ensures Follows(b, b.orders[k])
  {
  }

  /**
    In every state a fresh stand can reach, an order has at most one live transaction, is
    paid exactly when one of its transactions is performed, is processing whenever one is
    created, and has no live one while new or cancelled.
   */
  lemma OrdersFollowTransactions(b: Books, st: Settings, deliveries: seq<Delivery>, k: nat)
    requires Fresh(b)
    requires k < |Run(b, st, deliveries).orders|
    ensures Follows(Run(b, st, deliveries), Run(b, st, deliveries).orders[k])
  {
    RunConsistent(b, st, deliveries);
    ConsistentFollows(Run(b, st, deliveries), k);
  }
}
