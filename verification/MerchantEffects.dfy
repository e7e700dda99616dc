/**
  What the methods of the Merchant API answer and write, told on the rows themselves: which
  payer an account object names, which way a register of each kind moves, what a create, a
  perform and a cancel store and answer, and what is reported of it ever after.
 */
module MerchantEffects {
  import opened Common
  import opened Billing
  import opened MerchantModel
  import opened MerchantProofs
  import opened MerchantMoney
  import opened MerchantReplay
  import Decimal
  import Sums

  // ---------- which way a register moves ----------

  /** What an amount paid makes of a balance: dividends and deposits go out, and anything else comes in. */
  function After(kind: Kind, balance: int, amount: int): int {
    match kind
    case Topup => balance + amount
    case Dividend => balance - amount
    case Deposit => balance - amount
    case Unknown(_) => balance + amount
  }

  /** The total of the rows that are performed. */
  function PaidTotal(txs: seq<Tx>): int {
    if txs == [] then 0
    else
      var last := |txs| - 1;
      PaidTotal(txs[..last]) + if txs[last].state == Performed then txs[last].amount else 0
  }

  lemma {:induction false} PaidIsSettled(txs: seq<Tx>)
    ensures Sums.Sum(SettledAmounts(txs)) == PaidTotal(txs)
  {
    if txs != [] {
      var n := |txs| - 1;
      PaidIsSettled(txs[..n]);
      assert txs == txs[..n] + [txs[n]];
      SettledAfterAppend(txs[..n], txs[n]);
    }
  }

  /**
    Over every run of Merchant API deliveries from a fresh stand the register of a topup stand,
    and of one that never said its kind, has gained the total of the performed amounts, and
    that of a dividend or a deposit stand has lost it; it is never below nothing.
   */
  lemma RegisterFollowsKind(b: Books, st: Settings, deliveries: seq<Delivery>)
    requires Fresh(b)
    ensures var b' := Run(b, st, deliveries);
      && b'.Register() == After(st.registerKind, b.Register(), PaidTotal(b'.txs))
      && (0 <= b.Register() ==> 0 <= b'.Register())
      && b.Register() == (if b.accounts == [] then 0 else b.accounts[0].balance)
      && b'.Register() == (if b'.accounts == [] then 0 else b'.accounts[0].balance)
  {
    RunReconciled(b, st, deliveries);
    PaidIsSettled(Run(b, st, deliveries).txs);
  }

  // ---------- perform ----------

  /** The register can settle the amount: there is one, it is not stopped, and what goes out is there. */
  predicate Funds(b: Books, kind: Kind, amount: int) {
    && b.accounts != [] && !b.accounts[0].blocked
    && (kind == Dividend || kind == Deposit ==> amount <= b.accounts[0].balance)
  }

  /** The orders with this identifier are marked, and no other. */
  predicate Marked(orders: seq<OrderRow>, orders': seq<OrderRow>, id: int, status: OrderStatus) {
    && |orders'| == |orders|
    && forall k :: 0 <= k < |orders| ==>
         orders'[k] == if orders[k].id == id then orders[k].(status := status) else orders[k]
  }

  lemma MarksOne(b: Books, id: int, status: OrderStatus)
    requires OrderTable(b.orders, b.nextOrder)
    ensures Marked(b.orders, b.MarkOrder(id, status).orders, id, status)
    ensures b.MarkOrder(id, status) == b.(orders := b.MarkOrder(id, status).orders)
  {
    var k := OrderIndex(b.orders, id);
    assert k < |b.orders| ==> forall l :: 0 <= l < |b.orders| && l != k ==> b.orders[l].id != id;
  }

  /** The register's account holds so much, and one event of the payment history says why. */
  predicate RegisterMoved(b: Books, b': Books, balance: int) {
    && b.accounts != [] && b'.accounts == b.accounts[0 := b.accounts[0].(balance := balance)]
    && b'.moves == b.moves +
         [BalanceEvent(b.accounts[0].id, Payment, balance - b.accounts[0].balance, b.accounts[0].balance, balance, None)]
  }

  /** No money moved and no order was marked. */
  predicate Unmoved(b: Books, b': Books) {
    b'.accounts == b.accounts && b'.moves == b.moves && b'.orders == b.orders
  }

  /**
    A first perform: too late, it cancels the transaction with reason 4 and leaves its order;
    refused by the register, it changes no row; answered, it moves the register by the amount
    the way its kind goes, with one event, and leaves the transaction performed now and its
    order paid.  Each leaves one entry of the trail.
   */
  lemma PerformExactly(b: Books, st: Settings, i: nat, now: int)
    requires OrderTable(b.orders, b.nextOrder) && i < |b.txs| && TxIndex(b.txs, b.txs[i].paymeID) == i
    requires b.txs[i].state == Created
    ensures var t := b.txs[i]; var (b', r) := Perform(b, st, t.paymeID, now);
      if now - t.createTime > st.timeoutMillis then
        && r == Err(CannotPerform) && Unmoved(b, b')
        && b'.txs == b.txs[i := t.(state := State.Cancelled, reason := Some(4), cancelTime := now)]
        && b'.trail == b.trail +
             [AuditEvent(t.id, PerformTransaction, Some(Created), Some(State.Cancelled), false, Some(CannotPerform))]
      else if !Funds(b, st.registerKind, t.amount) then
        && r == Err(if b.accounts == [] then NotFound else CannotPerform) && Unmoved(b, b') && b'.txs == b.txs
        && b'.trail == b.trail + [AuditEvent(t.id, PerformTransaction, Some(Created), None, false, Some(CannotPerform))]
      else
        && r == Ok(PerformResult(Decimal.FormatInt(t.id), now, Performed))
        && RegisterMoved(b, b', After(st.registerKind, b.accounts[0].balance, t.amount))
        && b'.txs == b.txs[i := t.(state := Performed, performTime := now)]
        && Marked(b.orders, b'.orders, t.orderID, Paid)
        && b'.trail == b.trail + [AuditEvent(t.id, PerformTransaction, Some(Created), Some(Performed), false, None)]
  {
    MarksOne(b, b.txs[i].orderID, Paid);
    hide Decimal.FormatInt, Marked;
  }

  /** A perform of any other transaction moves nothing: unknown, performed before, or cancelled. */
  lemma PerformOtherwise(b: Books, st: Settings, id: string, now: int)
    ensures var i := TxIndex(b.txs, id); var (b', r) := Perform(b, st, id, now);
      && (i == |b.txs| ==> b' == b && r == Err(TransactionNotFound))
      && (i < |b.txs| && b.txs[i].state == Performed ==>
           && b' == b.(trail := b.trail +
                [AuditEvent(b.txs[i].id, PerformTransaction, Some(Performed), Some(Performed), true, None)])
           && r == Ok(PerformResult(Decimal.FormatInt(b.txs[i].id), b.txs[i].performTime, Performed)))
      && (i < |b.txs| && (b.txs[i].state == State.Cancelled || b.txs[i].state == CancelledAfterDo) ==>
           b' == b && r == Err(CannotPerform))
  {
    hide Decimal.FormatInt;
  }

  // ---------- cancel ----------

  /** The codes the protocol gives the states of a transaction. */
  lemma StateCodes()
    ensures Created.Code() == 1 && Performed.Code() == 2 && State.Cancelled.Code() == -1 && CancelledAfterDo.Code() == -2
  {
  }

  /**
    A first cancel keeps the caller's reason, the time, and when the transaction had been
    performed; it ends at -1 or -2 by whether it had been, puts back what the register moved
    just then, and releases the order.
   */
  lemma CancelExactly(b: Books, st: Settings, i: nat, reason: int, now: int)
    requires OrderTable(b.orders, b.nextOrder) && i < |b.txs| && TxIndex(b.txs, b.txs[i].paymeID) == i
    requires b.txs[i].state == Created || b.txs[i].state == Performed
    ensures var t := b.txs[i]; var (b', r) := Cancel(b, st, t.paymeID, reason, now);
      var ended := if t.state == Performed then CancelledAfterDo else State.Cancelled;
      if t.state == Performed && b.accounts == [] then b' == b && r == Err(NotFound)
      else
        && r == Ok(CancelResult(Decimal.FormatInt(t.id), now, ended))
        && b'.txs == b.txs[i := t.(state := ended, reason := Some(reason), cancelTime := now)]
        && Marked(b.orders, b'.orders, t.orderID, OrderStatus.Cancelled)
        && (t.state == Performed ==> RegisterMoved(b, b', After(st.registerKind, b.accounts[0].balance, -t.amount)))
        && (t.state == Created ==> b'.accounts == b.accounts && b'.moves == b.moves)
        && b'.trail == b.trail + [AuditEvent(t.id, CancelTransaction, Some(t.state), Some(ended), false, None)]
  {
    MarksOne(b, b.txs[i].orderID, OrderStatus.Cancelled);
    hide Decimal.FormatInt, Marked;
  }

  /** A cancel of any other transaction changes no table: unknown, or cancelled before with whatever reason. */
  lemma CancelOtherwise(b: Books, st: Settings, id: string, reason: int, now: int)
    ensures var i := TxIndex(b.txs, id); var (b', r) := Cancel(b, st, id, reason, now);
      && (i == |b.txs| ==> b' == b && r == Err(TransactionNotFound))
      && (i < |b.txs| && (b.txs[i].state == State.Cancelled || b.txs[i].state == CancelledAfterDo) ==>
           var t := b.txs[i];
           && b' == b.(trail := b.trail + [AuditEvent(t.id, CancelTransaction, Some(t.state), Some(t.state), true, None)])
           && r == Ok(CancelResult(Decimal.FormatInt(t.id), t.cancelTime, t.state)))
  {
    hide Decimal.FormatInt;
  }

  /**
    The first reason is kept: after any later run of the Merchant API a check reports the reason
    and the time of the first answered cancel, the state it gave, and when the transaction was
    created and performed before that.
   */
  lemma ReasonKept(b: Books, st: Settings, i: nat, reason: int, now: int, deliveries: seq<Delivery>)
    requires Shaped(b) && i < |b.txs| && (b.txs[i].state == Created || b.txs[i].state == Performed)
    requires Cancel(b, st, b.txs[i].paymeID, reason, now).1.Ok?
    ensures var t := b.txs[i]; var b1 := Cancel(b, st, t.paymeID, reason, now).0;
      Check(Run(b1, st, deliveries), t.paymeID) ==
        Ok(CheckResult(t.createTime, t.performTime, now, Decimal.FormatInt(t.id),
                       if t.state == Performed then CancelledAfterDo else State.Cancelled, Some(reason)))
  {
    var t := b.txs[i];
    TxIndexIs(b, i);
    CancelExactly(b, st, i, reason, now);
    CancelKeys(b, st, t.paymeID, reason, now);
    KeysShaped(b, Cancel(b, st, t.paymeID, reason, now).0);
    hide Cancel, Shaped, Decimal.FormatInt, Marked, RegisterMoved, Run, TxIndex;
    StillThere(Cancel(b, st, t.paymeID, reason, now).0, st, deliveries, i);
  }

  // ---------- create, and what is reported of it ----------

  /** A live transaction occupies the order. */
  predicate Occupies(txs: seq<Tx>, orderID: int) {
    exists j :: 0 <= j < |txs| && txs[j].orderID == orderID && (txs[j].state == Created || txs[j].state == Performed)
  }

  lemma OccupiedIsActive(txs: seq<Tx>, orderID: int)
    requires orderID != 0
    ensures ActiveIndex(txs, orderID) < |txs| <==> Occupies(txs, orderID)
  {
    var i := ActiveIndex(txs, orderID);
    if i < |txs| {
      assert txs[i].state == Created || txs[i].state == Performed;
    }
  }

  /** Whether a payment is possible: an order is found, of the amount, and the register is not stopped. */
  lemma CheckExactly(b: Books, st: Settings, account: map<string, string>, amount: int)
    ensures var (b1, order) := ResolveOrder(b, st, account, amount); var (b', r) := CheckPerform(b, st, account, amount);
      && b' == b1
      && r == if order.Err? then Err(order.error)
              else if amount != order.value.amount then Err(InvalidAmount)
              else if b1.accounts != [] && b1.accounts[0].blocked then Err(CannotPerform)
              else Ok(())
  {
    hide ResolveOrder;
  }

  /**
    A first create stores, for the order found, exactly what was asked, as created now and
    never performed nor cancelled, under the table's next number, and the order is processing;
    or it is refused and stores nothing.
   */
  lemma CreateExactly(b: Books, st: Settings, p: CreateParams, now: int)
    requires Shaped(b) && TxIndex(b.txs, p.id) == |b.txs|
    ensures var (b1, order) := ResolveOrder(b, st, p.account, p.amount); var (b', r) := Create(b, st, p, now);
      if order.Err? then b' == b1 && r == Err(order.error)
      else if p.amount != order.value.amount then b' == b1 && r == Err(InvalidAmount)
      else if (b1.accounts != [] && b1.accounts[0].blocked) || Occupies(b.txs, order.value.id) then
        b' == b1 && r == Err(CannotPerform)
      else
        && r == Ok(CreateResult(now, Decimal.FormatInt(b.nextTx), Created))
        && b'.txs == b.txs + [Tx(b.nextTx, p.id, order.value.id, order.value.accountID, p.account, p.amount, Created, None,
                                 p.time, now, 0, 0)]
        && b'.nextTx == b.nextTx + 1 && b'.accounts == b1.accounts && b'.moves == b.moves
        && Marked(b1.orders, b'.orders, order.value.id, Processing)
        && b'.trail == b.trail + [AuditEvent(b.nextTx, CreateTransaction, None, Some(Created), false, None)]
  {
    ResolveShaped(b, st, p.account, p.amount);
    var (b1, order) := ResolveOrder(b, st, p.account, p.amount);
    hide ResolveOrder, Decimal.FormatInt, Marked, Occupies, TxTable, AccountTable;
    if order.Ok? {
      var k :| 0 <= k < |b1.orders| && b1.orders[k] == order.value;
      OrderIndexIs(b1.orders, b1.nextOrder, k);
      OccupiedIsActive(b.txs, order.value.id);
      MarksOne(b1, order.value.id, Processing);
    }
  }

  /** A create of a stored transaction answers from it while it is created, refuses after that, and stores nothing. */
  lemma CreateOtherwise(b: Books, st: Settings, p: CreateParams, now: int)
    requires TxIndex(b.txs, p.id) < |b.txs|
    ensures var t := b.txs[TxIndex(b.txs, p.id)]; var (b', r) := Create(b, st, p, now);
      && r == (if t.state == Created then Ok(CreateResult(t.createTime, Decimal.FormatInt(t.id), Created))
               else Err(CannotPerform))
      && b' == b.(trail := b.trail +
           [AuditEvent(t.id, CreateTransaction, Some(t.state), None, true,
                       if t.state == Created then None else Some(CannotPerform))])
  {
    hide Decimal.FormatInt;
  }

  /** A statement's entries are its rows, field for field. */
  lemma EntryFields(txs: seq<Tx>, from: int, to: int, k: nat)
    requires k < |Statement(txs, from, to)|
    ensures var t, entries := Statement(txs, from, to)[k], Entries(Statement(txs, from, to));
      && |entries| == |Statement(txs, from, to)|
      && entries[k].id == t.paymeID && entries[k].time == t.paymeTime && entries[k].amount == t.amount
      && entries[k].account == t.account && entries[k].createTime == t.createTime
      && entries[k].performTime == t.performTime && entries[k].cancelTime == t.cancelTime
      && entries[k].transaction == Decimal.FormatInt(t.id) && entries[k].state == t.state && entries[k].reason == t.reason
  {
    hide Decimal.FormatInt, Statement;
  }

  /** A statement goes by time of creation, and by number where two were created at once. */
  lemma StatementSorted(txs: seq<Tx>, from: int, to: int, i: nat, j: nat)
    requires i < j < |Statement(txs, from, to)|
    ensures var t, u := Statement(txs, from, to)[i], Statement(txs, from, to)[j];
      t.createTime < u.createTime || (t.createTime == u.createTime && t.id <= u.id)
  {
    StatementExact(txs, from, to);
    assert Before(Statement(txs, from, to)[i], Statement(txs, from, to)[j]);
    hide Statement;
  }

  /** The entry reports this payment. */
  predicate Reports(e: StatementEntry, p: CreateParams, createTime: int, id: int) {
    && e.id == p.id && e.time == p.time && e.amount == p.amount && e.account == p.account
    && e.createTime == createTime && e.transaction == Decimal.FormatInt(id)
  }

  /**
    What a create was asked for is reported for good: after any later run of the Merchant API
    every statement of a period that holds its time has an entry with the request's identifier,
    time, amount and account.
   */
  lemma ReportedForGood(b: Books, st: Settings, p: CreateParams, now: int, deliveries: seq<Delivery>, from: int, to: int)
    requires Shaped(b) && TxIndex(b.txs, p.id) == |b.txs| && Create(b, st, p, now).1.Ok? && from <= now <= to
    ensures var entries := Entries(Statement(Run(Create(b, st, p, now).0, st, deliveries).txs, from, to));
      exists k :: 0 <= k < |entries| && Reports(entries[k], p, now, b.nextTx)
  {
    CreateExactly(b, st, p, now);
    var i := |b.txs|;
    var b1 := Create(b, st, p, now).0;
    hide Create, ResolveOrder, Decimal.FormatInt, Shaped, Occupies;
    RunEvolves(b1, st, deliveries, i);
    var txs := Run(b1, st, deliveries).txs;
    StatementExact(txs, from, to);
    assert txs[i] in multiset(txs);
    assert txs[i] in multiset(Statement(txs, from, to));
    var k :| 0 <= k < |Statement(txs, from, to)| && Statement(txs, from, to)[k] == txs[i];
    EntryFields(txs, from, to, k);
    assert Reports(Entries(Statement(txs, from, to))[k], p, now, b.nextTx);
  }

  // ---------- which order an account object names ----------

  /** The first row that qualifies. */
  ghost predicate First<T(!new)>(rows: seq<T>, qualifies: T -> bool, i: nat) {
    i < |rows| && qualifies(rows[i]) && forall j :: 0 <= j < i ==> !qualifies(rows[j])
  }

  ghost predicate NoneOf<T(!new)>(rows: seq<T>, qualifies: T -> bool) {
    forall j :: 0 <= j < |rows| ==> !qualifies(rows[j])
  }

  /** The order can be paid by this payer. */
  function PayableBy(accountID: int): OrderRow -> bool {
    (o: OrderRow) => o.accountID == accountID && (o.status == New || o.status == Processing)
  }

  lemma PayableFound(orders: seq<OrderRow>, accountID: int)
    ensures var p := PayableIndex(orders, accountID); p < |orders| ==> PayableBy(accountID)(orders[p])
  {
  }

  function PayableFor(accountID: int, amount: int): OrderRow -> bool {
    (o: OrderRow) => o.accountID == accountID && o.amount == amount && (o.status == New || o.status == Processing)
  }

  /** Who the account object names by this field: whoever has that phone, or that login. */
  function Named(field: string, value: string): AccountRow -> bool {
    (a: AccountRow) => if field == "phone" then a.phone == value else a.login == value
  }

  /**
    A walk-in: refused for an amount that is not positive.  The payer is the first with that
    login, or a new one with that login and name and nothing on the account; the order is the
    payer's first payable one for the amount, or a new one.
   */
  lemma WalkInExactly(b: Books, value: string, amount: int, i: nat, k: nat, payer: int)
    requires First(b.accounts, Named("login", value), i) || NoneOf(b.accounts, Named("login", value))
    requires payer == if First(b.accounts, Named("login", value), i) then b.accounts[i].id else b.nextAccount
    requires First(b.orders, PayableFor(payer, amount), k) || NoneOf(b.orders, PayableFor(payer, amount))
    ensures var (b', r) := RegisterWalkIn(b, value, amount);
      var known, waiting := First(b.accounts, Named("login", value), i), First(b.orders, PayableFor(payer, amount), k);
      var arrived := OrderRow(b.nextOrder, payer, amount, New, "registered on arrival");
      if amount <= 0 then b' == b && r == Err(InvalidAmount)
      else
        && b' == b.(accounts := b'.accounts, nextAccount := b'.nextAccount, orders := b'.orders, nextOrder := b'.nextOrder)
        && b'.accounts == (if known then b.accounts
                           else b.accounts + [AccountRow(b.nextAccount, "", value, value, 0, false)])
        && b'.nextAccount == (if known then b.nextAccount else b.nextAccount + 1)
        && r == Ok(if waiting then b.orders[k] else arrived)
        && b'.orders == (if waiting then b.orders else b.orders + [arrived])
        && b'.nextOrder == (if waiting then b.nextOrder else b.nextOrder + 1)
  {
    var l, o := LoginIndex(b.accounts, value), ReusableIndex(b.orders, payer, amount);
    assert l < |b.accounts| ==> Named("login", value)(b.accounts[l]);
    assert o < |b.orders| ==> PayableFor(payer, amount)(b.orders[o]);
    if First(b.accounts, Named("login", value), i) {
      assert Named("login", value)(b.accounts[i]);
      assert l == i;
    }
    if First(b.orders, PayableFor(payer, amount), k) {
      assert PayableFor(payer, amount)(b.orders[k]);
      assert o == k;
    }
    hide LoginIndex, ReusableIndex;
  }

  /**
    A payer named by phone, or by login, pays the first payable order of the first payer of
    that phone, or login, without a write.
   */
  lemma ResolvesPayer(b: Books, st: Settings, account: map<string, string>, amount: int, i: nat, k: nat)
    requires st.accountField == "phone" || st.accountField == "login"
    requires st.accountField in account && account[st.accountField] != ""
    requires First(b.accounts, Named(st.accountField, account[st.accountField]), i)
    requires First(b.orders, PayableBy(b.accounts[i].id), k)
    ensures ResolveOrder(b, st, account, amount) == (b, Ok(b.orders[k]))
  {
    var value := account[st.accountField];
    var found := if st.accountField == "phone" then PhoneIndex(b.accounts, value) else LoginIndex(b.accounts, value);
    assert Named(st.accountField, value)(b.accounts[i]);
    assert found == i by {
      assert found < |b.accounts| ==> Named(st.accountField, value)(b.accounts[found]);
    }
    assert PayableBy(b.accounts[i].id)(b.orders[k]);
    PayableFound(b.orders, b.accounts[i].id);
    hide PhoneIndex, LoginIndex, PayableIndex, RegisterWalkIn;
  }

  /**
    Otherwise, with no such payer, or one with nothing to pay, the stand registers a walk-in
    under the text given, or, taking none, answers that there is no such account.
   */
  lemma ResolvesWalkIn(b: Books, st: Settings, account: map<string, string>, amount: int, i: nat)
    requires st.accountField == "phone" || st.accountField == "login"
    requires st.accountField in account && account[st.accountField] != ""
    requires || NoneOf(b.accounts, Named(st.accountField, account[st.accountField]))
             || (First(b.accounts, Named(st.accountField, account[st.accountField]), i) &&
                 NoneOf(b.orders, PayableBy(b.accounts[i].id)))
    ensures ResolveOrder(b, st, account, amount) ==
            if st.autoRegister then RegisterWalkIn(b, account[st.accountField], amount)
            else (b, Err(AccountNotFound(st.accountField)))
  {
    var value := account[st.accountField];
    var found := if st.accountField == "phone" then PhoneIndex(b.accounts, value) else LoginIndex(b.accounts, value);
    assert found < |b.accounts| ==> Named(st.accountField, value)(b.accounts[found]);
    if found < |b.accounts| {
      assert Named(st.accountField, value)(b.accounts[i]);
      assert found == i;
      PayableFound(b.orders, b.accounts[i].id);
    }
    hide PhoneIndex, LoginIndex, PayableIndex, RegisterWalkIn;
  }

  lemma {:induction false} FirstOrNone<T(!new)>(rows: seq<T>, qualifies: T -> bool) returns (i: nat)
    ensures First(rows, qualifies, i) || NoneOf(rows, qualifies)
  {
    i := 0;
    if rows != [] && !qualifies(rows[0]) {
      var j := FirstOrNone(rows[1..], qualifies);
      i := j + 1;
      if First(rows[1..], qualifies, j) {
        assert forall l :: 0 < l < i ==> rows[l] == rows[1..][l - 1];
      } else {
        assert forall l :: 0 < l < |rows| ==> rows[l] == rows[1..][l - 1];
      }
    }
  }

  /** The first payer named by the text has this one as first payable order. */
  ghost predicate PaysFor(b: Books, field: string, value: string, o: OrderRow) {
    exists i: nat, k: nat :: First(b.accounts, Named(field, value), i) && First(b.orders, PayableBy(b.accounts[i].id), k) &&
                             b.orders[k] == o
  }

  /** The payer of that login is on file, and this is the first order waiting for the amount. */
  ghost predicate Waits(b: Books, value: string, amount: int, o: OrderRow) {
    exists i: nat, k: nat :: First(b.accounts, Named("login", value), i) &&
                             First(b.orders, PayableFor(b.accounts[i].id, amount), k) && b.orders[k] == o
  }

  /**
    By phone, or by login, an order is answered without a write exactly when it is the first
    payable one of the first payer so named; or when no such payer has one, the stand takes
    walk-ins, the amount is positive, and it already waits for that walk-in.
   */
  lemma ResolvesExactly(b: Books, st: Settings, account: map<string, string>, amount: int, o: OrderRow)
    requires st.accountField == "phone" || st.accountField == "login"
    ensures ResolveOrder(b, st, account, amount) == (b, Ok(o)) <==>
      && st.accountField in account && account[st.accountField] != ""
      && var value := account[st.accountField];
      && (|| PaysFor(b, st.accountField, value, o)
          || (st.autoRegister && 0 < amount && (forall p :: !PaysFor(b, st.accountField, value, p)) &&
              Waits(b, value, amount, o)))
  {
    if st.accountField !in account || account[st.accountField] == "" {
      ResolvesNothing(b, st, account, amount);
    } else {
      var value := account[st.accountField];
      var i := FirstOrNone(b.accounts, Named(st.accountField, value));
      if First(b.accounts, Named(st.accountField, value), i) {
        var k := FirstOrNone(b.orders, PayableBy(b.accounts[i].id));
        if First(b.orders, PayableBy(b.accounts[i].id), k) {
          ResolvesPayer(b, st, account, amount, i, k);
          assert PaysFor(b, st.accountField, value, b.orders[k]);
          hide ResolveOrder, Named, PayableBy, PayableFor;
        } else {
          ResolvesWalkIn(b, st, account, amount, i);
          WalkInQuiet(b, value, amount, o);
          hide ResolveOrder, Named, PayableBy, PayableFor, RegisterWalkIn, Waits;
        }
      } else {
        ResolvesWalkIn(b, st, account, amount, i);
        WalkInQuiet(b, value, amount, o);
        hide ResolveOrder, Named, PayableBy, PayableFor, RegisterWalkIn, Waits;
      }
    }
  }

  /** A walk-in writes nothing exactly when its payer and its order are there already. */
  lemma WalkInQuiet(b: Books, value: string, amount: int, o: OrderRow)
    ensures RegisterWalkIn(b, value, amount) == (b, Ok(o)) <==> 0 < amount && Waits(b, value, amount, o)
  {
    var i := FirstOrNone(b.accounts, Named("login", value));
    var payer := if First(b.accounts, Named("login", value), i) then b.accounts[i].id else b.nextAccount;
    var k := FirstOrNone(b.orders, PayableFor(payer, amount));
    WalkInExactly(b, value, amount, i, k, payer);
    hide RegisterWalkIn, Named, PayableFor;
  }

  /** An account object without the field, or with nothing in it, names no one, whoever the stand takes. */
  lemma ResolvesNothing(b: Books, st: Settings, account: map<string, string>, amount: int)
    requires st.accountField !in account || account[st.accountField] == ""
    ensures ResolveOrder(b, st, account, amount) == (b, Err(AccountNotFound(st.accountField)))
  {
  }

  /** A field that is no column of a payer and no order's number finds no one: a walk-in, or no such account. */
  lemma ResolvesUnknownField(b: Books, st: Settings, account: map<string, string>, amount: int)
    requires st.accountField != "phone" && st.accountField != "login" && st.accountField != "order_id"
    requires st.accountField in account && account[st.accountField] != ""
    ensures ResolveOrder(b, st, account, amount) ==
            if st.autoRegister then RegisterWalkIn(b, account[st.accountField], amount)
            else (b, Err(AccountNotFound(st.accountField)))
  {
    hide RegisterWalkIn;
  }

  /**
    An order named by its number: a payable one is found without a write; any other text, and
    an order that can no longer be paid, brings a walk-in where the stand takes them, and is
    refused where it does not.
   */
  lemma ResolvesOrder(b: Books, st: Settings, account: map<string, string>, amount: int, k: nat)
    requires Shaped(b) && OwnersKnown(b) && Decimal.InInt64(b.nextOrder)
    requires st.accountField == "order_id" && "order_id" in account && account["order_id"] != ""
    ensures var value := account["order_id"];
      && (k < |b.orders| && Decimal.FormatInt(b.orders[k].id) == value ==>
           ResolveOrder(b, st, account, amount) ==
             if b.orders[k].status == New || b.orders[k].status == Processing then (b, Ok(b.orders[k]))
             else if st.autoRegister then RegisterWalkIn(b, value, amount)
             else (b, Err(AccountNotFound("order_id"))))
      && (NoneOf(b.orders, (o: OrderRow) => Decimal.FormatInt(o.id) == value) ==>
           ResolveOrder(b, st, account, amount) ==
             if st.autoRegister then RegisterWalkIn(b, value, amount) else (b, Err(AccountNotFound("order_id"))))
  {
    var value := account["order_id"];
    var o := OrderTextIndex(b.orders, value);
    if k < |b.orders| && Decimal.FormatInt(b.orders[k].id) == value {
      Decimal.ParseFormatInt(b.orders[k].id);
      SameNumber(b, o, k);
      if b.orders[k].Payable() {
        PayableNamedOrder(b, st, account, amount, k);
      } else if st.autoRegister {
        UnpayableNamedOrder(b, st, account, amount, k);
      } else {
        NamedOrderSettles(b, st, account, amount);
      }
    }
    hide OrderTextIndex, RegisterWalkIn, Decimal.FormatInt;
  }

  /** An order named by number is that payer's own, or it is refused, walk-ins or not. */
  lemma NamedExactly(b: Books, st: Settings, value: string, accountID: int, amount: int, k: nat)
    requires OrderTable(b.orders, b.nextOrder) && k < |b.orders| && Decimal.ParseInt(value) == Some(b.orders[k].id)
    ensures NamedOrder(b, st, "order_id", value, accountID, amount) ==
            if b.orders[k].accountID != accountID then (b, Err(AccountNotFound("order_id")))
            else if b.orders[k].status == New || b.orders[k].status == Processing then (b, Ok(b.orders[k]))
            else if st.autoRegister then RegisterWalkIn(b, value, amount)
            else (b, Err(AccountNotFound("order_id")))
  {
    OrderIndexIs(b.orders, b.nextOrder, k);
    hide RegisterWalkIn, Decimal.ParseInt;
  }

  /** No two orders are written alike. */
  lemma SameNumber(b: Books, o: nat, k: nat)
    requires OrderTable(b.orders, b.nextOrder) && Decimal.InInt64(b.nextOrder) && o < |b.orders| && k < |b.orders|
    requires Decimal.FormatInt(b.orders[o].id) == Decimal.FormatInt(b.orders[k].id)
    ensures o == k
  {
    Decimal.ParseFormatInt(b.orders[k].id);
    Decimal.ParseFormatInt(b.orders[o].id);
  }

  /**
    The insert half of a create whose order was admitted before: it stores the request unless
    that order has been occupied since, which is refused and stores nothing.
   */
  lemma LateExactly(b: Books, order: OrderRow, p: CreateParams, now: int)
    requires Shaped(b) && TxIndex(b.txs, p.id) == |b.txs| && WasAdmitted(b, order, p)
    ensures var (b', r) := Insert(b, order, p, now);
      if Occupies(b.txs, order.id) then b' == b && r == Err(NotFound)
      else
        && r == Ok(CreateResult(now, Decimal.FormatInt(b.nextTx), Created))
        && b'.txs == b.txs + [Tx(b.nextTx, p.id, order.id, order.accountID, p.account, p.amount, Created, None,
                                 p.time, now, 0, 0)]
        && b'.nextTx == b.nextTx + 1 && b'.accounts == b.accounts && b'.moves == b.moves
        && Marked(b.orders, b'.orders, order.id, Processing)
  {
    OccupiedIsActive(b.txs, order.id);
    MarksOne(b, order.id, Processing);
    hide Decimal.FormatInt, Marked, Occupies, TxTable, AccountTable;
  }
}
