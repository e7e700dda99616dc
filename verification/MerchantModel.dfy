/**
  The Merchant API as a state machine over the stand's tables: the transaction
  aggregate (internal/context/payment/merchant/domain/transaction.go) and what each
  method of internal/context/payment/merchant/application/service.go does to the tables.
 */
module MerchantModel {
  import opened Common
  import opened Billing
  import opened Sums
  import Decimal

  // ---------- the transaction aggregate ----------

  datatype State = Created | Performed | Cancelled | CancelledAfterDo {
    function Code(): int {
      match this
      case Created => 1
      case Performed => 2
      case Cancelled => -1
      case CancelledAfterDo => -2
    }

    predicate IsFinal() { Cancelled? || CancelledAfterDo? }

    predicate IsActive() { Created? || Performed? }
  }

  /** Recorded when a transaction is cancelled for outliving its confirmation window. */
  const REASON_TIMEOUT: int := 4

  datatype Tx = Tx(
    id: int, paymeID: string, orderID: int, accountID: int, account: map<string, string>, amount: int,
    state: State, reason: Option<int>, paymeTime: int, createTime: int, performTime: int, cancelTime: int)
  {
    predicate Expired(now: int, timeout: int) { state.Created? && now - createTime > timeout }

    function Ended(why: int, now: int): Tx {
      this.(state := if state.Performed? then CancelledAfterDo else State.Cancelled,
            reason := Some(why), cancelTime := now)
    }

    /** Perform: the transaction afterwards, and whether the call succeeded. */
    function AfterPerform(now: int, timeout: int): (Tx, bool) {
      match state
      case Performed => (this, true)
      case Created =>
        if Expired(now, timeout) then (Ended(REASON_TIMEOUT, now), false)
        else (this.(state := Performed, performTime := now), true)
      case _ => (this, false)
    }

    /** Cancel: a transaction already cancelled stays as it is. */
    function AfterCancel(why: int, now: int): Tx {
      if state.IsFinal() then this else Ended(why, now)
    }

    /** What the transaction contributes to the money the register has moved. */
    function Settled(): int { if state.Performed? then amount else 0 }
  }

  // ---------- the stand's tables ----------

  datatype Method = CreateTransaction | PerformTransaction | CancelTransaction

  /** One audit entry, with error set when the entry records a refusal. */
  datatype AuditEvent = AuditEvent(
    transactionID: int, cause: Method, from: Option<State>, to: Option<State>, replay: bool, error: Option<Error>)

  datatype Books = Books(
    txs: seq<Tx>, nextTx: int,
    accounts: seq<AccountRow>, nextAccount: int, moves: seq<BalanceEvent>,
    orders: seq<OrderRow>, nextOrder: int,
    trail: seq<AuditEvent>)
  {
    function Log(e: AuditEvent): Books { this.(trail := trail + [e]) }

    function SetTx(i: nat, t: Tx): Books
      requires i < |txs|
    {
      this.(txs := txs[i := t])
    }

    /** The status change of updateOrder: an order that is gone is nothing to update. */
    function MarkOrder(id: int, status: OrderStatus): Books {
      var k := OrderIndex(orders, id);
      if k == |orders| then this else this.(orders := orders[k := orders[k].(status := status)])
    }

    /** The balance the stand reports: that of its oldest account. */
    function Register(): int { if accounts == [] then 0 else accounts[0].balance }

    predicate Stopped() { accounts != [] && accounts[0].blocked }

    function MoveRegister(balance: int, transaction: Option<int>): Books
      requires accounts != []
    {
      this.(accounts := accounts[0 := accounts[0].(balance := balance)],
            moves := moves + [Move(accounts[0], Payment, balance, transaction)])
    }

    /** The sum of the amounts of performed transactions. */
    function Performed(): int { Sum(SettledAmounts(txs)) }
  }

  function SettledAmounts(txs: seq<Tx>): seq<int> {
    seq(|txs|, k requires 0 <= k < |txs| => txs[k].Settled())
  }

  datatype Settings = Settings(timeoutMillis: int, accountField: string, registerKind: Kind, autoRegister: bool) {
    /** A stand that never said what kind of register it is takes money in. */
    function Kind(): Kind { if registerKind.Valid() then registerKind else Topup }
  }

  const ORDER_ID_FIELD := "order_id"

  function TxIndex(rows: seq<Tx>, paymeID: string, from: nat := 0): (i: nat)
    requires from <= |rows|
    ensures from <= i <= |rows|
    ensures i < |rows| ==> rows[i].paymeID == paymeID
    ensures forall k :: from <= k < i ==> rows[k].paymeID != paymeID
    decreases |rows| - from
  {
    if from == |rows| || rows[from].paymeID == paymeID then from else TxIndex(rows, paymeID, from + 1)
  }

  /** The order's live transaction; a transaction without an order (identifier 0) is no one's. */
  function ActiveIndex(rows: seq<Tx>, orderID: int, from: nat := 0): (i: nat)
    requires from <= |rows|
    ensures from <= i <= |rows|
    ensures i < |rows| ==> orderID != 0 && rows[i].orderID == orderID && rows[i].state.IsActive()
    ensures forall k :: from <= k < i ==> !(orderID != 0 && rows[k].orderID == orderID && rows[k].state.IsActive())
    decreases |rows| - from
  {
    if from == |rows| || (orderID != 0 && rows[from].orderID == orderID && rows[from].state.IsActive()) then from
    else ActiveIndex(rows, orderID, from + 1)
  }

  // ---------- resolving what is being paid ----------

  /** The account one field of the account object names, or the table's length. */
  function ByField(b: Books, field: string, value: string): (i: nat)
    ensures i <= |b.accounts|
  {
    if field == "phone" then PhoneIndex(b.accounts, value)
    else if field == "login" then LoginIndex(b.accounts, value)
    else if field == ORDER_ID_FIELD then
      var k := OrderTextIndex(b.orders, value);
      if k == |b.orders| then |b.accounts| else AccountIndex(b.accounts, b.orders[k].accountID)
    else |b.accounts|
  }

  /** The order whose identifier is written as the given text. */
  function OrderTextIndex(rows: seq<OrderRow>, text: string, from: nat := 0): (i: nat)
    requires from <= |rows|
    ensures from <= i <= |rows|
    ensures i < |rows| ==> Decimal.FormatInt(rows[i].id) == text
    ensures forall k :: from <= k < i ==> Decimal.FormatInt(rows[k].id) != text
    decreases |rows| - from
  {
    if from == |rows| || Decimal.FormatInt(rows[from].id) == text then from
    else OrderTextIndex(rows, text, from + 1)
  }

  function RegisterWalkIn(b: Books, value: string, amount: int): (Books, Result<OrderRow>) {
    if amount <= 0 then (b, Err(InvalidAmount))
    else
      var (accounts, nextAccount, payer) := Payer(b.accounts, b.nextAccount, value);
      var (orders, nextOrder, order) := Arrival(b.orders, b.nextOrder, payer, amount);
      (b.(accounts := accounts, nextAccount := nextAccount, orders := orders, nextOrder := nextOrder), Ok(order))
  }

  function NamedOrder(b: Books, st: Settings, field: string, value: string, accountID: int, amount: int)
    : (Books, Result<OrderRow>)
  {
    var id := Decimal.ParseInt(value);
    if id.None? then (b, Err(AccountNotFound(field)))
    else
      var k := OrderIndex(b.orders, id.value);
      if k == |b.orders| || b.orders[k].accountID != accountID then (b, Err(AccountNotFound(field)))
      else if b.orders[k].Payable() then (b, Ok(b.orders[k]))
      else if st.autoRegister then RegisterWalkIn(b, value, amount)
      else (b, Err(AccountNotFound(field)))
  }

  function ResolveOrder(b: Books, st: Settings, account: map<string, string>, amount: int): (Books, Result<OrderRow>) {
    var field := st.accountField;
    if field !in account || account[field] == "" then (b, Err(AccountNotFound(field)))
    else
      var value := account[field];
      var i := ByField(b, field, value);
      if i == |b.accounts| then
        if st.autoRegister then RegisterWalkIn(b, value, amount) else (b, Err(AccountNotFound(field)))
      else if field == ORDER_ID_FIELD then NamedOrder(b, st, field, value, b.accounts[i].id, amount)
      else
        var k := PayableIndex(b.orders, b.accounts[i].id);
        if k < |b.orders| then (b, Ok(b.orders[k]))
        else if st.autoRegister then RegisterWalkIn(b, value, amount)
        else (b, Err(AccountNotFound(field)))
  }

  // ---------- the methods ----------

  datatype CreateParams = CreateParams(id: string, time: int, amount: int, account: map<string, string>)

  datatype CreateResult = CreateResult(createTime: int, transaction: string, state: State)

  datatype PerformResult = PerformResult(transaction: string, performTime: int, state: State)

  datatype CancelResult = CancelResult(transaction: string, cancelTime: int, state: State)

  datatype CheckResult = CheckResult(
    createTime: int, performTime: int, cancelTime: int, transaction: string, state: State, reason: Option<int>)

  datatype StatementEntry = StatementEntry(
    id: string, time: int, amount: int, account: map<string, string>, createTime: int, performTime: int,
    cancelTime: int, transaction: string, state: State, reason: Option<int>)

  function Number(t: Tx): string { Decimal.FormatInt(t.id) }

  function CreateResultOf(t: Tx): CreateResult { CreateResult(t.createTime, Number(t), t.state) }

  function EntryOf(t: Tx): StatementEntry {
    StatementEntry(t.paymeID, t.paymeTime, t.amount, t.account, t.createTime, t.performTime, t.cancelTime,
                   Number(t), t.state, t.reason)
  }

  /** The answer to a transaction that is already stored. */
  function ReplayCreate(b: Books, i: nat): (Books, Result<CreateResult>)
    requires i < |b.txs|
  {
    var t := b.txs[i];
    var refused := if t.state.Created? then None else Some(CannotPerform);
    (b.Log(AuditEvent(t.id, CreateTransaction, Some(t.state), None, true, refused)),
     if t.state.Created? then Ok(CreateResultOf(t)) else Err(CannotPerform))
  }

  function CheckPerform(b: Books, st: Settings, account: map<string, string>, amount: int): (Books, Result<()>) {
    var (b1, order) := ResolveOrder(b, st, account, amount);
    if order.Err? then (b1, Err(order.error))
    else if amount != order.value.amount then (b1, Err(InvalidAmount))
    else if b1.Stopped() then (b1, Err(CannotPerform))
    else (b1, Ok(()))
  }

  /** Everything CreateTransaction decides before it inserts: the order the payment may be created for. */
  function Admit(b: Books, st: Settings, p: CreateParams): (Books, Result<OrderRow>) {
    var (b1, order) := ResolveOrder(b, st, p.account, p.amount);
    if order.Err? then (b1, order)
    else if p.amount != order.value.amount then (b1, Err(InvalidAmount))
    else if b1.Stopped() then (b1, Err(CannotPerform))
    else if ActiveIndex(b1.txs, order.value.id) < |b1.txs| then (b1, Err(CannotPerform))
    else (b1, order)
  }

  /** The two unique indexes on transactions: the Payme identifier, and one live transaction per order. */
  predicate Duplicate(b: Books, t: Tx) {
    TxIndex(b.txs, t.paymeID) < |b.txs| || ActiveIndex(b.txs, t.orderID) < |b.txs|
  }

  function NewTx(b: Books, order: OrderRow, p: CreateParams, now: int): Tx {
    Tx(b.nextTx, p.id, order.id, order.accountID, p.account, p.amount, Created, None, p.time, now, 0, 0)
  }

  /** The insert, which another delivery may have overtaken. */
  function Insert(b: Books, order: OrderRow, p: CreateParams, now: int): (Books, Result<CreateResult>) {
    var t := NewTx(b, order, p, now);
    if Duplicate(b, t) then
      var i := TxIndex(b.txs, p.id);
      if i == |b.txs| then (b, Err(NotFound)) else ReplayCreate(b, i)
    else
      var b1 := b.(txs := b.txs + [t], nextTx := b.nextTx + 1);
      if OrderIndex(b1.orders, order.id) == |b1.orders| then (b1, Err(NotFound))
      else
        (b1.MarkOrder(order.id, Processing)
           .Log(AuditEvent(t.id, CreateTransaction, None, Some(Created), false, None)),
         Ok(CreateResultOf(t)))
  }

  function Create(b: Books, st: Settings, p: CreateParams, now: int): (Books, Result<CreateResult>) {
    var i := TxIndex(b.txs, p.id);
    if i < |b.txs| then ReplayCreate(b, i)
    else
      var (b1, order) := Admit(b, st, p);
      if order.Err? then (b1, Err(order.error)) else Insert(b1, order.value, p, now)
  }

  /** The register's move for a performed payment, refused when Apply refuses. */
  function Settle(b: Books, kind: Kind, amount: int, transaction: Option<int>): Result<Books> {
    if b.accounts == [] then Err(NotFound)
    else if !kind.Valid() then Err(UnknownKind)
    else if !CanApply(b.accounts[0].balance, b.accounts[0].blocked, kind, amount) then Err(CannotPerform)
    else Ok(b.MoveRegister(b.accounts[0].balance + kind.Signed(amount), transaction))
  }

  /** What a cancellation after a performed payment puts back. */
  function Unsettle(b: Books, kind: Kind, amount: int): Result<Books> {
    if b.accounts == [] then Err(NotFound)
    else Ok(b.MoveRegister(b.accounts[0].balance - kind.Signed(amount), None))
  }

  function Perform(b: Books, st: Settings, id: string, now: int): (Books, Result<PerformResult>) {
    var i := TxIndex(b.txs, id);
    if i == |b.txs| then (b, Err(TransactionNotFound))
    else
      var t := b.txs[i];
      var (t', ok) := t.AfterPerform(now, st.timeoutMillis);
      var entry := AuditEvent(t.id, PerformTransaction, Some(t.state), Some(t'.state), false, None);
      if !ok then
        (if t'.state == t.state then b else b.SetTx(i, t').Log(entry.(error := Some(CannotPerform))),
         Err(CannotPerform))
      else
        var answer := PerformResult(Number(t'), t'.performTime, t'.state);
        if t.state.Performed? then (b.Log(entry.(replay := true)), Ok(answer))
        else
          match Settle(b, st.Kind(), t.amount, None)
          case Err(e) => (b.Log(entry.(to := None, error := Some(CannotPerform))), Err(e))
          case Ok(b1) => (b1.SetTx(i, t').MarkOrder(t.orderID, Paid).Log(entry), Ok(answer))
  }

  function Cancel(b: Books, st: Settings, id: string, reason: int, now: int): (Books, Result<CancelResult>) {
    var i := TxIndex(b.txs, id);
    if i == |b.txs| then (b, Err(TransactionNotFound))
    else
      var t := b.txs[i];
      var t' := t.AfterCancel(reason, now);
      var entry := AuditEvent(t.id, CancelTransaction, Some(t.state), Some(t'.state), t.state.IsFinal(), None);
      var answer := CancelResult(Number(t'), t'.cancelTime, t'.state);
      if t.state.IsFinal() then (b.Log(entry), Ok(answer))
      else
        match (if t.state.Performed? then Unsettle(b, st.Kind(), t.amount) else Ok(b))
        case Err(e) => (b, Err(e))
        case Ok(b1) => (b1.SetTx(i, t').MarkOrder(t.orderID, OrderStatus.Cancelled).Log(entry), Ok(answer))
  }

  /** What is reported of a transaction. */
  function Check(b: Books, id: string): Result<CheckResult> {
    var i := TxIndex(b.txs, id);
    if i == |b.txs| then Err(TransactionNotFound)
    else
      var t := b.txs[i];
      Ok(CheckResult(t.createTime, t.performTime, t.cancelTime, Number(t), t.state, t.reason))
  }

  /** The order of a statement: by creation time, then by the merchant's identifier. */
  predicate Before(t: Tx, u: Tx) { t.createTime < u.createTime || (t.createTime == u.createTime && t.id <= u.id) }

  function Placed(statement: seq<Tx>, t: Tx): seq<Tx> {
    if statement == [] || Before(statement[|statement| - 1], t) then statement + [t]
    else Placed(statement[..|statement| - 1], t) + [statement[|statement| - 1]]
  }

  /** The transactions created within [from, to], in statement order. */
  function Statement(txs: seq<Tx>, from: int, to: int): seq<Tx> {
    if txs == [] then []
    else
      var earlier, t := Statement(txs[..|txs| - 1], from, to), txs[|txs| - 1];
      if from <= t.createTime <= to then Placed(earlier, t) else earlier
  }

  function Entries(statement: seq<Tx>): seq<StatementEntry> {
    seq(|statement|, k requires 0 <= k < |statement| => EntryOf(statement[k]))
  }

  // ---------- runs ----------

  /**
    One delivery to the stand.  Late is the insert half of a CreateTransaction whose
    admission was decided in an earlier state; Block is the operator's switch.
   */
  datatype Call =
    | CheckCall(account: map<string, string>, amount: int)
    | CreateCall(p: CreateParams)
    | LateCall(order: OrderRow, p: CreateParams)
    | PerformCall(id: string)
    | CancelCall(id: string, reason: int)
    | BlockCall(blocked: bool)

  /** An order some earlier admission returned for these parameters. */
  predicate WasAdmitted(b: Books, order: OrderRow, p: CreateParams) {
    && 1 <= order.id < b.nextOrder && p.amount == order.amount && 0 < p.amount
    && OrderIndex(b.orders, order.id) < |b.orders|
  }

  function Step(b: Books, st: Settings, call: Call, now: int): Books {
    match call
    case CheckCall(account, amount) => CheckPerform(b, st, account, amount).0
    case CreateCall(p) => Create(b, st, p, now).0
    case LateCall(order, p) => if WasAdmitted(b, order, p) then Insert(b, order, p, now).0 else b
    case PerformCall(id) => Perform(b, st, id, now).0
    case CancelCall(id, reason) => Cancel(b, st, id, reason, now).0
    case BlockCall(blocked) =>
      if b.accounts == [] then b else b.(accounts := b.accounts[0 := b.accounts[0].(blocked := blocked)])
  }

  datatype Delivery = Delivery(call: Call, now: int)

  function Run(b: Books, st: Settings, deliveries: seq<Delivery>): Books {
    if deliveries == [] then b
    else
      var last := deliveries[|deliveries| - 1];
      Step(Run(b, st, deliveries[..|deliveries| - 1]), st, last.call, last.now)
  }
}
