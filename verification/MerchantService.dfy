/**
  The Merchant API service over its tables, as it runs: every method loads, changes and
  stores objects step by step, and is proved to do what MerchantModel says it does.
 */
module MerchantService {
  import opened Common
  import opened Billing
  import opened MerchantModel
  import opened MerchantProofs
  import Decimal

  /** The aggregate, as the service holds it between a load and a store. */
  class Transaction {
    var id: int
    const paymeID: string
    const orderID: int
    const accountID: int
    const account: map<string, string>
    const amount: int
    var state: State
    var reason: Option<int>
    const paymeTime: int
    const createTime: int
    var performTime: int
    var cancelTime: int

    function Row(): Tx
      reads this
    {
      Tx(id, paymeID, orderID, accountID, account, amount, state, reason, paymeTime, createTime, performTime, cancelTime)
    }

    constructor FromRow(row: Tx)
      ensures Row() == row
    {
      id, paymeID, orderID, accountID := row.id, row.paymeID, row.orderID, row.accountID;
      account, amount, state, reason := row.account, row.amount, row.state, row.reason;
      paymeTime, createTime := row.paymeTime, row.createTime;
      performTime, cancelTime := row.performTime, row.cancelTime;
    }

    method Perform(now: int, timeout: int) returns (ok: bool)
      modifies this`state, this`reason, this`performTime, this`cancelTime
      ensures (Row(), ok) == old(Row()).AfterPerform(now, timeout)
    {
      match state {
        case Performed => return true;
        case Created =>
          if now - createTime > timeout {
            End(REASON_TIMEOUT, now);
            return false;
          }
          state := Performed;
          performTime := now;
          return true;
        case _ => return false;
      }
    }

    method Cancel(why: int, now: int)
      modifies this`state, this`reason, this`cancelTime
      ensures Row() == old(Row()).AfterCancel(why, now)
    {
      if state.IsFinal() {
        return;
      }
      End(why, now);
    }

    method End(why: int, now: int)
      modifies this`state, this`reason, this`cancelTime
      ensures Row() == old(Row()).Ended(why, now)
    {
      if state.Performed? {
        state := CancelledAfterDo;
      } else {
        state := State.Cancelled;
      }
      reason := Some(why);
      cancelTime := now;
    }
  }

  /** The table of transactions, with its unique indexes. */
  class TransactionRepository {
    var rows: seq<Tx>
    var nextID: int

    method ByPaymeID(paymeID: string) returns (t: Transaction?)
      ensures t == null <==> TxIndex(rows, paymeID) == |rows|
      ensures t != null ==> fresh(t) && t.Row() == rows[TxIndex(rows, paymeID)]
    {
      var i := TxIndex(rows, paymeID);
      if i == |rows| {
        return null;
      }
      t := new Transaction.FromRow(rows[i]);
    }

    method ActiveByOrder(orderID: int) returns (found: bool)
      ensures found <==> ActiveIndex(rows, orderID) < |rows|
    {
      found := ActiveIndex(rows, orderID) < |rows|;
    }

    /** Stores a new transaction and numbers it, unless a unique index refuses the row. */
    method Create(t: Transaction) returns (stored: bool)
      modifies this, t`id
      ensures stored <==>
        TxIndex(old(rows), t.paymeID) == |old(rows)| && ActiveIndex(old(rows), t.orderID) == |old(rows)|
      ensures if stored then
          && t.Row() == old(t.Row()).(id := old(nextID))
          && rows == old(rows) + [t.Row()] && nextID == old(nextID) + 1
        else t.Row() == old(t.Row()) && rows == old(rows) && nextID == old(nextID)
    {
      if TxIndex(rows, t.paymeID) < |rows| || ActiveIndex(rows, t.orderID) < |rows| {
        return false;
      }
      t.id := nextID;
      rows := rows + [t.Row()];
      nextID := nextID + 1;
      return true;
    }

    /** Persists a state change; a row's identity and amount are never rewritten. */
    method Update(t: Transaction) returns (stored: bool)
      modifies this`rows
      ensures var i := IdIndex(old(rows), t.id);
        if i == |old(rows)| then !stored && rows == old(rows)
        else
          && stored
          && rows == old(rows)[i := old(rows)[i].(state := t.state, reason := t.reason,
                                                  performTime := t.performTime, cancelTime := t.cancelTime)]
    {
      var i := IdIndex(rows, t.id);
      if i == |rows| {
        return false;
      }
      rows := rows[i := rows[i].(state := t.state, reason := t.reason,
                                 performTime := t.performTime, cancelTime := t.cancelTime)];
      return true;
    }
  }

  function IdIndex(rows: seq<Tx>, id: int, from: nat := 0): (i: nat)
    requires from <= |rows|
    ensures from <= i <= |rows|
    ensures i < |rows| ==> rows[i].id == id
    ensures forall k :: from <= k < i ==> rows[k].id != id
    decreases |rows| - from
  {
    if from == |rows| || rows[from].id == id then from else IdIndex(rows, id, from + 1)
  }

  /** Identifiers are unique, which the table's primary key sees to. */
  predicate PrimaryKey(rows: seq<Tx>) { forall i, j :: 0 <= i < j < |rows| ==> rows[i].id != rows[j].id }

  /** The orders of one account, oldest first. */
  function OfAccount(rows: seq<OrderRow>, accountID: int, from: nat := 0): seq<OrderRow>
    requires from <= |rows|
    decreases |rows| - from
  {
    if from == |rows| then []
    else if rows[from].accountID == accountID then [rows[from]] + OfAccount(rows, accountID, from + 1)
    else OfAccount(rows, accountID, from + 1)
  }

  /** Walking one account's orders finds the same order as searching the whole table. */
  lemma {:induction false} FirstPayable(rows: seq<OrderRow>, accountID: int, from: nat, i: nat)
    requires from <= |rows|
    requires var own := OfAccount(rows, accountID, from);
      && i <= |own| && (forall k :: 0 <= k < i ==> !own[k].Payable()) && (i < |own| ==> own[i].Payable())
    ensures var own := OfAccount(rows, accountID, from); var k := PayableIndex(rows, accountID, from);
      if i == |own| then k == |rows| else k < |rows| && rows[k] == own[i]
    decreases |rows| - from
  {
    if from < |rows| {
      if rows[from].accountID != accountID {
        FirstPayable(rows, accountID, from + 1, i);
      } else if !rows[from].Payable() {
        var rest := OfAccount(rows, accountID, from + 1);
        assert OfAccount(rows, accountID, from) == [rows[from]] + rest;
        assert OfAccount(rows, accountID, from)[0] == rows[from];
        assert i > 0;
        assert forall k :: 0 <= k < i - 1 ==> rest[k] == OfAccount(rows, accountID, from)[k + 1];
        FirstPayable(rows, accountID, from + 1, i - 1);
      } else {
        assert OfAccount(rows, accountID, from)[0] == rows[from];
        assert i == 0;
      }
    }
  }

  /** The audit trail. */
  class EventRecorder {
    var trail: seq<AuditEvent>

    method Record(e: AuditEvent)
      modifies this
      ensures trail == old(trail) + [e]
    {
      trail := trail + [e];
    }
  }

  class Service {
    const transactions: TransactionRepository
    const events: EventRecorder
    const accounts: AccountRepository
    const orders: OrderRepository
    const walkIns: WalkInRepository
    const settings: Settings

    constructor (transactions: TransactionRepository, events: EventRecorder, accounts: AccountRepository,
                 orders: OrderRepository, walkIns: WalkInRepository, settings: Settings)
      requires walkIns.accounts == accounts && walkIns.orders == orders
      ensures this.transactions == transactions && this.events == events && this.accounts == accounts
      ensures this.orders == orders && this.walkIns == walkIns && this.settings == settings
    {
      this.transactions, this.events, this.accounts := transactions, events, accounts;
      this.orders, this.walkIns, this.settings := orders, walkIns, settings;
    }

    function Repr(): set<object> { {transactions, events, accounts, orders} }

    /** The tables behind the service, as one value. */
    function Tables(): Books
      reads transactions, events, accounts, orders
    {
      Books(transactions.rows, transactions.nextID, accounts.rows, accounts.nextID, accounts.moves,
            orders.rows, orders.nextID, events.trail)
    }

    /** Walk-ins are registered in the service's own tables. */
    predicate Wired() { walkIns.accounts == accounts && walkIns.orders == orders }

    method CheckPerformTransaction(account: map<string, string>, amount: int) returns (r: Result<()>)
      requires Wired()
      modifies Repr()
      ensures (Tables(), r) == CheckPerform(old(Tables()), settings, account, amount)
    {
      var order, refusal := ResolveOrder(account, amount);
      if order == null {
        return Err(refusal);
      }
      if amount != order.amount {
        return Err(InvalidAmount);
      }
      r := RegisterUsable();
    }

    method CreateTransaction(p: CreateParams, now: int) returns (r: Result<CreateResult>)
      requires Wired()
      modifies Repr()
      ensures (Tables(), r) == Create(old(Tables()), settings, p, now)
    {
      hide Insert, MerchantModel.ResolveOrder;
      var existing := transactions.ByPaymeID(p.id);
      if existing != null {
        if existing.state != Created {
          events.Record(AuditEvent(existing.id, Method.CreateTransaction, Some(existing.state), None, true, Some(CannotPerform)));
          return Err(CannotPerform);
        }
        events.Record(AuditEvent(existing.id, Method.CreateTransaction, Some(existing.state), None, true, None));
        return Ok(CreateResultOf(existing.Row()));
      }

      var order, refusal := ResolveOrder(p.account, p.amount);
      if order == null {
        return Err(refusal);
      }
      if p.amount != order.amount {
        return Err(InvalidAmount);
      }
      var usable := RegisterUsable();
      if usable.Err? {
        return Err(usable.error);
      }
      var active := transactions.ActiveByOrder(order.id);
      if active {
        return Err(CannotPerform);
      }
      r := Store(order, p, now);
    }

    /** The insert half of a create, from any state in which its order was once admitted. */
    method Store(order: Order, p: CreateParams, now: int) returns (r: Result<CreateResult>)
      modifies Repr(), order`status
      ensures (Tables(), r) == Insert(old(Tables()), old(order.Row()), p, now)
    {
      var tx := new Transaction.FromRow(
        Tx(0, p.id, order.id, order.accountID, p.account, p.amount, Created, None, p.time, now, 0, 0));
      var stored := transactions.Create(tx);
      if !stored {
        r := Replay(p.id);
        return;
      }
      order.MarkProcessing();
      var updated := orders.Update(order);
      if !updated {
        return Err(NotFound);
      }
      events.Record(AuditEvent(tx.id, Method.CreateTransaction, None, Some(Created), false, None));
      return Ok(CreateResultOf(tx.Row()));
    }

    /** The stored answer to a transaction another delivery created first. */
    method Replay(paymeID: string) returns (r: Result<CreateResult>)
      modifies events
      ensures var i := TxIndex(transactions.rows, paymeID);
        (Tables(), r) ==
          if i == |transactions.rows| then (old(Tables()), Err(NotFound)) else ReplayCreate(old(Tables()), i)
    {
      var existing := transactions.ByPaymeID(paymeID);
      if existing == null {
        return Err(NotFound);
      }
      if existing.state != Created {
        events.Record(AuditEvent(existing.id, Method.CreateTransaction, Some(existing.state), None, true, Some(CannotPerform)));
        return Err(CannotPerform);
      }
      events.Record(AuditEvent(existing.id, Method.CreateTransaction, Some(existing.state), None, true, None));
      return Ok(CreateResultOf(existing.Row()));
    }

    method PerformTransaction(id: string, now: int) returns (r: Result<PerformResult>)
      requires PrimaryKey(transactions.rows)
      modifies Repr()
      ensures (Tables(), r) == Perform(old(Tables()), settings, id, now)
    {
      var tx := transactions.ByPaymeID(id);
      if tx == null {
        return Err(TransactionNotFound);
      }
      assert IdIndex(transactions.rows, tx.id) == TxIndex(transactions.rows, id);
      var before := tx.state;
      var replay := before == Performed;
      var ok := tx.Perform(now, settings.timeoutMillis);
      if !ok {
        if tx.state != before {
          var updated := transactions.Update(tx);
          if !updated {
            return Err(NotFound);
          }
          events.Record(AuditEvent(tx.id, Method.PerformTransaction, Some(before), Some(tx.state), false, Some(CannotPerform)));
        }
        return Err(CannotPerform);
      }
      if !replay {
        var settled := Settle(tx.amount);
        if settled.Err? {
          events.Record(AuditEvent(tx.id, Method.PerformTransaction, Some(before), None, false, Some(CannotPerform)));
          return Err(settled.error);
        }
        var updated := transactions.Update(tx);
        if !updated {
          return Err(NotFound);
        }
        MarkOrderPaid(tx.orderID);
      }
      events.Record(AuditEvent(tx.id, Method.PerformTransaction, Some(before), Some(tx.state), replay, None));
      return Ok(PerformResult(Number(tx.Row()), tx.performTime, tx.state));
    }

    method CancelTransaction(id: string, reason: int, now: int) returns (r: Result<CancelResult>)
      requires PrimaryKey(transactions.rows)
      modifies Repr()
      ensures (Tables(), r) == Cancel(old(Tables()), settings, id, reason, now)
    {
      var tx := transactions.ByPaymeID(id);
      if tx == null {
        return Err(TransactionNotFound);
      }
      assert IdIndex(transactions.rows, tx.id) == TxIndex(transactions.rows, id);
      var before := tx.state;
      var replay := before.IsFinal();
      tx.Cancel(reason, now);
      if !replay {
        if before == Performed {
          var unsettled := Unsettle(tx.amount);
          if unsettled.Err? {
            return Err(unsettled.error);
          }
        }
        var updated := transactions.Update(tx);
        if !updated {
          return Err(NotFound);
        }
        ReleaseOrder(tx.orderID);
      }
      events.Record(AuditEvent(tx.id, Method.CancelTransaction, Some(before), Some(tx.state), replay, None));
      return Ok(CancelResult(Number(tx.Row()), tx.cancelTime, tx.state));
    }

    method CheckTransaction(id: string) returns (r: Result<CheckResult>)
      ensures var i := TxIndex(transactions.rows, id);
        r == if i == |transactions.rows| then Err(TransactionNotFound)
             else var t := transactions.rows[i];
               Ok(CheckResult(t.createTime, t.performTime, t.cancelTime, Number(t), t.state, t.reason))
      ensures r == Check(Tables(), id)
    {
      var tx := transactions.ByPaymeID(id);
      if tx == null {
        return Err(TransactionNotFound);
      }
      return Ok(CheckResult(tx.createTime, tx.performTime, tx.cancelTime, Number(tx.Row()), tx.state, tx.reason));
    }

    method GetStatement(from: int, to: int) returns (entries: seq<StatementEntry>)
      ensures entries == Entries(Statement(transactions.rows, from, to))
    {
      var found := Statement(transactions.rows, from, to);
      entries := [];
      for i := 0 to |found|
        invariant entries == Entries(found[..i])
      {
        entries := entries + [EntryOf(found[i])];
      }
      assert found[..|found|] == found;
    }

    /** The order the account object names, or null and the refusal. */
    method ResolveOrder(account: map<string, string>, amount: int) returns (order: Order?, refusal: Error)
      requires Wired()
      modifies accounts`rows, accounts`nextID, orders`rows, orders`nextID
      ensures var (tables, r) := MerchantModel.ResolveOrder(old(Tables()), settings, account, amount);
        && Tables() == tables
        && (r.Ok? <==> order != null)
        && (order != null ==> fresh(order) && order.Row() == r.value)
        && (order == null ==> r == Err(refusal))
    {
      var field := settings.accountField;
      order, refusal := null, AccountNotFound(field);
      if field !in account || account[field] == "" {
        return;
      }
      var value := account[field];
      var i := ByField(Tables(), field, value);
      if i == |accounts.rows| {
        if settings.autoRegister {
          order, refusal := RegisterWalkIn(value, amount);
        }
        return;
      }
      var payer := accounts.rows[i].id;
      if field == ORDER_ID_FIELD {
        order, refusal := NamedOrder(field, value, payer, amount);
        return;
      }
      var own := OfAccount(orders.rows, payer);
      var k := 0;
      while k < |own|
        invariant k <= |own| && order == null
        invariant forall l :: 0 <= l < k ==> !own[l].Payable()
      {
        if own[k].Payable() {
          FirstPayable(orders.rows, payer, 0, k);
          order := new Order.FromRow(own[k]);
          return;
        }
        k := k + 1;
      }
      FirstPayable(orders.rows, payer, 0, k);
      if settings.autoRegister {
        order, refusal := RegisterWalkIn(value, amount);
      }
    }

    method NamedOrder(field: string, value: string, accountID: int, amount: int) returns (order: Order?, refusal: Error)
      requires Wired()
      modifies accounts`rows, accounts`nextID, orders`rows, orders`nextID
      ensures var (tables, r) := MerchantModel.NamedOrder(old(Tables()), settings, field, value, accountID, amount);
        && Tables() == tables
        && (r.Ok? <==> order != null)
        && (order != null ==> fresh(order) && order.Row() == r.value)
        && (order == null ==> refusal == r.error)
    {
      refusal := AccountNotFound(field);
      var id := Decimal.ParseInt(value);
      if id.None? {
        return null, refusal;
      }
      order := orders.ByID(id.value);
      if order == null {
        return;
      }
      if order.accountID != accountID {
        return null, refusal;
      }
      if order.status != New && order.status != Processing {
        if settings.autoRegister {
          order, refusal := RegisterWalkIn(value, amount);
          return;
        }
        return null, refusal;
      }
    }

    method RegisterWalkIn(value: string, amount: int) returns (order: Order?, refusal: Error)
      requires Wired()
      modifies accounts`rows, accounts`nextID, orders`rows, orders`nextID
      ensures var (tables, r) := MerchantModel.RegisterWalkIn(old(Tables()), value, amount);
        && Tables() == tables
        && (r.Ok? <==> order != null)
        && (order != null ==> fresh(order) && order.Row() == r.value)
        && (order == null ==> refusal == r.error)
    {
      refusal := InvalidAmount;
      if amount <= 0 {
        return null, refusal;
      }
      order := walkIns.Register(value, amount);
    }

    /** Moves the register's balance for a performed payment. */
    method Settle(amount: int) returns (r: Result<()>)
      modifies accounts`rows, accounts`moves
      ensures match MerchantModel.Settle(old(Tables()), settings.Kind(), amount, None)
        case Ok(tables) => r == Ok(()) && Tables() == tables
        case Err(e) => r == Err(e) && Tables() == old(Tables())
    {
      var account := accounts.Register();
      if account == null {
        return Err(NotFound);
      }
      r := account.Apply(settings.Kind(), amount);
      if r.Ok? {
        r := accounts.UpdateBalance(account.id, account.balance);
      }
    }

    /** Puts back what Settle moved. */
    method Unsettle(amount: int) returns (r: Result<()>)
      modifies accounts`rows, accounts`moves
      ensures match MerchantModel.Unsettle(old(Tables()), settings.Kind(), amount)
        case Ok(tables) => r == Ok(()) && Tables() == tables
        case Err(e) => r == Err(e) && Tables() == old(Tables())
    {
      var account := accounts.Register();
      if account == null {
        return Err(NotFound);
      }
      account.Reverse(settings.Kind(), amount);
      r := accounts.UpdateBalance(account.id, account.balance);
    }

    method RegisterUsable() returns (r: Result<()>)
      ensures r == if Tables().Stopped() then Err(CannotPerform) else Ok(())
    {
      var account := accounts.Register();
      if account == null {
        return Ok(());
      }
      r := account.Usable();
    }

    /** A transaction without an order is nothing to update. */
    method MarkOrderPaid(orderID: int)
      modifies orders`rows
      ensures Tables() == old(Tables()).MarkOrder(orderID, Paid)
    {
      var order := orders.ByID(orderID);
      if order == null {
        return;
      }
      order.MarkPaid();
      var _ := orders.Update(order);
    }

    method ReleaseOrder(orderID: int)
      modifies orders`rows
      ensures Tables() == old(Tables()).MarkOrder(orderID, OrderStatus.Cancelled)
    {
      var order := orders.ByID(orderID);
      if order == null {
        return;
      }
      order.MarkCancelled();
      var _ := orders.Update(order);
    }
  }
}
