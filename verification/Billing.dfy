/**
  The merchant's own billing: what a register kind does to a balance, the accounts and
  orders tables, and the history of balance moves
  (internal/context/payment/billing, and ChangeBalance of cmd/console/views.go).
 */
module Billing {
  import opened Common

  /** The direction a cash register moves money in; Unknown is any other configured text. */
  datatype Kind = Topup | Dividend | Deposit | Unknown(name: string) {
    predicate Valid() { !Unknown? }

    predicate Inbound() { Topup? }

    /** What a performed payment of the given amount does to the balance. */
    function Signed(amount: int): int { if Inbound() then amount else -amount }
  }

  datatype AccountRow =
    AccountRow(id: int, phone: string, login: string, name: string, balance: int, blocked: bool)

  datatype OrderStatus = New | Processing | Paid | Cancelled

  datatype OrderRow =
    OrderRow(id: int, accountID: int, amount: int, status: OrderStatus, description: string)
  {
    predicate Payable() { status == New || status == Processing }
  }

  datatype Source = Console | Payment

  datatype BalanceEvent = BalanceEvent(
    accountID: int, source: Source, delta: int, before: int, after: int, transaction: Option<int>)

  /** True when Apply would move the balance rather than refuse. */
  predicate CanApply(balance: int, blocked: bool, kind: Kind, amount: int) {
    kind.Valid() && !blocked && (kind.Inbound() || amount <= balance)
  }

  // ---------- lookups; each names the first row that qualifies, or the table's length ----------

  function AccountIndex(rows: seq<AccountRow>, id: int, from: nat := 0): (i: nat)
    requires from <= |rows|
    ensures from <= i <= |rows|
    ensures i < |rows| ==> rows[i].id == id
    ensures forall k :: from <= k < i ==> rows[k].id != id
    decreases |rows| - from
  {
    if from == |rows| || rows[from].id == id then from else AccountIndex(rows, id, from + 1)
  }

  function PhoneIndex(rows: seq<AccountRow>, phone: string, from: nat := 0): (i: nat)
    requires from <= |rows|
    ensures from <= i <= |rows|
    ensures i < |rows| ==> rows[i].phone == phone
    ensures forall k :: from <= k < i ==> rows[k].phone != phone
    decreases |rows| - from
  {
    if from == |rows| || rows[from].phone == phone then from else PhoneIndex(rows, phone, from + 1)
  }

  function LoginIndex(rows: seq<AccountRow>, login: string, from: nat := 0): (i: nat)
    requires from <= |rows|
    ensures from <= i <= |rows|
    ensures i < |rows| ==> rows[i].login == login
    ensures forall k :: from <= k < i ==> rows[k].login != login
    decreases |rows| - from
  {
    if from == |rows| || rows[from].login == login then from else LoginIndex(rows, login, from + 1)
  }

  function OrderIndex(rows: seq<OrderRow>, id: int, from: nat := 0): (i: nat)
    requires from <= |rows|
    ensures from <= i <= |rows|
    ensures i < |rows| ==> rows[i].id == id
    ensures forall k :: from <= k < i ==> rows[k].id != id
    decreases |rows| - from
  {
    if from == |rows| || rows[from].id == id then from else OrderIndex(rows, id, from + 1)
  }

  /** The oldest order of the account that can still be paid. */
  function PayableIndex(rows: seq<OrderRow>, accountID: int, from: nat := 0): (i: nat)
    requires from <= |rows|
    ensures from <= i <= |rows|
    ensures i < |rows| ==> rows[i].accountID == accountID && rows[i].Payable()
    ensures forall k :: from <= k < i ==> !(rows[k].accountID == accountID && rows[k].Payable())
    decreases |rows| - from
  {
    if from == |rows| || (rows[from].accountID == accountID && rows[from].Payable()) then from
    else PayableIndex(rows, accountID, from + 1)
  }

  /** The oldest payable order of the account for exactly this amount. */
  function ReusableIndex(rows: seq<OrderRow>, accountID: int, amount: int, from: nat := 0): (i: nat)
    requires from <= |rows|
    ensures from <= i <= |rows|
    ensures i < |rows| ==> rows[i].accountID == accountID && rows[i].amount == amount && rows[i].Payable()
    ensures forall k :: from <= k < i ==>
      !(rows[k].accountID == accountID && rows[k].amount == amount && rows[k].Payable())
    decreases |rows| - from
  {
    if from == |rows| || (rows[from].accountID == accountID && rows[from].amount == amount && rows[from].Payable())
    then from
    else ReusableIndex(rows, accountID, amount, from + 1)
  }

  // ---------- the aggregates ----------

  /** A payer, as the service holds it between a load and a store. */
  class Account {
    const id: int
    const phone: string
    const login: string
    const name: string
    var balance: int
    var blocked: bool

    function Row(): AccountRow reads this { AccountRow(id, phone, login, name, balance, blocked) }

    constructor FromRow(row: AccountRow)
      ensures Row() == row
    {
      id, phone, login, name := row.id, row.phone, row.login, row.name;
      balance, blocked := row.balance, row.blocked;
    }

    /** A blocked payer moves no money in either direction, and no payout goes below zero. */
    method Apply(kind: Kind, amount: int) returns (r: Result<()>)
      modifies this`balance
      ensures r.Ok? <==> CanApply(old(balance), blocked, kind, amount)
      ensures balance == if r.Ok? then old(balance) + kind.Signed(amount) else old(balance)
      ensures r.Err? ==> r.error == if kind.Valid() then CannotPerform else UnknownKind
    {
      if !kind.Valid() {
        return Err(UnknownKind);
      }
      var usable := Usable();
      if usable.Err? {
        return usable;
      }
      if kind.Inbound() {
        balance := balance + amount;
        return Ok(());
      }
      if balance < amount {
        return Err(CannotPerform);
      }
      balance := balance - amount;
      return Ok(());
    }

    method Usable() returns (r: Result<()>)
      ensures r == if blocked then Err(CannotPerform) else Ok(())
    {
      if blocked {
        return Err(CannotPerform);
      }
      return Ok(());
    }

    /** A reversal is never refused. */
    method Reverse(kind: Kind, amount: int)
      modifies this`balance
      ensures balance == old(balance) - kind.Signed(amount)
    {
      if kind.Inbound() {
        balance := balance - amount;
        return;
      }
      balance := balance + amount;
    }
  }

  /** What a payment settles, as the service holds it between a load and a store. */
  class Order {
    const id: int
    const accountID: int
    const amount: int
    var status: OrderStatus
    const description: string

    function Row(): OrderRow reads this { OrderRow(id, accountID, amount, status, description) }

    constructor FromRow(row: OrderRow)
      ensures Row() == row
    {
      id, accountID, amount, description := row.id, row.accountID, row.amount, row.description;
      status := row.status;
    }

    method MarkPaid()
      modifies this`status
      ensures Row() == old(Row()).(status := Paid)
    {
      status := Paid;
    }

    method MarkProcessing()
      modifies this`status
      ensures Row() == old(Row()).(status := Processing)
    {
      status := Processing;
    }

    method MarkCancelled()
      modifies this`status
      ensures Row() == old(Row()).(status := Cancelled)
    {
      status := Cancelled;
    }
  }

  // ---------- the tables ----------

  /** The table of orders, oldest first. */
  class OrderRepository {
    var rows: seq<OrderRow>
    var nextID: int

    method ByID(id: int) returns (o: Order?)
      ensures o == null <==> OrderIndex(rows, id) == |rows|
      ensures o != null ==> fresh(o) && o.Row() == rows[OrderIndex(rows, id)]
    {
      var i := OrderIndex(rows, id);
      if i == |rows| {
        return null;
      }
      o := new Order.FromRow(rows[i]);
    }

    /** Stores the order's status; the other columns are never rewritten. */
    method Update(o: Order) returns (stored: bool)
      modifies this`rows
      ensures var i := OrderIndex(old(rows), o.id);
        if i == |old(rows)| then !stored && rows == old(rows)
        else stored && rows == old(rows)[i := old(rows)[i].(status := o.status)]
    {
      var i := OrderIndex(rows, o.id);
      if i == |rows| {
        return false;
      }
      rows := rows[i := rows[i].(status := o.status)];
      return true;
    }
  }

  /** The table of accounts in identifier order, with the history of its balance moves. */
  class AccountRepository {
    var rows: seq<AccountRow>
    var nextID: int
    var moves: seq<BalanceEvent>

    /** The stand's own payer: the oldest account. */
    method Register() returns (a: Account?)
      ensures a == null <==> rows == []
      ensures a != null ==> fresh(a) && a.Row() == rows[0]
    {
      if rows == [] {
        return null;
      }
      a := new Account.FromRow(rows[0]);
    }

    /** Stores a moved balance and the history row that explains it, as one statement. */
    method UpdateBalance(id: int, balance: int) returns (r: Result<()>)
      modifies this`rows, this`moves
      ensures var i := AccountIndex(old(rows), id);
        if i == |old(rows)| then r == Err(NotFound) && rows == old(rows) && moves == old(moves)
        else
          && r == Ok(())
          && rows == old(rows)[i := old(rows)[i].(balance := balance)]
          && moves == old(moves) + [Move(old(rows)[i], Payment, balance, None)]
    {
      var i := AccountIndex(rows, id);
      if i == |rows| {
        return Err(NotFound);
      }
      moves := moves + [Move(rows[i], Payment, balance, None)];
      rows := rows[i := rows[i].(balance := balance)];
      return Ok(());
    }

    /**
      The console's balance edit: the statement that moves the balance and writes its
      event, then, when the figure came out negative, a second one that adds the amount
      back and deletes the account's latest event.
     */
    method ChangeBalance(id: int, op: Operation, amount: int) returns (r: ChangeResult)
      modifies this`rows, this`moves
      ensures (rows, moves, r) == Changed(old(rows), old(moves), id, op, amount)
    {
      if op.Other? {
        return UnknownOperation;
      }
      var i := AccountIndex(rows, id);
      if i == |rows| {
        return NoAccount;
      }
      var balance := if op == Add then rows[i].balance + amount else rows[i].balance - amount;
      moves := moves + [Move(rows[i], Console, balance, None)];
      rows := rows[i := rows[i].(balance := balance)];
      if balance < 0 {
        var restored := AccountIndex(rows, id);
        assert restored == i by {
          assert rows[i].id == id;
        }
        rows := rows[restored := rows[restored].(balance := rows[restored].balance + amount)];
        moves := WithoutLatest(moves, id);
        assert rows == old(rows)[i := old(rows)[i].(balance := balance + amount)];
        return NegativeBalance;
      }
      return Balance(balance);
    }
  }

  /** Registers payers the merchant has never seen, over the same two tables. */
  class WalkInRepository {
    const accounts: AccountRepository
    const orders: OrderRepository

    constructor (accounts: AccountRepository, orders: OrderRepository)
      ensures this.accounts == accounts && this.orders == orders
    {
      this.accounts, this.orders := accounts, orders;
    }

    /**
      The order identified by the value for the amount: the payer is inserted unless the
      login is taken, and the oldest payable order for that amount is reused.
     */
    method Register(value: string, amount: int) returns (o: Order)
      modifies accounts`rows, accounts`nextID, orders`rows, orders`nextID
      ensures var payer := Payer(old(accounts.rows), old(accounts.nextID), value);
        && accounts.rows == payer.0
        && accounts.nextID == payer.1
        && orders.rows == Arrival(old(orders.rows), old(orders.nextID), payer.2, amount).0
        && orders.nextID == Arrival(old(orders.rows), old(orders.nextID), payer.2, amount).1
        && fresh(o)
        && o.Row() == Arrival(old(orders.rows), old(orders.nextID), payer.2, amount).2
    {
      var payer := Payer(accounts.rows, accounts.nextID, value);
      accounts.rows, accounts.nextID := payer.0, payer.1;
      var i := ReusableIndex(orders.rows, payer.2, amount);
      if i == |orders.rows| {
        orders.rows := orders.rows + [OrderRow(orders.nextID, payer.2, amount, New, "registered on arrival")];
        orders.nextID := orders.nextID + 1;
      }
      o := new Order.FromRow(orders.rows[i]);
    }
  }

  /** The upsert of a walk-in payer: the table, its next identifier, and the payer's. */
  function Payer(rows: seq<AccountRow>, nextID: int, value: string): (seq<AccountRow>, int, int) {
    var i := LoginIndex(rows, value);
    if i < |rows| then (rows, nextID, rows[i].id)
    else (rows + [AccountRow(nextID, "", value, value, 0, false)], nextID + 1, nextID)
  }

  /** The payer's order on arrival: the table, its next identifier, and the order. */
  function Arrival(rows: seq<OrderRow>, nextID: int, accountID: int, amount: int): (seq<OrderRow>, int, OrderRow) {
    var i := ReusableIndex(rows, accountID, amount);
    var arrived := OrderRow(nextID, accountID, amount, New, "registered on arrival");
    if i < |rows| then (rows, nextID, rows[i]) else (rows + [arrived], nextID + 1, arrived)
  }

  /** The history row of one balance change. */
  function Move(row: AccountRow, source: Source, balance: int, transaction: Option<int>): BalanceEvent {
    BalanceEvent(row.id, source, balance - row.balance, row.balance, balance, transaction)
  }

  // ---------- the console's balance edit ----------

  datatype Operation = Add | Subtract | Other(name: string)

  datatype ChangeResult = Balance(figure: int) | NegativeBalance | NoAccount | UnknownOperation

  /** The history without the account's latest event. */
  function WithoutLatest(moves: seq<BalanceEvent>, accountID: int): seq<BalanceEvent> {
    if moves == [] then []
    else
      var n := |moves| - 1;
      if moves[n].accountID == accountID then moves[..n]
      else WithoutLatest(moves[..n], accountID) + [moves[n]]
  }

  /** The edit as a function: the statement, and the undo that follows a negative figure. */
  function Changed(rows: seq<AccountRow>, moves: seq<BalanceEvent>, id: int, op: Operation, amount: int)
    : (seq<AccountRow>, seq<BalanceEvent>, ChangeResult)
  {
    var i := AccountIndex(rows, id);
    if op.Other? then (rows, moves, UnknownOperation)
    else if i == |rows| then (rows, moves, NoAccount)
    else
      var balance := rows[i].balance + (if op == Add then amount else -amount);
      var written := moves + [Move(rows[i], Console, balance, None)];
      if 0 <= balance then (rows[i := rows[i].(balance := balance)], written, Balance(balance))
      else
        (rows[i := rows[i].(balance := balance + amount)], WithoutLatest(written, id), NegativeBalance)
  }

  // ---------- the chain of balance events ----------

  function HistoryOf(moves: seq<BalanceEvent>, accountID: int): seq<BalanceEvent> {
    if moves == [] then []
    else
      var n := |moves| - 1;
      HistoryOf(moves[..n], accountID) + (if moves[n].accountID == accountID then [moves[n]] else [])
  }

  /** Each event starts where the previous one ended, its delta is the difference, and the last ends at current. */
  predicate Chain(history: seq<BalanceEvent>, opening: int, current: int) {
    if history == [] then opening == current
    else
      var last := history[|history| - 1];
      && last.after == current
      && last.delta == last.after - last.before
      && Chain(history[..|history| - 1], opening, last.before)
  }

  /** The events of every account explain its balance from the opening figure. */
  ghost predicate Explained(rows: seq<AccountRow>, moves: seq<BalanceEvent>, openings: map<int, int>) {
    && (forall i, j :: 0 <= i < j < |rows| ==> rows[i].id != rows[j].id)
    && (forall i :: 0 <= i < |rows| ==>
         && rows[i].id in openings
         && Chain(HistoryOf(moves, rows[i].id), openings[rows[i].id], rows[i].balance))
  }

  lemma HistoryAppend(moves: seq<BalanceEvent>, e: BalanceEvent, accountID: int)
    ensures HistoryOf(moves + [e], accountID) ==
            if e.accountID == accountID then HistoryOf(moves, accountID) + [e] else HistoryOf(moves, accountID)
  {
    assert (moves + [e])[..|moves|] == moves;
  }

  lemma ChainExtend(history: seq<BalanceEvent>, opening: int, e: BalanceEvent)
    requires Chain(history, opening, e.before) && e.delta == e.after - e.before
    ensures Chain(history + [e], opening, e.after)
  {
    assert (history + [e])[..|history + [e]| - 1] == history;
  }

  /** One stored move, whatever wrote it, extends the chain of its account and no other. */
  lemma MoveKeepsChains(rows: seq<AccountRow>, moves: seq<BalanceEvent>, openings: map<int, int>,
                        i: nat, source: Source, balance: int, transaction: Option<int>)
    requires Explained(rows, moves, openings) && i < |rows|
    ensures Explained(rows[i := rows[i].(balance := balance)],
                      moves + [Move(rows[i], source, balance, transaction)], openings)
  {
    var e := Move(rows[i], source, balance, transaction);
    var after := rows[i := rows[i].(balance := balance)];
    forall j | 0 <= j < |rows|
      ensures Chain(HistoryOf(moves + [e], after[j].id), openings[after[j].id], after[j].balance)
    {
      HistoryAppend(moves, e, rows[j].id);
      if j == i {
        ChainExtend(HistoryOf(moves, rows[i].id), openings[rows[i].id], e);
      }
    }
  }

  /**
    A console edit answers an error exactly when it should and a refusal leaves no trace,
    except that the undo adds the amount back even when the edit was an addition.  The
    books are explained afterwards exactly when the edit was not an addition of a nonzero
    amount that came out negative.
   */
  lemma ChangeBalanceExplained(rows: seq<AccountRow>, moves: seq<BalanceEvent>, openings: map<int, int>,
                               id: int, op: Operation, amount: int)
    requires Explained(rows, moves, openings)
    ensures var (rows', moves', r) := Changed(rows, moves, id, op, amount);
      var i := AccountIndex(rows, id);
      && (Explained(rows', moves', openings) <==>
           !(i < |rows| && op == Add && amount != 0 && rows[i].balance + amount < 0))
      && (op == Subtract && r == NegativeBalance ==> rows' == rows && moves' == moves)
      && (r == NegativeBalance ==> moves' == moves)
  {
    var i := AccountIndex(rows, id);
    if !op.Other? && i < |rows| {
      var balance := rows[i].balance + (if op == Add then amount else -amount);
      if 0 <= balance {
        MoveKeepsChains(rows, moves, openings, i, Console, balance, None);
      } else {
        var e := Move(rows[i], Console, balance, None);
        assert (moves + [e])[..|moves|] == moves;
        var rows' := Changed(rows, moves, id, op, amount).0;
        if op == Subtract || amount == 0 {
          assert rows' == rows;
        } else {
          assert rows'[i].id == id;
          if Explained(rows', moves, openings) {
            ChainEndsOnce(HistoryOf(moves, id), openings[id], rows[i].balance, rows'[i].balance);
          }
        }
      }
    }
  }

  /** A chain has one end. */
  lemma ChainEndsOnce(history: seq<BalanceEvent>, opening: int, current: int, other: int)
    requires Chain(history, opening, current) && Chain(history, opening, other)
    ensures current == other
  {
  }

  /** The deltas of a chain add up to how far the balance is from its opening figure. */
  lemma {:induction false} ChainTotal(history: seq<BalanceEvent>, opening: int, current: int)
    requires Chain(history, opening, current)
    ensures current == opening + Deltas(history)
  {
    if history != [] {
      var n := |history| - 1;
      ChainTotal(history[..n], opening, history[n].before);
    }
  }

  function Deltas(history: seq<BalanceEvent>): int {
    if history == [] then 0 else Deltas(history[..|history| - 1]) + history[|history| - 1].delta
  }

  // ---------- what an edit answers ----------

  /**
    A balance edit is refused for an operation it does not know and an account that is not
    there; answered, it adds or takes the amount and leaves one event of the console saying so.
   */
  lemma ChangesExactly(rows: seq<AccountRow>, moves: seq<BalanceEvent>, id: int, op: Operation, amount: int)
    ensures var i := AccountIndex(rows, id); var (rows', moves', r) := Changed(rows, moves, id, op, amount);
      && (op != Add && op != Subtract ==> r == UnknownOperation && rows' == rows && moves' == moves)
      && ((op == Add || op == Subtract) && i == |rows| ==> r == NoAccount && rows' == rows && moves' == moves)
      && ((op == Add || op == Subtract) && i < |rows| ==>
           var was := rows[i].balance;
           var now := if op == Add then was + amount else was - amount;
           if now < 0 then r == NegativeBalance && rows' == rows[i := rows[i].(balance := now + amount)] && moves' == moves
           else
             && r == Balance(now) && rows' == rows[i := rows[i].(balance := now)]
             && moves' == moves + [BalanceEvent(id, Console, now - was, was, now, None)])
  {
    var i := AccountIndex(rows, id);
    if i < |rows| && !op.Other? {
      var e := Move(rows[i], Console, rows[i].balance + (if op == Add then amount else -amount), None);
      assert (moves + [e])[..|moves|] == moves;
    }
  }
}
