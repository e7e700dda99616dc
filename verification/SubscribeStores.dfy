/**
  The stores behind the Subscribe API: the in-memory repositories with their indexes, the
  scheduler's bag of steps, the register's ledger over the merchant's tables, the in-memory
  ledger, and the counter that issues identifiers.  A store keeps rows and hands out new
  objects, so changing an object changes nothing stored.
 */
module SubscribeStores {
  import opened Common
  import opened SubscribeDomain
  import opened SubscribeModel
  import Billing
  import Decimal
  import Merchant = MerchantModel
  import MerchantService
  import Paging

  // ---------- cards ----------

  class Cards {
    /** The store; tokens is an index into it. */
    var byID: map<int, CardRow>
    var tokens: map<string, int>
    var next: int

    method ByToken(token: string) returns (card: Card?)
      ensures card == null <==> !(token in tokens && tokens[token] in byID)
      ensures card != null ==> fresh(card) && card.Row() == byID[tokens[token]]
    {
      if token !in tokens || tokens[token] !in byID {
        return null;
      }
      card := new Card.FromRow(byID[tokens[token]]);
    }

    method ByID(id: int) returns (card: Card?)
      ensures card == null <==> id !in byID
      ensures card != null ==> fresh(card) && card.Row() == byID[id]
    {
      if id !in byID {
        return null;
      }
      card := new Card.FromRow(byID[id]);
    }

    /** Some card of that number: the map is searched in no particular order. */
    method ByNumber(number: string) returns (card: Card?)
      requires forall c, d :: c in byID && d in byID && c != d ==> byID[c].number != byID[d].number
      ensures match SubscribeModel.ByNumber(byID, number)
        case None => card == null
        case Some(c) => card != null && fresh(card) && card.Row() == byID[c]
    {
      if id :| id in byID && byID[id].number == number {
        card := new Card.FromRow(byID[id]);
      } else {
        card := null;
      }
    }

    /** Stores a new card under the next identifier, and its token when it has one. */
    method Create(card: Card)
      modifies this, card`id
      ensures card.Row() == old(card.Row()).(id := old(next) + 1) && next == old(next) + 1
      ensures byID == old(byID)[card.id := card.Row()]
      ensures tokens == if card.token == "" then old(tokens) else old(tokens)[card.token := card.id]
    {
      next := next + 1;
      card.id := next;
      byID := byID[card.id := card.Row()];
      if card.token != "" {
        tokens := tokens[card.token := card.id];
      }
    }

    method Update(card: Card) returns (stored: bool)
      modifies this`byID
      ensures stored <==> card.id in old(byID)
      ensures byID == if stored then old(byID)[card.id := card.Row()] else old(byID)
    {
      if card.id !in byID {
        return false;
      }
      byID := byID[card.id := card.Row()];
      return true;
    }

    /** The token this store holds for a card, which is the first one it was ever offered. */
    method TokenFor(id: int, offered: string) returns (r: Result<string>)
      modifies this`byID, this`tokens
      ensures if id !in old(byID) then r == Err(NotFound) && byID == old(byID) && tokens == old(tokens)
        else
          var token := if old(byID)[id].token == "" then offered else old(byID)[id].token;
          && r == Ok(token)
          && byID == old(byID)[id := old(byID)[id].(token := token)]
          && tokens == old(tokens)[token := id]
    {
      if id !in byID {
        return Err(NotFound);
      }
      if byID[id].token == "" {
        byID := byID[id := byID[id].(token := offered)];
      }
      tokens := tokens[byID[id].token := id];
      return Ok(byID[id].token);
    }
  }

  // ---------- receipts ----------

  /** Created within the window; an end of zero is no end. */
  predicate Within(r: ReceiptRow, from: int, to: int) { from <= r.createTime && !(0 < to < r.createTime) }

  /** The receipts of a window among those the first n identifiers name, newest first. */
  function Newest(byID: map<string, ReceiptRow>, order: seq<string>, n: nat, from: int, to: int): seq<ReceiptRow>
    requires n <= |order| && forall k :: 0 <= k < |order| ==> order[k] in byID
  {
    if n == 0 then []
    else
      (if Within(byID[order[n - 1]], from, to) then [byID[order[n - 1]]] else []) + Newest(byID, order, n - 1, from, to)
  }

  class Receipts {
    var byID: map<string, ReceiptRow>
    var order: seq<string>

    method ByReceiptID(id: string) returns (receipt: Receipt?)
      ensures receipt == null <==> id !in byID
      ensures receipt != null ==> fresh(receipt) && receipt.Row() == byID[id]
    {
      if id !in byID {
        return null;
      }
      receipt := new Receipt.FromRow(byID[id]);
    }

    method Create(receipt: Receipt)
      modifies this
      ensures byID == old(byID)[receipt.id := receipt.Row()] && order == old(order) + [receipt.id]
    {
      byID := byID[receipt.id := receipt.Row()];
      order := order + [receipt.id];
    }

    method Update(receipt: Receipt) returns (stored: bool)
      modifies this`byID
      ensures stored <==> receipt.id in old(byID)
      ensures byID == if stored then old(byID)[receipt.id := receipt.Row()] else old(byID)
    {
      if receipt.id !in byID {
        return false;
      }
      byID := byID[receipt.id := receipt.Row()];
      return true;
    }

    /** The window's receipts, newest first, from offset on and count at most. */
    method List(from: int, to: int, count: int, offset: nat) returns (found: seq<ReceiptRow>)
      requires forall k :: 0 <= k < |order| ==> order[k] in byID
      ensures found == Paging.Window(Newest(byID, order, |order|, from, to), offset, count)
    {
      var matched: seq<ReceiptRow> := [];
      var i: nat := |order|;
      while 0 < i
        invariant i <= |order|
        invariant matched + Newest(byID, order, i, from, to) == Newest(byID, order, |order|, from, to)
      {
        i := i - 1;
        var receipt := byID[order[i]];
        if receipt.createTime < from || (to > 0 && receipt.createTime > to) {
          continue;
        }
        matched := matched + [receipt];
      }
      assert matched == Newest(byID, order, |order|, from, to);
      if offset >= |matched| {
        return [];
      }
      found := matched[offset..];
      if count > 0 && count < |found| {
        found := found[..count];
      }
    }
  }

  /**
    Listing with offsets 0, count, 2 * count and so on shows every receipt of the window once,
    newest first, and nothing else.
   */
  lemma ListTiles(byID: map<string, ReceiptRow>, order: seq<string>, from: int, to: int, count: nat, n: nat)
    requires 0 < count && forall k :: 0 <= k < |order| ==> order[k] in byID
    ensures var window := Newest(byID, order, |order|, from, to);
      |window| <= n * count ==> Paging.Windows(window, count, n) == window
    ensures var newest, oldest := Newest(byID, order, |order|, from, to), InWindow(byID, order, from, to);
      && multiset(newest) == multiset(oldest) && |newest| == |oldest|
      && (forall k :: 0 <= k < |newest| ==> newest[k] == oldest[|oldest| - 1 - k])
  {
    Paging.WindowsTile(Newest(byID, order, |order|, from, to), count, n);
    NewestReverses(byID, order, |order|, from, to);
    SameReceipts(byID, order, |order|, from, to);
    assert order[..|order|] == order;
  }

  /** The receipts of a window in the order they were created. */
  function InWindow(byID: map<string, ReceiptRow>, order: seq<string>, from: int, to: int): seq<ReceiptRow>
    requires forall k :: 0 <= k < |order| ==> order[k] in byID
  {
    if order == [] then []
    else
      var last := byID[order[|order| - 1]];
      InWindow(byID, order[..|order| - 1], from, to) + if Within(last, from, to) then [last] else []
  }

  lemma {:induction false} SameReceipts(byID: map<string, ReceiptRow>, order: seq<string>, n: nat, from: int, to: int)
    requires n <= |order| && forall k :: 0 <= k < |order| ==> order[k] in byID
    ensures multiset(Newest(byID, order, n, from, to)) == multiset(InWindow(byID, order[..n], from, to))
  {
    if n != 0 {
      SameReceipts(byID, order, n - 1, from, to);
      assert order[..n][..n - 1] == order[..n - 1];
      var newest, oldest := Newest(byID, order, n - 1, from, to), InWindow(byID, order[..n - 1], from, to);
      var last := if Within(byID[order[n - 1]], from, to) then [byID[order[n - 1]]] else [];
      assert Newest(byID, order, n, from, to) == last + newest;
      assert InWindow(byID, order[..n], from, to) == oldest + last;
    }
  }

  lemma {:induction false} NewestReverses(byID: map<string, ReceiptRow>, order: seq<string>, n: nat, from: int, to: int)
    requires n <= |order| && forall k :: 0 <= k < |order| ==> order[k] in byID
    ensures var newest, oldest := Newest(byID, order, n, from, to), InWindow(byID, order[..n], from, to);
      && |newest| == |oldest|
      && (forall k :: 0 <= k < |newest| ==> newest[k] == oldest[|oldest| - 1 - k])
  {
    if n != 0 {
      NewestReverses(byID, order, n - 1, from, to);
      assert order[..n][..n - 1] == order[..n - 1];
    }
  }

  // ---------- the scheduler ----------

  class Scheduler {
    var attached: bool
    var pending: multiset<string>

    method SetAdvance()
      modifies this`attached
      ensures attached
    {
      attached := true;
    }

    /** Queues one step; with no runner attached it is dropped. */
    method ScheduleAdvance(id: string)
      modifies this`pending
      ensures pending == if attached then old(pending) + multiset{id} else old(pending)
    {
      if !attached {
        return;
      }
      pending := pending + multiset{id};
    }
  }

  // ---------- the register's ledger ----------

  /** Writes payouts straight into the merchant's transaction, account and event tables. */
  class CashboxLedger {
    const transactions: MerchantService.TransactionRepository
    const accounts: Billing.AccountRepository
    const kind: Billing.Kind

    constructor (transactions: MerchantService.TransactionRepository, accounts: Billing.AccountRepository, kind: Billing.Kind)
      ensures this.transactions == transactions && this.accounts == accounts && this.kind == kind
    {
      this.transactions, this.accounts, this.kind := transactions, accounts, kind;
    }

    /** The tables the ledger writes, beside those it does not. */
    function Tables(rest: Merchant.Books): Merchant.Books
      reads transactions, accounts
    {
      rest.(txs := transactions.rows, nextTx := transactions.nextID,
            accounts := accounts.rows, nextAccount := accounts.nextID, moves := accounts.moves)
    }

    /** Writes the payout asked for, before any money moves; one already on file is left as it stands. */
    method OpenPayout(payout: Payout, ghost rest: Merchant.Books) returns (r: Result<()>)
      modifies transactions
      ensures match SubscribeModel.OpenPayout(old(Tables(rest)), payout)
        case Ok(books) => r == Ok(()) && Tables(rest) == books
        case Err(e) => r == Err(e) && Tables(rest) == old(Tables(rest))
    {
      var payer := accounts.Register();
      if payer == null {
        return Err(NotFound);
      }
      r := payer.Usable();
      if r.Err? {
        return;
      }
      if Merchant.TxIndex(transactions.rows, payout.txn) == |transactions.rows| {
        transactions.rows := transactions.rows + [
          Merchant.Tx(transactions.nextID, payout.txn, 0, payer.id, payout.account, payout.amount,
                      Merchant.State.Created, None, payout.createTime, payout.createTime, 0, 0)];
        transactions.nextID := transactions.nextID + 1;
      }
    }

    /** Moves the balance, upserts the transaction as performed, and writes the event that names it. */
    method SettlePayout(payout: Payout, ghost rest: Merchant.Books) returns (r: Result<()>)
      modifies transactions, accounts`rows, accounts`moves
      ensures match SubscribeModel.SettlePayout(old(Tables(rest)), kind, payout)
        case Ok(books) => r == Ok(()) && Tables(rest) == books
        case Err(e) => r == Err(e) && Tables(rest) == old(Tables(rest))
    {
      var payer := accounts.Register();
      if payer == null {
        return Err(NotFound);
      }
      var before := payer.balance;
      r := payer.Apply(kind, payout.amount);
      if r.Err? {
        return;
      }
      var row := accounts.rows[0];
      accounts.rows := accounts.rows[0 := row.(balance := payer.balance)];
      var i := Merchant.TxIndex(transactions.rows, payout.txn);
      var number;
      if i < |transactions.rows| {
        number := transactions.rows[i].id;
        transactions.rows := transactions.rows[i := transactions.rows[i].(state := Merchant.State.Performed,
                                                                          performTime := payout.payTime)];
      } else {
        number := transactions.nextID;
        transactions.rows := transactions.rows + [
          Merchant.Tx(number, payout.txn, 0, payer.id, payout.account, payout.amount,
                      Merchant.State.Performed, None, payout.createTime, payout.createTime, payout.payTime, 0)];
        transactions.nextID := transactions.nextID + 1;
      }
      accounts.moves := accounts.moves + [
        Billing.BalanceEvent(payer.id, Billing.Payment, payer.balance - before, before, payer.balance, Some(number))];
      return Ok(());
    }
  }

  // ---------- the in-memory ledger ----------

  /** One register in memory: its balance, and the payouts it remembers settling. */
  datatype Till = Till(balance: int, settled: set<string>)

  function Settle(till: Till, p: Payout): Till {
    if p.txn in till.settled then till else Till(till.balance - p.amount, till.settled + {p.txn})
  }

  function SettleAll(till: Till, payouts: seq<Payout>): Till {
    if payouts == [] then till else Settle(SettleAll(till, payouts[..|payouts| - 1]), payouts[|payouts| - 1])
  }

  class InMemoryLedger {
    var balance: int
    var payouts: seq<Payout>
    var settled: set<string>

    constructor (balance: int)
      ensures this.balance == balance && payouts == [] && settled == {}
    {
      this.balance, payouts, settled := balance, [], {};
    }

    function Value(): Till reads this { Till(balance, settled) }

    method OpenPayout(payout: Payout)
      modifies this`payouts
      ensures payouts == old(payouts) + [payout]
    {
      payouts := payouts + [payout];
    }

    method SettlePayout(payout: Payout)
      modifies this`balance, this`settled
      ensures Value() == Settle(old(Value()), payout)
    {
      if payout.txn in settled {
        return;
      }
      settled := settled + {payout.txn};
      balance := balance - payout.amount;
    }
  }

  /** The amounts of payouts named for the first time, by position. */
  function FirstAmounts(payouts: seq<Payout>): int {
    if payouts == [] then 0
    else
      var n := |payouts| - 1;
      FirstAmounts(payouts[..n]) +
        if exists k :: 0 <= k < n && payouts[k].txn == payouts[n].txn then 0 else payouts[n].amount
  }

  /**
    In memory, settling is idempotent on its own: over any sequence of settlements, repeats
    included, the balance loses the amount each transaction was first settled for, once.  It
    never refuses, so unlike the register's tables it can be driven below zero.
   */
  lemma {:induction false} SettledOnce(till: Till, payouts: seq<Payout>)
    requires till.settled == {}
    ensures SettleAll(till, payouts).balance == till.balance - FirstAmounts(payouts)
    ensures forall txn :: txn in SettleAll(till, payouts).settled <==>
      exists k :: 0 <= k < |payouts| && payouts[k].txn == txn
  {
    if payouts != [] {
      var n := |payouts| - 1;
      SettledOnce(till, payouts[..n]);
      var before := SettleAll(till, payouts[..n]);
      assert payouts[n].txn in before.settled <==> exists k :: 0 <= k < n && payouts[..n][k].txn == payouts[n].txn;
      forall txn ensures txn in SettleAll(till, payouts).settled <==>
        exists k :: 0 <= k < |payouts| && payouts[k].txn == txn
      {
        if txn in before.settled {
          var k :| 0 <= k < n && payouts[..n][k].txn == txn;
          assert payouts[k].txn == txn;
        }
        if k :| 0 <= k < |payouts| && payouts[k].txn == txn {
          assert k < n ==> payouts[..n][k].txn == txn;
        }
      }
    }
  }

  // ---------- identifiers from a counter ----------

  const COUNTER_CYCLE: nat := 10000

  function Zeros(n: nat): string { seq(n, _ => '0') }

  /** A number below ten thousand, in four digits. */
  function Tail(n: nat): (s: string)
    requires n < COUNTER_CYCLE
    ensures |s| == 4
  {
    [Decimal.Digit(n / 1000), Decimal.Digit(n / 100 % 10), Decimal.Digit(n / 10 % 10), Decimal.Digit(n % 10)]
  }

  function Padded(prefix: string, width: nat, n: nat): (s: string)
    requires 4 <= width
    ensures |s| == width
  {
    (prefix + Zeros(width))[..width - 4] + Tail(n % COUNTER_CYCLE)
  }

  class Tokens {
    var n: nat

    constructor ()
      ensures n == 0
    {
      n := 0;
    }

    method Pad(prefix: string, width: nat) returns (id: string)
      requires 4 <= width
      modifies this
      ensures n == old(n) + 1 && id == Padded(prefix, width, n)
    {
      n := n + 1;
      var body := prefix + Zeros(width);
      id := body[..width - 4] + Tail(n % COUNTER_CYCLE);
    }

    method CardToken() returns (id: string)
      modifies this
      ensures n == old(n) + 1 && id == Padded("card", 64, n)
    {
      id := Pad("card", 64);
    }

    method ReceiptID() returns (id: string)
      modifies this
      ensures n == old(n) + 1 && id == Padded("a1b2c3d4e5f6", 24, n)
    {
      id := Pad("a1b2c3d4e5f6", 24);
    }

    method TransactionID() returns (id: string)
      modifies this
      ensures n == old(n) + 1 && id == Padded("f6e5d4c3b2a1", 24, n)
    {
      id := Pad("f6e5d4c3b2a1", 24);
    }
  }

  /** Two identifiers of a kind are different exactly while their draws are not a multiple of ten thousand apart. */
  lemma PadRepeats(prefix: string, width: nat, n: nat, m: nat)
    requires 4 <= width
    ensures Padded(prefix, width, n) == Padded(prefix, width, m) <==> n % COUNTER_CYCLE == m % COUNTER_CYCLE
  {
    var s, t := Padded(prefix, width, n), Padded(prefix, width, m);
    assert s[width - 4..] == Tail(n % COUNTER_CYCLE) && t[width - 4..] == Tail(m % COUNTER_CYCLE);
    if s == t {
      TailReads(n % COUNTER_CYCLE, m % COUNTER_CYCLE);
    }
  }

  lemma DigitReads(c: nat, d: nat)
    requires c < 10 && d < 10 && Decimal.Digit(c) == Decimal.Digit(d)
    ensures c == d
  {
  }

  lemma InDigits(n: nat)
    requires n < COUNTER_CYCLE
    ensures n == 1000 * (n / 1000) + 100 * (n / 100 % 10) + 10 * (n / 10 % 10) + n % 10
  {
    assert n / 100 / 10 == n / 1000;
  }

  lemma TailReads(n: nat, m: nat)
    requires n < COUNTER_CYCLE && m < COUNTER_CYCLE && Tail(n) == Tail(m)
    ensures n == m
  {
    var s, t := Tail(n), Tail(m);
    assert s[0] == t[0] && s[1] == t[1] && s[2] == t[2] && s[3] == t[3];
    DigitReads(n / 1000, m / 1000);
    DigitReads(n / 100 % 10, m / 100 % 10);
    DigitReads(n / 10 % 10, m / 10 % 10);
    DigitReads(n % 10, m % 10);
    InDigits(n);
    InDigits(m);
  }

  // ---------- what is listed, and what an identifier says ----------

  /** A window lists exactly the stored receipts created in it; an upper end of nothing is none. */
  lemma {:induction false} ListsExactly(byID: map<string, ReceiptRow>, order: seq<string>, n: nat, from: int, to: int,
                                        r: ReceiptRow)
    requires n <= |order| && forall k :: 0 <= k < |order| ==> order[k] in byID
    ensures r in Newest(byID, order, n, from, to) <==>
      (exists k :: 0 <= k < n && byID[order[k]] == r) && from <= r.createTime && (to <= 0 || r.createTime <= to)
  {
    if n != 0 {
      ListsExactly(byID, order, n - 1, from, to, r);
    }
  }

  /**
    An identifier starts with its kind's prefix, where that fits, and ends in four digits that
    spell the draw, but for its multiples of ten thousand.
   */
  lemma PaddedSpells(prefix: string, width: nat, n: nat)
    requires |prefix| + 4 <= width
    ensures var s := Padded(prefix, width, n);
      && |s| == width && s[..|prefix|] == prefix
      && (forall k :: |prefix| <= k < width - 4 ==> s[k] == '0')
      && Decimal.AllDigits(s[width - 4..]) && Decimal.ReadDigits(s[width - 4..]) == n % 10000
  {
    var body := prefix + Zeros(width);
    assert body[..width - 4][..|prefix|] == prefix;
    assert Padded(prefix, width, n)[width - 4..] == Tail(n % COUNTER_CYCLE);
    TailSpells(n % COUNTER_CYCLE);
    hide Tail, Decimal.ReadDigits;
  }

  lemma TailSpells(m: nat)
    requires m < COUNTER_CYCLE
    ensures Decimal.AllDigits(Tail(m)) && Decimal.ReadDigits(Tail(m)) == m
  {
    var a, b, c, d := Decimal.Digit(m / 1000), Decimal.Digit(m / 100 % 10), Decimal.Digit(m / 10 % 10), Decimal.Digit(m % 10);
    assert [a, b, c, d] == "" + [a] + [b] + [c] + [d];
    Decimal.ReadOneMore("", a);
    Decimal.ReadOneMore("" + [a], b);
    Decimal.ReadOneMore("" + [a] + [b], c);
    Decimal.ReadOneMore("" + [a] + [b] + [c], d);
    TensOf(m);
    TensOf(m / 10);
    TensOf(m / 100);
    hide Decimal.ReadDigits, Decimal.Digit, Decimal.DigitValue;
  }

  lemma TensOf(m: nat)
    ensures m == 10 * (m / 10) + m % 10 && m / 10 / 10 == m / 100 && m / 100 / 10 == m / 1000
  {
  }
}
